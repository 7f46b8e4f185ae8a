/** The registration form handler of `composables/useUserRegister.ts`: the
    loading, error and success flags around one request to the registration
    endpoint, how its reply or its exception is read, and the session keys
    it stores. */
module Register {
  import opened Js
  import opened JsText
  import opened Http
  import opened Storage

  const RegisterPath := "/auth/register"
  const RegistrationFailed := "登録に失敗しました。"
  const CommunicationFailed := "通信エラーが発生しました。"
  const LandingRoute := "/"

  /** The session keys a successful registration writes. */
  const SessionKeys: set<string> := {"access_token", "token_type", "user_email", "user_name", "user_id"}

  datatype Form = Form(name: string, email: string, password: string)

  /** One entry of a validation-error object: a field and its messages, in
      the object's enumeration order. */
  datatype FieldErrors = FieldErrors(field: string, messages: seq<string>)

  datatype UserInfo = UserInfo(id: Option<int>, email: Option<string>, name: Option<string>)

  /** The body of a reply from the registration endpoint. */
  datatype RegisterReply = RegisterReply(
    ok: bool,
    accessToken: Option<string>,
    tokenType: Option<string>,
    user: Option<UserInfo>,
    errors: Option<seq<FieldErrors>>,
    error: Option<string>)

  /** The parsed body carried by a rejected request (`err.data`). */
  datatype ErrorData = ErrorData(errors: Option<seq<FieldErrors>>, error: Option<string>)

  /** How the request settled: resolved with a body (possibly `null`) or
      rejected with an error whose `data` may be absent. */
  datatype Outcome = Resolved(body: Option<RegisterReply>) | Rejected(data: Option<ErrorData>)

  /** `Object.values(errors).flat()`: every field's messages, field after
      field, each field's messages in their own order. */
  function Flatten(fields: seq<FieldErrors>): seq<string> {
    if fields == [] then [] else fields[0].messages + Flatten(fields[1..])
  }

  lemma {:induction false} FlattenAppend(a: seq<FieldErrors>, b: seq<FieldErrors>)
    ensures Flatten(a + b) == Flatten(a) + Flatten(b)
    decreases |a|
  {
    if a == [] {
      assert a + b == b;
    } else {
      assert (a + b)[0] == a[0];
      assert (a + b)[1..] == a[1..] + b;
      FlattenAppend(a[1..], b);
    }
  }

  /** Message `j` of field `i` sits in the flattened list right after the
      messages of the fields before `i`. */
  lemma FlattenPosition(fields: seq<FieldErrors>, i: nat, j: nat)
    requires i < |fields| && j < |fields[i].messages|
    ensures |Flatten(fields[..i])| + j < |Flatten(fields)|
    ensures Flatten(fields)[|Flatten(fields[..i])| + j] == fields[i].messages[j]
  {
    assert fields == fields[..i] + fields[i..];
    FlattenAppend(fields[..i], fields[i..]);
    assert Flatten(fields[i..]) == fields[i].messages + Flatten(fields[i + 1..]);
  }

  /** A message is in the flattened list exactly when some field has it. */
  lemma {:induction false} FlattenMembership(fields: seq<FieldErrors>, m: string)
    ensures m in Flatten(fields) <==> exists i :: 0 <= i < |fields| && m in fields[i].messages
    decreases |fields|
  {
    if fields != [] {
      FlattenMembership(fields[1..], m);
      if m in Flatten(fields[1..]) {
        var i :| 0 <= i < |fields[1..]| && m in fields[1..][i].messages;
        assert m in fields[i + 1].messages;
      }
      if exists i :: 0 <= i < |fields| && m in fields[i].messages {
        var i :| 0 <= i < |fields| && m in fields[i].messages;
        if i > 0 {
          assert m in fields[1..][i - 1].messages;
        }
      }
    }
  }

  /** The flattened list is empty exactly when every field's list is. */
  lemma {:induction false} FlattenEmpty(fields: seq<FieldErrors>)
    ensures Flatten(fields) == [] <==> forall i :: 0 <= i < |fields| ==> fields[i].messages == []
    decreases |fields|
  {
    if fields != [] {
      FlattenEmpty(fields[1..]);
      assert forall i :: 1 <= i < |fields| ==> fields[i] == fields[1..][i - 1];
    }
  }

  /** `res?.ok`: the request resolved with an accepting body. */
  predicate Succeeded(outcome: Outcome) {
    outcome.Resolved? && outcome.body.Some? && outcome.body.value.ok
  }

  /** The messages left in `errors`: none on success; the flattened
      validation errors when an errors object is present; otherwise the
      single `error` text, or the default text for the path taken. */
  function Messages(outcome: Outcome): seq<string> {
    match outcome
    case Resolved(body) =>
      if body.Some? && body.value.ok then []
      else if body.Some? && body.value.errors.Some? then Flatten(body.value.errors.value)
      else [Or(if body.Some? then body.value.error else None, RegistrationFailed)]
    case Rejected(data) =>
      if data.Some? && data.value.errors.Some? then Flatten(data.value.errors.value)
      else [Or(if data.Some? then data.value.error else None, CommunicationFailed)]
  }

  /** The validation-error object the outcome carries, if any. */
  function ErrorObject(outcome: Outcome): Option<seq<FieldErrors>> {
    match outcome
    case Resolved(body) => if body.Some? && !body.value.ok then body.value.errors else None
    case Rejected(data) => if data.Some? then data.value.errors else None
  }

  /** No message is shown exactly when the registration succeeded or the
      validation-error object lists no message at all; otherwise a
      message without an errors object is the reply's own text or the
      default for the path taken. */
  lemma MessagesCases(outcome: Outcome)
    ensures Messages(outcome) == [] <==>
      Succeeded(outcome)
      || (ErrorObject(outcome).Some? && forall i :: 0 <= i < |ErrorObject(outcome).value| ==> ErrorObject(outcome).value[i].messages == [])
    ensures !Succeeded(outcome) && ErrorObject(outcome).None? ==>
      |Messages(outcome)| == 1 && Messages(outcome)[0] != ""
    ensures forall m :: m in Messages(outcome) && ErrorObject(outcome).Some? ==>
      exists i :: 0 <= i < |ErrorObject(outcome).value| && m in ErrorObject(outcome).value[i].messages
  {
    if ErrorObject(outcome).Some? {
      FlattenEmpty(ErrorObject(outcome).value);
      forall m | m in Messages(outcome)
        ensures exists i :: 0 <= i < |ErrorObject(outcome).value| && m in ErrorObject(outcome).value[i].messages
      {
        FlattenMembership(ErrorObject(outcome).value, m);
      }
    }
  }

  /** `res.user?.email` and friends. */
  function UserEmail(r: RegisterReply): Option<string> {
    if r.user.Some? then r.user.value.email else None
  }

  function UserName(r: RegisterReply): Option<string> {
    if r.user.Some? then r.user.value.name else None
  }

  /** `res.user?.id?.toString()`. */
  function UserIdText(r: RegisterReply): Option<string> {
    if r.user.Some? && r.user.value.id.Some? then Some(NumberToString(r.user.value.id.value)) else None
  }

  /** The storage writes of a registration: the five session keys, only for
      an accepting body with a truthy token, each with its `||` fallback. */
  function Writes(form: Form, outcome: Outcome): (w: map<string, string>)
    ensures w != map[] <==> Succeeded(outcome) && Truthy(outcome.body.value.accessToken)
    ensures w != map[] ==>
      var r := outcome.body.value;
      && w.Keys == SessionKeys
      && w["access_token"] == r.accessToken.value
      && w["token_type"] == (if Truthy(r.tokenType) then r.tokenType.value else "Bearer")
      && w["user_email"] == (if Truthy(UserEmail(r)) then UserEmail(r).value else form.email)
      && w["user_name"] == (if Truthy(UserName(r)) then UserName(r).value else form.name)
      && (w["user_id"] == "" <==> UserIdText(r).None?)
      && (UserIdText(r).Some? ==> w["user_id"] == NumberToString(r.user.value.id.value))
  {
    if Succeeded(outcome) && Truthy(outcome.body.value.accessToken) then
      var r := outcome.body.value;
      var w := map[
        "access_token" := r.accessToken.value,
        "token_type" := Or(r.tokenType, "Bearer"),
        "user_email" := Or(UserEmail(r), form.email),
        "user_name" := Or(UserName(r), form.name),
        "user_id" := Or(UserIdText(r), "")];
      assert "access_token" in w;
      w
    else map[]
  }

  /** Writing the session keys one after another has the effect of laying
      `Writes` over the old contents. */
  lemma WritesInOrder(m: map<string, string>, form: Form, outcome: Outcome)
    requires Succeeded(outcome) && Truthy(outcome.body.value.accessToken)
    ensures var r := outcome.body.value;
      m["access_token" := r.accessToken.value]
       ["token_type" := Or(r.tokenType, "Bearer")]
       ["user_email" := Or(UserEmail(r), form.email)]
       ["user_name" := Or(UserName(r), form.name)]
       ["user_id" := Or(UserIdText(r), "")]
      == m + Writes(form, outcome)
  {
  }

  /** The request `registerUser` sends: the form as a JSON body. */
  function RegisterRequest(form: Form): Request {
    Request(RegisterPath, "POST",
            Some(map["name" := form.name, "email" := form.email, "password" := form.password]),
            map["Content-Type" := "application/json"])
  }

  class Registration {
    var loading: bool
    var errors: seq<string>
    var success: bool
    const store: LocalStorage

    constructor (store: LocalStorage)
      ensures this.store == store && !loading && errors == [] && !success
    {
      this.store := store;
      loading := false;
      errors := [];
      success := false;
    }

    /** The part of `registerUser` before the request is awaited: raises the
        loading flag, clears the errors and the success flag. */
    method Begin(form: Form) returns (request: Request)
      modifies this
      ensures loading && errors == [] && !success
      ensures request == RegisterRequest(form)
    {
      loading := true;
      errors := [];
      success := false;
      request := RegisterRequest(form);
    }

    /** The part of `registerUser` after the request settled, through its
        `finally`: reads the outcome, stores the session on success and
        always lowers the loading flag. Returns the route pushed, if any. */
    method Finish(form: Form, outcome: Outcome) returns (redirect: Option<string>)
      modifies this, store
      ensures !loading
      ensures success == (Succeeded(outcome) || old(success))
      ensures errors == if Succeeded(outcome) then old(errors) else Messages(outcome)
      ensures store.items == old(store.items) + Writes(form, outcome)
      ensures redirect == if Succeeded(outcome) then Some(LandingRoute) else None
    {
      redirect := None;
      match outcome {
        case Resolved(body) =>
          if body.Some? && body.value.ok {
            var res := body.value;
            success := true;
            if Truthy(res.accessToken) {
              ghost var before := store.items;
              store.SetItem("access_token", res.accessToken.value);
              store.SetItem("token_type", Or(res.tokenType, "Bearer"));
              store.SetItem("user_email", Or(UserEmail(res), form.email));
              store.SetItem("user_name", Or(UserName(res), form.name));
              store.SetItem("user_id", Or(UserIdText(res), ""));
              WritesInOrder(before, form, outcome);
            } else {
              assert Writes(form, outcome) == map[];
              assert store.items == old(store.items) + map[];
            }
            redirect := Some(LandingRoute);
          } else if body.Some? && body.value.errors.Some? {
            errors := Flatten(body.value.errors.value);
            assert store.items == old(store.items) + map[];
          } else {
            errors := [Or(if body.Some? then body.value.error else None, RegistrationFailed)];
            assert store.items == old(store.items) + map[];
          }
        case Rejected(data) =>
          if data.Some? && data.value.errors.Some? {
            errors := Flatten(data.value.errors.value);
          } else {
            errors := [Or(if data.Some? then data.value.error else None, CommunicationFailed)];
          }
          assert store.items == old(store.items) + map[];
      }
      loading := false;
    }

    /** `registerUser`: the request is sent with the loading flag up and the
        flags cleared; when it has settled, the loading flag is down, success
        holds exactly for an accepting body, the errors are the messages the
        outcome yields, and storage holds the session writes on top of what
        was there. */
    method RegisterUser(form: Form, outcome: Outcome) returns (request: Request, redirect: Option<string>)
      modifies this, store
      ensures request == RegisterRequest(form)
      ensures !loading
      ensures success == Succeeded(outcome)
      ensures errors == Messages(outcome)
      ensures store.items == old(store.items) + Writes(form, outcome)
      ensures redirect == if Succeeded(outcome) then Some(LandingRoute) else None
    {
      request := Begin(form);
      redirect := Finish(form, outcome);
    }
  }
}
