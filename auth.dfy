/** The shared session of `composables/useAuth.ts`: the logged-in flag, the
    login form's e-mail, the access token kept in local storage, and the
    fetch wrapper that attaches the token and drops the session on a 401. */
module Auth {
  import opened Js
  import opened Http
  import opened Storage

  const TokenKey := "access_token"
  const AuthorizationHeader := "Authorization"
  const ContentTypeHeader := "Content-Type"
  const JsonMediaType := "application/json"
  const LoginPath := "/auth/login"

  /** The body of a reply from the login endpoint. */
  datatype LoginReply = LoginReply(ok: bool, accessToken: string)

  /** Everything the session owns, as one value: the storage contents, the
      logged-in flag and the login e-mail. */
  datatype SessionState = SessionState(items: map<string, string>, loggedIn: bool, email: string)

  /** The token guard of the fetch wrapper: the stored access token when it
      is present and not empty (a falsy token counts as absent). */
  function Token(items: map<string, string>): Option<string> {
    if TokenKey in items && items[TokenKey] != "" then Some(items[TokenKey]) else None
  }

  /** The caller's headers, `options.headers || {}`. */
  function Supplied(headers: Option<map<string, string>>): map<string, string> {
    if headers.Some? then headers.value else map[]
  }

  /** The headers the fetch wrapper sends: a JSON content type unless the
      caller gives one, every caller header, and the bearer token, which no
      caller header can override. */
  function MergeHeaders(headers: Option<map<string, string>>, token: string): (h: map<string, string>)
    ensures AuthorizationHeader in h && h[AuthorizationHeader] == "Bearer " + token
    ensures ContentTypeHeader in h
    ensures ContentTypeHeader in Supplied(headers) ==> h[ContentTypeHeader] == Supplied(headers)[ContentTypeHeader]
    ensures ContentTypeHeader !in Supplied(headers) ==> h[ContentTypeHeader] == JsonMediaType
    ensures forall k :: k in Supplied(headers) && k != AuthorizationHeader ==> k in h && h[k] == Supplied(headers)[k]
    ensures h.Keys == Supplied(headers).Keys + {ContentTypeHeader, AuthorizationHeader}
  {
    (map[ContentTypeHeader := JsonMediaType] + Supplied(headers))[AuthorizationHeader := "Bearer " + token]
  }

  /** Feeding merged headers back in as caller headers changes nothing. */
  lemma MergeHeadersIdempotent(headers: Option<map<string, string>>, token: string)
    ensures MergeHeaders(Some(MergeHeaders(headers, token)), token) == MergeHeaders(headers, token)
  {
    var h := MergeHeaders(headers, token);
    var h2 := MergeHeaders(Some(h), token);
    assert forall k :: k in h2 <==> k in h;
    assert forall k :: k in h ==> h2[k] == h[k];
  }

  /** The state `logout` leaves behind. */
  function AfterLogout(s: SessionState): SessionState {
    SessionState(s.items - {TokenKey}, false, "")
  }

  /** `logout` takes away the token and nothing else that is stored, and
      after it the fetch wrapper's guard fails; a second logout changes
      nothing. */
  lemma LogoutProperties(s: SessionState)
    ensures AfterLogout(AfterLogout(s)) == AfterLogout(s)
    ensures Token(AfterLogout(s).items).None?
    ensures !AfterLogout(s).loggedIn && AfterLogout(s).email == ""
    ensures forall k :: k != TokenKey ==> (k in AfterLogout(s).items <==> k in s.items)
    ensures forall k :: k != TokenKey && k in s.items ==> AfterLogout(s).items[k] == s.items[k]
  {
  }

  /** The reply that makes the fetch wrapper's error hook log out. */
  predicate Unauthorized<T>(reply: Response<T>) {
    reply.HttpError? && reply.status == 401
  }

  /** The request the fetch wrapper issues, if any. */
  function AuthorizedRequest(items: map<string, string>, url: string, options: Options): Option<Request> {
    var token := Token(items);
    if token.None? then None
    else Some(Request(url, options.verb, options.body, MergeHeaders(options.headers, token.value)))
  }

  /** How the fetch wrapper settles. */
  function FetchedResult<T>(items: map<string, string>, reply: Response<T>): Result<T> {
    if Token(items).None? then Thrown(NotAuthenticated) else Settle(reply)
  }

  /** The session after the fetch wrapper has run. */
  function AfterFetch<T>(s: SessionState, reply: Response<T>): SessionState {
    if Token(s.items).Some? && Unauthorized(reply) then AfterLogout(s) else s
  }

  /** Without a token the wrapper throws before any request is issued and
      the session is untouched, whatever the reply would have been. */
  lemma FetchGuard<T>(s: SessionState, url: string, options: Options, reply: Response<T>)
    requires Token(s.items).None?
    ensures AuthorizedRequest(s.items, url, options).None?
    ensures FetchedResult(s.items, reply) == Thrown(NotAuthenticated)
    ensures AfterFetch(s, reply) == s
  {
  }

  /** With a token the wrapper sends the caller's method and body to the
      caller's path with the bearer header, settles as the transport did,
      and logs out exactly on a 401. */
  lemma FetchWithToken<T>(s: SessionState, url: string, options: Options, reply: Response<T>)
    requires Token(s.items).Some?
    ensures var sent := AuthorizedRequest(s.items, url, options);
      && sent.Some?
      && sent.value.url == url && sent.value.verb == options.verb && sent.value.body == options.body
      && sent.value.headers[AuthorizationHeader] == "Bearer " + s.items[TokenKey]
    ensures FetchedResult(s.items, reply).Ok? <==> reply.Reply?
    ensures Unauthorized(reply) ==> !AfterFetch(s, reply).loggedIn && Token(AfterFetch(s, reply).items).None?
    ensures !Unauthorized(reply) ==> AfterFetch(s, reply) == s
  {
  }

  /** The login request and whether its reply counts as a successful login
      (`response?.ok`). */
  predicate LoginAccepted(reply: Response<Option<LoginReply>>) {
    reply.Reply? && reply.body.Some? && reply.body.value.ok
  }

  class Session {
    var isLoggedIn: bool
    var loginEmail: string
    const store: LocalStorage

    constructor (store: LocalStorage)
      ensures this.store == store && !isLoggedIn && loginEmail == ""
    {
      this.store := store;
      isLoggedIn := false;
      loginEmail := "";
    }

    function State(): SessionState
      reads this, store
    {
      SessionState(store.items, isLoggedIn, loginEmail)
    }

    /** `handleLogin`: posts the current login e-mail with the password; on
        an `ok` reply stores its access token and marks the session logged
        in. The reply, or the transport's exception, is passed through. */
    method HandleLogin(password: string, reply: Response<Option<LoginReply>>)
        returns (request: Request, result: Result<Option<LoginReply>>)
      modifies this, store
      ensures request == Request(LoginPath, "POST", Some(map["email" := old(loginEmail), "password" := password]), map[])
      ensures result == Settle(reply)
      ensures LoginAccepted(reply) ==>
        State() == SessionState(old(store.items)[TokenKey := reply.body.value.accessToken], true, old(loginEmail))
      ensures !LoginAccepted(reply) ==> State() == old(State())
    {
      request := Request(LoginPath, "POST", Some(map["email" := loginEmail, "password" := password]), map[]);
      result := Settle(reply);
      if result.Ok? && result.value.Some? && result.value.value.ok {
        store.SetItem(TokenKey, result.value.value.accessToken);
        isLoggedIn := true;
      }
    }

    /** `logout`: removes the stored token and resets the flag and e-mail. */
    method Logout()
      modifies this, store
      ensures State() == AfterLogout(old(State()))
    {
      store.RemoveItem(TokenKey);
      isLoggedIn := false;
      loginEmail := "";
    }

    /** `fetchWithAuth`: throws `NotAuthenticated` when no token is stored;
        otherwise sends the request with the merged headers, logs out when
        the reply is a 401, and settles as the transport did. */
    method FetchWithAuth<T>(url: string, options: Options, reply: Response<T>)
        returns (sent: Option<Request>, result: Result<T>)
      modifies this, store
      ensures sent == AuthorizedRequest(old(store.items), url, options)
      ensures result == FetchedResult(old(store.items), reply)
      ensures State() == AfterFetch(old(State()), reply)
    {
      var token := store.GetItem(TokenKey);
      if !Truthy(token) {
        return None, Thrown(NotAuthenticated);
      }
      var headers := MergeHeaders(options.headers, token.value);
      sent := Some(Request(url, options.verb, options.body, headers));
      if reply.HttpError? && reply.status == 401 {
        Logout();
      }
      result := Settle(reply);
    }
  }
}
