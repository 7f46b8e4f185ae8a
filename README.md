# Flashcards front end: client-side state, modelled in Dafny

This project models the client-side state handling of a flashcard web
front end. The front end has three composables (shared reactive modules):

- **Deck** (`composables/useCards.ts`). It holds the list of card sets, the
  active set index (possibly null), the current card index, the flip flag,
  the editing index and two edit buffers. Its operations navigate the deck
  (next and previous card with wraparound, flip, select a set, leave a
  set). They also add, delete and edit cards: purely in memory when the
  user is logged out, and through the server's card collection when logged
  in.
- **Session** (`composables/useAuth.ts`). It holds the logged-in flag, the
  login e-mail and the access token in local storage. It provides login,
  logout and a fetch wrapper. The wrapper refuses to run without a token,
  merges a bearer `Authorization` header into the caller's headers and logs
  out when the server answers 401.
- **Registration** (`composables/useUserRegister.ts`). It posts a sign-up
  form, reads a success, validation-error or error envelope (or a thrown
  error's payload) into a success flag and a list of messages, stores the
  new session, and keeps a loading flag up while the request is pending.

Every network call is an input to the model. An operation receives the
transport's answer as a `Response<T>` value: a reply body, an HTTP error
status, or a network failure. The registration flow receives a resolved
body or a rejected error payload. Each operation is then one deterministic
state transition. It returns the request it sent, if any, and how it
settled: `Ok`, or `Thrown` with the exception.

Module layout:

- `js.dfy`: module `Js`. JavaScript semantics the code relies on:
  optional values, truthiness and `||`, the truncating `%`, and
  `splice(start, 1)`.
- `jstext.dfy`: module `JsText`. `String.prototype.trim` with ECMAScript's
  white-space set, and decimal rendering of integral numbers, with a
  parse-back round trip.
- `http.dfy`: module `Http`. Requests, replies, failures and how an
  awaited call settles.
- `storage.dfy`: module `Storage`. `localStorage` as a class over a
  `map<string, string>`.
- `auth.dfy`: module `Auth`. The `Session` class, the header merge and the
  functions that describe the fetch wrapper.
- `cards.dfy`: module `Cards`. The `Deck` class and the index, list and
  card functions it is specified by.
- `register.dfy`: module `Register`. The `Registration` class, the message
  flattening and the storage writes.

Stateful code is modelled as classes whose methods have `modifies` clauses.
The Vue refs become fields. The shared `localStorage` is one
`LocalStorage` object that the session and the registration flow both
hold. The session object is held by the deck. The pure parts are
functions: header merging, the token guard, envelope reading, `||`
fallbacks, `trim`, `splice`, `%` and the record-to-card mapping. What the
source promises about them is proved as `ensures` clauses and lemmas.

Behaviour of the code worth noting; the model follows the code as written:

- `saveEditCard` clears the editing index only when it completes. If the
  card does not exist, or the update request throws, the index stays set.
- `startEditCard` sets the editing index before it reads the card. So the
  index stays set when the card does not exist.
- `logout` removes only `access_token`.
- `handleLogin` stores only the token, and it does not catch transport
  errors.
- No session is restored at start-up.
- `deleteCard` on a logged-in session leaves a card without an id in
  place.
- `deleteCard` and `loadServerCards` never touch `currentCardIndex`, so
  the index can be left past the end of the active set: on a two-card set,
  `nextCard` goes to card 1, a logged-out `deleteCard(1)` leaves one card,
  and reloading an empty collection leaves none, with the index at 1
  throughout (`Cards.StaleCardIndex`). `nextCard` and `prevCard` then
  resume from that index; only `playCardSet` resets it to 0.

## Model

| member | source | states |
|---|---|---|
| Js.Rem | composables/useCards.ts:105 | JavaScript `%` with a positive divisor is strictly between -n and n. It agrees with Euclidean `%` on non-negative operands and is never positive for negative ones |
| Js.SpliceOne | composables/useCards.ts:58 | `splice(index, 1)` at a valid index removes exactly that position and keeps the order of the rest. A start past the end removes nothing. A negative start counts from the end, and one below `-length` clamps to the first element. An empty array stays empty |
| Js.SpliceOneRemovesElement | composables/useCards.ts:58 | a splice at a valid index leaves a permutation of the input minus that one element |
| Js.SpliceAfterPush | composables/useCards.ts:46-58 | deleting the last position right after a logged-out add (push) restores the card list |
| Js.SpliceAfterUnshift | composables/useCards.ts:39-58 | deleting position 0 right after a logged-in add (unshift) restores the card list |
| JsText.TrimStart | composables/useCards.ts:79 | removes exactly the leading white-space run: the result is a suffix, everything cut is white space, and the result does not start with white space |
| JsText.TrimEnd | composables/useCards.ts:79 | removes exactly the trailing white-space run: the result is a prefix, everything cut is white space, and the result does not end with white space |
| JsText.Trim | composables/useCards.ts:86-87 | the trimmed buffer neither starts nor ends with white space |
| JsText.TrimIsMiddle | composables/useCards.ts:86-87 | `trim()` keeps a contiguous middle of the input, and everything it cuts from either side is white space |
| JsText.TrimIdempotent | composables/useCards.ts:79 | trimming an already trimmed buffer changes nothing |
| JsText.TrimOfTrimmed | composables/useCards.ts:86-87 | a string with no surrounding white space is stored unchanged |
| JsText.NatToString | composables/useCards.ts:56 | a decimal rendering is non-empty, all digits, and has no leading zero |
| JsText.NumberToString | composables/useCards.ts:56 | `${id}` is non-empty and starts with '-' exactly for negative ids |
| JsText.ParseNatToString | composables/useCards.ts:56 | parsing the digits of `n` gives `n` back |
| JsText.NumberToStringRoundTrip | composables/useCards.ts:56 | parsing `${id}` gives the id back |
| JsText.NumberToStringInjective | composables/useUserRegister.ts:38 | distinct ids render as distinct strings |
| Storage.LocalStorage.SetItem | composables/useUserRegister.ts:34-38 | after `setItem`, `getItem` on that key gives the written value, and every other key reads as it did before |
| Storage.LocalStorage.RemoveItem | composables/useAuth.ts:28 | after `removeItem`, `getItem` on that key is null, and every other key reads as it did before |
| Auth.MergeHeaders | composables/useAuth.ts:38-42 | `Authorization` is always `Bearer <token>`, whatever the caller passes. `Content-Type` is the caller's when given and `application/json` otherwise. Every other caller header is kept, and no other key appears |
| Auth.MergeHeadersIdempotent | composables/useAuth.ts:38-42 | merging already merged headers with the same token changes nothing |
| Auth.LogoutProperties | composables/useAuth.ts:27-31 | logout clears the flag and the e-mail and removes `access_token`. It leaves every other stored key as it was, so the fetch guard fails afterwards. A second logout changes nothing |
| Auth.FetchGuard | composables/useAuth.ts:35-36 | without a truthy token the wrapper issues no request, throws `NotAuthenticated` and leaves the session as it was, whatever the reply |
| Auth.FetchWithToken | composables/useAuth.ts:38-55 | with a token the wrapper sends the caller's URL, method and body with the bearer header. It succeeds exactly on a reply. A 401 logs out and removes the token, and any other outcome leaves the session unchanged |
| Auth.Session.constructor | composables/useAuth.ts:5-6 | a fresh session is logged out with an empty login e-mail |
| Auth.Session.HandleLogin | composables/useAuth.ts:11-25 | posts the current login e-mail and the password and returns the reply (or the exception) as is. An `ok` body stores its token and sets the flag. Any other outcome changes nothing |
| Auth.Session.Logout | composables/useAuth.ts:27-31 | the new session state is the logout state of the old one |
| Auth.Session.FetchWithAuth | composables/useAuth.ts:34-57 | the request sent, the settlement and the new session state are those of the guard, header merge and 401 hook above |
| Cards.CardPathInjective | composables/useCards.ts:56 | delete and update paths of distinct ids differ |
| Cards.FromServerList | composables/useCards.ts:25 | one card per server record, in order, each with the record's id, front and back |
| Cards.WithCards | composables/useCards.ts:39-58 | replacing one set's card list changes no other set, nor that set's name and owner |
| Cards.Rewrite | composables/useCards.ts:82-87 | an edit changes only the text of one card of one set. That card keeps its id, and no other card or set changes |
| Cards.RewriteUndone | composables/useCards.ts:82-87 | rewriting a card back to its old text restores all sets |
| Cards.NextIndex | composables/useCards.ts:105 | `(i + 1) % n` stays in `[0, n)`, moves one step forward, and wraps from the last card to the first |
| Cards.PrevIndex | composables/useCards.ts:110 | `(i - 1 + n) % n` stays in `[0, n)`, moves one step back, and wraps from the first card to the last |
| Cards.NextPrevInverse | composables/useCards.ts:102-111 | on a valid index, `prevCard` after `nextCard` restores it, and so does the reverse order |
| Cards.AdvanceIsShift | composables/useCards.ts:102-106 | k > 0 calls of `nextCard` land on `(i + k) mod n`, from any start index |
| Cards.RetreatIsShift | composables/useCards.ts:107-111 | k > 0 calls of `prevCard` land on `(i - k) mod n`, from any start index |
| Cards.NavigationPeriodic | composables/useCards.ts:102-111 | from a valid index, n calls of `nextCard`, or n calls of `prevCard`, on an n-card set return to the start index (from an index past the end, such as one `deleteCard` leaves, they do not) |
| Cards.StaleCardIndex | composables/useCards.ts:21-59 | as written, after `nextCard` on two cards, a logged-out `deleteCard(1)` leaves index 1 over one card, and reloading an empty collection leaves index 1 over none |
| Cards.Deck.constructor | composables/useCards.ts:9-15 | no sets, no selection, card 0 face up, not editing, empty buffers |
| Cards.Deck.LoadServerCards | composables/useCards.ts:21-29 | GETs the collection. On success it holds exactly one server set of the mapped records and selects set 0 only when no set was selected. A failed fetch leaves the deck unchanged |
| Cards.Deck.AddNewCard | composables/useCards.ts:32-48 | logged in, it POSTs the card and puts the accepted record first in set 0. Anything else keeps the sets, and no sets at all is a TypeError. Logged out, it appends a card without id to the active set, or throws a TypeError without one. No other set changes |
| Cards.Deck.DeleteCard | composables/useCards.ts:51-59 | logged out, it splices the index out of set `currentSetIndex ?? 0`. Logged in, a missing card throws, and a card without id changes nothing and sends nothing. Otherwise it DELETEs the card's path and removes the card only if the request succeeds |
| Cards.Deck.StartEditCard | composables/useCards.ts:62-68 | sets the editing index, then copies the card's text into the buffers. A missing card throws and keeps the buffers |
| Cards.Deck.SaveEditCard | composables/useCards.ts:71-91 | no-op while not editing. On the local path only the edited card takes the trimmed buffers. On the logged-in id path it PATCHes the trimmed buffers and takes the server's text only for an accepted reply. The editing index is cleared unless the operation throws, and no other card changes |
| Cards.Deck.CancelEdit | composables/useCards.ts:93 | clears only the editing index |
| Cards.Deck.PlayCardSet | composables/useCards.ts:96-100 | selects the set, goes to card 0 and turns it face up. Nothing else changes |
| Cards.Deck.BackToList | composables/useCards.ts:101 | clears only the set selection |
| Cards.Deck.NextCard | composables/useCards.ts:102-106 | always face up. With n > 0 cards in the active set the index becomes `NextIndex`. On an empty, absent or null set it is unchanged |
| Cards.Deck.PrevCard | composables/useCards.ts:107-111 | always face up. With n > 0 cards in the active set the index becomes `PrevIndex`. On an empty, absent or null set it is unchanged |
| Cards.Deck.FlipCard | composables/useCards.ts:112 | negates the flip flag and changes nothing else, so two flips are the identity |
| Register.FlattenAppend | composables/useUserRegister.ts:44 | flattening distributes over concatenation of field lists |
| Register.FlattenPosition | composables/useUserRegister.ts:44 | message j of field i sits right after all messages of the earlier fields (field order, then message order) |
| Register.FlattenMembership | composables/useUserRegister.ts:52 | a message is in the flattened list exactly when some field lists it |
| Register.FlattenEmpty | composables/useUserRegister.ts:52 | the flattened list is empty exactly when every field's list is empty |
| Register.MessagesCases | composables/useUserRegister.ts:42-55 | no message appears exactly on success, or when an errors object lists nothing. Without an errors object there is exactly one non-empty message. With one, every message comes from some field |
| Register.Writes | composables/useUserRegister.ts:33-39 | storage is written only for an `ok` body with a truthy token, and then exactly the five session keys. `token_type` falls back to `Bearer`, e-mail and name fall back to the form, and `user_id` is the decimal rendering of the returned id, or "" exactly when no id came back |
| Register.WritesInOrder | composables/useUserRegister.ts:34-38 | the five `setItem` calls made one after another amount to laying the writes over the old storage |
| Register.Registration.constructor | composables/useUserRegister.ts:12-14 | not loading, no errors, no success |
| Register.Registration.Begin | composables/useUserRegister.ts:17-27 | raises `loading`, clears `errors` and `success`, and posts the form as JSON |
| Register.Registration.Finish | composables/useUserRegister.ts:29-58 | `loading` is lowered on every path, including a thrown error. `success` is set only for an `ok` body. The errors are the outcome's messages, the writes are applied, and `/` is pushed only on success |
| Register.Registration.RegisterUser | composables/useUserRegister.ts:16-59 | after the request settles: not loading, success exactly for an `ok` body, errors equal to the messages, storage equal to the old contents plus the writes, and a redirect to `/` only on success |

## Left out

- `nuxt.config.ts` (build and runtime configuration) and
  `composables/useHealthCheck.ts` (a bare network call) are not part of
  this model.
- The transport. The `$fetch` call, `baseURL`, JSON parsing and
  status-to-exception mapping are replaced by the reply values given as
  inputs. `console.error`, `debugger` and the unused `uuid` import have no
  effect on state and are not modelled.
- Vue reactivity. Refs are plain fields, and no watcher or rendering is
  modelled.
- Asynchronous interleaving. Each operation runs atomically with its reply
  given. Two requests that resolve out of order, and changes made to the
  deck while a request is pending, are not modelled. `registerUser` is
  split into `Begin` and `Finish` only to expose the state during its one
  `await`.
- Router navigation. `router.push('/')` is recorded as the returned
  redirect, not performed.
- Loosely typed replies. The model fixes their shapes:
  - a card id is an integer;
  - `_id` is present exactly when it is a number;
  - the collection reply is an array of records;
  - a validation-error object is an ordered list of fields, each with a
    list of messages.
  `Object.values` ordering of integer-like keys is not modelled, and
  neither is `.flat()` on non-array values.
- Auth.Session.HandleLogin: the login reply's `access_token` is always a
  string. A missing token would be stored as the text "undefined" in
  JavaScript, and that is not modelled.
- JsText.NumberToString: covers integers in plain decimal. The exponent
  notation JavaScript uses from 1e21 upwards and non-integral numbers are
  not modelled.
- Non-integer and non-number indices passed to `playCardSet`,
  `deleteCard` or `startEditCard` are not modelled. Indices are integers.
- Header names are modelled as exact, case-sensitive object keys, as in
  the object the fetch wrapper builds. `$fetch` turns that object into a
  `Headers` value, which treats names case-insensitively, so a caller's
  `authorization` or `content-type` would be merged with the wrapper's on
  the wire. That merge is not modelled. No caller in the deck or the
  registration flow passes headers.
- Exceptions from `localStorage` itself (quota errors, storage disabled)
  are not modelled.
