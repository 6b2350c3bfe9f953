# Phone-login LLM gateway: account, session and entitlement model

A Dafny model of the decision logic behind the HTTP routes of `server.js`:
the JSON user store (`findUserByPhone`, `createUser`, `updateUser`), the
static model catalogue `MODELS`, the POST /login, POST /register,
POST /subscribe, GET /logout and POST /generate handlers, and the reply
normalisation inside `callLLM`.

Every route is a pure function from the user store (a `seq<Account>`), the
caller's session field `userPhone` (an `Option<string>`) and the request body
to a `Step`: the new store, the new session field and the reply. The
upstream inference service is an oracle whose outcome is handed in as an
`UpstreamResult`; POST /generate records the request it sent, if any, so the
model can say exactly when the upstream is contacted. `Server` puts the
routes together over a shared store and a map of browser sessions and proves
an invariant over any sequence of requests.

Files:

- `wrappers.dfy` — `Option`.
- `text.dfy` — `String.prototype.trim` over ECMAScript whitespace.
- `users.dfy` — the account record and the three store helpers.
- `catalog.dfy` — `MODELS` and lookup by id.
- `upstream.dfy` — the abstract upstream outcome and reply normalisation.
- `routes.dfy` — request-body fields, replies and the five handlers.
- `server.dfy` — multi-session state, dispatch, the validity invariant and properties of request sequences.

Behaviour of `server.js` worth noting:

- `createUser` appends without looking for an existing record
  (server.js:34-44). Duplicates are refused only by the lookup in the
  register handler (server.js:202-205).
- An empty or unparseable upstream body is returned verbatim as the
  `response` of a 200 reply (server.js:106-108, 258).
- A session whose phone has no record passes the checks for the free model
  and is forwarded. For the premium model the handler reads `subscribed` of
  `undefined` and its promise rejects (server.js:252-253): `HandlerRejected`.
- A login with an unknown phone redirects to registration and leaves the
  session as it was (server.js:179-182), so a signed-in session stays signed
  in.

## Model

| member | source | states |
|---|---|---|
| Text.Trim | server.js:174 | the result is `s` with its whitespace margins removed: it sits inside `s` with only whitespace around it and neither starts nor ends with whitespace |
| Text.TrimUnique | server.js:174 | any string that is a trim of `s` in that sense equals `Trim(s)`, so the characterisation pins the function down |
| Text.TrimEmptyIff | server.js:174-175 | the trimmed phone is empty exactly when the submitted string is all whitespace, which is when the handlers answer "Please enter a phone number." |
| Text.TrimIdempotent | server.js:174 | trimming a trimmed phone changes nothing |
| Users.FirstIndex | server.js:48 | the index found holds the phone and no earlier record does; no index is found exactly when the phone is absent |
| Users.FindUserByPhone | server.js:29-32 | a record is found exactly when the phone is present, it carries that phone, and it is the first such record |
| Users.CreateUser | server.js:34-44 | the store grows by one unsubscribed record with the given phone, appended after the unchanged old records, with no duplicate check |
| Users.UpdateUser | server.js:46-53 | only the first record with the user's phone is replaced; all others are unchanged; with no such record the store is unchanged; phones keep their positions |
| Users.CreateThenFind | server.js:29-44 | after creating a new phone, lookup returns the fresh unsubscribed record; after creating an existing phone, lookup still returns the earlier record |
| Users.UpdateThenFind | server.js:29-53 | after an update, lookup of that phone returns the new record, and lookups of other phones are unaffected |
| Users.CreateKeepsUnique | server.js:34-44 | appending a phone not yet present keeps phones unique |
| Users.UpdateKeepsUnique | server.js:46-53 | updating keeps phones unique |
| Catalog.FindIn | server.js:248 | the entry found is the first in the catalogue with that id; nothing is found exactly when no entry has that id |
| Catalog.FindModel | server.js:248 | the model found is the first entry of `MODELS` with that id; nothing is found exactly when no entry has that id |
| Catalog.CatalogContents | server.js:57-70 | the catalogue knows exactly `tinyllama` and `deepseek-r1:1.5b`, and only the latter is premium |
| Upstream.NormaliseReply | server.js:98-109 | a JSON body with a string `response` yields that string; any other body is returned unchanged, including an unparseable body and JSON without a string `response` |
| Upstream.NonObjectPassesThrough | server.js:98-109 | for a parse consistent with the body, a body that is not an object text, such as plain text, is returned verbatim |
| Upstream.EmptyBodyPassesThrough | server.js:98-108 | the empty body does not parse and is returned as the empty string |
| Routes.SubmittedPhone | server.js:174 | a truthy non-string phone field makes `trim` throw; otherwise the result is the trim of the string, or of `''` for a falsy field |
| Routes.Login | server.js:173-185 | the store is never written; an empty phone re-renders the login page and an unknown phone redirects to registration, both with the session unchanged; a known phone binds the session to it |
| Routes.Register | server.js:197-209 | an empty or already present phone changes neither store nor session; a new phone appends one unsubscribed record and binds the session to it; phone uniqueness is preserved |
| Routes.RegisterTwice | server.js:202-206 | registering the same phone twice leaves exactly one record with it; the second attempt is refused with "User already exists" and changes nothing |
| Routes.Subscribe | server.js:220-230 | without a session nothing changes and the reply redirects to login; otherwise only the session user's first record has its flag flipped, and an unresolved phone changes nothing |
| Routes.SubscribeTwice | server.js:220-230 | toggling twice restores the original store |
| Routes.Logout | server.js:233-237 | the store is unchanged and the session is no longer signed in |
| Routes.CheckGenerate | server.js:240-255 | the request is forwarded exactly when every check passes; otherwise 401 without a session, then 400 for a missing prompt or model, then 400 for an unknown model, then 403 for a premium model and an unsubscribed user; the handler rejects only for a premium model and a session phone with no record |
| Routes.Answer | server.js:256-261 | an upstream error gives 500 with its message as details; an upstream body gives 200 with the normalised reply |
| Routes.Generate | server.js:240-262 | the upstream is contacted exactly when all checks pass, with `{model, prompt}`; store and session are never modified |
| Routes.AccessMatrix | server.js:248-255 | for a signed-in user with a record, the free model is always served, the premium model exactly when subscribed (403 otherwise), and any other id gets 400 |
| Routes.StaleSession | server.js:252-253 | a session phone without a record is served for the free model and makes the handler reject for the premium model |
| Server.Handle | server.js:173-262 | a request changes only its own session, only POST /generate contacts the upstream, records are never removed nor their phones changed, only POST /register adds a record (with the submitted phone), and only POST /subscribe changes an existing record |
| Server.HandlePreservesValid | server.js:197-230 | every request keeps phones unique and every session's phone registered |
| Server.RunPreservesValid | server.js:202-207 | from a valid start, any sequence of requests keeps phones unique and sessions resolvable |
| Server.RunKeepsRecords | server.js:34-53 | over any sequence of requests the old phones stay a prefix of the store's phones |
| Server.OnlyRegisterAddsPhones | server.js:197-209 | every phone that appears during a run was submitted, after trimming, to POST /register in that run |
| Server.OnlySubscribeChangesRecords | server.js:220-230 | a run without POST /subscribe leaves every record present at its start unchanged |
| Server.SubscribeEvenTimes | server.js:220-230 | an even number of POST /subscribe requests from one session restores the whole server state |
| Server.InitialStateValid | server.js:15-23 | with no sessions yet, any store without duplicate phones is a valid start, the empty store that a missing file reads as among them |
| Server.ValidNeverRejects | server.js:252-253 | in a valid state POST /generate never reaches the `subscribed` read on a missing record |
| Server.LogoutSignsOut | server.js:220-243 | after logout, POST /subscribe redirects to login without writing and POST /generate answers 401 without contacting the upstream |

## Left out

- File I/O on `data/users.json` (`loadUsers`, `saveUsers`, directory creation): the store is an in-memory sequence passed in and returned. A missing or unreadable file reads as the empty store.
- Interleaving of requests: each request is handled as one atomic step. Every handler that writes the store reads and rewrites the file synchronously with `readFileSync` and `writeFileSync`, with no `await` in between (server.js:17, 26, 197-230). The only `await` (server.js:257) comes after the last store read of POST /generate, which writes nothing. So no two handlers' store accesses interleave within one process.
- An upstream that never answers: there is no timeout, so POST /generate then never replies. `UpstreamResult` has no outcome for this; it covers only an error event and a complete body.
- `createdAt` timestamps: they come from the clock and no behaviour depends on them.
- The HTTPS transport, streaming of the body and the promise plumbing in `callLLM`. The upstream is an oracle that either reports an error message or returns a body. The request body `{model, prompt, stream: false}` is recorded as `UpstreamRequest`.
- `JSON.parse` itself: its outcome is supplied as `ParsedBody`. `ParseAgrees` states only that the empty text does not parse and that a string `response` needs an object text.
- JavaScript strings are sequences of UTF-16 code units, and a JSON body can carry a lone surrogate (`"\uD800"`). The model's strings are Unicode scalar values, so such a phone cannot be represented. Trimming and `===` are unaffected, since every code point `trim` strips lies in the Basic Multilingual Plane.
- What the framework and the runtime do after `TypeErrorThrown` and `HandlerRejected`: the model records that the handler threw or that its promise rejected. It does not model the framework's error page, the missing reply, or an unhandled rejection ending the process.
- Page rendering, the GET pages for `/`, `/login`, `/register` and `/subscribe`, the middleware that exposes `currentUser` to views, static files, cookie and session configuration, URL encoding of the redirect to registration, and `app.listen`: framework plumbing with no decision logic beyond what the POST handlers show.
- The browser-side scripts `public/js/chat.js` and `public/js/theme.js`: DOM updates, `fetch` calls and theme storage.
- Session expiry: sessions live until logout.
