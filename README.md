# Sentiment analysis API: routes, authentication gate and account store

This project models the request-handling core of the service's Express router
(`server/routes/api.js`): the `authenticateToken` middleware and the four routes
`POST /register`, `POST /login`, `POST /analyze` and `GET /history`. It proves
what each route replies and how it changes the account store on every path.

The modules are:

- `Wrappers`: `Option`. Here `None` stands for JavaScript's `undefined`.
- `Json`: the JSON values that the handlers read, with the JavaScript rules they depend on: truthiness, `v[0]` and `v.name`.
- `Text`: `String.prototype.trim` against the reference predicate `AllWhitespace`, and `split(' ')` against `Join`, its inverse.
- `Sentiment`: the three labels (sent and stored as the strings "Positive", "Negative" and "Neutral"), the mapping from the classifier's raw label code, and how `/analyze` reads the classifier's reply.
- `Auth`: extracting the token from the `authorization` header, and the middleware's 401 / 403 / pass-through decision.
- `Api`: the class `Users`, which stands for the User collection. It is a map from account id to account, plus the next fresh id. Its invariant `Valid()` says that usernames are unique, that every id in use is below the next one, and that no stored record has a blank text. The four routes are methods of `Users` with early returns; the two that write (`Register` and `Analyze`) have `modifies` clauses, while `Login` and `History` only read. Each reply is a `Response` value, and `Response.Status()` gives its HTTP code. `Session` is a client that runs an example session end to end.

The collaborators become parameters of the handlers:

- bcrypt's `hash` becomes `hash: (string, Salt) -> Digest`, and its random salt is an argument.
- bcrypt's `compare` becomes `matches: (string, Digest) -> bool`.
- `jwt.sign` becomes `sign: UserId -> string`.
- `jwt.verify` becomes `verify: string -> Option<UserId>`.
- The HTTP call to the inference API becomes `classify: string -> Upstream`. An `Upstream` is a parsed reply or a thrown request error.
- The classifier's `score` is passed through as an opaque JSON value, never computed with.

The model follows the code; in particular:

- A duplicate username gets 400 "Username already exists". No distinct conflict code is used, and the route itself does not check that the username or password is non-empty.
- `/analyze` checks only that the reply is an array whose first element is truthy. After that, reading `result[0].label` throws (500) only when `result[0]` is `undefined` or `null`. So a first entry with no `label` reads as Positive, and one with no `score` gives an undefined confidence (`Sentiment.EntryWithoutFields`). A reply is not rejected just because it lacks a scored label.
- A `text` that is truthy but not a string (a number, an object) makes `text.trim()` throw before the `try` block. The route then sends no reply (`Response.Unhandled`). It does not answer 400.
- The middleware never looks at the first word of the header. Any `<word> <token>` passes a token to `verify`. A header with two spaces after the first word yields an empty token and gets 401 (`Auth.NoTokenHeaders`).

## Model

| member | source | states |
|---|---|---|
| `Text.Trim` | server/routes/api.js:48 | `trim` keeps one slice of the text and drops only whitespace at either end; the result is empty exactly when the text is all whitespace, and otherwise starts and ends with a non-whitespace character |
| `Api.CheckText` | server/routes/api.js:47-48 | `text` is refused (400) exactly when it is missing, falsy or a string of whitespace only; a truthy non-string makes `trim` throw; an accepted text is that string unchanged, non-empty and not blank |
| `Api.Response.Status` | server/routes/api.js:8-85 | the codes the routes send: 201 for a registration, 200 for a token, an analysis or a history, 400 for a taken username or a blank text, 401 for a refused login or a missing token, 403 for a token that does not verify, 404 for a vanished account, 500 for a failed analysis; a 2xx code exactly for the successful replies |
| `Json.First` | server/routes/api.js:56-60 | `v[0]`: for an array, its first element, and `undefined` exactly when it is empty; always `undefined` for `null`, booleans and numbers |
| `Json.Member` | server/routes/api.js:60-63 | `v.label` / `v.score` on a non-null value (on `null` the read throws; `Sentiment.TopEntry` sends a null entry to the failed-analysis path first): defined exactly when `v` is an object with that property, and then that property's value |
| `Text.Split` | server/routes/api.js:9 | `split(' ')` yields at least one piece and no piece contains a space |
| `Text.JoinSplit` | server/routes/api.js:9 | joining the pieces of `split(' ')` with single spaces gives back the header |
| `Text.SplitJoin` | server/routes/api.js:9 | splitting a space-joined list of space-free words gives back exactly those words |
| `Auth.ExtractToken` | server/routes/api.js:9-10 | a token taken from the header is one non-empty word without spaces; an absent header gives none |
| `Auth.TokenOfHeader` | server/routes/api.js:9 | a header `<word> <token>`, optionally followed by a space and more, yields exactly `<token>`, whatever the first word is |
| `Auth.HeaderOfToken` | server/routes/api.js:9 | conversely, any token extracted sits right after the first space of the header, and after it comes the end of the header or another space |
| `Auth.NoTokenHeaders` | server/routes/api.js:9-10 | a header without a space, or with two spaces after its first word, yields no token (401) |
| `Auth.Authenticate` | server/routes/api.js:8-16 | 401 exactly when no token can be extracted; 403 exactly when a token is found but does not verify; otherwise the request proceeds as the id the token verifies to |
| `Auth.IssuedTokenAdmits` | server/routes/api.js:11-14 | a token signed for account `id`, sent as `Bearer <token>`, passes the gate as `id` and as no other account, given that the token library verifies what it signs and its tokens have no spaces |
| `Sentiment.MapLabel` | server/routes/api.js:60-62 | the mapping is total and exact: Neutral exactly for the code "LABEL_1", Negative exactly for "LABEL_0", Positive for every other code, including an unknown or missing one |
| `Sentiment.MapLabelOnto` | server/routes/api.js:60-62 | each of the three labels is produced by some raw code |
| `Sentiment.TopEntry` | server/routes/api.js:56-60 | the reply is rejected when the request failed, when the data is not an array, or when its first element is missing or falsy; a top entry that is read is never `null`, and for the nested-array shape the inference API returns it is `data[0][0]` |
| `Sentiment.ReadReply` | server/routes/api.js:56-63 | the handler fails (500) exactly when no top entry can be read; otherwise the label is the mapping of that entry's `label` and the confidence is its `score`, unmodified |
| `Sentiment.ReadScoredReply` | server/routes/api.js:59-63 | for a reply of the shape the inference API returns, `[[{label, score}, ...], ...]` the result is the mapping of the first label together with the first score, unchanged |
| `Sentiment.EntryWithoutFields` | server/routes/api.js:56-63 | a first entry without `label` or `score` still reads as Positive with an undefined confidence, while an empty first element fails |
| `Api.Users.FindByUsername` | server/routes/api.js:21 | the lookup finds an account exactly when one has that username, and what it finds has that username |
| `Api.Users.Register` | server/routes/api.js:18-30 | a taken username gets 400 and the store is unchanged; otherwise 201, and exactly one account is added under a fresh id, holding `hash(password, salt)` and an empty history; the status is 400 or 201 accordingly; usernames stay unique and no stored record is blank |
| `Api.Users.Login` | server/routes/api.js:32-44 | an unknown username and a wrong password give the same `InvalidCredentials` (401); a matching password gives a token signed for that account's id |
| `Api.Users.Analyze` | server/routes/api.js:46-75 | checks run in the source's order: the gate (401/403), the text (400), the classifier reply (500), then the account (404); on every failure the store is unchanged and the invariant (unique usernames, no blank record text) is kept; on success exactly one record `{text, sentiment, confidence}` is appended at the end of the caller's history, other accounts are unchanged, and the reply carries that label and score |
| `Api.Users.History` | server/routes/api.js:77-85 | behind the gate, returns the caller's stored records in insertion order, or 404 when the account is missing |
| `Api.SignUp` | server/routes/api.js:18-44 | registering "alice" succeeds once, a second registration is refused, and logging in returns the token signed for her id |
| `Api.Submit` | server/routes/api.js:46-85 | two successful analyses by one account leave exactly those two records in its history, in submission order |
| `Api.Session` | server/routes/api.js:18-85 | an example session end to end: "I love this" with `LABEL_2` at 0.91 is Positive with confidence 0.91, and the history lists the submitted records in order |

## Left out

- Persistence failures are left out. `findOne`, `findById` and `save` never throw in the in-memory store, so the routes' 500 replies for store errors are not modelled. Neither are the messages that carry `error.message`.
- A failing bcrypt call is left out. `hash` and `compare` are total functions here, so there is no 500 for invalid arguments.
- A failing `jwt.sign` at login is left out: it is a total function here, so there is no 500 when signing throws.
- Token expiry (1 hour) and the signing secret are left out. Both are inside `verify`, which is a parameter.
- The User schema is not part of this model. Neither are its validation and casting on `save`, such as a non-numeric `score`.
- `/register` and `/login` take `username` and `password` as strings. A missing field or a non-string field is not modelled, because its handling depends on Mongoose and bcrypt, which are not shown.
- The decoded token is reduced to the account id it carries. A payload without `id` is not modelled.
- Concurrency is left out. That covers the check-then-insert race between two registrations with one username, and interleaved appends to one history. The store is sequential, so uniqueness holds as an invariant here.
- `Response.Unhandled` marks the path that throws before the `try` block. What happens next depends on the Express and Node versions, which are not part of this model. The request may hang, or the process may exit on the unhandled rejection.
- `Json.First` reads one character of a string as one code point. JavaScript reads one UTF-16 code unit.
- Express routing, JSON serialisation and `console.error` logging are left out.
