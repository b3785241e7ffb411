# URL shortener back end, modelled in Dafny

This project models the back end of a multi-user URL-shortening service. Users register
and log in. They present a bearer token on protected routes, submit long URLs and get short
codes back. They can list, search, look up and delete their links, and delete their
account. Anyone can follow a short code without logging in.

The model is a sequential state machine over two collections, kept in a `Store.Db`
object:

- `users: seq<User>`: the user documents;
- `links: seq<ShortLink>`: the short-link documents.

Sequence order is the store's natural order. It decides which document `findOne` and
`findOneAndDelete` pick when several match. Each route handler is a method. It takes the
store, an Express-like `Http.Response` (and, for the middleware, an `Http.Request`), the
request fields, and the answers of collaborators that are not modelled. Its `ensures`
state the reply, the new store and what stays unchanged.

Modules, following the source files:

- `Wrappers`: `Option` and `Result`.
- `Text`: ASCII lower-casing, the alphanumeric filter and substring search.
- `Records`: the documents, plus passport's `done` outcome.
- `Tokens`: the JWT payload and its two-hour expiry.
- `Store`: the collections and the Mongoose operations used on them (`findOne`, `find`,
  `create`, `save`, `findOneAndDelete`, `deleteOne`, `deleteMany`).
- `Http`: the response and request objects. A second send after a reply has gone out
  throws instead of replacing it, as Express does.
- `Urls`: backend/urls.js.
- `Accounts`: backend/app.js and its stale copy at the repository root, app.js.
- `Auth`: backend/middleware/auth.js.
- `Scenarios`: client code that sends requests in turn through the handlers.

The collaborators enter as inputs:

- whether `new URL(url)` succeeds (`urlParses`), standing for `urlIsValid`;
- what `getDns` resolves to (`address`);
- bcrypt's hash output (`hash` / `hashed`) and bcrypt's compare (`compare`, a function);
- what the bearer extractor found and whether the signature verifies (`Auth.Bearer`);
  the expiry check against the clock `now` is explicit;
- one failure flag per store call.

## Model

| member | source | states |
|---|---|---|
| `Text.Lower` | backend/app.js:97 | lower-casing keeps the length and maps each character through ASCII `toLowerCase` |
| `Text.LowerIsLower` | backend/app.js:97 | a lower-cased email is left unchanged by lower-casing again, so it is in lower case when stored |
| `Text.MixedCaseIffUpper` | backend/app.js:97 | lower-casing changes a string exactly when the string holds an upper-case ASCII letter |
| `Text.FilterAlnum` | backend/urls.js:37 | `replace(/[^a-zA-Z0-9]/g, "")` yields only alphanumerics and never lengthens its input |
| `Text.FilterAlnumKeepsCounts` | backend/urls.js:37 | the filter keeps every alphanumeric of the input, each as often as it occurs |
| `Text.FilterAlnumChar` | backend/urls.js:37 | a single character is kept exactly when it is alphanumeric |
| `Text.FilterAlnumCons` | backend/urls.js:37 | the first character is kept in front exactly when it is alphanumeric, and the rest is filtered alike |
| `Text.FilterAlnumAppend` | backend/urls.js:37 | the filter of a concatenation is the concatenation of the filters, so kept characters stay in their input order |
| `Text.FilterAlnumKeepsAlnum` | backend/urls.js:37 | the filter leaves an all-alphanumeric string unchanged |
| `Text.Occurs` | backend/urls.js:139 | the substring search is true exactly when the needle stands at some index of the haystack |
| `Text.EmptyNeedleMatches` | backend/urls.js:139 | the empty search string matches every destination |
| `Tokens.Issue` | backend/app.js:101-107 | `jwt.sign` puts the given `user_id` and `email` in the payload, stamps the issue time, and the token is unexpired exactly for the 7200 seconds after issue (`expiresIn: "2h"`) |
| `Store.FindLink` | backend/urls.js:205 | `findOne` on links gives the first matching document; it gives none exactly when no document matches |
| `Store.FindLinks` | backend/urls.js:94 | `find` returns exactly the matching documents, each as often as stored |
| `Store.WithoutLinks` | backend/urls.js:188 | `deleteMany` leaves no matching document and keeps every other document, each as often as stored |
| `Store.FindAndDeletePartition` | backend/urls.js:188 | what `find` returns and what `deleteMany` keeps, for one filter, make up the collection together |
| `Store.FindLinkAfterSave` | backend/urls.js:54-79 | after a save with no earlier match, the idempotency lookup finds the record just saved |
| `Store.FindLinkStableUnderSave` | backend/urls.js:54-58 | a save leaves the first match of an already matching filter where it was |
| `Store.FindUser` | backend/app.js:43 | `User.findOne` gives the first user matching the filter; it gives none exactly when no user matches |
| `Store.LookupUser` | backend/middleware/auth.js:17 | the lookup fails exactly on a store error; otherwise it gives a matching stored user, or none when no user matches |
| `Store.LookupByUniqueId` | backend/middleware/auth.js:17 | with unique ids, looking up a stored user's id finds that user |
| `Store.LookupByUniqueEmail` | backend/app.js:43 | with unique emails, looking up a stored user's email finds that user |
| `Store.Db.CreateUser` | backend/app.js:94-99 | `User.create` stores a user under a fresh id, unless the store fails or the unique email index already holds the email; ids and emails stay unique |
| `Store.Db.SaveLink` | backend/urls.js:78 | `save` appends the document unless it fails; users are untouched |
| `Store.Db.FindOneAndDeleteLink` | backend/urls.js:158 | `findOneAndDelete` removes and returns the first match only, or nothing when none matches or the call fails |
| `Store.Db.DeleteOneUser` | backend/urls.js:185 | `deleteOne` on `_id` leaves no user with that id, removes no other user and keeps the store invariant |
| `Store.Db.DeleteManyLinks` | backend/urls.js:188 | `deleteMany` on success keeps exactly the non-matching links, and on failure changes nothing |
| `Http.Response.Send` | backend/app.js:83-89 | the first reply sent is the one the client gets; a later send throws and changes nothing |
| `Http.Response.SetCookie` | backend/app.js:140 | `res.cookie` records the cookie while headers are not yet sent |
| `Http.Request.Next` | backend/middleware/auth.js:50 | `next()` passes the request on and leaves `req.user` as set |
| `Urls.GenerateShortUrl` | backend/urls.js:35-39 | the code is all alphanumeric, is a prefix of the filtered hash, and has length min(6, number of alphanumerics in the hash) |
| `Urls.CodeDrawnFromHash` | backend/urls.js:35-39 | every character of a code is an alphanumeric character of the hash |
| `Urls.FullLengthCode` | backend/urls.js:37 | a hash with at least six alphanumerics gives a code of exactly six |
| `Urls.CreateLink` | backend/urls.js:42-87 | a missing or unparsable url gets 400 "No URL Provided". An existing (url, owner) record is returned even if its host no longer resolves. An unresolvable host gets 400 "Invalid URL" and a failed save gets 500. A failed idempotency lookup gets no reply. Otherwise exactly {url, GenerateShortUrl(hash), caller} is appended. Every failure leaves the links unchanged |
| `Urls.ListLinks` | backend/urls.js:90-103 | 200 with exactly the caller's links, or 500 on a store error |
| `Urls.ResolveOwned` | backend/urls.js:106-129 | redirects to the first link having both that code and the caller as owner, or answers 404 (also when the code exists only under another owner) or 500 |
| `Urls.SearchLinks` | backend/urls.js:132-150 | 200 with exactly the caller's links whose destination contains `s` ignoring case, or 500 |
| `Urls.DeleteLink` | backend/urls.js:153-177 | removes only the caller's first link with that code and answers 200; with no such link 404, on failure 500, both with links unchanged |
| `Urls.DeleteAccount` | backend/urls.js:180-198 | deletes the caller's user, then all the caller's links; afterwards no link of the caller remains. If the link deletion fails the answer is 500 but the user is already gone |
| `Urls.ResolvePublic` | backend/urls.js:201-223 | redirects to the destination of the first stored link with that code, whoever owns it; otherwise 404, or 500 |
| `Urls.OtherOwnersCodesHidden` | backend/urls.js:111-119 | a code stored only under other owners is not found by the owned lookup |
| `Urls.PublicLookupFindsAnyOwner` | backend/urls.js:205-215 | every stored code, whoever owns it, is found by the public lookup |
| `Urls.SearchWithinListing` | backend/urls.js:137-140 | search results are a sub-multiset of the caller's listing |
| `Urls.EmptySearchIsListing` | backend/urls.js:137-140 | searching for the empty string returns the whole listing |
| `Accounts.LocalVerify` | backend/app.js:41-55 | the strategy reports an error exactly on a store error. It accepts exactly a found user whose stored hash the password matches. Every other case gets "Invalid Credentials." |
| `Accounts.UniformCredentialFailure` | backend/app.js:44-50 | an unknown email and a wrong password produce the identical strategy result |
| `Accounts.SerializeUser` | backend/app.js:59-61 | the session key is the user's id, one under which the deserialiser's `{ _id: id }` filter selects the user |
| `Accounts.DeserializeUser` | backend/app.js:63-70 | restores the stored user with the session's id, none when there is none, or an error on a store failure |
| `Accounts.SessionRoundTrip` | backend/app.js:59-70 | deserialising a serialised stored user gives back that user |
| `Accounts.Register` | backend/app.js:78-114 | a missing field gets 400, yet the handler goes on; an exact-email duplicate gets 409; a user with the lower-cased email and the bcrypt output is stored exactly when no store call fails and no user has the submitted or lower-cased email, and then gets 201 with a token for the submitted email, unless the 400 went first (details below) |
| `Accounts.Login` | backend/app.js:117-145 | an absent or empty email or password gets 400 "Invalid Credentials" before any lookup, as passport-local refuses it. Otherwise a store error or a session error gives 400, and a rejected login gives 400 "Invalid Credentials". On success the answer is 200 with a token {user_id, stored email, 2h}, and the `jwt` cookie holds that same token |
| `Accounts.MixedCaseMissesDuplicate` | backend/app.js:86-97 | with lower-case stored emails, a mixed-case address never triggers the 409 check |
| `Accounts.MixedCaseCannotLogIn` | backend/app.js:43 | with lower-case stored emails, a mixed-case address always fails login with "Invalid Credentials." |
| `Accounts.RegisteredUserCanLogIn` | backend/app.js:43-51 | a just-stored user logs in with the stored email and a password that bcrypt matches against the stored hash |
| `Auth.JwtVerify` | backend/middleware/auth.js:14-30 | the JwtStrategy callback reports an error exactly on a store error, the user when one is found, and `false` otherwise |
| `Auth.Resolve` | backend/middleware/auth.js:8-30 | a missing, badly signed or expired token never reaches the store. A verified token gives a resolver error on a store failure. Otherwise it authenticates exactly when a stored user has the token's `user_id`, and that user is the result |
| `Auth.Authenticate` | backend/middleware/auth.js:33-52 | 500 "Error occurred while authenticating" on a resolver error and 401 "Invalid Token" on no user. Otherwise `req.user` is the resolved user and `next` runs once. Each request gets exactly one of a reply or a `next` call |
| `Auth.EmailClaimIgnored` | backend/middleware/auth.js:17 | changing the token's `email` claim never changes the outcome |
| `Auth.DeletedUserRefused` | backend/middleware/auth.js:19-24 | a validly signed token for an id no longer stored gets "no user" |
| `Auth.IssuedTokenResolves` | backend/middleware/auth.js:8-21 | a token issued for a stored user resolves to that user for exactly two hours, whatever email it carries |
| `Scenarios.RegisterThenLogin` | backend/app.js:78-145 | registering with full fields and a lower-case email, then logging in, gives 200 and a token the middleware accepts within two hours |
| `Scenarios.ShortenTwice` | backend/urls.js:42-87 | shortening one URL twice stores one record and returns it both times |
| `Scenarios.ShortenThenVisit` | backend/urls.js:90-103 | after one shortening the owner's listing holds the record, and the public route redirects its six-character alphanumeric code to the destination |
| `Scenarios.RegisterWithoutFirstName` | backend/app.js:82-99 | without `first_name` the client gets 400, yet the user is stored with a null first name |
| `Scenarios.Registered` | backend/app.js:78-114 | one complete registration in an empty store stores exactly that user, under id 0 and with the lower-cased email |
| `Scenarios.MixedCaseEmail` | backend/app.js:86-97 | re-registering a mixed-case address gets no reply and adds no user |
| `Scenarios.MixedCaseLogin` | backend/app.js:43 | after registering a mixed-case address, logging in with it as typed gets 400 "Invalid Credentials" |

`Accounts.Register` states all of the following:

- With any field missing, the reply is 400 "All input is required", but the handler keeps
  going.
- The user is stored exactly when email and password are present, no user has exactly the
  submitted email, no user has its lower-cased form, and no store call fails. The stored
  record holds the lower-cased email and the bcrypt output in place of the password.
- With all fields present, an exact-email duplicate gets 409 and the store is unchanged. A
  completed registration gets 201 with the user and a token {user_id, submitted email, 2h}.
  Otherwise there is no reply.
- Ids and emails stay unique, and stored emails stay lower case.

## The root copy, app.js

app.js at the repository root repeats the registration and login logic of backend/app.js.
The same members model both files:

| member | app.js lines |
|---|---|
| `Accounts.LocalVerify`, `Accounts.UniformCredentialFailure` | app.js:26-43 |
| `Accounts.SerializeUser`, `Accounts.DeserializeUser`, `Accounts.SessionRoundTrip` | app.js:45-56 |
| `Accounts.Register`, `Scenarios.RegisterWithoutFirstName` | app.js:62-98 |
| `Accounts.Login` | app.js:100-130 |

In app.js, `serializeUser` stores `user._id` where backend/app.js stores `user.id`. The
two are the same id, so `Accounts.SerializeUser` stands for both. `Tokens.Issue` stands
for `jwt.sign` in both files.

## Quirks of the code the model keeps

- Login looks the user up by the email exactly as submitted (backend/app.js:43), while
  registration stores it lower-cased (backend/app.js:97). A user who registered with a
  capital letter cannot log in with the address as typed (`Accounts.MixedCaseCannotLogIn`, `Scenarios.MixedCaseLogin`).
- The 409 check looks for the exact submitted email (backend/app.js:86). A mixed-case
  variant of a stored address passes it, and the unique email index of
  backend/model/user.js:7 then rejects `User.create`. The `catch` only logs
  (backend/app.js:110-112), so that request is never answered (`Scenarios.MixedCaseEmail`).
- The missing-field branch of `/register` sends 400 without returning
  (backend/app.js:82-84). The client gets that 400; with email and password present, the
  user is still stored (`Scenarios.RegisterWithoutFirstName`).
- `POST /url` runs the lookup for an existing (url, owner) record before the DNS check
  (backend/urls.js:54-60). An existing record is returned even when its host no longer
  resolves.
- Every login failure, a store error included, is answered with status 400
  (backend/app.js:119-129).

## Left out

- The front end (frontend/*.js) is React Native UI and HTTP plumbing.
- Process bootstrap is left out: backend/index.js, backend/config/database.js, and the
  environment loading.
- Express wiring is left out: CORS, mount order, and where `express.json` sits. This
  includes the root mount of the link routes ahead of the JSON body parser. Handlers are
  given parsed bodies.
- The link routes' own `passport.authenticate('jwt')` guard is not modelled. It runs after
  the `auth` middleware and repeats it. Handlers take `req.user` as `caller`.
- URL parsing by the WHATWG URL Standard is a boolean input, and `urlIsValid` is that
  input. The DNS lookup in `getDns` is an `Option` input.
- bcrypt is opaque. Hash outputs are inputs, and compare is a function parameter. The random
  salt means the code is not a function of the URL alone. A rejected `bcrypt.compare` is not
  modelled.
- JWT signing, signature checking and bearer extraction (section 2.1 of RFC 6750) are
  opaque, stood for by `Auth.Bearer`. A `user_id` that is not a valid ObjectId would make the
  lookup throw. That is not modelled, because ids are natural numbers here.
- Sessions are left out: express-session, passport's session table and cookie flags.
  `req.login` appears only as a failure flag. The `jwt` cookie's `httpOnly`/`secure` options
  are not modelled.
- passport-local also reads the credentials from the query string when the body lacks
  them. This is not modelled: `Accounts.Login` takes the body fields only.
- `toLowerCase` is modelled over ASCII only. Unicode case mapping is left out.
- Search is a literal, case-insensitive substring match over ASCII. Regular-expression
  metacharacters in `s`, and a request without `s`, are not modelled.
- Error bodies are reduced to their `error` or `message` string. The `status` and
  `message` extras, the underlying error text, and the 401's `info` are left out.
- It is not modelled whether the JSON of the created user shows the attached `token`.
  `Http.Body.UserJson` carries user and token together.
- The short-link schema is not part of this model. A link holds its three stored fields, and
  its own `_id` is not modelled.
- `/welcome` and `GET /` send fixed text and are not modelled.
- Request-body values of non-string types are not modelled.
- Concurrency is left out. Requests are sequential, so two racing first-time creates of one
  URL, and interleaving during account deletion, are out of scope.
