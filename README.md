# Timesheet: session, ownership and editor rules in Dafny

This project models the rules of a small timesheet web application. Users
sign up and log in. A login sets a one-hour signed session token as a
cookie. With that cookie, users create, list and update named "sheets" of
time entries.

The model covers three parts:

- **Sheet routes** (`backend/sheetsRoutes.js`): `GET`, `POST` and `PUT /sheets`. Each
  route first runs an authorization ladder: a missing cookie, a token that fails
  verification, or a token without a `userId` is answered with 401. Only the verified `userId`
  is then used as the owner in the queries of the `sheets` collection.
  Module `SheetsRoutes` keeps the collection as a `map` from ObjectId to sheet document, inside
  the class `SheetRouter`.
- **Credential and session routes** (`backend/authRoutes.js`): `/signup`, `/login`,
  `/logout` and `/protected`. Module `AuthRoutes` holds the class `AuthRouter`, which keeps the
  `users` collection as a `map`.
- **Sheet editor** (`frontend/app/routes/sheet.tsx`): the rate field's input
  pattern `^\d*\.?\d{0,2}$`, adding an entry, replacing one field of an entry,
  the total of minutes, and the clamp on typed minutes. Module `SheetEditor` models
  them with the class `Editor` over pure helpers.

Supporting modules:

- `Json`: JSON values and JavaScript truthiness (`!x`).
- `Tokens`: the token and hashing libraries as opaque functions, with the only
  properties relied on, in `Sound` and `HashSound`.
- `ObjectIds`: the canonical 24-hex-digit id and the `new ObjectId(s)` parse.
- `Scenario`: a client method that signs up, logs in, creates, lists and
  renames a sheet with the two routers sharing one secret.

Outside inputs are parameters:

- the clock is a millisecond count `nowMs`;
- the `_id` the driver generates for an insert is a method parameter, and an id already taken is the
  duplicate-key failure, answered with 500;
- bcrypt's random salt is a parameter;
- `jwt.sign` / `jwt.verify` and `bcrypt.hash` / `bcrypt.compare` are function
  values of the `Jwt` and `Bcrypt` datatypes.

Behaviour of the code worth noting:

- Every token that fails verification is answered "Invalid token." with 401. This includes an
  expired token: there is no separate expired-token error.
- `PUT` answers 404 whenever nothing was modified. That includes an owner's update that writes the
  sheet's current values within the millisecond of its last update.
- With `JWT_SECRET` unset, each router module silently draws its own random secret. It gives no warning.

## Model

| member | source | states |
|---|---|---|
| Json.FalsyValues | backend/sheetsRoutes.js:83-85 | the presence checks `!x` reject exactly null, false, 0 and "" among JSON values |
| Tokens.TokenAndCookieLifetimesAgree | backend/authRoutes.js:66-73 | "1h" and `maxAge: 3600000` are the same hour; the token expires no later than the cookie and less than a second before it |
| ObjectIds.ParseObjectId | backend/sheetsRoutes.js:154 | a route id parses iff it is 24 hex digits of either case, to the lower-case id; anything else is the constructor's throw |
| ObjectIds.ParseCanonical | backend/sheetsRoutes.js:154 | the id a create answers parses back to itself in a later update |
| ObjectIds.ParseIgnoresCase | backend/sheetsRoutes.js:154 | two spellings that differ only in hex-digit case name the same document |
| AuthRoutes.Logout | backend/authRoutes.js:83-90 | logout answers 200 and clears the `token` cookie, whatever the request |
| AuthRoutes.Protected | backend/authRoutes.js:92-108 | no token gives 401 "Access denied. No token provided."; a token that fails verification gives 401 "Invalid token."; otherwise 200 with the decoded payload |
| AuthRoutes.ProtectedAcceptsIssuedToken | backend/authRoutes.js:100-104 | a token signed with the secret opens `/protected` exactly until its expiry and shows its own claims |
| AuthRoutes.AuthRouter.Signup | backend/authRoutes.js:20-43 | missing field gives 400 and no change; a taken username gives 400 and no change; otherwise exactly one user is added with `hash(password)` as stored password and 201; usernames stay unique |
| AuthRoutes.AuthRouter.Login | backend/authRoutes.js:45-81 | missing field gives 400; an unknown user and a wrong password give the identical 400 "Invalid credentials."; a match sets the cookie to the token signed over `{userId, username}` for 3600000 ms |
| AuthRoutes.SignupThenLogin | backend/authRoutes.js:35-66 | after signup(u, p), login(u, p) succeeds and its token verifies to the new user's `{userId, username}` until expiry and not after |
| SheetsRoutes.Authenticate | backend/sheetsRoutes.js:22-38 | the ladder: missing token, failed verification, then missing `userId` each give their own 401; a present token that verifies and carries a present `userId` admits the caller as exactly that `userId` |
| SheetsRoutes.IssuedTokenAuthenticates | backend/sheetsRoutes.js:63-73 | a login token admits its holder as its `userId` until expiry and is refused with "Invalid token." afterwards |
| SheetsRoutes.NewSheet | backend/sheetsRoutes.js:88-98 | the created document's owner is the verified caller, both dates are now, and every client field, totals included, is the body's as supplied |
| SheetsRoutes.SetFields | backend/sheetsRoutes.js:155-165 | the update's `$set` replaces exactly the six client fields and `updatedAt`; owner and `createdAt` are kept |
| SheetsRoutes.SetFieldsChangesUnlessSame | backend/sheetsRoutes.js:167-171 | an update modifies the sheet unless it rewrites the same fields within the millisecond of the last update |
| SheetsRoutes.InsertionPoint | backend/sheetsRoutes.js:46 | the position after every sheet that sorts before and before every sheet that sorts after, by `updatedAt` then `createdAt`, both descending |
| SheetsRoutes.InsertKeepsSorted | backend/sheetsRoutes.js:46 | inserting at that position keeps a listing sorted |
| SheetsRoutes.InsertStep | backend/sheetsRoutes.js:42-47 | adding one owned sheet keeps a partial listing a listing of the owner's sheets, each once, sorted |
| SheetsRoutes.SheetRouter.List | backend/sheetsRoutes.js:22-55 | a denied request gets its 401; otherwise 200 with every sheet of the caller, each once, with its stored contents, no other user's, sorted |
| SheetsRoutes.SheetRouter.Create | backend/sheetsRoutes.js:57-115 | 401 or 400 (falsy `sheetName`) leave the store unchanged; otherwise exactly one sheet owned by the verified caller is added under the new id, answered with 201 and that id |
| SheetsRoutes.SheetRouter.Update | backend/sheetsRoutes.js:117-179 | 401, 400 and 500 (malformed id) leave the store unchanged; only a sheet matching both id and owner is changed, answered with 200, and only if the update modifies it; otherwise 404 and no change; owners never change |
| SheetsRoutes.SheetRouter.UpdateSparesOthers | backend/sheetsRoutes.js:150-166 | no sheet the verified caller does not own is changed by an update |
| SheetEditor.MatchesRate | frontend/app/routes/sheet.tsx:28 | the rate filter accepts every all-digit string, and whatever it accepts holds only digits and '.', with at most two characters after a '.'; the exact language is `MatchesRateIsPattern` |
| SheetEditor.LeadingDigits | frontend/app/routes/sheet.tsx:28 | the length of the longest all-digit prefix |
| SheetEditor.MatchesRateIsPattern | frontend/app/routes/sheet.tsx:28 | the scan accepts exactly the strings of `^\d*\.?\d{0,2}$`: digits, at most one '.', at most two digits after it |
| SheetEditor.RateExamples | frontend/app/routes/sheet.tsx:28 | "", "12", "12.", ".5", "12.34" are accepted; "1.234", "1.2.3", "1e5" are rejected |
| SheetEditor.ApplyUpdate | frontend/app/routes/sheet.tsx:43 | the spread-update sets the named field to the new value and keeps the other field |
| SheetEditor.UpdateAt | frontend/app/routes/sheet.tsx:42-44 | length kept, every entry but `index` kept, entry `index` gets the update |
| SheetEditor.UpdateAtIsSplice | frontend/app/routes/sheet.tsx:37-46 | the update is the splice replacing entry `index`; an out-of-range index changes nothing |
| SheetEditor.TotalMinutes | frontend/app/routes/sheet.tsx:54-57 | the `reduce` over the entries, last entry added last; with no negative entry the total is not negative |
| SheetEditor.TotalIsSum | frontend/app/routes/sheet.tsx:54-57 | the left-fold total equals the sum taken from the front |
| SheetEditor.TotalAppend | frontend/app/routes/sheet.tsx:54-57 | appending an entry adds its minutes to the total |
| SheetEditor.AddEntryKeepsTotal | frontend/app/routes/sheet.tsx:33-35 | appending the 0-minute entry leaves the total unchanged |
| SheetEditor.TotalNonNegative | frontend/app/routes/sheet.tsx:54-57 | with no negative entry the total is not negative, and it is 0 iff every entry is 0 |
| SheetEditor.TotalAfterUpdate | frontend/app/routes/sheet.tsx:42-57 | updating entry `index` changes the total by exactly the change in its minutes |
| SheetEditor.ClampMinutes | frontend/app/routes/sheet.tsx:127 | `Math.max(0, parseInt(v) \|\| 0)`: never negative, keeps a non-negative number, NaN and negatives become 0 |
| SheetEditor.Editor.constructor | frontend/app/routes/sheet.tsx:17-22 | empty rate and description, one 0-minute entry, total 0 |
| SheetEditor.Editor.Total | frontend/app/routes/sheet.tsx:54-57 | the displayed total is never negative |
| SheetEditor.Editor.HandleChange | frontend/app/routes/sheet.tsx:24-31 | the rate becomes the input iff it matches the pattern; otherwise the rate and everything else is unchanged |
| SheetEditor.Editor.SetDescription | frontend/app/routes/sheet.tsx:81 | only the description changes |
| SheetEditor.Editor.AddEntry | frontend/app/routes/sheet.tsx:33-35 | exactly one 0-minute entry dated now is appended, earlier entries and the total are unchanged |
| SheetEditor.Editor.UpdateEntry | frontend/app/routes/sheet.tsx:37-46 | entries become the single-field update at `index`, the total moves by the change, an out-of-range index changes nothing |
| SheetEditor.Editor.TypeMinutes | frontend/app/routes/sheet.tsx:123-128 | the clamped minutes go into entry `index`; every entry and the total stay non-negative |

## Left out

- Store and network failures: a failed connection or query answers 500, and the model does not produce it. The only 500s modelled are a malformed route id and a generated `_id` that is already taken. `client.connect` / `client.close` are not modelled.
- Concurrency: requests are modelled one at a time. So the check-then-insert race between two signups with the same username cannot happen in the model.
- JWT secret: each router is built with one secret. With `JWT_SECRET` unset, the two route modules draw different random secrets, so login tokens would not verify in the sheet routes. The model shows this only as two routers built with different secrets.
- Cryptography: signatures and bcrypt are not modelled. `HashSound` gives no collision resistance, so a wrong password is stated as "`compare` answers false".
- AuthRoutes.AuthRouter.Login: stated only for a users table with unique usernames. With duplicates, `findOne` picks by natural order, which the model does not represent.
- Request bodies: `username` and `password` are modelled as optional strings. Other JSON values are not modelled, such as a query-operator object or a number (which makes `bcrypt.hash` throw). A token's `userId` claim is likewise an optional string.
- Sheet body fields are JSON values; numbers are finite reals. An absent field is stored as null. "Modified" compares documents structurally, not by BSON comparison.
- SheetsRoutes.SheetRouter.Create: one clock reading is used for both `createdAt` and `updatedAt`. The source calls `new Date()` twice, and the two readings may differ by a millisecond.
- SheetsRoutes.SheetRouter.List: sheets that tie on both sort keys come in an unspecified order, which the listing predicate leaves open.
- Cookie attributes `httpOnly`, `secure` and `sameSite` are not modelled; only `maxAge` and the cookie's value are.
- Cost calculation in the editor (`parseFloat`, `toFixed`): floating point.
- SheetEditor.TotalMinutes: entry minutes are unbounded integers and the total is their exact sum. In the page they are JavaScript numbers (doubles): `max="1440"` is only a browser hint, `parseInt` of a long digit string gives values above 2^53, and the `reduce` then rounds. So `TotalIsSum`, `TotalAppend`, `AddEntryKeepsTotal` and `TotalAfterUpdate` hold in the page only while every partial sum stays below 2^53.
- `parseInt`: its result is an input (`ParsedInt`); only the clamp is modelled.
- The date picker is commented out in the source. A date update is modelled as `SetDate`, but no page event calls it.
- Page rendering, navigation and `fetch` calls (login, signup and sheet list pages), the Express/CORS setup and the route tables are not part of this model. The same goes for the older cookie helper `app/auth.ts`, which uses a 7-day cookie.
