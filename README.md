# Eczema tracker: a Dafny model of the API handlers and three client rules

This project models the Express API of an eczema-tracking app and the small
pieces of client logic that feed it. On the server side it covers the JWT
middleware and the route handlers for accounts, profiles, products with their
usage logs, diet logs and well-being logs. On the client side it covers
frequency formatting, the stress-band label and submit of the well-being
screen, and the suggestion filter and save payload of the add-product screen.

Each Sequelize table is a `map<int, Row>` plus a next-id counter. Each group
of route handlers is a class whose methods are the handlers: they return the
HTTP status and the payload, and they change the tables as the handler does.
A key the request body leaves out is `None`. In the bodies that are merged
into a row, and in the usage-log POST body, a key is instead `Absent`, `Null`
or `Value(v)`. Sequelize's `update` skips undefined values, so updates are
merges that keep every column the body does not name. A `null` clears a
nullable column and fails validation on a NOT NULL one. Ordered queries (`order: [[col, 'DESC']]`) return a sequence. Its
contract says the members are exactly the selected rows, sorted in descending
order, with no row twice.

Every authenticated handler starts with `AuthMiddleware.Authenticate`:
- 401 when there is no token;
- 403 when `verify` rejects it;
- otherwise the handler goes on with the token's claims.

`jwt.sign`/`jwt.verify` and `bcrypt.hash`/`bcrypt.compare` are parameters
(`sign`, `verify`, `hash`, `compare`). The clock is passed in as `now`
(milliseconds) or `today` (a day number). `parseFloat` is passed in as a
parameter.

The client screens are classes over their React state. Posting is modelled
by appending `(Authorization header, body)` to `requests`. Alert titles are
appended to `alerts`. Whether the network call succeeds is a `delivered`
parameter.

Modules, one per file:
- `Common`: Option, day numbers;
- `Tables`: row selection and descending sort;
- `Text`: JavaScript `trim`, `toLowerCase`, `includes`;
- `AuthMiddleware`;
- `AuthRoutes`, `ProfileRoutes`, `ProductRoutes`, `DietRoutes`, `WellbeingRoutes`;
- `ClientRequest`: the `Bearer ${token}` header;
- `Formatting`, `AddWellbeingLog`, `AddProduct`;
- `Session`: register, log in and post a diet log with the returned token.

Behaviour of the code that the model follows, where a reader might expect
otherwise:
- The profile routes (server/routes/profileRoutes.js:7, 28) mount no
  authentication. Anyone may read or overwrite any user's profile by naming
  the user id in the path. The model follows the code.
- PUT and DELETE on /diet-log/:logId (server/routes/dietRoutes.js:52-63) look
  the row up by id alone, with no owner check. PUT can also move a log onto a
  day the user has already logged, which POST forbids
  (`DietRoutes.UpdateCanBreakOnePerDay`).
- POST /product (server/routes/productRoutes.js:25) writes `endDate`, but the
  column is `stopDate`. A new product therefore never has a stop date, even
  though the add-product screen sends `endDate`.
- PUT /product/:id passes the whole body to `update`, so a body carrying
  `userId` hands the product to another user
  (`ProductRoutes.MergeProductCanChangeOwner`).
- Deleting a product also deletes its usage logs. `Product.hasMany(UsageLog)`
  (server/models/index.js:10) makes `sync` create the `productId` foreign key
  with `ON DELETE CASCADE`, and `productId` may not be null
  (server/models/UsageLog.js:6-9).
- A `null` in a PUT body clears the column, and the app's own edit screens
  send such nulls. The product screen sends `startDate || null` and
  `stopDate || null` (client/app/products/[id]/edit.tsx:49-50). The diet
  screen sends `parseInt(waterIntake)`, and JSON carries NaN as null
  (client/app/lifestyle/edit-diet-log/[id].tsx:49).
  See `ProductRoutes.MergeProductNullDatesClear` and `DietRoutes.MergeDietNullClearsWater`.
- A `null` for a NOT NULL column fails validation. PUT /product/:id answers
  500 from its `catch`. The usage-log handlers and PUT /diet-log/:logId have
  no `try`, so the request is never answered. On Node 15 or later an
  unhandled rejection also ends the server process by default, so later
  requests never reach the same tables. The model returns the status
  `Unanswered` for both outcomes.
- PUT /product/:id with a body that carries no column key answers 404,
  even to the owner. Sequelize's static `update` drops the undefined keys,
  finds only `updatedAt` left to write, and returns `[0]` without a query.
- server/server.js:22-24 mounts only the auth, profile and product routers.
  server/models/index.js:13 does not export `WellBeingLog`. The diet and
  well-being handlers are modelled as written, as if they were mounted and
  the model were exported.

## Model

| member | source | states |
|---|---|---|
| Common.DayOf | server/routes/wellbeingRoutes.js:13 | the day number of a millisecond timestamp: the day whose span of 86 400 000 ms contains it |
| Tables.Rows | server/routes/wellbeingRoutes.js:32-35 | a table's rows as (id, row) pairs, exactly the stored ones, in increasing id order |
| Tables.Where | server/routes/wellbeingRoutes.js:33 | the rows kept are exactly those satisfying the `where` condition |
| Tables.InsertDesc | server/routes/wellbeingRoutes.js:34 | inserting into a descending sequence keeps it descending and adds exactly one element |
| Tables.SortDesc | server/routes/wellbeingRoutes.js:34 | `order: [[col, 'DESC']]`: the result is sorted descending and is a permutation of the input |
| Tables.SortDescDistinct | server/routes/productRoutes.js:92-95 | sorting does not duplicate a row id |
| Tables.Ordered | server/routes/productRoutes.js:92-95 | an ordered `findAll`: members are exactly the stored rows meeting the condition, descending by the key, each id once |
| Tables.Select | server/routes/dietRoutes.js:7 | an unordered `findAll`: exactly the rows meeting the condition, with their stored values |
| AuthMiddleware.Fields | server/middleware/authMiddleware.js:6 | `split(' ')`: at least one field, and a single field iff the text has no space |
| AuthMiddleware.FieldsHaveNoSpaces | server/middleware/authMiddleware.js:6 | no field of a split holds a space |
| AuthMiddleware.JoinFields | server/middleware/authMiddleware.js:6 | joining the fields of a split with single spaces gives back the original header |
| AuthMiddleware.ExtractToken | server/middleware/authMiddleware.js:5-6 | the token is absent iff the header is absent or holds no space; a token never holds a space |
| AuthMiddleware.TokenAfterFirstWord | server/middleware/authMiddleware.js:6 | the token is the text after the first space, up to the next space, whatever the first word is |
| AuthMiddleware.TokenOfWordAndToken | server/middleware/authMiddleware.js:6 | `<word> <t>` with no other spaces yields exactly `t` |
| AuthMiddleware.AuthResult.Status | server/middleware/authMiddleware.js:8-15 | 401 exactly for a missing token, 403 exactly for a rejected one |
| AuthMiddleware.Authenticate | server/middleware/authMiddleware.js:4-17 | no token or an empty token gives 401; a token `verify` rejects gives 403; otherwise the claims `verify` returns |
| AuthMiddleware.NoSpaceIsUnauthorized | server/middleware/authMiddleware.js:6-8 | a missing header, or one without a space, is answered with 401 |
| AuthMiddleware.EmptySecondFieldIsUnauthorized | server/middleware/authMiddleware.js:6-8 | `"Bearer "` or a double space after the word gives an empty token and so 401 |
| AuthMiddleware.BearerTokenAuthenticates | server/middleware/authMiddleware.js:4-13 | `Bearer <token>` with a token `verify` accepts authenticates as that token's claims |
| AuthMiddleware.Request.AuthenticateToken | server/middleware/authMiddleware.js:4-17 | on success `req.user` is the claims and `next` runs once with no status written; otherwise `req.user` is untouched, `next` does not run and the status is 401 or 403 |
| AuthRoutes.Blank | server/routes/authRoutes.js:12 | `!value` for a body string: the key is missing or the text is empty |
| AuthRoutes.EmailTaken | server/routes/authRoutes.js:17 | the `findOne({ where: { email } })` finds a row: some stored user has exactly this email |
| AuthRoutes.UserStore.Register | server/routes/authRoutes.js:9-30 | 400 for a missing or empty email or password, 409 for an email in use, otherwise 201 with a fresh id holding the hashed password; emails stay unique |
| AuthRoutes.RegisterKeepsEmailsUnique | server/routes/authRoutes.js:17-23 | adding a user whose email is not taken keeps emails unique and non-empty |
| AuthRoutes.UserStore.Login | server/routes/authRoutes.js:33-47 | unknown email gives 400; a password `compare` rejects gives 401; otherwise 200 with a token signed over the matching user's id; a missing email or password gives 500 |
| AuthRoutes.UserStore.ListUsers | server/routes/authRoutes.js:50-57 | one account per user, with exactly its id and email and no password hash |
| ProfileRoutes.ProfileOf | server/routes/profileRoutes.js:12-19 | the row `upsert` writes: the user id from the path and the five profile keys of the body |
| ProfileRoutes.HasProfile | server/routes/profileRoutes.js:31 | the `findOne({ where: { userId } })` finds a row: some stored profile belongs to the user |
| ProfileRoutes.ProfileStore.Save | server/routes/profileRoutes.js:7-25 | upsert: the user's existing row is overwritten, or a fresh row is added when there is none; other users' rows are unchanged; one profile per user holds |
| ProfileRoutes.ProfileStore.Get | server/routes/profileRoutes.js:28-40 | 404 iff the user has no profile; otherwise 200 with a stored profile of that user |
| ProductRoutes.MergeProduct | server/routes/productRoutes.js:38 | `update(req.body)`: each column key the body carries, `userId` included, overwrites that column and a null clears it; no row results iff the body nulls `name` or `userId` |
| ProductRoutes.MergeLog | server/routes/productRoutes.js:149 | a usage-log update: no row results iff dateUsed is null; otherwise each key sent overwrites its column and a null clears notes or sideEffects |
| ProductRoutes.MergeProductIdempotent | server/routes/productRoutes.js:38 | applying the same valid update twice is the same as applying it once |
| ProductRoutes.MergeProductEmpty | server/routes/productRoutes.js:38 | an update with no known keys changes nothing |
| ProductRoutes.MergeProductCanChangeOwner | server/routes/productRoutes.js:38-40 | a body carrying `userId` moves the product to that user |
| ProductRoutes.MergeProductNullDatesClear | server/routes/productRoutes.js:38 | null start and stop dates, as the edit screen sends for empty fields, clear both date columns |
| ProductRoutes.MergeLogNullClears | server/routes/productRoutes.js:149 | null notes and sideEffects clear both columns and keep the product, with the date as sent |
| ProductRoutes.MergeLogKeepsProduct | server/routes/productRoutes.js:149 | a usage-log update never moves the log to another product, and a body with none of the three keys leaves it as it was |
| ProductRoutes.ProductStore.Owned | server/routes/productRoutes.js:76 | the `findOne({ where: { id, userId } })` finds a row: the product exists and belongs to the user |
| ProductRoutes.ProductStore.ListProducts | server/routes/productRoutes.js:9-13 | exactly the caller's products |
| ProductRoutes.ProductStore.CreateProduct | server/routes/productRoutes.js:16-32 | a fresh row owned by the caller with the body's name, type, frequency and start date and no stop date; a missing name gives 500 and no row |
| ProductRoutes.ProductStore.UpdateProduct | server/routes/productRoutes.js:35-51 | 500 and no change when the body nulls `name` or `userId`; otherwise 404 and no change when the body carries no column key or the caller does not own the product; otherwise only that row changes, to the merge of the body |
| ProductRoutes.OwnerEmptyUpdateIsNotFound | server/routes/productRoutes.js:37-44 | the owner of a fresh product who sends a PUT body with no column key is answered 404 |
| ProductRoutes.LogsWithoutProduct | server/models/index.js:10 | the usage logs the cascade keeps: exactly those of other products, with their stored values |
| ProductRoutes.ProductStore.DeleteProduct | server/routes/productRoutes.js:54-68 | 404 and no change unless the caller owns the product; otherwise exactly that row is removed, together with exactly its usage logs |
| ProductRoutes.ProductStore.GetProduct | server/routes/productRoutes.js:102-118 | 404 unless the caller owns the product; otherwise that product |
| ProductRoutes.ProductStore.CreateUsageLog | server/routes/productRoutes.js:73-83 | 404 unless the caller owns the product; a null dateUsed leaves the request unanswered with no row; otherwise a fresh log for it, dated `dateUsed` or today when absent, with the notes or NULL, and no side effects |
| ProductRoutes.ProductStore.ListUsageLogs | server/routes/productRoutes.js:86-99 | 404 unless the caller owns the product; otherwise exactly its logs, latest `dateUsed` first |
| ProductRoutes.ProductStore.GetUsageLog | server/routes/productRoutes.js:121-136 | 404 unless the caller owns the product and the log belongs to it; otherwise that log |
| ProductRoutes.ProductStore.UpdateUsageLog | server/routes/productRoutes.js:139-151 | the same two 404 checks; a null dateUsed leaves the request unanswered and the log unchanged; otherwise only that log changes, to the merge of notes, dateUsed and sideEffects |
| DietRoutes.MergeDiet | server/routes/dietRoutes.js:56 | `update(req.body)`: each column key the body carries, `userId` and `date` included, overwrites that column and a null clears it; no row results iff the body nulls `userId` or `date` |
| DietRoutes.MergeDietNullClearsWater | server/routes/dietRoutes.js:56 | a null waterIntake, as the edit screen sends for an empty field, clears the column |
| DietRoutes.MergeDietEmpty | server/routes/dietRoutes.js:56 | a body with no column keys changes nothing |
| DietRoutes.LoggedOn | server/routes/dietRoutes.js:28-30 | the same-day `findOne({ where: { userId, date } })` finds a row: the user has a log for that day |
| DietRoutes.InsertKeepsOnePerDay | server/routes/dietRoutes.js:28-42 | adding a log for a user and day not yet logged keeps at most one log per user and day |
| DietRoutes.RemoveKeepsOnePerDay | server/routes/dietRoutes.js:61 | deleting rows keeps at most one log per user and day |
| DietRoutes.UpdateCanBreakOnePerDay | server/routes/dietRoutes.js:52-58 | some update gives a user two logs for one day: PUT does not keep the rule POST keeps |
| DietRoutes.DietStore.ListForUser | server/routes/dietRoutes.js:6-9 | exactly the logs of the user named in the path, whoever is calling |
| DietRoutes.DietStore.ListMine | server/routes/dietRoutes.js:12-20 | exactly the caller's logs |
| DietRoutes.DietStore.Create | server/routes/dietRoutes.js:23-49 | 400 without a date; 409 when the caller has already logged that day; otherwise 201 with a fresh row for the caller; one log per user and day is kept |
| DietRoutes.DietStore.Update | server/routes/dietRoutes.js:52-58 | 404 iff no row has the id; a body nulling `userId` or `date` leaves the request unanswered and the row unchanged; otherwise only that row changes, to the merge of the body, whoever owns it |
| DietRoutes.DietStore.Delete | server/routes/dietRoutes.js:60-63 | the row with that id is gone; `success` iff there was one; one log per user and day is kept |
| WellbeingRoutes.WellbeingStore.Create | server/routes/wellbeingRoutes.js:9-28 | 201 with exactly one new row for the caller, even for a day already logged; sleepHours is the body's sleepDuration and the date is today, whatever date the body carries |
| WellbeingRoutes.WellbeingStore.List | server/routes/wellbeingRoutes.js:31-37 | exactly the caller's logs, latest createdAt first, each once |
| Text.Trim | client/utils/formatting.ts:16 | `trim` removes whitespace at the two ends and nothing else: the result is a slice of the input with only whitespace before and after it, and it neither starts nor ends with whitespace |
| Text.TrimStart | client/utils/formatting.ts:16 | removes a prefix that is all whitespace, and leaves a result that does not start with whitespace |
| Text.TrimEnd | client/utils/formatting.ts:16 | removes a suffix that is all whitespace, and leaves a result that does not end with whitespace |
| Text.TrimPadded | client/utils/formatting.ts:16 | `trim` removes exactly the whitespace around a word that neither starts nor ends with whitespace |
| Text.Lower | client/utils/formatting.ts:16 | `toLowerCase` maps each character in place and keeps the length |
| Text.LowerIdempotent | client/utils/formatting.ts:16 | lower-casing twice is lower-casing once |
| Text.Contains | client/app/products/add-product.tsx:35 | `includes` is true iff the needle occurs at some position of the haystack |
| Formatting.KnownFrequency | client/utils/formatting.ts:18-26 | the `switch`: 'daily', 'twice daily', 'weekly' and 'as needed' have the display names 'Daily', 'Twice Daily', 'Weekly' and 'As Needed'; no other value has one |
| Formatting.FormatFrequency | client/utils/formatting.ts:13-30 | 'Not specified' for a missing or empty value; otherwise the display name of the trimmed, lower-cased value, or the input itself when it is not recognised |
| Formatting.NormalizesTo | client/utils/formatting.ts:16 | a word without surrounding whitespace normalises to its lower-cased form |
| Formatting.ShownAs | client/utils/formatting.ts:16-26 | a word without surrounding whitespace that lower-cases to a recognised value is shown as that value's display name |
| Formatting.KnownFrequencies | client/utils/formatting.ts:19-26 | 'daily', 'twice daily', 'weekly' and 'as needed' show as 'Daily', 'Twice Daily', 'Weekly' and 'As Needed' |
| Formatting.FrequencyIgnoresPaddingAndCase | client/utils/formatting.ts:16-26 | surrounding whitespace and letter case do not change the display name of a recognised value |
| Formatting.PaddedUpperDaily | client/utils/formatting.ts:16-20 | " DAILY " shows as 'Daily' |
| Formatting.UnknownIsUnchanged | client/utils/formatting.ts:27-28 | an unrecognised value is shown exactly as given, neither trimmed nor lower-cased |
| Formatting.NotSpecifiedFixed | client/utils/formatting.ts:14-28 | 'Not specified' is not a recognised value and so is shown as given |
| Formatting.DailyFixed | client/utils/formatting.ts:19-20 | 'Daily' is shown as 'Daily' |
| Formatting.TwiceDailyFixed | client/utils/formatting.ts:21-22 | 'Twice Daily' is shown as 'Twice Daily' |
| Formatting.WeeklyFixed | client/utils/formatting.ts:23-24 | 'Weekly' is shown as 'Weekly' |
| Formatting.AsNeededFixed | client/utils/formatting.ts:25-26 | 'As Needed' is shown as 'As Needed' |
| Formatting.DisplayNameFixed | client/utils/formatting.ts:14-26 | every output of `formatFrequency` other than an unrecognised input formats to itself |
| Formatting.FormatFrequencyIdempotent | client/utils/formatting.ts:13-30 | formatting an output of `formatFrequency` again gives the same text |
| Formatting.FormatDate | client/utils/formatting.ts:3-11 | 'N/A' for a missing or empty date; otherwise whatever the locale rendering gives |
| ClientRequest.BearerHeader | client/app/lifestyle/add-wellbeing-log.tsx:57 | `Bearer ${token}`: the word `Bearer`, one space, then the stored token, or the text `null` when there is none |
| ClientRequest.StoredTokenAuthenticates | client/app/lifestyle/add-wellbeing-log.tsx:57 | `Bearer ${token}` with a token the server signed authenticates at the middleware as that token's claims |
| ClientRequest.MissingTokenSendsNull | client/app/products/add-product.tsx:59 | with no stored token the header carries the token text `null`, which fails unless `verify` accepts it |
| AddWellbeingLog.StressLevelLabel | client/app/lifestyle/add-wellbeing-log.tsx:35-39 | 'Low' iff the value is at most 3, 'Moderate' iff it is 4 to 6, 'High' iff it is at least 7 |
| AddWellbeingLog.StressLevelLabelMonotone | client/app/lifestyle/add-wellbeing-log.tsx:35-39 | a larger value never gets a lower band |
| AddWellbeingLog.SubmitPayload | client/app/lifestyle/add-wellbeing-log.tsx:42-55 | nothing is sent iff mood or sleep duration is empty; otherwise the mood, the band label of the slider value and the parsed sleep duration |
| AddWellbeingLog.SubmittedStressIsBand | client/app/lifestyle/add-wellbeing-log.tsx:53 | the stress level sent is always one of the three labels, never the number |
| AddWellbeingLog.WellbeingForm.constructor | client/app/lifestyle/add-wellbeing-log.tsx:22-33 | the screen opens with no mood, the slider at 5, no sleep duration, and nothing posted or shown |
| AddWellbeingLog.WellbeingForm.HandleSubmit | client/app/lifestyle/add-wellbeing-log.tsx:41-67 | an incomplete form shows a validation alert and posts nothing; otherwise exactly one request with the bearer header and the payload, then a success or error alert |
| AddWellbeingLog.SubmitUntouchedForm | client/app/lifestyle/add-wellbeing-log.tsx:22-45 | submitting the screen as it opens posts nothing and shows the validation alert |
| AddWellbeingLog.SubmitReachesServer | server/routes/wellbeingRoutes.js:9-28 | a submitted form, handled by POST /wellbeing-log for a signed-in user, creates nothing iff mood or sleep duration is empty; otherwise the log holds the user's id, the mood, the band label of the slider, `parseFloat` of the sleep duration as sleepHours, and the day of the server's clock |
| AddProduct.Matches | client/app/products/add-product.tsx:35 | a suggestion matches when its lower-cased name contains the lower-cased text |
| AddProduct.FilterSuggestions | client/app/products/add-product.tsx:34-36 | exactly the suggestions whose lower-cased name contains the lower-cased text |
| AddProduct.FilterConcat | client/app/products/add-product.tsx:34-36 | the filter distributes over concatenation, so matches keep their original order |
| AddProduct.FilterSingle | client/app/products/add-product.tsx:34-36 | one item is kept iff it matches |
| AddProduct.FilterEmptyText | client/app/products/add-product.tsx:34-36 | empty text keeps every suggestion |
| AddProduct.SavePayload | client/app/products/add-product.tsx:51-57 | name, type and frequency as entered; the dates as their calendar days; a null end date iff none was picked |
| AddProduct.AddProductForm.constructor | client/app/products/add-product.tsx:22-29 | the form opens with empty name and type, frequency 'daily', start now, no end date and no suggestions |
| AddProduct.AddProductForm.HandleNameChange | client/app/products/add-product.tsx:32-38 | the name becomes the typed text, whatever matches, and the matching suggestions are shown |
| AddProduct.AddProductForm.HandleSuggestionSelect | client/app/products/add-product.tsx:40-44 | the name and type become the item's, and the suggestion list is emptied |
| AddProduct.AddProductForm.HandleSave | client/app/products/add-product.tsx:46-68 | exactly one request with the bearer header and the payload of the current form, then a saved or error alert |
| AddProduct.SaveUntouchedForm | client/app/products/add-product.tsx:24-56 | saving the form as it opens sends frequency 'daily', today's start day and a null end date |
| AddProduct.SaveReachesServer | server/routes/productRoutes.js:18-25 | a saved form, handled by POST /product for a signed-in user, creates a product with the user's id, the entered name, type and frequency, and the start day; its stop date is null even when an end date was picked |
| Session.RegisterLoginAndLogDiet | server/routes/authRoutes.js:9-47 | on empty tables, register, then login, then a diet POST with the returned token stores the log under the new user's id |

## Left out

- Network, routing, JSON parsing, logging, React rendering, navigation and secure storage are left out. The stored token is a parameter and each post is recorded as one request.
- server/server.js (start-up and router mounting) and the Sequelize models are left out, except for the delete cascade that `sync` builds from the product–usage-log association. The models only give the row shapes and the non-null columns.
- models/User.js is not part of this model. A user row is taken to be the email plus the password hash that authRoutes.js writes.
- Concurrency is left out. The handlers run one at a time, so the gap between a lookup and the insert it guards is not modelled.
- JSON `null` is told apart from a missing key only in the PUT bodies and the usage-log POST body. In the bodies of register, login, profile, product POST, diet POST and well-being POST, both are `None`.
- A path id is modelled as an integer. `parseInt` giving NaN, and ids that are not numbers, are not modelled.
- Keys of a PUT body that are not columns, and an `id` key in it, are not modelled.
- The order of rows that tie on the sort key is unspecified in the source and is not fixed by the model.
- JWT claims without `userId` are not modelled. `verify` returns claims that always carry a user id.
- Floating-point numbers are left out. Sleep hours are opaque: `parseFloat` is a parameter whose None result stands for NaN.
- Date values are day numbers. `toISOString`, `toLocaleDateString` and time zones are not modelled, and the locale rendering in `formatDate` is a parameter.
- The random salt of `bcrypt.hash` is folded into the `hash` parameter.
- A database error in a `try` block, which the handlers answer with 500, is not modelled. Only the 500s that follow from a missing key are.
- The fixed suggestion list (utils/productSuggestions) is not part of this model. It is the form's `suggestions` constant.
- The other client screens, including client/app/lifestyle/add-wellbing-log.tsx and client/app/products/log-usage.tsx, are not part of this model.
- Text.Lower: only the ASCII letters A to Z are lower-cased; `toLowerCase` maps other Unicode letters too, and for some of them (`"\u0130"` becomes two code units) it changes the length, which the model's length-preserving contract does not capture.
- AddWellbeingLog.StressLevelLabel: the slider value is an integer (the slider steps by 1 from 1 to 10); other numbers are not modelled.
- ProfileRoutes.ProfileStore.Save: the upsert is modelled as a replacement of the whole row. Sequelize's `upsert` writes only the attributes that are set, so a body that leaves a key out would keep that stored column; both client screens that save a profile send all five keys.
- WellbeingRoutes.WellbeingStore.Create: models the handler as it would run with `WellBeingLog` exported; as wired, the missing export makes every create fail with 500.
