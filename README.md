# AnantAttire backend core in Dafny

This project models the core of the AnantAttire e-commerce backend, an Express
application over MongoDB (Mongoose), and proves properties of that model. It covers
four parts:

- **Visitor analytics.** The event store accepts, fetches and deletes events. The
  analytics event schema decides which payloads are stored. The report engine
  serves GET /reports: it projects every event to day, week, month and hour keys in
  one time zone, groups by a key, and then averages event counts (avg-visitor) or
  distinct-visitor counts (uniq-visitor), or lists hourly counts in key order
  (localTime).
- **Accounts.** Registration, login, forgot-password with a one-time code (OTP),
  OTP validation, password reset and logout. Logout puts the token on a blacklist.
  The `auth` middleware guards the protected routes: it checks the Bearer header,
  then the blacklist, then the JWT, then the user. The users router offers the admin
  listing, the admin update, and the caller's own profile read and update. Its route
  table and Express's first-match dispatch, whose literal segments match in any
  letter case, are modelled too.
- **Order queries.** The Query schema, the create route with its guards and
  defaults, the newest-first listing, the status update, and get and delete.
- **Products.** The Product schema, the create route's ordered guard chain and
  defaults, the listing filter built from optional query parameters, and get,
  update and delete.

Every collection is a sequence of documents in natural (insertion) order. Each
document carries a numeric id taken from a per-store counter, so ids ascend along
the sequence. Route handlers that change a collection are methods of a class that
owns the sequence. The schema checks, filters, reports and guard chains are pure
functions. Foreign libraries are parameters with stated properties: jsonwebtoken,
bcryptjs, `Math.random`, and MongoDB's calendar formatting.

Files:

- `wrappers.dfy`: Option and Response types.
- `text.dfy`: the JavaScript string operations the routes use, over ASCII.
- `collection.dfy`: collection lookups, filters and removals.
- `schema.dfy`: how Mongoose names failing array-element paths.
- `analytics_schema.dfy`, `analytics_reports.dfy`, `analytics_store.dfy`: analytics.
- `tokens.dfy`: JWT, bcrypt, OTP code and Bearer header.
- `blacklist.dfy`: the token blacklist collection.
- `accounts.dfy`: the account service and the `auth` gate.
- `routing.dfy`: the users route table.
- `queries.dfy`: order queries.
- `products.dfy`: products.

## Model

| member | source | states |
|---|---|---|
| AnalyticsSchema.ParseType | models/Analytics.js:9 | the type enum accepts exactly "pageview", "session_end" and "engagement", and names the type it accepts |
| AnalyticsSchema.ParseTypeName | models/Analytics.js:9 | every event type's name is accepted as that type |
| AnalyticsSchema.Cast | models/Analytics.js:16-64 | null always passes; a String path takes any scalar; a Boolean path takes exactly true, false, their string forms, 1, 0, "1", "0", "yes" and "no"; a Number path takes numbers and booleans and may fail only on text; what passes has the path's type |
| AnalyticsSchema.CastCanonical | models/Analytics.js:16-64 | a value a cast produced casts to itself again |
| AnalyticsSchema.CastNumberText | models/Analytics.js:29 | a number sent as text to a Number path is stored as that number |
| AnalyticsSchema.StoredDetails | models/Analytics.js:16-64 | the stored descriptive paths are exactly those sent, each holding its cast value |
| AnalyticsSchema.StringDetailsVerbatim | models/Analytics.js:17-28 | a String descriptive path stores the text it was sent, unchanged |
| AnalyticsSchema.CoreViolations | models/Analytics.js:6-13 | visitorId and sessionId fail iff missing or empty, type iff outside the enum, timestamp iff not a date, sessionStart and geolocation.timestamp iff present but not a date; no descriptive path is among them |
| AnalyticsSchema.DetailViolations | models/Analytics.js:16-64 | a descriptive path fails iff it was sent a value its type cannot cast; none fails iff every sent value casts |
| AnalyticsSchema.Violations | models/Analytics.js:4-67 | every path is reported as failing exactly when its own validator or cast fails, whatever the other paths hold |
| AnalyticsSchema.Validate | models/Analytics.js:4-67 | a payload is stored iff visitorId and sessionId are non-empty, type is in the enum, timestamp is a date, sessionStart and geolocation.timestamp are absent or dates, and every descriptive value casts to its path's type; a stored event is well formed; a rejection lists exactly the failing paths, at least one |
| AnalyticsSchema.ColorDepthRejected | models/Analytics.js:29 | a word sent to colorDepth rejects the event and names colorDepth |
| AnalyticsSchema.ValidateToPayload | models/Analytics.js:4-67 | every well-formed event is accepted unchanged when submitted |
| AnalyticsSchema.ValidateKeepsFields | models/Analytics.js:6-65 | an accepted payload is stored field for field, with isNewVisitor defaulting to false and the descriptive paths cast |
| AnalyticsSchema.DetailsDoNotMatter | models/Analytics.js:16-64 | once every descriptive value casts, which values they are never decides validity |
| AnalyticsReports.Project | routes/analyticsRoutes.js:25-39 | the projection stage yields one row per event, in order, with the four calendar keys and the visitor |
| AnalyticsReports.CountPositive | routes/analyticsRoutes.js:45 | a key has a group iff at least one event falls in it |
| AnalyticsReports.VisitorsBounded | routes/analyticsRoutes.js:67-68 | an occupied bucket has at least one and at most as many distinct visitors as events |
| AnalyticsReports.GroupByTallies | routes/analyticsRoutes.js:43-54 | the group stage yields exactly one group per occupied key, with distinct ids, each group's event count, and its set of visitors |
| AnalyticsReports.TallySum | routes/analyticsRoutes.js:45 | feeding one event to the groups adds exactly one to the summed counts |
| AnalyticsReports.GroupBySum | routes/analyticsRoutes.js:57 | the group counts add up to the number of events |
| AnalyticsReports.GroupCount | routes/analyticsRoutes.js:57 | there are as many groups as distinct keys |
| AnalyticsReports.UniqueSumAtMostTotal | routes/analyticsRoutes.js:82 | the summed distinct-visitor counts never exceed the summed event counts |
| AnalyticsReports.AverageMonotone | routes/analyticsRoutes.js:57-59 | over the same divisor, a smaller sum gives a smaller average |
| AnalyticsReports.Rows | routes/analyticsRoutes.js:92 | one hourly row per group, carrying its key and count |
| AnalyticsReports.InsertRow | routes/analyticsRoutes.js:93 | inserting a row of a new hour keeps the rows strictly ascending, adds exactly that row, and adds its count to the total |
| AnalyticsReports.SortRows | routes/analyticsRoutes.js:93 | the sort stage returns the same rows, with the same total, strictly ascending by hour key |
| AnalyticsReports.RowsSum | routes/analyticsRoutes.js:92 | the hourly rows add up to the summed group counts |
| AnalyticsReports.Report | routes/analyticsRoutes.js:18-104 | the report succeeds with 200 iff the type is avg-visitor, uniq-visitor or localTime, otherwise 400 with the usage message; only localTime yields hourly rows |
| AnalyticsReports.AvgVisitorIsEventsPerBucket | routes/analyticsRoutes.js:41-60 | each avg-visitor average is the number of events over the number of occupied days, weeks or months (over 1 with no events) |
| AnalyticsReports.UniqVisitorCounts | routes/analyticsRoutes.js:63-79 | each uniq-visitor group holds exactly the distinct visitors of its bucket: at least one, at most its event count |
| AnalyticsReports.UniqAtMostTotalFor | routes/analyticsRoutes.js:82-84 | per bucket kind, the distinct-visitor average is at most the event average |
| AnalyticsReports.UniqAtMostAvg | routes/analyticsRoutes.js:41-86 | for the same events and zone, every uniq-visitor average is at most the matching avg-visitor average |
| AnalyticsReports.NoEventsAveragesZero | routes/analyticsRoutes.js:57-59 | with no events, both averaging reports answer 0 over 1 for day, week and month |
| AnalyticsReports.RowsOfTallies | routes/analyticsRoutes.js:90-94 | the hourly rows are exactly one row per occupied hour, each with that hour's event count |
| AnalyticsReports.LocalTimeRows | routes/analyticsRoutes.js:88-97 | localTime lists every occupied hour once, with its count, in strictly ascending key order, and the counts add up to the number of events |
| AnalyticsReports.DefaultZone | routes/analyticsRoutes.js:23 | an absent or empty timezone gives the same report as "UTC" |
| AnalyticsReports.FixedOffsetHour | routes/analyticsRoutes.js:35-37 | the hour key of an instant in a fixed-offset zone is two digits below 24 |
| AnalyticsReports.FixedOffsetHourOrder | routes/analyticsRoutes.js:93 | ordering fixed-offset hour keys as strings agrees with ordering the hours as numbers |
| AnalyticsStore.EventStore.Ingest | routes/analyticsRoutes.js:7-15 | a body that validates, descriptive casts included, is stored under the next id and answered with 201; any other gets 400 with the names of exactly the failing paths and nothing is stored |
| AnalyticsStore.PathNames | routes/analyticsRoutes.js:12-13 | the response names every failing path and nothing else |
| AnalyticsStore.EventStore.Get | routes/analyticsRoutes.js:109-117 | 200 with the event of that id iff one exists, otherwise 404 "Not found" |
| AnalyticsStore.EventStore.Delete | routes/analyticsRoutes.js:120-128 | an existing id is removed (200 "Deleted successfully"), otherwise 404 and nothing changes |
| AnalyticsStore.EventStore.Reports | routes/analyticsRoutes.js:18-104 | the report is computed over every stored event |
| AnalyticsStore.DeleteRemovesOnlyThat | routes/analyticsRoutes.js:122 | deleting an existing id removes exactly one event and keeps every other |
| AnalyticsStore.IngestThenGet | routes/analyticsRoutes.js:10-11 | an ingested event can be fetched back by the id it was given |
| Text.Lower | routes/auth.js:34 | lowering keeps the length and lowers each ASCII letter |
| Text.LowerIsLowerCase | routes/auth.js:34 | lowering yields a lower-case string and is idempotent |
| Text.TrimStart | models/Otp.js:5 | the result is a suffix of the string, all that is cut off is white space, and it does not start with white space |
| Text.TrimEnd | models/Otp.js:5 | the result is a prefix of the string, all that is cut off is white space, and it does not end with white space |
| Text.Trim | models/Otp.js:5 | the trimmed string is the slice of the string between a leading and a trailing run of white space, and neither starts nor ends with white space |
| Text.Split | middleware/auth.js:12 | splitting on spaces yields at least one field, none of which holds a space |
| Text.SplitJoin | middleware/auth.js:12 | joining the fields of a split with spaces gives back the string |
| Text.Decimal | routes/auth.js:23 | printing a number gives a non-empty digit string |
| Text.DecimalRoundTrip | routes/auth.js:23 | a printed number reads back as itself |
| Text.Contains | routes/productRoutes.js:90 | a string contains a pattern iff the pattern occurs at some position |
| Tokens.Jwt.Verify | middleware/auth.js:18 | a token verifies iff it is non-empty, correctly signed and decodes, and its exp, when present, lies after the current second; it then yields exactly its decoded claims |
| Tokens.VerifyFailsForever | middleware/auth.js:18 | a token that fails verification fails at every later instant |
| Tokens.FreshTokenVerifies | routes/auth.js:15-19 | a freshly signed token verifies with its user's id for its whole lifetime and fails once it is over |
| Tokens.GenOtpCode | routes/auth.js:21-24 | the code is six digits, from 100000 to 999999 |
| Tokens.GenOtpCodeCovers | routes/auth.js:21-24 | every code from 100000 to 999999 can be drawn |
| Tokens.BearerToken | middleware/auth.js:12 | the token is the second space-separated field of the header and holds no space |
| Tokens.BearerTokenOf | middleware/auth.js:9-12 | a "Bearer " header around a space-free token yields that token |
| Tokens.DoubleSpaceEmptyToken | middleware/auth.js:12 | a second space after "Bearer" yields the empty token |
| Blacklist.StoreAsWritten | models/TokenBlacklist.js:3-13 | a saved entry keeps the token and the save time, and its expiry is dropped |
| Blacklist.StoreCorrected | routes/auth.js:197 | with expiresAt declared, a saved entry keeps the token, the save time and the expiry |
| Blacklist.Sweep | models/Otp.js:7 | the TTL monitor keeps exactly the entries whose expiry has not passed, and keeps tokens unique |
| Blacklist.TokenSet | middleware/auth.js:15 | the blacklisted tokens are exactly those of some entry |
| Blacklist.AsWrittenNeverSwept | models/TokenBlacklist.js:3-13 | under the schema as written, an entry survives every sweep at every instant |
| Blacklist.AsWrittenOutlivesExpiry | routes/auth.js:192-198 | a token logged out with an expiry of 1000 ms is still blacklisted a day later |
| Blacklist.CorrectedExpires | routes/auth.js:197 | under the corrected schema, an entry is kept exactly until its expiry has passed |
| Blacklist.SweepShrinks | models/Otp.js:7 | sweeping never adds a token |
| Accounts.ProfileOf | routes/users.js:90-92 | a profile carries every user field except the password |
| Accounts.Profiles | routes/users.js:16 | the listing holds one profile per user, in order |
| Accounts.ByEmailOrUsername | routes/auth.js:33-35 | the user found holds the email or the username; none is found iff no user holds either |
| Accounts.ByEmail | routes/auth.js:99 | the user found holds the email; none is found iff no user holds it |
| Accounts.ByUsername | routes/users.js:76 | the user found holds the username; none is found iff no user holds it |
| Accounts.FindOtp | routes/auth.js:142 | the record found is stored under the key; none is found iff no record is |
| Accounts.UpsertOtp | routes/auth.js:109-113 | after the upsert the email has exactly the new record, other emails keep theirs, and emails stay unique |
| Accounts.DeleteOtp | routes/auth.js:178 | after the delete the email has no record, other records stay, and emails stay unique |
| Accounts.SweepOtps | models/Otp.js:7 | the TTL monitor keeps exactly the records whose expiry has not passed |
| Accounts.UserOf | middleware/auth.js:19 | a user is found iff the payload has an id and a stored user has it; the user found is stored and has that id |
| Accounts.Authenticate | middleware/auth.js:6-29 | no Bearer header gives 401 "No token provided"; a blacklisted token gives "Token invalidated (logged out)"; a failed verification gives "Authentication failed"; an unknown user gives "Invalid token"; otherwise the caller passes with the stored user whose id the verified token carries, and the token |
| Accounts.SweepKeepsRevokedRejected | models/TokenBlacklist.js:3-13 | with the corrected schema, sweeping the blacklist never readmits a logged-out token |
| Accounts.TickKeepsRevokedRejected | middleware/auth.js:15-18 | time passing keeps logged-out tokens rejected |
| Accounts.LogoutEntryLapses | routes/auth.js:191-197 | for a token that verifies now, the recorded expiry is the instant it stops verifying |
| Accounts.Patched | routes/users.js:33-43 | the admin update sets exactly the truthy fields: the email lowered, the password hashed, the id kept |
| Accounts.PatchEmpty | routes/users.js:33-43 | a body without truthy fields changes nothing |
| Accounts.PatchTwice | routes/users.js:33-43 | applying the same password-free update twice is applying it once |
| Accounts.AccountService.Sweep | models/Otp.js:7 | expired OTP records and blacklist entries go; users and logged-out tokens are kept, and logged-out tokens stay rejected |
| Accounts.AccountService.Register | routes/auth.js:27-66 | a missing field gives 400; an email (lowered) or username already held gives 400; otherwise an admin with the hashed password is stored under the next id, the id counter advances by one, and the answer summarises the user without the password; a failure leaves users and the counter alone; OTPs, blacklist, clock and logged-out tokens never change |
| Accounts.AccountService.Login | routes/auth.js:69-91 | missing fields give 400; an unknown user and a wrong password both give 400 "Invalid credentials"; otherwise a token signed for the user's id |
| Accounts.RegisteredUserLogsIn | routes/auth.js:41-42 | with a sound bcrypt, a user just registered is found by the login lookup on their email and the password given at registration matches the stored hash (given that no user holds the email text as a username) |
| Accounts.AccountService.ForgotPassword | routes/auth.js:94-133 | a missing email gives 400; otherwise the answer is the same 200 whether the email is registered or not, and only a registered email gets a fresh six-digit code, replacing any earlier one, expiring after the configured minutes |
| Accounts.AccountService.ValidateOtp | routes/auth.js:136-153 | missing fields give 400; no record gives "Invalid or expired OTP"; a different code gives "Invalid OTP"; otherwise "OTP valid"; nothing changes |
| Accounts.AccountService.ResetPassword | routes/auth.js:156-185 | it succeeds iff all fields are given, the stored code matches, and the user exists; then only that user's password changes and the OTP is deleted, so the code cannot be reused; every failure is a 400 that changes nothing; after the fields, a missing OTP gives "Invalid or expired OTP", a different code "Invalid OTP", and a missing user "User not found", in that order |
| Accounts.AccountService.Gate | middleware/auth.js:6-29 | the gate answers as the middleware does, and a token that passes was never logged out |
| Accounts.AccountService.Logout | routes/auth.js:188-204 | a caller refused by the gate gets 401 and nothing changes; otherwise the token is blacklisted until its own expiry |
| Accounts.AccountService.ListUsers | routes/users.js:11-22 | a caller refused by the gate gets 401, a non-admin 403, an admin every user's profile |
| Accounts.AccountService.AdminUpdate | routes/users.js:25-53 | 401 from the gate, then 403 for a non-admin, then 404 for an unknown id, with no change; otherwise only that user changes, by the truthy fields |
| Accounts.AccountService.BuildUpdate | routes/users.js:33-43 | the update built one truthy field at a time is the patched user |
| Accounts.AccountService.GetProfile | routes/users.js:56-63 | a caller who passes the gate gets their own profile |
| Accounts.AccountService.UpdateProfile | routes/users.js:66-97 | an email or username held by someone else gives 400 and no change (the caller's own email in another case is not a conflict); otherwise only the caller changes, and the role cannot be set |
| UsersRouting.DispatchFromFirst | routes/users.js:11-97 | dispatch picks the handler of the first matching route, and finds none iff no route matches |
| UsersRouting.DispatchIsFirstMatch | routes/users.js:11-97 | the same, from the start of the table |
| UsersRouting.ProfileUpdateUnreachable | routes/users.js:25 | as registered, no request reaches the profile update, and PUT /profile reaches the admin update |
| UsersRouting.CorrectedDispatch | routes/users.js:66 | with the profile routes first, PUT /profile in any letter case reaches the profile update and any other non-empty single-segment PUT still reaches the admin update |
| UsersRouting.CorrectedOnlyMovesProfile | routes/users.js:11-97 | the reordering changes where PUT /profile, in any letter case, goes and nothing else |
| Schema.ElementViolationsEmpty | models/Query.js:12-25 | an array raises no violation iff no element misses a required path |
| Queries.ParseStatus | routes/queryRoutes.js:136-137 | a status is accepted iff it is exactly one of the five names, and names the status accepted |
| Queries.ParseStatusName | models/Query.js:31-35 | every status's name is accepted as that status |
| Queries.ItemMissing | models/Query.js:14-24 | an item misses nothing iff it has productId, a non-empty productName, quantity, price and a non-empty thumbnail |
| Queries.Violations | models/Query.js:11-29 | the schema finds no violation iff every item has its required paths and totalAmount and itemCount are given |
| Queries.Build | routes/queryRoutes.js:21-26 | the stored query is well formed, pending, stamped now; the customer, items, totalAmount and itemCount are as given; the message defaults to "" and the timestamp to now |
| Queries.TotalsNotChecked | models/Query.js:27-28 | an order of one item with itemCount 7 and totalAmount 0 is accepted as given |
| Queries.CreateIgnoresStatus | routes/queryRoutes.js:21-26 | a status in the create body is ignored: the query starts pending |
| Queries.WithStatus | routes/queryRoutes.js:141-145 | the update sets the status and the update time and nothing else, and keeps the query well formed |
| Queries.InsertNewest | routes/queryRoutes.js:110 | inserting into a newest-first list keeps it newest first and adds exactly that query |
| Queries.SortNewestFirst | routes/queryRoutes.js:110 | the listing is a permutation of the queries, newest first |
| Queries.QueryStore.Create | routes/queryRoutes.js:7-105 | a missing customer field gives 400 before the order is looked at; a missing or empty order gives 400; a schema failure gives 500 with the failing paths; in each case nothing is stored and the id counter is unchanged; otherwise the built query is appended under the next id, answered with 201, and the counter advances by one |
| Queries.QueryStore.List | routes/queryRoutes.js:108-116 | the listing holds exactly the stored queries, newest first |
| Queries.QueryStore.Get | routes/queryRoutes.js:119-128 | 200 with the query of that id, or 404 "Query not found" |
| Queries.QueryStore.SetStatus | routes/queryRoutes.js:131-156 | an invalid status gives 400 before any lookup; an unknown id gives 404; both change nothing; otherwise only that query's status and update time change |
| Queries.QueryStore.Delete | routes/queryRoutes.js:158-171 | an unknown id gives 404 and nothing changes; otherwise exactly that query is removed and returned |
| Queries.SetStatusTouchesOne | routes/queryRoutes.js:141-145 | a status update leaves every other query as it was, and the updated query is found under its id |
| Queries.DeleteThenGone | routes/queryRoutes.js:160 | after a delete, the id finds nothing |
| Products.SomeMissing | routes/productRoutes.js:47 | true iff some element lacks a truthy field |
| Products.FirstError | routes/productRoutes.js:30-54 | no error iff all six checks pass; otherwise the error is the message of the first failing check, and every earlier check passed |
| Products.ZeroPriceRejected | routes/productRoutes.js:30 | an originalPrice of 0 is refused with the required-fields message, whatever else the body holds |
| Products.ImageMissing | models/Product.js:14-19 | an image misses nothing iff it has a public_id and a url |
| Products.ImageViolations | models/Product.js:14-19 | the schema finds no image violation iff every image has a public_id and a url |
| Products.Build | routes/productRoutes.js:57-72 | the stored product is well formed and keeps the given fields; ratings, details, sizes, colors, label, featured and isActive take their defaults when falsy; inStock is true |
| Products.DefaultsWhenAbsent | routes/productRoutes.js:64-71 | a body without optional paths gets ratings 0, empty details, no sizes or colors, label "", not featured, not active, in stock |
| Products.Apply | routes/productRoutes.js:122 | the update keeps the id and creation time and stamps the update time |
| Products.ApplyNothing | routes/productRoutes.js:122 | an update that sets nothing only moves the update time |
| Products.ApplyIdempotent | routes/productRoutes.js:122 | applying the same update twice is applying it once |
| Products.ApplyCompose | routes/productRoutes.js:122 | two successive updates store what one update with both their paths stores, the later one winning where both set a path |
| Products.ApplyKeepsWellFormed | routes/productRoutes.js:122 | from a well-formed product, an update leaves it well formed iff every path it sets would pass the required validators |
| Products.UpdateSkipsValidation | routes/productRoutes.js:122-124 | the update runs no validators, so it can store an empty name that create would refuse |
| Text.ToNumberOfDecimal | routes/productRoutes.js:93-94 | a decimal number, with or without a minus sign, converts back to itself |
| Text.NumberOfText | routes/productRoutes.js:93-94 | Number() reads back every integer as String() writes it |
| Text.NumberOfBlank | routes/productRoutes.js:93-94 | blank text reads as 0 |
| Text.NumberOfWord | routes/productRoutes.js:93-94 | text starting with a character that is no digit, sign or white space reads as NaN |
| Products.BuildFilter | routes/productRoutes.js:87-95 | the filter admits a product iff it satisfies every supplied parameter, and it casts iff every supplied price is a number |
| Products.NoParamsAdmitAll | routes/productRoutes.js:88 | with no parameters every product is listed |
| Products.PriceBounds | routes/productRoutes.js:91-95 | minPrice and maxPrice are independent inclusive bounds on the discounted price |
| Products.NameMatchIgnoresCase | routes/productRoutes.js:90 | the name match ignores case on both sides and finds every exact substring |
| Products.ProductStore.Create | routes/productRoutes.js:10-79 | a failed check gives 400 with its message; a schema failure on the images gives 400 with the failing paths; both store nothing and leave the id counter unchanged; otherwise the built product is appended under the next id, answered with 201, and the counter advances by one |
| Products.ProductStore.List | routes/productRoutes.js:85-102 | the listing holds exactly the stored products the parameters admit, or 500 when a price is not a number |
| Products.ProductStore.Get | routes/productRoutes.js:107-115 | 200 with the product of that id, or 404 "Product not found" |
| Products.ProductStore.Update | routes/productRoutes.js:120-129 | an unknown id answers 200 with null and changes nothing; otherwise only that product changes |
| Products.ProductStore.Delete | routes/productRoutes.js:134-149 | an unknown id gives 404 and nothing changes; otherwise exactly that product is removed |
| Products.DeleteRemovesOnly | routes/productRoutes.js:142 | a delete removes exactly one product and keeps every other |
| Collection.Lookup | routes/analyticsRoutes.js:111 | the document found has that id; none is found iff no document has it |
| Collection.LookupUnique | routes/analyticsRoutes.js:111 | with ascending ids, a document is found by its own id |
| Collection.Without | routes/analyticsRoutes.js:122 | removal keeps exactly the documents with other ids and keeps ids ascending |
| Collection.WithoutRemovesOne | routes/productRoutes.js:142 | removing a present id removes exactly one document |
| Collection.WithoutAbsent | routes/queryRoutes.js:160 | removing an absent id changes nothing |
| Collection.ReplaceById | routes/queryRoutes.js:141-145 | replacement changes the document with that id and no other |
| Collection.ReplaceKeepsIds | routes/users.js:45 | replacement keeps ids ascending and below the counter |
| Collection.First | routes/auth.js:33-35 | findOne yields the first document in natural order that matches, or none iff none matches |
| Collection.Where | routes/productRoutes.js:97 | find keeps exactly the matching documents |
| Collection.WhereDistinct | models/TokenBlacklist.js:7 | filtering keeps a unique index unique |

## Left out

- MongoDB's calendar formatting with IANA zones and daylight saving, including the
  "%U" week number, is a parameter of the report (a `Calendar`). Only a fixed-offset
  hour key is given, as an example.
- Averages are exact fractions (a sum and a divisor), not floating point.
- Prices, quantities and totals are integers; floating-point numbers are not
  modelled.
- jsonwebtoken, bcryptjs and `Math.random` are parameters: a `Jwt` record with its
  stated properties, a `Hasher` record, and a real draw in [0, 1). Salt generation
  is a parameter.
- Mail sending is not modelled. This covers the OTP mail, whose failure is ignored,
  and the commented-out admin mail of the query route.
- routes/imageUpload.js, config/multer.js, routes/contactus.js,
  routes/categoryRoutes.js, routes/userRoutes.js and server.js are not part of this
  model. Categories appear only as the set of existing ids that product creation
  consults. server.js does not mount the analytics router; the model describes the
  router itself.
- The User model file is not part of this model. Users are taken to have a
  lower-cased email and a role string.
- Store faults and the 500 answers of every `catch` are not modelled. Validation
  errors on save are modelled. Cast errors on save are modelled only for analytics
  events (see AnalyticsSchema.Validate); elsewhere body values arrive with their
  declared types, as the lines below say. ObjectId cast errors are not modelled
  either: ids are numbers.
- Requests run one at a time; concurrency and MongoDB consistency are not modelled.
  Clocks are numbers the caller supplies (a monotone `clock` for accounts).
- The TTL monitor's timing is not modelled. `Sweep` removes expired documents
  whenever it is called. Between sweeps, an expired OTP is still accepted by
  validate-otp and reset-password, as the routes never check `expiresAt`.
- Text.Lower and Text.Trim: only ASCII letters and ASCII whitespace are handled.
  Unicode case mapping and Unicode whitespace are not modelled.
- Products.NameMatchIgnoresCase: the name filter is a case-insensitive substring
  match. Regular-expression metacharacters in the parameter are not interpreted.
- Text.NumberOf: only integers with an optional minus sign convert, after
  surrounding white space is trimmed. Decimals, exponents, a leading plus sign,
  hexadecimal text and "Infinity" or "-Infinity" are treated as NaN, so they fail
  the cast. `Number()` reads the last two as infinities that the cast accepts, so
  `GET /?minPrice=Infinity` answers 200 with no products where the model answers
  500.
- AnalyticsSchema.Payload: the body has already passed through strict mode, so
  paths the schema does not declare are not represented. Body values are scalars:
  an object or an array sent to a descriptive path, or a non-object sent to
  `connection`, `performance` or `geolocation`, is not modelled. visitorId,
  sessionId, isNewVisitor and localTime arrive with their declared types.
- Products.ProductStore.Create: body values arrive with their declared types
  (integers for the prices and ratings, booleans for featured and isActive). A
  truthy value that fails Mongoose's cast, such as originalPrice "abc", makes
  `Product.create` throw and the route answer 400; that answer is not modelled.
- Queries.QueryStore.Create: body values arrive with their declared types. A
  quantity, price, totalAmount or itemCount that fails the Number cast makes the
  route answer 500; that answer is not modelled.
- Accounts.AccountService: body values arrive as strings. A JSON number sent as
  `otp`, which never strictly equals the stored String code, and a non-string
  email, on which `.toLowerCase()` throws, are not modelled.
- UsersRouting: a request path is given as its segments. Trailing slashes, percent
  decoding and query strings are not modelled.
- Products.ProductStore.List: the category is not populated; products carry the
  category id.
- Products.Apply: fields are replaced whole. An explicit null and a partial nested
  object are not modelled, and cast errors on update (400) are left out.
- Queries.QueryStore.Create: a timestamp that does not cast to a date is not
  modelled. Items are taken as given objects; a non-array `items` is not modelled.
- Queries.SortNewestFirst: queries with the same creation time may come in either
  order, as in MongoDB; the model fixes one order.
- Accounts.AccountService.Login: two logins by the same user in the same second get
  the same token, because the signature depends only on the id and the second.
- Accounts.AccountService.UpdateProfile models the handler as its code reads. As
  registered, that handler is never reached (see Findings).
- Accounts.AccountService: the blacklist uses the corrected schema (see Findings).
  A second logout of the same token is refused by the gate, so the unique index on
  `token` never fails in the model.

## Findings

| source | as written | input that shows it | evidently intended | confidence | as-written member | corrected member |
|---|---|---|---|---|---|---|
| routes/users.js:25 | `PUT /:id` is registered before `PUT /profile` (line 66); the parameter matches the segment "profile", so the admin update handles every PUT /api/users/profile and the profile update is unreachable | PUT /api/users/profile with a valid token | the literal profile routes registered before `/:id`, so that callers can update their own profile | high, not executed | UsersRouting.ProfileUpdateUnreachable | UsersRouting.CorrectedDispatch |
| routes/auth.js:197 | logout saves `expiresAt`, but models/TokenBlacklist.js:3-13 declares no such path and no TTL index; strict mode drops the path, so blacklist entries are never removed | log out a token whose exp is 1000 ms; the entry is still there a day later | declare `expiresAt` with an expiring index so that entries go once the token has expired | high, not executed | Blacklist.AsWrittenNeverSwept | Accounts.SweepKeepsRevokedRejected |
