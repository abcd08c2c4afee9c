# minitoco in Dafny

minitoco is a small money-transfer service: users register with an email and a
password, log in for a bearer token, and send whole-number amounts from their
balance to other users by email. This project models its core and proves
properties of that model:

- **the transfer engine** (`ServerTransactionService`, and the earlier revision
  `EarlyTransactionService`): debit, credit and append-record as one unit of
  work over the store, with all-or-nothing rollback and the classification of
  store errors into `UserIDNotFoundError`, `TransactionInsufficientFundsError`
  or a rethrow; and the query of one user's sent transactions, newest first;
- **the store** (`Store`): the users table with its unique email index, one
  non-negative balance row per user, and the append-only transaction log, as a
  class whose methods run pure statement functions and record each statement
  issued; a map of injected failures stands for everything else the database
  can report;
- **the user services** (`ServerUserService`, `EarlyUserService`): creating and
  finding users, with and without lower-casing of emails;
- **the controllers** (`ServerTransactionController`, `ServerUserController`):
  each handler as a function from the tables and the request to a status, a
  body, the new tables and the statements issued, plus the class whose methods
  are proved to do exactly that;
- **the route rules** (`RouteValidators`, `ServerRoutes`, `EarlyRoutes`): the
  password policy, name lengths, grant types, the positive-amount check and
  the self-send check;
- **the io_models** (`MiniTocoErrors`, `MiniTocoTransactions`,
  `MiniTocoBalances`, `MiniTocoUsers`, `CreateTokenRequests`,
  `RequestAuthUsers`, `TokenDatas`): the immutable records with their builders,
  required-field checks, `create(from).build()` round trips and `toJSON`;
- the helpers `PrismaUtil` (recognising raw errors and reading the field name
  out of a foreign-key message), `ServiceErrors`, `TsUtil` (`getOrThrow`),
  `TimeUtil` and `Text` (`toLowerCase`, `includes`, `BigInt` and decimal text).

Identifiers, timestamps and the clock that the database supplies are
parameters (`id`, `now`). bcrypt and JWT are the functions of
`ServerUserController.AuthServices`, where `None` stands for a call that throws.
`isEmail` and `isUUID` enter the route rules as booleans.

## Model

| member | source | states |
|---|---|---|
| Text.ToLower | server/src/services/UserService.ts:29 | `toLowerCase` keeps the length and lower-cases each ASCII capital, leaving every other character |
| Text.ToLowerIdempotent | server/src/services/UserService.ts:29-68 | a lower-cased text is lower-case, and lower-casing it again changes nothing |
| Text.ContainsWitness | server/src/services/TransactionService.ts:117 | a text built around a fragment `includes` that fragment |
| Text.ParseBigInt | server/src/routes/transaction_routes.ts:136-142 | `BigInt(text)` as ECMAScript reads a string: an empty or blank text is 0; decimal digits read as their value, after a minus sign as its negation; a `0x`, `0o` or `0b` prefix reads the digits in base 16, 8 or 2 |
| Text.LeadingWhitespaceIgnored | server/src/routes/transaction_routes.ts:138 | white space before a text never changes what `BigInt` reads |
| Text.NatDigitsRoundTrip | server/src/controllers/TransactionController.ts:71-98 | the decimal digits of a natural number read back as that number |
| Text.DecimalString | server/src/controllers/TransactionController.ts:99 | `amount.toString()` is the canonical decimal text: digits for a natural number, a minus sign before non-zero-led digits otherwise, and no leading zero except in "0" |
| Text.DecimalRoundTrip | server/src/controllers/TransactionController.ts:71-98 | `BigInt(n.toString())` is n for every integer |
| Text.DecimalStringInjective | server/src/controllers/TransactionController.ts:98 | different amounts are reported as different texts |
| TimeUtil.ConversionFactors | server/src/utils/time_util.ts:3-7 | minutes, hours, days and weeks convert to 60, 3600, 86400 and 604800 seconds each, and seconds to 1000 milliseconds |
| TimeUtil.ConversionsCompose | server/src/utils/time_util.ts:4-6 | each conversion is the next smaller one scaled by its unit ratio, and conversions add up |
| TimeUtil.MinutesToSeconds | server/src/utils/time_util.ts:3 | the seconds are a whole number of minutes and divide back to the minutes given |
| TimeUtil.HoursToSeconds | server/src/utils/time_util.ts:4 | the seconds are a whole number of hours (3600 s) and divide back to the hours given |
| TimeUtil.DaysToSeconds | server/src/utils/time_util.ts:5 | the seconds are a whole number of days (86400 s) and divide back to the days given |
| TimeUtil.WeeksToSeconds | server/src/utils/time_util.ts:6 | the seconds are a whole number of weeks (604800 s) and divide back to the weeks given |
| TimeUtil.SecondsToMilliseconds | server/src/utils/time_util.ts:7 | the milliseconds are a whole number of seconds and divide back to the seconds given |
| TsUtil.OfOption | reactclient/src/utils/ts_util.ts:1 | an unset builder field is `undefined`; a set one is present with its value |
| TsUtil.GetOrThrow | reactclient/src/utils/ts_util.ts:1-9 | `null` throws "<name> may not be null", `undefined` throws "<name> may not be undefined", anything else is returned unchanged |
| TsUtil.GetOrThrowNeverNullish | reactclient/src/utils/ts_util.ts:1-9 | `getOrThrow` returns exactly when its argument is present, and then returns that argument |
| TsUtil.Required | reactclient/src/utils/ts_util.ts:5-8 | on a builder field, `getOrThrow` succeeds exactly when the field is set, with its value, and otherwise throws the `undefined` message |
| TokenDatas.CreateTokenData | reactclient/src/io_models/TokenData.ts:10-24 | `TokenData.create` keeps the three values and sets token_type "bearer" |
| TokenDatas.TokenDataBuilder.Create | reactclient/src/io_models/TokenData.ts:33-35 | a fresh builder has nothing set |
| TokenDatas.TokenDataBuilder.AccessToken | reactclient/src/io_models/TokenData.ts:37-40 | sets access_token and nothing else |
| TokenDatas.TokenDataBuilder.RefreshToken | reactclient/src/io_models/TokenData.ts:41-44 | sets refresh_token and nothing else |
| TokenDatas.TokenDataBuilder.ExpiresIn | reactclient/src/io_models/TokenData.ts:45-48 | sets expires_in and nothing else |
| TokenDatas.TokenDataBuilder.Build | reactclient/src/io_models/TokenData.ts:50-56 | succeeds exactly when all three fields are set, with a bearer token of those values; otherwise throws naming the first unset field |
| TokenDatas.BuildKeepsLastValues | reactclient/src/io_models/TokenData.ts:37-56 | built fields are the values set last, whatever was set before |
| RequestAuthUsers.RequestAuthUserBuilder.Create | server/src/io_models/RequestAuthUser.ts:28-35 | `create(from)` copies id and email from `from`; `create()` sets nothing |
| RequestAuthUsers.RequestAuthUserBuilder.Id | server/src/io_models/RequestAuthUser.ts:39-42 | sets id and leaves email |
| RequestAuthUsers.RequestAuthUserBuilder.Email | server/src/io_models/RequestAuthUser.ts:43-46 | sets email and leaves id |
| RequestAuthUsers.RequestAuthUserBuilder.Build | server/src/io_models/RequestAuthUser.ts:48-53 | succeeds exactly when id and email are set; otherwise throws for id first, then email |
| RequestAuthUsers.NewBuilderRoundTrip | server/src/io_models/RequestAuthUser.ts:19-21 | `u.newBuilder().build()` equals `u` |
| RequestAuthUsers.LaterSettersWin | server/src/io_models/RequestAuthUser.ts:39-46 | a later setter call overwrites an earlier one |
| CreateTokenRequests.CreatePasswordRequest | src/io_models/CreateTokenRequest.ts:21-29 | keeps username and password; the grant type is always "password" |
| CreateTokenRequests.CreateRefreshRequest | src/io_models/CreateTokenRequest.ts:71-79 | keeps refresh_token; the grant type is always "refresh_token" |
| CreateTokenRequests.GrantTypesDiffer | src/io_models/CreateTokenRequest.ts:21-79 | the two request kinds never share a grant type |
| CreateTokenRequests.CreateTokenWithPasswordRequestBuilder.Create | src/io_models/CreateTokenRequest.ts:37-44 | copies username and password from `from`, or sets nothing |
| CreateTokenRequests.CreateTokenWithPasswordRequestBuilder.Username | src/io_models/CreateTokenRequest.ts:50-53 | sets username and leaves password |
| CreateTokenRequests.CreateTokenWithPasswordRequestBuilder.Password | src/io_models/CreateTokenRequest.ts:54-57 | sets password and leaves username |
| CreateTokenRequests.CreateTokenWithPasswordRequestBuilder.Build | src/io_models/CreateTokenRequest.ts:59-61 | succeeds exactly when username and password are set; otherwise throws for username first |
| CreateTokenRequests.PasswordRequestRoundTrip | src/io_models/CreateTokenRequest.ts:37-61 | `create(r).build()` reproduces `r` |
| CreateTokenRequests.CreateTokenWithRefreshTokenRequestBuilder.Create | src/io_models/CreateTokenRequest.ts:85-91 | copies refresh_token from `from`, or sets nothing |
| CreateTokenRequests.CreateTokenWithRefreshTokenRequestBuilder.RefreshToken | src/io_models/CreateTokenRequest.ts:97-100 | sets refresh_token |
| CreateTokenRequests.CreateTokenWithRefreshTokenRequestBuilder.Build | src/io_models/CreateTokenRequest.ts:102-104 | succeeds exactly when refresh_token is set |
| CreateTokenRequests.RefreshRequestRoundTrip | src/io_models/CreateTokenRequest.ts:85-104 | `create(r).build()` reproduces `r` |
| MiniTocoUsers.UserToJson | src/io_models/MiniTocoUser.ts:134-143 | `toJSON` keeps the six fields other than pw_hash, unchanged |
| MiniTocoUsers.UserJsonHidesOnlyPwHash | src/io_models/MiniTocoUser.ts:134-143 | two users render alike exactly when they differ at most in pw_hash |
| MiniTocoUsers.MiniTocoUserToCreateBuilder.Create | src/io_models/MiniTocoUser.ts:37-46 | copies the four fields from `from`, or sets nothing |
| MiniTocoUsers.MiniTocoUserToCreateBuilder.Email | src/io_models/MiniTocoUser.ts:50-53 | sets email and nothing else |
| MiniTocoUsers.MiniTocoUserToCreateBuilder.FirstName | src/io_models/MiniTocoUser.ts:54-57 | sets first_name and nothing else |
| MiniTocoUsers.MiniTocoUserToCreateBuilder.LastName | src/io_models/MiniTocoUser.ts:58-61 | sets last_name and nothing else |
| MiniTocoUsers.MiniTocoUserToCreateBuilder.Password | src/io_models/MiniTocoUser.ts:62-65 | sets password and nothing else |
| MiniTocoUsers.MiniTocoUserToCreateBuilder.Build | src/io_models/MiniTocoUser.ts:67-74 | succeeds exactly when all four fields are set; otherwise throws naming the first unset one |
| MiniTocoUsers.UserToCreateRoundTrip | src/io_models/MiniTocoUser.ts:37-74 | `create(x).build()` equals `x` |
| MiniTocoUsers.MiniTocoUserBuilder.Create | src/io_models/MiniTocoUser.ts:156-168 | copies the seven fields from `from`, or sets nothing |
| MiniTocoUsers.MiniTocoUserBuilder.Id | src/io_models/MiniTocoUser.ts:172-175 | sets id and nothing else |
| MiniTocoUsers.MiniTocoUserBuilder.PwHash | src/io_models/MiniTocoUser.ts:176-179 | sets pw_hash and nothing else |
| MiniTocoUsers.MiniTocoUserBuilder.Email | src/io_models/MiniTocoUser.ts:180-183 | sets email and nothing else |
| MiniTocoUsers.MiniTocoUserBuilder.FirstName | src/io_models/MiniTocoUser.ts:184-187 | sets first_name and nothing else |
| MiniTocoUsers.MiniTocoUserBuilder.LastName | src/io_models/MiniTocoUser.ts:188-191 | sets last_name and nothing else |
| MiniTocoUsers.MiniTocoUserBuilder.CreatedAt | src/io_models/MiniTocoUser.ts:192-195 | sets created_at and nothing else |
| MiniTocoUsers.MiniTocoUserBuilder.UpdatedAt | src/io_models/MiniTocoUser.ts:196-199 | sets updated_at and nothing else |
| MiniTocoUsers.MiniTocoUserBuilder.Build | src/io_models/MiniTocoUser.ts:201-211 | succeeds exactly when all seven fields are set; otherwise throws naming the first unset one in declaration order |
| MiniTocoUsers.UserRoundTrip | src/io_models/MiniTocoUser.ts:156-211 | `create(u).build()` equals `u` |
| MiniTocoBalances.BalanceToJson | src/io_models/MiniTocoBalance.ts:19-24 | `toJSON` renders the value as a decimal string that reads back as the same value, and keeps updated_at |
| MiniTocoBalances.MiniTocoBalanceBuilder.Create | src/io_models/MiniTocoBalance.ts:36-43 | copies value and updated_at from `from`, or sets nothing |
| MiniTocoBalances.MiniTocoBalanceBuilder.Value | src/io_models/MiniTocoBalance.ts:47-50 | sets value and leaves updated_at |
| MiniTocoBalances.MiniTocoBalanceBuilder.UpdatedAt | src/io_models/MiniTocoBalance.ts:51-54 | sets updated_at and leaves value |
| MiniTocoBalances.MiniTocoBalanceBuilder.Build | src/io_models/MiniTocoBalance.ts:56-58 | succeeds exactly when value and updated_at are set; otherwise throws for value first |
| MiniTocoBalances.NewBuilderRoundTrip | src/io_models/MiniTocoBalance.ts:26-58 | `b.newBuilder().build()` equals `b` |
| MiniTocoTransactions.TransactionToJson | reactclient/src/io_models/MiniTocoTransaction.ts:79-87 | `toJSON` renders the amount as a decimal string that reads back as the same amount, and keeps every other field |
| MiniTocoTransactions.ResultToJson | reactclient/src/io_models/MiniTocoTransaction.ts:16-21 | the result's `toJSON` renders final_balance as a decimal string that reads back as the same value, and keeps the transaction |
| MiniTocoTransactions.TransactionJsonInjective | reactclient/src/io_models/MiniTocoTransaction.ts:79-87 | the rendering loses nothing: equal JSON means equal transactions |
| MiniTocoTransactions.MiniTocoTransactionBuilder.Create | reactclient/src/io_models/MiniTocoTransaction.ts:101-111 | copies the five fields from `from`, or sets nothing |
| MiniTocoTransactions.MiniTocoTransactionBuilder.Id | reactclient/src/io_models/MiniTocoTransaction.ts:115-118 | sets id and nothing else |
| MiniTocoTransactions.MiniTocoTransactionBuilder.Amount | reactclient/src/io_models/MiniTocoTransaction.ts:119-122 | sets amount and nothing else |
| MiniTocoTransactions.MiniTocoTransactionBuilder.FromUserId | reactclient/src/io_models/MiniTocoTransaction.ts:123-126 | sets from_user_id and nothing else |
| MiniTocoTransactions.MiniTocoTransactionBuilder.ToUserId | reactclient/src/io_models/MiniTocoTransaction.ts:127-130 | sets to_user_id and nothing else |
| MiniTocoTransactions.MiniTocoTransactionBuilder.Date | reactclient/src/io_models/MiniTocoTransaction.ts:131-134 | sets date and nothing else |
| MiniTocoTransactions.MiniTocoTransactionBuilder.Build | reactclient/src/io_models/MiniTocoTransaction.ts:136-144 | succeeds exactly when id, amount, from_user_id, to_user_id and date are all set; otherwise throws naming the first unset one |
| MiniTocoTransactions.TransactionRoundTrip | reactclient/src/io_models/MiniTocoTransaction.ts:101-144 | `create(t).build()` equals `t` |
| MiniTocoTransactions.LaterSetterWins | reactclient/src/io_models/MiniTocoTransaction.ts:115-134 | a setter called twice keeps the later value |
| MiniTocoTransactions.MiniTocoTransactionResultBuilder.Create | reactclient/src/io_models/MiniTocoTransaction.ts:32-39 | copies the transaction (through its own builder) and the final balance from `from`, or sets nothing |
| MiniTocoTransactions.MiniTocoTransactionResultBuilder.Transaction | reactclient/src/io_models/MiniTocoTransaction.ts:43-46 | sets the transaction and leaves the final balance |
| MiniTocoTransactions.MiniTocoTransactionResultBuilder.FinalBalance | reactclient/src/io_models/MiniTocoTransaction.ts:47-50 | sets the final balance and leaves the transaction |
| MiniTocoTransactions.MiniTocoTransactionResultBuilder.Build | reactclient/src/io_models/MiniTocoTransaction.ts:52-57 | succeeds exactly when both the transaction and final_balance are set |
| MiniTocoTransactions.ResultRoundTrip | reactclient/src/io_models/MiniTocoTransaction.ts:32-57 | `create(r).build()` reproduces `r` |
| MiniTocoErrors.LoginRequired | src/io_models/MiniTocoError.ts:25-27 | the token, or "" when absent, as value; "authentication required" on the Authorization header |
| MiniTocoErrors.InternalServer | src/io_models/MiniTocoError.ts:33-35 | value "", msg "Internal ServerError", no param and no location |
| MiniTocoErrors.ErrorsBody | src/io_models/MiniTocoError.ts:44-51 | the body has one more element than `errors`: the initial error first, then `errors` in order |
| MiniTocoErrors.MiniTocoErrorBuilder.Create | src/io_models/MiniTocoError.ts:71-80 | copies all four fields from `from`, an absent param or location staying absent; `create()` sets nothing |
| MiniTocoErrors.MiniTocoErrorBuilder.Of | src/io_models/MiniTocoError.ts:82-92 | a fresh builder with the given location and param and nothing else set |
| MiniTocoErrors.MiniTocoErrorBuilder.OfBody | src/io_models/MiniTocoError.ts:82-84 | location "body", param the field name |
| MiniTocoErrors.MiniTocoErrorBuilder.OfQuery | src/io_models/MiniTocoError.ts:86-88 | location "query", param the parameter name |
| MiniTocoErrors.MiniTocoErrorBuilder.OfHeader | src/io_models/MiniTocoError.ts:90-92 | location "header", param the header name |
| MiniTocoErrors.MiniTocoErrorBuilder.Value | src/io_models/MiniTocoError.ts:96-99 | sets value and nothing else |
| MiniTocoErrors.MiniTocoErrorBuilder.Msg | src/io_models/MiniTocoError.ts:100-103 | sets msg and nothing else |
| MiniTocoErrors.MiniTocoErrorBuilder.Param | src/io_models/MiniTocoError.ts:104-107 | sets param, possibly to absent, and nothing else |
| MiniTocoErrors.MiniTocoErrorBuilder.Location | src/io_models/MiniTocoError.ts:108-111 | sets location, possibly to absent, and nothing else |
| MiniTocoErrors.MiniTocoErrorBuilder.Build | src/io_models/MiniTocoError.ts:113-120 | succeeds exactly when value and msg are set, with param and location as they are; otherwise throws for value first |
| MiniTocoErrors.CreateBuildRoundTrip | src/io_models/MiniTocoError.ts:71-120 | `create(e).build()` reproduces `e` |
| MiniTocoErrors.BodyError | src/io_models/MiniTocoError.ts:82-120 | `ofBody(field).msg(m).value(v).build()` is the error (v, m, field, "body") |
| PrismaUtil.IsRecordNotFound | src/prisma/prisma_util.ts:4-18 | the unwrapped `NotFoundError` is always recognised, a database or other failure never is, and recognised exactly when it is `NotFoundError` or a known-request error with code P2025, and then neither a unique nor a foreign-key error |
| PrismaUtil.IsUniqueConstraint | src/prisma/prisma_util.ts:25-27 | recognised exactly when it is a known-request error with code P2002, so never a not-found or foreign-key error |
| PrismaUtil.IsForeignKeyConstraint | src/prisma/prisma_util.ts:33-35 | recognised exactly when it is a known-request error with code P2003, so never a not-found or unique-constraint error |
| PrismaUtil.Split | src/prisma/prisma_util.ts:49 | `split(" ")` yields at least one piece |
| PrismaUtil.SplitJoin | src/prisma/prisma_util.ts:49 | joining the pieces of `split(" ")` with single spaces gives the message back |
| PrismaUtil.SplitPiecesNoSpace | src/prisma/prisma_util.ts:49 | no piece of `split(" ")` contains a space |
| PrismaUtil.LastToken | src/prisma/prisma_util.ts:49 | the last piece contains no space |
| PrismaUtil.LastTokenIsSuffix | src/prisma/prisma_util.ts:49 | the last piece is a suffix of the message |
| PrismaUtil.FieldNameOfForeignKeyConstraintError | src/prisma/prisma_util.ts:46-53 | a field name exactly for P2003 known-request errors, and `undefined` for every other error; the name has no space |
| PrismaUtil.FieldNameRoundTrip | src/prisma/prisma_util.ts:46-53 | for the message "Foreign key constraint failed on the field: f" with a space-free f, the extracted field is f |
| ServiceErrors.Name | src/services/IUserService.ts:27-52 | each error class sets a `name` ending in "Error"; the funds error of src/services/ITransactionService.ts sets "TransactionInsufficientFundsError" |
| ServiceErrors.Message | src/services/ITransactionService.ts:7-16 | each user error's message quotes the email or id it carries (src/services/IUserService.ts, lines 27 to 52); the insufficient-funds message ends with the sender's id; a rethrown error keeps its own message |
| ServiceErrors.NamesDistinct | src/services/IUserService.ts:27-52 | two user or funds errors have the same `name` exactly when they are of the same class |
| ServiceErrors.MessagesDetermineFields | src/services/IUserService.ts:27-52 | each user error's message determines the email or user id it was built with |
| Store.NegativeBalanceMessageNamesCheck | server/src/services/TransactionService.ts:115-119 | the database's negative-balance message contains "balance_nonnegative_check", the text the service looks for |
| Store.UpdateBalanceStep | server/src/services/TransactionService.ts:56-82 | a balance update succeeds exactly when the row exists and the new value is non-negative; a missing row is record-not-found; a failure changes nothing; success changes only that row |
| Store.CreateTransactionStep | server/src/services/TransactionService.ts:85-96 | the insert succeeds exactly when both users exist, appends exactly the new row, and returns it with the receiver's email; a missing sender or receiver is a P2003 naming its field; a failure changes nothing |
| Store.CreateUserStep | server/src/services/UserService.ts:27-39 | the insert succeeds exactly when email and id are free and the starting balance is non-negative; it adds the user, its email index entry and its balance row together; a taken email is P2002; a failure changes nothing |
| Store.UpdateBalanceKeepsConsistent | server/src/services/TransactionService.ts:56-82 | a balance update keeps the tables consistent |
| Store.CreateTransactionKeepsConsistent | server/src/services/TransactionService.ts:85-96 | appending a transaction keeps the tables consistent |
| Store.CreateUserKeepsConsistent | server/src/services/UserService.ts:27-39 | creating a user keeps the tables consistent |
| Store.FindUserByIdStep | server/src/services/UserService.ts:109-116 | finds a user exactly when the id is present, with its own row and balance; never changes the state |
| Store.FindUserByEmailStep | server/src/services/UserService.ts:66-73 | finds a user exactly when some stored user has that exact email, returning that user's row and balance; never changes the state |
| Store.SentBy | server/src/services/TransactionService.ts:20-24 | every row kept was sent by the given user |
| Store.SentByCounts | server/src/services/TransactionService.ts:20-24 | the filter keeps each row of that sender as often as it occurs in the log, and no other row |
| Store.InsertNewestFirst | server/src/services/TransactionService.ts:28-30 | inserting adds exactly the one row |
| Store.InsertKeepsSorted | server/src/services/TransactionService.ts:28-30 | inserting into a newest-first list keeps it newest-first |
| Store.NewestFirst | server/src/services/TransactionService.ts:28-30 | the ordering is a permutation of its input, sorted by creation time, newest first |
| Store.QueriedRowsAreSent | server/src/services/TransactionService.ts:20-32 | the query returns exactly the sender's rows, each with its multiplicity in the log |
| Store.QueriedRowsReferenceUsers | server/src/services/TransactionService.ts:25-27 | every returned row's receiver exists, so the included `to_user` is never missing |
| Store.WithReceivers | server/src/services/TransactionService.ts:25-27 | each row paired with its receiver's email, in the same order |
| Store.FindTransactionsStep | server/src/services/TransactionService.ts:20-32 | without a failure, the sender's rows newest first with their receivers' emails; never changes the state |
| Store.Db.Create | server/src/services/TransactionService.ts:14-16 | an empty, consistent database with no statements issued |
| Store.Db.UpdateBalance | server/src/services/TransactionService.ts:56-82 | the result and the new tables are those of the update step; the statement is recorded; a consistent store stays consistent |
| Store.Db.CreateTransaction | server/src/services/TransactionService.ts:85-96 | the result and the new tables are those of the insert step; the statement is recorded; a consistent store stays consistent |
| Store.Db.CreateUser | server/src/services/UserService.ts:27-39 | the result and the new tables are those of the user insert; the statement is recorded; a consistent store stays consistent |
| Store.Db.FindUserById | server/src/services/UserService.ts:109-116 | the result is that of the lookup and the tables are unchanged |
| Store.Db.FindUserByEmail | server/src/services/UserService.ts:66-73 | the result is that of the lookup and the tables are unchanged |
| Store.Db.FindTransactions | server/src/services/TransactionService.ts:20-32 | the result is that of the query and the tables are unchanged |
| Store.Db.Begin | server/src/services/TransactionService.ts:52 | the snapshot is the current tables, so a consistent store gives a consistent snapshot |
| Store.Db.Rollback | server/src/services/TransactionService.ts:52-126 | a failed `$transaction` leaves the tables as they were at its start, consistent when the snapshot was |
| UserRows.BuildUser | server/src/services/UserService.ts:41-49 | the built user copies every field of the row, and the build cannot fail |
| UserRows.BuildBalance | server/src/services/UserService.ts:78-81 | the built balance copies the row's value and update time |
| ServerUserService.CreateUserSpec | server/src/services/UserService.ts:24-59 | a failed create leaves the tables unchanged |
| ServerUserService.CreateUserOutcome | server/src/services/UserService.ts:24-59 | an email registered in any casing is `UserAlreadyExistsError` with the email as given; success exactly when the lower-cased email and the id are free and the balance is non-negative; the user is stored with the lower-cased email and the starting balance; the tables stay consistent |
| ServerUserService.CreateUserErrors | server/src/services/UserService.ts:51-58 | only a unique-constraint error becomes `UserAlreadyExistsError`; every other store error is rethrown as it came |
| ServerUserService.CreatedUserFoundInAnyCase | server/src/services/UserService.ts:24-103 | a user created with one casing of an email is found by any casing of it, with their starting balance |
| ServerUserService.SecondRegistrationInOtherCaseRefused | server/src/services/UserService.ts:24-59 | registering again with the same email in another casing is `UserAlreadyExistsError` |
| ServerUserService.FindUserByEmailSpec | server/src/services/UserService.ts:62-103 | a failed lookup statement is rethrown unchanged; with none, a miss is `UserEmailNotFoundError` with the email as passed, and a hit is a stored user whose email is the lower-cased lookup, with that user's balance |
| ServerUserService.FindUserByIdSpec | server/src/services/UserService.ts:105-147 | a failed lookup statement is rethrown unchanged; with none, a miss is `UserIDNotFoundError` with that id, and a hit is that stored user with their balance |
| ServerUserService.FindUserByEmailOutcome | server/src/services/UserService.ts:62-103 | found exactly when a stored email equals the lower-cased lookup, and then that user with their balance; otherwise `UserEmailNotFoundError` with the email as passed |
| ServerUserService.FindUserByIdOutcome | server/src/services/UserService.ts:105-147 | found exactly when the id exists, with their balance; otherwise `UserIDNotFoundError` with that id |
| ServerUserService.CreateUserKeepsEmailsLowerCased | server/src/services/UserService.ts:27-29 | since only lower-cased emails are stored, every stored email stays lower-cased |
| ServerUserService.UserService.CreateUser | server/src/services/UserService.ts:24-59 | the result and the new tables are those of `CreateUserSpec`; one store statement, with the lower-cased email; a consistent store stays consistent |
| ServerUserService.UserService.FindUserByEmail | server/src/services/UserService.ts:62-103 | the result is `FindUserByEmailSpec`; the tables are unchanged; one lookup with the lower-cased email |
| ServerUserService.UserService.FindUserById | server/src/services/UserService.ts:105-147 | the result is `FindUserByIdSpec`; the tables are unchanged |
| EarlyUserService.CreateUserSpec | src/services/UserService.ts:23-58 | a failed create leaves the tables unchanged |
| EarlyUserService.CreateUserOutcome | src/services/UserService.ts:23-58 | a registered email is `UserAlreadyExistsError`; success exactly when email and id are free and the balance is non-negative; the email is stored exactly as given; the tables stay consistent |
| EarlyUserService.CreateUserErrors | src/services/UserService.ts:50-57 | only a unique-constraint error becomes `UserAlreadyExistsError`; every other store error is rethrown |
| EarlyUserService.CreatedUserFoundByEmail | src/services/UserService.ts:23-119 | a created user is found by the exact email they registered with, and by their id |
| EarlyUserService.OtherSpellingNotFound | src/services/UserService.ts:61-89 | any other spelling of that email that nobody registered is `UserEmailNotFoundError`: the lookup is case-sensitive |
| EarlyUserService.FindUserByEmailSpec | src/services/UserService.ts:61-89 | a failed lookup statement is rethrown unchanged; with none, a miss is `UserEmailNotFoundError`, and a hit is a stored user whose email is exactly the lookup |
| EarlyUserService.FindUserByIdSpec | src/services/UserService.ts:91-119 | a failed lookup statement is rethrown unchanged; with none, a miss is `UserIDNotFoundError` with that id, and a hit is that stored user |
| EarlyUserService.FindOutcomes | src/services/UserService.ts:61-119 | each lookup finds exactly the stored user with that exact email or id, or the matching not-found error |
| EarlyUserService.UserService.CreateUser | src/services/UserService.ts:23-58 | the result and the new tables are those of `CreateUserSpec`; a consistent store stays consistent |
| EarlyUserService.UserService.FindUserByEmail | src/services/UserService.ts:61-89 | the result is `FindUserByEmailSpec`; the tables are unchanged |
| EarlyUserService.UserService.FindUserById | src/services/UserService.ts:91-119 | the result is `FindUserByIdSpec`; the tables are unchanged |
| ServerTransactionService.Classify | server/src/services/TransactionService.ts:111-125 | a not-found error is `UserIDNotFoundError`, blaming the receiver once the sender was found and the sender before; a check-constraint error naming `balance_nonnegative_check` is insufficient funds of the sender for the amount; everything else is rethrown unchanged |
| ServerTransactionService.TransferSpec | server/src/services/TransactionService.ts:51-127 | a failure leaves the tables as they were; the statements issued are a prefix of debit, credit, append, and all three on success |
| ServerTransactionService.AfterDebit | server/src/services/TransactionService.ts:68-110 | once debited, a failure still rolls back to the state before the debit; credit and append follow in that order |
| ServerTransactionService.TransferMovesAmount | server/src/services/TransactionService.ts:51-127 | a successful transfer between two users moves exactly `amount` from sender to receiver, changes no other balance and no user, appends exactly one record, and returns it with the sender's new balance |
| ServerTransactionService.TransferLogEffect | server/src/services/TransactionService.ts:51-127 | the log gains exactly the new record on success and is unchanged on failure |
| ServerTransactionService.SelfTransferKeepsBalance | server/src/services/TransactionService.ts:51-127 | a successful transfer to oneself keeps the balance, appends a record and reports the intermediate debited balance as the final balance |
| ServerTransactionService.RecordOnlyAfterBothUpdates | server/src/services/TransactionService.ts:56-96 | the record is appended only after debit and credit have both succeeded |
| ServerTransactionService.ErrorsClassifiedByProgress | server/src/services/TransactionService.ts:53-125 | a debit error is classified with `found_sender` false, a credit or append error with it true; the tables are rolled back in every case |
| ServerTransactionService.NotFoundBlame | server/src/services/TransactionService.ts:112-114 | a not-found on the debit blames the sender; a not-found on the credit after a good debit blames the receiver |
| ServerTransactionService.TransferOutcome | server/src/services/TransactionService.ts:51-127 | with only the data against it, a positive transfer fails for a missing sender, then for insufficient funds, then for a missing receiver, and succeeds exactly when none applies |
| ServerTransactionService.TransferKeepsConsistent | server/src/services/TransactionService.ts:51-127 | every transfer, successful or not, keeps balances non-negative, the email index and the log's foreign keys intact |
| ServerTransactionService.ToView | server/src/services/TransactionService.ts:34-42 | the view carries the record's id, amount, sender and date and the receiver's email |
| ServerTransactionService.RetrieveSpec | server/src/services/TransactionService.ts:18-49 | fails exactly when the query fails, rethrowing its error |
| ServerTransactionService.RetrieveReturnsSentNewestFirst | server/src/services/TransactionService.ts:18-49 | one view per record the user sent, each as often as in the log and no other, newest first, each with its receiver's email |
| ServerTransactionService.TransactionService.CreateTransaction | server/src/services/TransactionService.ts:51-127 | result, new tables and statements issued are those of `TransferSpec`; a consistent store stays consistent, rolled back or not |
| ServerTransactionService.TransactionService.RetrieveTransactions | server/src/services/TransactionService.ts:18-49 | the result is `RetrieveSpec`; the tables are unchanged |
| EarlyTransactionService.Classify | src/services/TransactionService.ts:73-95 | only a foreign-key error on `from_user_id` or `to_user_id` blames that user; only a check-constraint error naming `balance_nonnegative_check` is insufficient funds; everything else, a not-found error included, is rethrown unchanged |
| EarlyTransactionService.TransferSpec | src/services/TransactionService.ts:18-96 | a failure leaves the tables as they were; the statements issued are a prefix of append, debit, credit, and all three on success |
| EarlyTransactionService.TransferMovesAmount | src/services/TransactionService.ts:18-72 | a successful transfer between two users appends the record, moves exactly `amount`, changes nothing else, and returns the inputs, the record's id and the sender's new balance |
| EarlyTransactionService.BalancesOnlyAfterRecord | src/services/TransactionService.ts:22-48 | no balance is touched unless the record was appended first |
| EarlyTransactionService.TransferOutcome | src/services/TransactionService.ts:18-96 | with only the data against it, a positive transfer fails for a missing sender, then a missing receiver, then insufficient funds, and succeeds exactly when none applies |
| EarlyTransactionService.TransferKeepsConsistent | src/services/TransactionService.ts:18-96 | every transfer keeps the tables consistent |
| EarlyTransactionService.TransactionService.CreateTransaction | src/services/TransactionService.ts:18-96 | result, new tables and statements issued are those of `TransferSpec`; a consistent store stays consistent, rolled back or not |
| RouteValidators.Check | server/src/routes/user_routes.ts:14-25 | one check reports nothing when it passes and, when it fails, exactly one failure carrying the submitted value, its own message, the field and the field's location |
| RouteValidators.PasswordFailures | server/src/routes/user_routes.ts:14-25 | no failure exactly when the password has 8 to 48 characters, a digit, an upper-case and a lower-case letter and a special character; one failure per missing property, all against the given key in the body and echoing the password; the earlier revision uses the same chain (src/routes/user_routes.ts, lines 15 to 27) |
| RouteValidators.PasswordFailuresInOrder | server/src/routes/user_routes.ts:14-25 | each missing property is reported with its own message at the position its check holds (length, digit, upper-case, lower-case, special) after the failures before it, which fixes every entry of the list |
| RouteValidators.SpecialsAreNotAlphanumeric | server/src/routes/user_routes.ts:24-25 | no character of the special class is an ASCII letter or digit |
| RouteValidators.StrongPasswordExample | server/src/routes/user_routes.ts:14-25 | "Passw0rd!" passes every check |
| RouteValidators.WeakPasswordExample | server/src/routes/user_routes.ts:14-25 | "password" fails exactly the digit, upper-case and special-character checks, in that order, each entry echoing the password from the body |
| RouteValidators.LowerCasedPasswordRejected | server/src/routes/user_routes.ts:20-21 | a lower-cased password can never meet the policy |
| RouteValidators.NameFailures | server/src/routes/user_routes.ts:237-240 | a name passes exactly when it has 1 to 255 characters, failing otherwise with "Invalid value" against the name as sent |
| RouteValidators.AmountFailures | server/src/routes/transaction_routes.ts:135-143 | no failure exactly when `BigInt(amount)` parses and is positive; otherwise one failure on "amount" with its message and the text as sent |
| RouteValidators.AmountAcceptsExactlyPositive | server/src/routes/transaction_routes.ts:135-143 | among decimal texts of integers, exactly the positive ones pass; whatever passes parses to a positive integer |
| RouteValidators.AmountRejectsBlank | server/src/routes/transaction_routes.ts:135-143 | an empty or blank amount reads as 0 and fails with the amount message |
| RouteValidators.CreateUserFailures | server/src/routes/user_routes.ts:233-242 | `POST /users` passes exactly when the email check passes, both names have 1 to 255 characters and the password meets the policy; the earlier revision has the same rules (src/routes/user_routes.ts, lines 212 to 221) |
| RouteValidators.LoginFailures | server/src/routes/user_routes.ts:308-316 | `POST /users/login` passes exactly when username is an email, password is not empty and grant_type is "password"; the earlier revision has the same rules (src/routes/user_routes.ts, lines 290 to 298) |
| ServerRoutes.RefreshFailures | server/src/routes/user_routes.ts:376-381 | `POST /users/tokenrefresh` passes exactly when refresh_token is not empty and grant_type is "refresh_token" |
| ServerRoutes.FetchUserFailures | server/src/routes/user_routes.ts:490-494 | `GET /users/:user_id` passes exactly when the path parameter is a UUID; otherwise one "Invalid value" failure located in "params" carrying the id |
| ServerRoutes.CreateTransactionFailuresAsWritten | server/src/routes/transaction_routes.ts:124-143 | `POST /transactions` as written passes exactly when the receiver is an email, differs as a string from the requester's email, and the amount is positive |
| ServerRoutes.SelfSendCheckIgnoresCase | server/src/routes/transaction_routes.ts:130-134 | the requester "al@x.io" sending to "Al@x.io", the same address once lower-cased, passes the rules as written |
| ServerRoutes.CreateTransactionFailures | server/src/routes/transaction_routes.ts:124-143 | with the self-send check comparing lower-cased addresses, passes exactly when the receiver is an email, is not the requester's address in any casing, and the amount is positive |
| ServerRoutes.CorrectedCheckIsStricter | server/src/routes/transaction_routes.ts:130-134 | every body the corrected rules accept, the rules as written accept too |
| EarlyRoutes.RefreshFailures | src/routes/user_routes.ts:361-366 | the earlier `POST /users/tokenrefresh` passes exactly when refresh_token passes the email check and grant_type is "password" |
| EarlyRoutes.RefreshRequestsAgainstBothRevisions | src/routes/user_routes.ts:361-366 | a refresh request built by its io_model never passes the earlier rules, and passes the current ones exactly when its token is not empty |
| EarlyRoutes.CreateTransactionFailures | src/routes/transaction_routes.ts:111-125 | the earlier `POST /transactions` passes exactly when the receiver is an email and the amount is positive |
| EarlyRoutes.EarlyRulesIgnoreRequester | src/routes/transaction_routes.ts:111-125 | everything the current rules accept the earlier rules accept, and the earlier rules accept bodies addressed to the requester that the current ones refuse |
| Responses.ValidationFailed | src/controllers/BaseMiniTocoController.ts:37-44 | a validation failure is 400 with the failures as the errors array, each with its value, message, field and location |
| Responses.InternalServerError | src/utils/express_util.ts:19-21 | 500 with a body that reveals nothing: empty value, "Internal ServerError", and neither parameter nor location (src/io_models/MiniTocoError.ts, lines 33 to 35) |
| Responses.PathError | server/src/controllers/UserController.ts:261-265 | the error built with `ofPath(field).msg(m).value(v)` is (v, m, field, "path") |
| Responses.SendError | server/src/controllers/TransactionController.ts:78-83 | a status with an `errorsBody` holding exactly the one error |
| ServerTransactionController.CreateTransactionSpec | server/src/controllers/TransactionController.ts:61-119 | the handler answers only 200, 400, 404, 409 or 500, and every answer but 200 leaves the tables unchanged |
| ServerTransactionController.TransferResponse | server/src/controllers/TransactionController.ts:92-118 | 200 with the result exactly when the transfer succeeded; insufficient funds is 409 on "amount" with the amount as decimal text; `UserIDNotFoundError` is 404 "User not found" on "to_user_email" carrying the error's user id; anything else is 500 |
| ServerTransactionController.ValidationFailureAnsweredFirst | server/src/controllers/TransactionController.ts:61-64 | a validation failure is answered with 400 and the failures, with no statement issued |
| ServerTransactionController.CreateTransactionOutcomes | server/src/controllers/TransactionController.ts:61-119 | an unknown receiver is 404 "to-user not found" with only the lookup issued; a sender who cannot cover the amount is 409 with the amount as text and the tables unchanged; otherwise 200 with the sender's balance lowered by the amount and exactly one record appended to the user the lower-cased email names |
| ServerTransactionController.LookupFaultAnswered | server/src/controllers/TransactionController.ts:74-90 | a receiver lookup that fails for a reason other than not-found is 500, with the lookup the only statement and the tables unchanged |
| ServerTransactionController.DebitFaultAnswered | server/src/controllers/TransactionController.ts:92-118 | with the receiver found, a failing debit leaves the tables unchanged and is 404 "User not found" naming the requester for a not-found, 409 for the balance check, and 500 otherwise |
| ServerTransactionController.CreditFaultAnswered | server/src/controllers/TransactionController.ts:92-118 | with the receiver found and the requester debited, a failing credit is rolled back and is 404 "User not found" naming the receiver for a not-found, and 500 for an error that is neither a not-found nor the balance check |
| ServerTransactionController.SelfTransferThroughCaseBypass | server/src/controllers/TransactionController.ts:61-119 | with the route as written, a requester who writes their own email in another casing passes validation, gets 200, and appends a record whose sender and receiver are both themself |
| ServerTransactionController.LookupMissesRequester | server/src/controllers/TransactionController.ts:74-76 | over lower-cased stored emails, a receiver email whose lower-cased form is not the requester's never finds the requester |
| ServerTransactionController.NoSelfTransfer | server/src/controllers/TransactionController.ts:61-119 | with the corrected self-send check, no record appended by the handler has the same sender and receiver, whatever fails |
| ServerTransactionController.TransactionController.constructor | server/src/controllers/TransactionController.ts:55-59 | keeps the two services it is given |
| ServerTransactionController.TransactionController.CreateTransaction | server/src/controllers/TransactionController.ts:61-119 | the response, the new tables and the statements issued are those of `CreateTransactionSpec`; a consistent store stays consistent |
| ServerTransactionController.TransactionController.TransferAndAnswer | server/src/controllers/TransactionController.ts:92-118 | the response, the new tables and the statements issued are those of the transfer's `TransferSpec` answered by `TransferResponse`; a consistent store stays consistent |
| ServerTransactionController.TransactionController.SendTransferResponse | server/src/controllers/TransactionController.ts:92-118 | the response sent is `TransferResponse` of the transfer's result |
| ServerUserController.UnsupportedGrant | server/src/controllers/UserController.ts:130-137 | 400 with one body error "unsupported grant_type" on "grant_type" carrying the grant type as sent |
| ServerUserController.IncorrectCredentials | server/src/controllers/UserController.ts:145-152 | 401 with one body error "email or password incorrect" on "email or password" carrying only the username, the same for every way a log-in fails |
| ServerUserController.TokenResponse | server/src/controllers/UserController.ts:180-186 | 200 with the token exactly when the token service returned one, and 500 when it threw |
| ServerUserController.CreateUserSpec | server/src/controllers/UserController.ts:76-118 | registration answers only 200, 400, 409 or 500; a 400 or 409 leaves the tables unchanged |
| ServerUserController.CreateUserOutcomes | server/src/controllers/UserController.ts:76-118 | a failed hash is 500 with no statement; an email taken in any casing is 409 naming the email as sent; otherwise the user is stored with the hash, the lower-cased email and a balance of 1000, the tables stay consistent, and the token is minted for the stored email (500 if minting throws, the user staying registered) |
| ServerUserController.LogInUserSpec | server/src/controllers/UserController.ts:120-187 | log-in never changes the tables and answers only 200, 400, 401 or 500 |
| ServerUserController.LogInOutcomes | server/src/controllers/UserController.ts:140-186 | an unknown email, a wrong password and a password check that throws all get the same 401 naming the username; a matching password gets the token minted for that user's id and stored email |
| ServerUserController.UnsupportedGrantUnreachableAfterLogInRules | server/src/controllers/UserController.ts:130-138 | once the log-in rules have passed, the handler's own grant-type check never fires and the lookup is the one statement |
| ServerUserController.UnsupportedGrantAnswered | server/src/controllers/UserController.ts:198-205 | were the route rules bypassed, log-in and refresh answer a grant type other than their own with 400 "unsupported grant_type" and no statement (log-in's check is at lines 130 to 137) |
| ServerUserController.RefreshTokenSpec | server/src/controllers/UserController.ts:190-249 | a refresh never changes the tables and answers only 200, 400, 401 or 500 |
| ServerUserController.RefreshTokenOutcomes | server/src/controllers/UserController.ts:208-248 | a token that does not verify is 401 "invalid refresh_token" with no statement; a token naming an unknown user is 401 "User not found" with that id; otherwise a token for that user and their stored email |
| ServerUserController.MeSpec | server/src/controllers/UserController.ts:273-299 | reading one's own details never changes the tables and answers only 200, 400, 404 or 500 |
| ServerUserController.FetchUserSpec | server/src/controllers/UserController.ts:251-271 | fetching a user never changes the tables and answers only 200, 400, 403, 404 or 500 |
| ServerUserController.MeOutcomes | server/src/controllers/UserController.ts:273-299 | 200 with the requester's user and balance, or 404 "User not found" on the path when the requester is gone |
| ServerUserController.FetchUserOnlyOwnDetails | server/src/controllers/UserController.ts:251-271 | another user's id is 403 with no statement issued; one's own id is answered exactly as `me` |
| ServerUserController.ValidationFailureAnsweredFirst | server/src/controllers/UserController.ts:76-80 | every handler answers a validation failure with 400 and the failures, before any statement or outside call |
| ServerUserController.StoreFaultsAnswered | server/src/controllers/UserController.ts:94-108 | a failed insert other than a unique-constraint error is 500 with the tables unchanged; so is a failed lookup in log-in (lines 140 to 157), refresh (lines 223 to 239) and `me` (lines 278 to 298) |
| ServerUserController.UserController.constructor | server/src/controllers/UserController.ts:69-74 | keeps the user service and the outside services it is given |
| ServerUserController.UserController.CreateUser | server/src/controllers/UserController.ts:76-118 | the response, the new tables and the statements issued are those of `CreateUserSpec`; a consistent store stays consistent |
| ServerUserController.UserController.LogInUser | server/src/controllers/UserController.ts:120-187 | the response and the statements issued are those of `LogInUserSpec`; the tables are unchanged |
| ServerUserController.UserController.RefreshToken | server/src/controllers/UserController.ts:190-249 | the response and the statements issued are those of `RefreshTokenSpec`; the tables are unchanged |
| ServerUserController.UserController.FetchUser | server/src/controllers/UserController.ts:251-271 | the response and the statements issued are those of `FetchUserSpec`; the tables are unchanged |
| ServerUserController.UserController.Me | server/src/controllers/UserController.ts:273-299 | the response and the statements issued are those of `MeSpec`; the tables are unchanged |

## Left out

- The database itself: isolation, locking and concurrent transfers are not modelled. A `$transaction` is a snapshot restored on any thrown error.
- Failures other than the data's own are not derived from anything: `Store.Db.faults` injects an error for a given statement, standing for a lost connection, a timeout or a mock's rejection.
- The exact text of Prisma's errors is an assumption. A missing balance row is P2025 "Record to update not found.", and a taken email or id is P2002. A negative balance is an unknown-request error naming `balance_nonnegative_check`, and a foreign-key violation is P2003 with the message format of `__tests__/utils/prisma_util.ts`.
- `Store.CreateTransactionStep` checks the sender's foreign key before the receiver's. The order the database uses is not visible in the source.
- `isEmail` and `isUUID` are taken as given booleans. express-validator's `isLength` is taken to count characters, one per `char`.
- Request parsing and the response object are not modelled. Absent body fields are the empty text, so a validation failure on an absent field carries "" where express-validator leaves `value` undefined, and a controller produces a status and a body instead of writing to `res`.
- bcrypt hashing and comparison, and JWT minting and verification, are outside the model. The passport authentication middleware is outside it too: the requester is given.
- `Text.ToLower` lower-cases ASCII letters only. JavaScript's `toLowerCase` also folds other scripts.
- `Text.ParseBigInt` models `BigInt` applied to a text. A JSON number or other non-text body value is not modelled, as request parsing is not.
- `TimeUtil` works on unbounded integers where the source uses JavaScript `number` (a double). Fractional arguments, rounding and overflow beyond 2^53 are not modelled; the callers in src/services/JWTTokenService.ts pass whole numbers.
- server/src/io_models/MiniTocoError.ts and server/src/io_models/MiniTocoTransaction.ts are not part of this model. The server's `ofPath` is taken to set location "path". The server's transaction view carries the five fields the service sets: id, amount, sender, receiver's email and date.
- Balance and user reads return the stored rows. The Prisma client types and the `BigInt(...)` conversion on read are not modelled; integers are unbounded on both sides.
- `fetchTransactions`: the route calls it, but no controller in the source defines it. `retrieveTransactions` is modelled at the service.
- `ServerTransactionService.RetrieveSpec`, `EarlyUserService.FindUserByEmailSpec` and the other lookups map rows straight to records. They do not run the builders step by step; `UserRows` proves that the builders produce the same records.
- Console logging is left out, along with the React client's components and services, bootstrap and wiring, swagger comments and the test helpers.
- __tests__/services/TransactionService.test.ts:24-42 expects a P2025 error to become `UserIDNotFoundError` in the earlier service, but the earlier code rethrows it. `EarlyTransactionService.Classify` follows the code.
- The server tests expect `toUserId` and `fromUserEmail` on returned transactions. The service never sets them, so the model does not have them.
- `EarlyUserService` looks users up with the same store statement as the current service, which also reads the balance row. Over consistent tables every user has a balance row, so the results agree; over tables without one, the model reports not found where the earlier code would return the user.
- `ServerUserController` models the current server's handlers only. The earlier controllers are not part of this model.

## Findings

| source | as written | input that shows it | evidently intended | confidence | as-written member | corrected member |
|---|---|---|---|---|---|---|
| server/src/routes/transaction_routes.ts:130-134 | the self-send check compares the receiver's email with the requester's as exact strings, while emails are stored and looked up lower-cased | requester "al@x.io" sends to "Al@x.io": the check passes, the lookup finds the requester, and a record from the requester to themself is appended | compare the two addresses after lower-casing, as the user service does | not executed | ServerRoutes.CreateTransactionFailuresAsWritten, ServerRoutes.SelfSendCheckIgnoresCase, ServerTransactionController.SelfTransferThroughCaseBypass | ServerRoutes.CreateTransactionFailures, ServerTransactionController.NoSelfTransfer |
