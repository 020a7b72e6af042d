# iTONZI reward platform — a Dafny model

This project models the core of the iTONZI reward platform. The platform has
a server and a client. The server is an Express/MongoDB back end with tasks,
payments, users, JWT authentication and request validation. The client is a
React app with the airdrop tasks, the home page offers, the admin task and
user managers, the withdrawal forms, the support ticket form and the updates
modal.

Server side:

- **Store.** Each MongoDB collection is an in-memory map keyed by a natural id,
  held by the class `Store.Database`. Its invariant `Valid` is the schema
  bounds, the unique indexes on `email`, `username` and `referralCode`, and
  every id lying below the id counter.
- **Handlers.** Each request handler is one method over the store. It states
  every error reply (status and message), in the order the code checks them,
  the conditions under which it succeeds, and the full new state on success.
  The listings are functions of the collections; each states its page as a
  slice of the documents it selects, and echoes page, limit and total.
- **Ledger.** Drift is `balance + totalWithdrawn - totalEarned`. Task
  completion, withdrawal, deposit, registration, login, profile update and
  delete keep each user's drift unchanged. So after them a store where every
  balance equals earned minus withdrawn stays that way (`Store.Balanced`). Two
  exceptions:
  - the admin `updateUser` writes whatever the request body names, balance and
    totals included, so it keeps drift only for a body that names none of them;
  - withdrawal and deposit keep drift only for a numeric amount. A string amount
    breaks it (see "## Findings").
- **Document hooks.** Mongoose documents with pre-save hooks are classes
  (`UserModel.UserDoc`, `PaymentModel.PaymentDoc`). They track the "is new"
  and "is modified" flags the hooks read.
- **Virtuals and middleware.** Schema virtuals, the auth gates and the
  validation middleware are functions.
- **Thrown errors.** A write that violates a unique index or a schema
  validator throws in the original. The shared error handler is not part of
  this model, so such an error is the separate failure `Store.Thrown`.

Client side:

- **Pure updates.** State updates built with `map`, `filter` and spreads are
  functions from the old state to the new.
- **Step-by-step state.** Code that changes state step by step keeps that
  form:
  - the admin user list is a class over an `array`, sorted in place;
  - the offer countdown copy is a loop over an array;
  - the withdrawal forms are classes whose handlers update fields.
- **Truthiness.** JavaScript truthiness is written out wherever the code relies
  on it:
  - `!amount` holds for `undefined` and for 0;
  - `!str` holds for `undefined` and for `""`;
  - `parseInt(x) || d` falls back to `d` on `NaN` and on 0.

Inputs supplied as parameters:

- **Clocks.** `Date.now()` and `new Date()` are `now`, in milliseconds.
- **Randomness.** The `Math.random()` results are `draws`, each in [0, 1).
- **Hashing.** bcrypt hashing and comparison are the functions `hashPassword`
  and `compare`.
- **Tokens.** JWT verification is `verify`, a function from a token to an
  optional payload.

## Model

| member | source | states |
|---|---|---|
| TaskController.ListTasks | server/src/controllers/task.controller.ts:5-26 | page defaults to 1 and limit to 10; a negative skip fails; the items are the collection slice at `skip`; the total counts the whole collection |
| TaskController.CompleteTask | server/src/controllers/task.controller.ts:62-88 | the guards run in order, each with its exact reply: missing task 404, inactive 400, cap set and reached 400, missing user 404; success iff all guards pass; on success the counter goes up by 1 and the user's balance and totalEarned by the reward; a failure changes nothing; every user's drift is kept |
| TaskController.ApplyCompletion | server/src/controllers/task.controller.ts:73-78 | the two saves: the task counter plus 1, and the reward added to both balance and totalEarned; the store stays valid and drift is kept |
| TaskController.Counted | server/src/controllers/task.controller.ts:73-74 | the counter goes up by exactly 1 and `updatedAt` becomes now; no other field changes; the schema bounds still hold |
| TaskController.CompletionIgnoresDateWindow | server/src/controllers/task.controller.ts:63-68 | some schema-valid task passes every guard of `completeTask` yet is not `isAvailable`: the handler never checks the date window |
| TaskController.CompletionMatchesAvailability | server/src/models/Task.ts:105-114 | inside the date window the handler's guards and `isAvailable` agree; anything available can be completed |
| PaymentController.OwnPayments | server/src/controllers/payment.controller.ts:11-12 | exactly the caller's payments, in collection order: every one belongs to the caller and every payment of the caller is there; none without a caller |
| PaymentController.ListPayments | server/src/controllers/payment.controller.ts:5-26 | a negative skip fails; the items are the slice at `skip` of the caller's payments, at most `limit` long; page and limit are echoed; the total counts exactly the caller's payments |
| PaymentController.WithdrawalRecord | server/src/controllers/payment.controller.ts:41-50 | the withdrawal record is pending, type withdrawal, in TON, via `ton_wallet`, carries the wallet address and the description "Withdrawal to " followed by the address |
| PaymentController.DepositRecord | server/src/controllers/payment.controller.ts:71-79 | the deposit record is completed, type deposit, has the fixed description, and is stamped with `processedAt = now` by the pre-save hook |
| PaymentController.Withdraw | server/src/controllers/payment.controller.ts:28-59 | the error replies in order: falsy amount or address, amount not positive, user missing, balance too small; success iff none applies and the description fits the schema; on success one pending payment is added, and balance goes down and totalWithdrawn up by the amount; drift is kept (the amount is a JSON number) |
| PaymentController.Deposit | server/src/controllers/payment.controller.ts:61-88 | the error replies in order: falsy amount, amount not positive, user missing; on success one completed payment is added, and balance and totalEarned go up by the amount; success iff none of the errors applies; drift is kept (the amount is a JSON number) |
| PaymentController.AddAssign | server/src/controllers/payment.controller.ts:51-52 | `x += amount` read back as a number: the sum for a JSON number; for a string of decimal digits without a leading zero the concatenated numeral, which exceeds the sum for a positive `x` |
| PaymentController.WithdrawnAsWritten | server/src/controllers/payment.controller.ts:51-52 | balance goes down by the amount's numeric value and totalWithdrawn takes `+=`; for a JSON number drift is kept; nothing else changes |
| PaymentController.DepositedAsWritten | server/src/controllers/payment.controller.ts:80-81 | balance and totalEarned both take `+=`; for a JSON number drift is kept; nothing else changes |
| PaymentController.NumeralWithdrawalDrift | server/src/controllers/payment.controller.ts:51-52 | a string withdrawal keeps the drift iff the user had withdrawn nothing before |
| PaymentController.NumeralDepositDrift | server/src/controllers/payment.controller.ts:80-81 | a string deposit keeps the drift iff the balance equals the total earned |
| PaymentController.NumeralDepositExample | server/src/controllers/payment.controller.ts:80 | a deposit of "5" onto a balance of 100 stores 1005 |
| PaymentController.NumeralWithdrawalExample | server/src/controllers/payment.controller.ts:52 | a withdrawal of "5" after 10 withdrawn records 105 withdrawn |
| PaymentController.CreatePayment | server/src/controllers/payment.controller.ts:41-50 | `Payment.create` puts the hooked record under a fresh id and touches nothing else |
| PaymentController.ApplyLedger | server/src/controllers/payment.controller.ts:51-53 | the user's three ledger fields move by the given amounts, the save stamps `updatedAt`, and when balance moves by earned minus withdrawn the drift is kept |
| AuthController.SessionOf | server/src/controllers/auth.controller.ts:32-50 | the token payload is the id as a string, the email and the role name; the summary is exactly id, username, email, role name and balance |
| AuthController.Registration | server/src/controllers/auth.controller.ts:17-29 | the created user has role `user`, is active, and has zero balance, earned and withdrawn, so its drift is 0 |
| AuthController.ValidateReferralCode | server/src/models/User.ts:99-103 | the `required` validator on `referralCode` fails exactly on an empty code, and otherwise passes the document unchanged |
| AuthController.RegistrationRefusedAsWritten | server/src/controllers/auth.controller.ts:17-29 | validated before the hooks run, as Mongoose orders it, every registration document fails the `required` check on `referralCode` |
| AuthController.Register | server/src/controllers/auth.controller.ts:7-52 | with the `required` check on the code run after the hooks (see "## Findings"): a taken email or username gives 400 "User already exists" and changes nothing; a drawn referral code already in use makes the insert throw; success iff neither applies; on success the user is stored under a fresh id with a hashed password and the code the draws spell, and the session names that user |
| AuthController.SavedRegistration | server/src/controllers/auth.controller.ts:17-29 | the document `User.create` saves is the registration document with the password hashed and an 8-character referral code; its email and username are the request's, it is schema-valid and its drift is 0; the drawn code passes the `required` validator |
| AuthController.InsertUser | server/src/controllers/auth.controller.ts:17 | the insert adds exactly that user under an id not used before and touches no other collection; every drift is kept |
| AuthController.Login | server/src/controllers/auth.controller.ts:54-94 | an unknown email and a wrong password both give 401 "Invalid credentials"; success iff the stored password matches; only `lastLogin` and `updatedAt` change |
| AuthController.SignedIn | server/src/controllers/auth.controller.ts:70-71 | `lastLogin` and `updatedAt` become now and no other field changes, so drift and the schema bounds are kept |
| AuthController.RecordSignIn | server/src/controllers/auth.controller.ts:69-71 | the stored user becomes its signed-in version and nothing else in the store changes; drift is kept |
| AuthController.EmailOwner | server/src/controllers/auth.controller.ts:58 | by the unique index, `findOne({ email })` can match only one user |
| UserController.ListUsers | server/src/controllers/user.controller.ts:4-25 | a negative skip fails; the items are the slice at `skip` of the users' public views, at most `limit` long; page and limit are echoed; no listed user has a password key; the total counts everyone |
| UserController.GetUserById | server/src/controllers/user.controller.ts:27-31 | 404 iff the id is unknown; otherwise the user without the password |
| UserController.GetProfile | server/src/controllers/user.controller.ts:45-49 | with no caller id it is 404; otherwise it behaves as a lookup by the caller's id |
| UserController.DeleteUser | server/src/controllers/user.controller.ts:39-43 | 404 iff the id is unknown; on success exactly that user is removed |
| UserController.UpdateUser | server/src/controllers/user.controller.ts:33-37 | the body's cast and update validators come first, whatever the id: a body whose values do not cast throws, then one that fails a validator throws; only then an unknown id gives 404; a clash on a unique index throws; success iff none applies; on success the user is replaced by the body's `$set` with `updatedAt = now`; a body naming no ledger field keeps every drift |
| UserController.ApplyUpdate | server/src/controllers/user.controller.ts:34 | the `$set` of the body's values; a password in the body is stored as sent, since no save hook runs; the timestamps, `referredBy` and `lastLogin` are untouched |
| UserController.UpdateOfNoPath | server/src/models/User.ts:29-123 | a body naming no schema path changes nothing |
| UserController.UpdateKeepsSchema | server/src/models/User.ts:85-115 | a body that casts and passes the update validators keeps a schema-valid user schema-valid |
| UserController.UpdateKeepsDrift | server/src/controllers/user.controller.ts:34 | a body naming none of balance, totalEarned and totalWithdrawn keeps the drift |
| UserController.UpdateIdempotent | server/src/controllers/user.controller.ts:34 | sending the same body twice is sending it once |
| UserController.UpdateRefusals | server/src/models/User.ts:29-123 | an empty email or referral code fails `required`, a balance of -1 fails `min: 0`, and the balance "abc" fails the cast |
| UserController.ProfileEdit | server/src/controllers/user.controller.ts:55-58 | each of the four fields takes the body's value only when that value is truthy; ledger and role never change; with no truthy field the user is unchanged |
| UserController.UpdateProfile | server/src/controllers/user.controller.ts:51-65 | 404 when the caller is unknown; for a known caller it fails, with "duplicate key", iff the edited user clashes with a unique index; a refused write leaves the store unchanged; on success the stored user is the edited one with `updatedAt = now`; drift is kept |
| UserController.EditDocument | server/src/controllers/user.controller.ts:55-58 | the four guarded assignments on the loaded document give `ProfileEdit`; its hook flags are untouched |
| UserController.ProfileEditKeepsLedger | server/src/controllers/user.controller.ts:55-58 | the profile assignments keep the schema bounds and the drift of the user |
| UserController.WriteProfile | server/src/controllers/user.controller.ts:59 | the save is refused exactly when the new username, email or referral code clashes with another user, and a refused save changes nothing; otherwise only that user is replaced; drift is kept |
| UserController.Ranked | server/src/controllers/user.controller.ts:73 | the rows are a permutation of the projected documents: every document appears as a row exactly as often as it is in the collection; rows are ordered by totalEarned descending |
| UserController.Leaderboard | server/src/controllers/user.controller.ts:67-88 | a negative skip fails; the items are the slice at `skip` of the ranking, at most `limit` long; page and limit are echoed; the total counts everyone |
| UserController.LeaderboardRanked | server/src/controllers/user.controller.ts:67-88 | the items of a leaderboard page are ordered by totalEarned descending, and each is a projected document |
| AuthMiddleware.BearerToken | server/src/middlewares/authMiddleware.ts:18-23 | a token is found iff the header starts with "Bearer "; the header is then the prefix followed by the token |
| AuthMiddleware.ActiveUser | server/src/middlewares/authMiddleware.ts:25-32 | the payload survives iff the token verifies, its id names a stored user, and that user is active |
| AuthMiddleware.Authenticate | server/src/middlewares/authMiddleware.ts:14-39 | no bearer token gives 401 "Access token required"; a token that fails to verify gives 401 "Invalid or expired token"; a missing or inactive user gives 401; it continues iff an active user is found, and then attaches the verified payload |
| AuthMiddleware.OptionalAuth | server/src/middlewares/authMiddleware.ts:60-82 | no bearer token attaches nothing; otherwise it attaches the payload of an active user, if there is one |
| AuthMiddleware.OptionalMatchesAuthenticate | server/src/middlewares/authMiddleware.ts:60-82 | `optionalAuth` attaches a user exactly when `authenticate` would continue, and attaches the same payload |
| AuthMiddleware.IssuedTokenAuthenticates | server/src/middlewares/authMiddleware.ts:23-35 | a verified token naming a stored active user's id continues with that payload |
| AuthMiddleware.RequireRole | server/src/middlewares/authMiddleware.ts:41-55 | no user gives 401; a role not in the list gives 403; it continues iff the user's role is listed |
| AuthMiddleware.RequireAdmin | server/src/middlewares/authMiddleware.ts:57 | continues iff the role is `admin` |
| AuthMiddleware.RequireModerator | server/src/middlewares/authMiddleware.ts:58 | continues iff the role is `admin` or `moderator` |
| AuthMiddleware.AdminIsModerator | server/src/middlewares/authMiddleware.ts:57-58 | whoever passes `requireAdmin` passes `requireModerator` |
| AuthMiddleware.Request.RunAuthenticate | server/src/middlewares/authMiddleware.ts:14-39 | `next` is called once and the user attached exactly when the gate continues; otherwise the reply is recorded and `next` is not called |
| AuthMiddleware.Request.RunOptionalAuth | server/src/middlewares/authMiddleware.ts:60-82 | `next` is always called exactly once; a user is attached only when one is found |
| AuthMiddleware.Request.RunRequireRole | server/src/middlewares/authMiddleware.ts:41-55 | `next` is called iff the role check passes; otherwise the 401 or 403 reply is recorded |
| Validate.ToDetail | server/src/middlewares/validate.ts:15-19 | field is the path, or the error type when there is no path; message is `msg`; a falsy value becomes undefined |
| Validate.Decide | server/src/middlewares/validate.ts:5-29 | continues iff there are no errors; otherwise a 400 "Validation failed" reply with one detail per error, in order |
| Validate.UsernameErrors | server/src/middlewares/validate.ts:48-58 | at most two errors, all on the `username` path |
| Validate.PasswordErrors | server/src/middlewares/validate.ts:41-47 | at most one error |
| Validate.AmountErrors | server/src/middlewares/validate.ts:65-71 | at most one error |
| Validate.IdErrors | server/src/middlewares/validate.ts:59-64 | no error iff the id is 24 hexadecimal digits |
| Validate.UsernameRule | server/src/middlewares/validate.ts:48-58 | a username passes iff it has 3 to 30 characters, all letters, digits or underscores |
| Validate.PasswordRule | server/src/middlewares/validate.ts:41-47 | a password passes iff it has at least 6 characters |
| Validate.AmountRule | server/src/middlewares/validate.ts:65-71 | an amount passes iff it parses as a float of at least 0, so 0 passes despite the "positive" message |
| Validate.RulesCombine | server/src/middlewares/validate.ts:8-12 | errors of several chains concatenate: the request passes iff each chain passes |
| Validate.RegistrationRules | server/src/middlewares/validate.ts:41-58 | username and password rules together pass iff both pass |
| Jwt.IdText | server/src/controllers/auth.controller.ts:33 | `_id.toString()` is a non-empty digit string |
| Jwt.ParseId | server/src/middlewares/authMiddleware.ts:28 | an id string names an id iff it is a non-empty digit string |
| Jwt.ParseIdText | server/src/utils/jwt.ts:4-10 | the id written into a payload reads back as the same id |
| UserModel.ParseRole | server/src/models/User.ts:71-75 | the role enum accepts exactly "user", "admin" and "moderator", and maps each back to its spelling |
| UserModel.NewUser | server/src/models/User.ts:29-123 | the schema defaults: role user, not verified, active, zero ledger and counters, no referral code yet; the result is within the numeric schema bounds, which are all `SchemaValid` holds (the missing code fails `required`, see "## Findings") |
| UserModel.FullName | server/src/models/User.ts:164-169 | "first last" when both names are truthy, otherwise the username |
| UserModel.PickIndex | server/src/models/User.ts:157 | `Math.floor(r * 36)` is a valid index into the alphabet |
| UserModel.DrawnCode | server/src/models/User.ts:154-159 | the code the draws spell has 8 characters, all from the alphabet |
| UserModel.GenerateReferralCode | server/src/models/User.ts:154-159 | the code has 8 characters, all from the alphabet; character i is chosen by draw i, so it is the code the draws spell |
| UserModel.Fields | server/src/models/User.ts:4-25 | the serialised document carries the password and the balance |
| UserModel.ToJSON | server/src/models/User.ts:172-177 | the transform removes the password key and keeps every other key and value |
| UserModel.PublicJSON | server/src/models/User.ts:172-177 | the user in a response has no password key and keeps its balance |
| UserModel.UserDoc.HashPasswordHook | server/src/models/User.ts:132-141 | only a modified password is replaced by its hash |
| UserModel.UserDoc.ReferralCodeHook | server/src/models/User.ts:150-161 | only a new document without a code gets one: the 8-character code the draws spell, from the alphabet; otherwise the document is unchanged |
| UserModel.UserDoc.Save | server/src/models/User.ts:132-161 | both hooks in registration order, then `updatedAt = now`; a new document without a code gets the code the draws spell, 8 characters from the alphabet; nothing else changes and the flags are cleared |
| UserModel.UserDoc.Resave | server/src/models/User.ts:132-161 | saving a loaded document whose password was not assigned leaves the password and the referral code alone: only `updatedAt` changes |
| UserModel.Stamped | server/src/models/User.ts:122 | the timestamps option sets `updatedAt` to now and no other field, so drift and the schema bounds are kept |
| UserModel.LedgerMoved | server/src/controllers/payment.controller.ts:51-53 | balance, totalEarned and totalWithdrawn move by the given amounts and `updatedAt` becomes now; no other field changes, and the drift moves by `dBalance + dWithdrawn - dEarned` |
| TaskModel.NewTask | server/src/models/Task.ts:24-90 | the schema defaults: active, 0 completions, no cap, easy, 5 minutes, no requirements; schema-valid within the length bounds |
| TaskModel.RoundQuotientInt | server/src/models/Task.ts:101 | `Math.round(n / d)` for d > 0 is the integer `(2n + d) / (2d)` |
| TaskModel.CompletionPercentage | server/src/models/Task.ts:99-102 | 0 without a truthy cap; otherwise the rounded percentage |
| TaskModel.CompletionPercentageBounds | server/src/models/Task.ts:99-102 | within the cap the percentage lies in 0..100; it is 100 at the cap and 0 with no completions |
| TaskModel.IsAvailable | server/src/models/Task.ts:105-114 | available iff active, inside the date window, and the cap (when truthy) not reached |
| PaymentModel.AddWithoutTransactionId | server/src/models/Payment.ts:50-54 | a payment without a transaction id never breaks the sparse unique index |
| PaymentModel.NewPayment | server/src/models/Payment.ts:19-73 | the defaults: pending, TON, no transaction id, address or processedAt; schema-valid when amount is 0 or more and the description fits in 200 characters |
| PaymentModel.StampProcessedAt | server/src/models/Payment.ts:88-93 | `processedAt` is set to now only when the status was modified, is completed, and no stamp exists; nothing else changes |
| PaymentModel.StampOnce | server/src/models/Payment.ts:88-93 | over two saves `processedAt` is set at most once, and only on a completed payment |
| PaymentModel.PaymentDoc.SetStatus | server/src/models/Payment.ts:40-44 | assigning the status marks the status path as modified |
| PaymentModel.PaymentDoc.Save | server/src/models/Payment.ts:88-93 | the save applies the hook and clears the modified flag |
| NotificationModel.NewNotification | server/src/models/Notification.ts:17-61 | the defaults: type info, unread, low priority, no expiry |
| NotificationModel.IsExpired | server/src/models/Notification.ts:70-73 | never expired without `expiresAt`; otherwise expired iff now is after it |
| NotificationModel.AgeOf | server/src/models/Notification.ts:76-90 | the `timeAgo` buckets: under 1 minute, under 60 minutes, under 24 hours, under 7 days, else the date, carrying the minutes, hours or days |
| NotificationModel.AgeLabel | server/src/models/Notification.ts:80-89 | only the date bucket has no fixed label |
| NotificationModel.AgeText | server/src/models/Notification.ts:78-89 | from the whole minutes m elapsed: "Just now" below 1, "{m}m ago" below 60, "{h}h ago" with h = m/60 below 24, "{d}d ago" with d = h/24 below 7, otherwise the date |
| NotificationModel.AgeMonotone | server/src/models/Notification.ts:76-90 | as time passes a notification never returns to an earlier bucket |
| Paging.OrDefault | server/src/controllers/task.controller.ts:6-7 | `parseInt(x) \|\| d` is x unless x is NaN or 0 |
| Paging.ParseQuery | server/src/controllers/task.controller.ts:5-8 | page defaults to 1 and limit to 10; skip is (page - 1) * limit; page and limit are never 0 |
| Paging.Window | server/src/controllers/task.controller.ts:10-13 | a negative skip fails; otherwise the items are the slice at skip, at most the limit's size, with the page, limit and total echoed |
| Paging.ConsecutivePages | server/src/controllers/task.controller.ts:8-11 | pages p and p + 1 of size l together give the window of size 2l at page p's skip |
| Airdrop.MarkCompleted | src/Airdrop/components/AirdropModal.tsx:50-56 | exactly the tasks with that id become completed; all others are unchanged |
| Airdrop.RewardOf | src/Airdrop/components/AirdropModal.tsx:57-60 | the reward of the first task with that id, or 0 when none has it |
| Airdrop.CompleteTask | src/Airdrop/components/AirdropModal.tsx:49-61 | the list is marked, and the balance grows by the found reward or not at all |
| Airdrop.ConnectWallet | src/Airdrop/components/AirdropModal.tsx:63-74 | connected, the demo address set, task 7 marked completed, and 200 added |
| Airdrop.CompletedCount | src/Airdrop/components/AirdropModal.tsx:135 | the number of completed tasks |
| Airdrop.CompletionMonotone | src/Airdrop/components/AirdropModal.tsx:49-61 | completing a task never lowers the completed count |
| Airdrop.CompletionIdempotent | src/Airdrop/components/AirdropModal.tsx:50-56 | marking the same id twice is the same as marking it once |
| Airdrop.RepeatedCompletionPaysTwice | src/Airdrop/components/AirdropModal.tsx:49-61 | completing the same task twice pays its reward twice, since nothing checks `completed` |
| Airdrop.RewardAfterMark | src/Airdrop/components/AirdropModal.tsx:57-60 | marking tasks completed never changes the reward found for an id |
| Airdrop.ConnectTwice | src/Airdrop/components/AirdropModal.tsx:63-74 | connecting twice pays the 200 bonus twice |
| Home.ActiveTasks | src/pages/Home.tsx:170 | keeps exactly the tasks whose `isActive` is absent or true, in order |
| Home.OfferClick | src/pages/Home.tsx:432-436 | a fresh copy of the countdowns with the clicked slot set to 30 |
| Home.Tick | src/pages/Home.tsx:442 | each positive slot drops by one and the others stay at 0 |
| Home.TicksCount | src/pages/Home.tsx:440-445 | after n ticks a slot that started at v reads max(v - n, 0) |
| Home.CooldownLasts | src/pages/Home.tsx:985-986 | a clicked button stays disabled for exactly 30 ticks |
| Home.GetRankIcon | src/pages/Home.tsx:411-417 | gold, silver and bronze for ranks 1 to 3, a trophy up to rank 10, a star above |
| Home.RemainingCount | src/pages/Home.tsx:1011 | the badge is the number of tasks minus the number completed |
| Home.CountsAddUp | src/pages/Home.tsx:1011 | the completed counter plus the badge of tasks not completed equals the number of tasks |
| TaskManager.EmptySearchMatches | src/admin/components/TaskManager.tsx:127 | an empty search term matches every task |
| TaskManager.StagesCompose | src/admin/components/TaskManager.tsx:125-148 | the three filters in a row keep what the three criteria together keep |
| TaskManager.FilterTasks | src/admin/components/TaskManager.tsx:123-151 | the result is the subsequence keeping exactly the tasks that match the search on title, description or category, the status filter and the difficulty filter |
| TaskManager.KeptExactly | src/admin/components/TaskManager.tsx:127-148 | each kept task meets every criterion, and each task meeting them is kept |
| TaskManager.CanCreate | src/admin/components/TaskManager.tsx:166-167 | creation is allowed iff title and description are non-empty strings and the reward is a non-zero number |
| TaskManager.ZeroRewardRefused | src/admin/components/TaskManager.tsx:166-170 | a reward of 0 or none refuses creation, whatever the title and description |
| TaskManager.DuplicateTask | src/admin/components/TaskManager.tsx:231-242 | one task is appended, the old ones are unchanged, and the copy has the new id, " (Copy)" title, new timestamps and 0 completions |
| TaskManager.TotalCompletions | src/admin/components/TaskManager.tsx:391 | the sum of the completion counts: non-negative when every count is, 0 when every count is 0 |
| TaskManager.TotalRewards | src/admin/components/TaskManager.tsx:395 | the sum of reward times completion count: non-negative when rewards and counts are, 0 when every count is 0 |
| TaskManager.TotalsAppend | src/admin/components/TaskManager.tsx:391-395 | both totals add up over concatenated lists |
| TaskManager.DuplicateKeepsTotals | src/admin/components/TaskManager.tsx:231-242 | duplicating changes neither total completions nor total rewards |
| TaskManager.ParseRequirements | src/admin/components/TaskManager.tsx:656 | the kept lines are exactly the non-blank pieces of the split on '\n', in order: every kept line is a non-blank piece, and every non-blank piece is kept |
| TaskManager.RequirementsRoundTrip | src/admin/components/TaskManager.tsx:655-656 | requirements shown joined by '\n' parse back to themselves when each is non-blank and has no line break |
| UserManager.ListedMeaning | src/admin/components/UserManager.tsx:125-166 | the list is a permutation of exactly the members matching search, status and role, ordered by the sort field in the chosen direction |
| UserManager.StagesCompose | src/admin/components/UserManager.tsx:129-145 | the three filters in a row keep what the three criteria together keep |
| UserManager.SortInPlace | src/admin/components/UserManager.tsx:148-162 | the array is reordered in place into the sorted order of its old contents |
| UserManager.ApplyFilters | src/admin/components/UserManager.tsx:126-145 | the filtered contents; with no filter active the very same array comes back, otherwise a new one |
| UserManager.Manager.Load | src/admin/components/UserManager.tsx:69-74 | the initial criteria: empty search, all statuses and roles, by join date descending, page 1 |
| UserManager.Manager.FilterAndSortUsers | src/admin/components/UserManager.tsx:125-166 | the shown list is the filtered and sorted list of the old users; the page resets to 1; with no filter the sort reorders `users` itself, otherwise `users` is untouched |
| UserManager.Applied | src/admin/components/UserManager.tsx:175-186 | suspend, ban and activate set the status; verify sets `verified`; delete leaves the user |
| UserManager.UserAction | src/admin/components/UserManager.tsx:168-196 | an unconfirmed delete changes nothing; a delete keeps exactly the users with other ids, in order; any other action changes only the users with that id |
| UserManager.ActionIdempotent | src/admin/components/UserManager.tsx:168-196 | repeating an action changes nothing more |
| UserManager.ActionTargetsOneId | src/admin/components/UserManager.tsx:173-192 | a user with another id is never removed |
| UserManager.TotalPages | src/admin/components/UserManager.tsx:252 | the pages cover every member and the last page is not empty |
| UserManager.CurrentUsers | src/admin/components/UserManager.tsx:249-251 | at most 20 rows; for page p from 1, row i is position (p-1)*20 + i of the filtered list |
| UserManager.Previous | src/admin/components/UserManager.tsx:498 | `Math.max(1, currentPage - 1)`: at least 1, and either 1 or the page before |
| UserManager.Next | src/admin/components/UserManager.tsx:505 | `Math.min(totalPages, currentPage + 1)`: at most totalPages, and either totalPages or the page after |
| UserManager.PageContents | src/admin/components/UserManager.tsx:249-251 | page p holds positions (p-1)*20 up to p*20, at most 20 rows, and is non-empty iff p is at most the page count |
| UserManager.PagerStaysInRange | src/admin/components/UserManager.tsx:498-506 | Previous and Next keep the page within 1..totalPages, stopping at the ends |
| UserManager.Band | src/admin/components/UserManager.tsx:217-221 | red iff score >= 70, yellow iff 40 <= score < 70, green iff score < 40 |
| UserManager.BandMonotone | src/admin/components/UserManager.tsx:217-221 | a higher score never gets a milder band |
| UserManager.AgoOf | src/admin/components/UserManager.tsx:227-236 | the buckets: under 1 hour, under 24 hours, under 168 hours, else the date; the hours and days shown are the floors |
| UserManager.AgoLabel | src/admin/components/UserManager.tsx:232-235 | only the date bucket has no fixed label |
| UserManager.AgoText | src/admin/components/UserManager.tsx:227-236 | from the milliseconds elapsed: "Just now" under an hour, "{h}h ago" with the floored hours under 24 hours, "{d}d ago" with the floored days under 168 hours, otherwise the date |
| PaymentForms.Select | src/FooterActionButtons/PaymentModal.tsx:209 | clicking an available method selects it; clicking an unavailable one keeps the selection |
| PaymentForms.SelectKeepsSelectable | src/FooterActionButtons/PaymentModal.tsx:206-210 | after any click the selection is empty or an available method, so never PayPal |
| PaymentForms.PaypalNotSelectable | src/FooterActionButtons/PaymentModal.tsx:56-64 | PayPal, the one unavailable method, is not selectable |
| PaymentForms.SanitiseMobile | src/FooterActionButtons/PaymentModal.tsx:279 | output is digits only and a prefix of the input's digits: all of them when there are at most 10, otherwise exactly the first 10 |
| PaymentForms.SanitiseIdempotent | src/FooterButton/Components/Payment/WithdrawComponent.tsx:176 | sanitising twice is sanitising once |
| PaymentForms.AddressInput | src/FooterActionButtons/PaymentModal.tsx:271-295 | mobile methods store the sanitised number; other methods store the text as typed |
| PaymentForms.SubmitImpliesGuard | src/FooterActionButtons/PaymentModal.tsx:300-301 | a visible submit button always passes the handler's guard; for wallet methods the two agree; for mobile methods visibility adds exactly the 10-character check |
| PaymentForms.MaxAmount | src/FooterActionButtons/PaymentModal.tsx:251 | MAX writes the balance as a string; it is never empty, and for a non-negative balance it is digits that read back as the balance |
| PaymentForms.PaymentForm.constructor | src/FooterActionButtons/PaymentModal.tsx:32-35 | the form starts empty, not processing, with nothing selected |
| PaymentForms.PaymentForm.ChooseMethod | src/FooterActionButtons/PaymentModal.tsx:209 | the selection follows `Select`, stays selectable, and is never PayPal; the other fields are unchanged |
| PaymentForms.PaymentForm.TypeAmount | src/FooterActionButtons/PaymentModal.tsx:246 | the amount becomes the typed text; nothing else changes |
| PaymentForms.PaymentForm.PressMax | src/FooterActionButtons/PaymentModal.tsx:251 | the amount becomes the balance string; nothing else changes |
| PaymentForms.PaymentForm.TypeAddress | src/FooterActionButtons/PaymentModal.tsx:277-291 | the address becomes the (sanitised for mobile) input; nothing else changes |
| PaymentForms.PaymentForm.HandleWithdraw | src/FooterActionButtons/PaymentModal.tsx:122-125 | nothing happens unless method, amount and address are all non-empty; then only `isProcessing` is set |
| PaymentForms.PaymentForm.FinishProcessing | src/FooterActionButtons/PaymentModal.tsx:127-133 | amount, address and method are cleared and `isProcessing` becomes false |
| PaymentForms.WithdrawForm.constructor | src/FooterButton/Components/Payment/WithdrawComponent.tsx:25-27 | the form starts empty with nothing selected and no request made |
| PaymentForms.WithdrawForm.ChooseMethod | src/FooterButton/Components/Payment/WithdrawComponent.tsx:106 | the selection follows `Select` and is never PayPal; nothing else changes |
| PaymentForms.WithdrawForm.TypeAmount | src/FooterButton/Components/Payment/WithdrawComponent.tsx:143 | the amount becomes the typed text; nothing else changes |
| PaymentForms.WithdrawForm.PressMax | src/FooterButton/Components/Payment/WithdrawComponent.tsx:148 | the amount becomes the balance string; nothing else changes |
| PaymentForms.WithdrawForm.TypeAddress | src/FooterButton/Components/Payment/WithdrawComponent.tsx:174-188 | the address becomes the (sanitised for mobile) input; nothing else changes |
| PaymentForms.WithdrawForm.HandleWithdraw | src/FooterButton/Components/Payment/WithdrawComponent.tsx:86-89 | `onWithdraw` is called iff all three fields are non-empty, with the fields unchanged; the form keeps its values |
| PaymentForms.WithdrawForm.ResetForm | src/FooterButton/Components/Payment/WithdrawComponent.tsx:91-95 | amount, address and method are cleared and nothing else changes |
| Contact.SubmitTicket | src/FooterButton/Components/Support/ContactComponent.tsx:72-77 | a ticket is sent iff subject, category and message are non-empty, and it is the form as it stood; then the form resets with priority "medium"; otherwise the form is unchanged |
| Contact.ResetIsInitial | src/FooterButton/Components/Support/ContactComponent.tsx:26-31 | the reset form is the initial form, so pressing submit again sends nothing |
| Contact.PriorityIrrelevant | src/FooterButton/Components/Support/ContactComponent.tsx:73 | the priority never decides whether a ticket is sent |
| Updates.FilteredUpdates | src/components/modals/UpdatesModal.tsx:225 | 'all' returns the list unchanged; a type returns exactly the updates of that type, in order |
| Updates.FilterIdempotent | src/components/modals/UpdatesModal.tsx:225 | filtering again by the same type changes nothing |
| Updates.Changelog | src/components/modals/UpdatesModal.tsx:431 | exactly the updates with a truthy version, in order |
| Updates.RoadmapLabel | src/components/modals/UpdatesModal.tsx:409 | only the first '-' becomes a space; everything else is kept |
| Updates.RoadmapLabelInProgress | src/components/modals/UpdatesModal.tsx:152 | "in-progress" reads "in progress" |
| Updates.RoadmapLabelNoDash | src/components/modals/UpdatesModal.tsx:153-170 | "planned" and "research" are shown as they are |
| Updates.RoadmapLabelFirstDash | src/components/modals/UpdatesModal.tsx:409 | for any label whose first dash follows a dash-free prefix, that dash and only that one becomes a space |
| Sorting.SortBySorted | src/admin/components/UserManager.tsx:148-162 | the sort result is ordered by key, in either direction; `SortBy` itself keeps the multiset |
| Sorting.SortByMap | server/src/controllers/user.controller.ts:73 | sorting and then projecting gives the projections of the original elements, each as often |
| Seqs.JsSlice | src/admin/components/UserManager.tsx:251 | `slice` with any integer bounds: negative bounds count from the end, and the result is clamped |
| Text.DigitsOnlyAppend | src/FooterActionButtons/PaymentModal.tsx:279 | the digits of a concatenation are the digits of each part, concatenated: every digit survives, in order |
| Text.DigitsOnlyChar | src/FooterActionButtons/PaymentModal.tsx:279 | one character is kept exactly when it is a digit |
| Text.SplitJoin | src/admin/components/TaskManager.tsx:655-656 | splitting one or more pieces joined by a separator they do not contain gives the pieces back |

## Left out

- Persistence. MongoDB queries, connection handling and `ObjectId` generation are left out. Ids are natural numbers from a counter, and a collection's natural order is the order of a sequence.
- MongoDB specifics:
  - the email setters (`lowercase`, `trim`);
  - the `required` and string length validators of the user schema on document saves: `SchemaValid` holds only the numeric bounds, so a new user without a referral code is schema-valid in the model (see "## Findings"). `updateUser` checks them on the paths its body names;
  - the CastError `findById` throws on a malformed id.
- AuthController.Register: as written every registration is refused. Mongoose runs the schema validators before the pre-save hooks, so the `required` check on `referralCode` sees the document before the hook generates the code (`RegistrationRefusedAsWritten`). `Register` models the evidently intended behaviour, with the check after the hooks (see "## Findings").
- Unread fields and setters. The user's `avatar`, the payment's `metadata`, and `trim` and `uppercase` on payment fields are not modelled.
- CRUD handlers without logic are not modelled: `getTaskById`, `createTask`, `updateTask` and `deleteTask`. They are direct database calls, and the store is not part of this model beyond the maps.
- Request validation backing. `isEmail` and `normalizeEmail` are not modelled. The amount rule takes the parsed float as a parameter.
- Floating point.
  - `formattedAmount` uses `toFixed` and is not modelled.
  - Amounts and balances are integers. Fee subtraction and `toFixed` are not modelled.
  - `Math.round` and the hour divisions are exact.
  - `balance.toString()` is modelled for integer balances only. Minimum amounts and fees in the method tables are only displayed.
- Tie order of sorting. `Array.prototype.sort` with a comparator that never returns 0, and MongoDB's `sort`, leave the order of equal keys unspecified. The model fixes one order (insertion sort). Contracts state only the promised part: a permutation ordered by key.
- Text handling. `toLowerCase` and `trim` use ASCII case and whitespace. `toLocaleDateString` is the label-free date bucket. ISO date strings of the admin user list are the instants they denote.
- Oracles. JWT sign, verify and decode, and bcrypt hash and compare, are oracles passed in as parameters.
- The shared error handler (`createError` and the `errorHandler` module) is not part of this model. A thrown database error is the distinct failure `Store.Thrown`.
- PaymentController.Withdraw: the amount is a JSON number (`Option<int>`). A JSON string of decimal digits without a leading zero, which the route does not reject, is modelled separately by `WithdrawnAsWritten`; there `totalWithdrawn += amount` concatenates and the drift is not kept (see "## Findings").
- PaymentController.Deposit: the amount is a JSON number (`Option<int>`). A JSON string of decimal digits without a leading zero, which the route does not reject, is modelled separately by `DepositedAsWritten`; there `balance += amount` and `totalEarned += amount` concatenate and the drift is not kept (see "## Findings").
- Other string amounts. Only JSON strings of decimal digits without a leading zero are modelled. A leading zero ("05") concatenates more digits than its value has; a decimal point ("5.5") or a space (" 5") gives a number that is not an integer; a non-numeric string ("abc") fails every guard comparison or makes `Payment.create` throw a cast error.
- UserController.UpdateUser: the body is a JSON object of strings, integers and booleans. Four things are not modelled:
  - the casts Mongoose makes between JSON types (`"5"` to a number, a number to a string): a value of another type is a cast failure;
  - the `trim` and `lowercase` setters on the body's strings;
  - the keys `avatar`, `referredBy`, `lastLogin`, `createdAt` and `updatedAt`, and `$`-operators, which are treated as unknown keys;
  - the CastError of a malformed id.
- UserController.Leaderboard: each row also carries the document id, because a projection always keeps `_id`.
- Timers, async and concurrency.
  - The auto-ads loop and the `setInterval` and `setTimeout` scheduling are not modelled.
  - Only the tick and completion steps are modelled. `PaymentForm.FinishProcessing` is the timeout's callback.
  - Requests run one at a time, as atomic steps.
- Home.OfferClick: the slot index must lie within the array. The four buttons pass only 0 to 3.
- Home page handlers. The task completion and wallet connection of src/pages/Home.tsx (lines 306-332) have the same text as those of the airdrop modal. Both are modelled once, as the handlers of the `Airdrop` module.
- Home.OfferClick: the visit statistics the click also updates are floating point, and opening the offer is browser I/O. Only the countdown update is modelled.
- UserManager.PagerStaysInRange: it assumes the current page lies within 1..totalPages. The buttons are rendered only when there is more than one page.
- The WithdrawComponent's `resetForm` is declared but no handler calls it. It is modelled as an operation on its own.
- UI rendering. JSX, icons, colours and static demo data are not modelled. So are the unused `getMe` and `logout` stubs, the admin dashboard, settings, routes and bootstrapping.
- Storage and browser I/O. localStorage, clipboard, `window.open` and the Blob export are not modelled.

## Findings

| source | as written | input that shows it | evidently intended | confidence | as-written member | corrected member |
|---|---|---|---|---|---|---|
| server/src/controllers/payment.controller.ts:80-81 | `balance += amount` and `totalEarned += amount` on the unvalidated body amount; a string of digits passes `!amount` and `amount <= 0` by its numeric value, then concatenates | deposit of the string "5" for a user with balance 100, earned 150, withdrawn 50: the balance becomes 1005 and the earned total 1505, so drift goes from 0 to -450 | numeric addition, so drift is kept | not executed; medium (relies on Mongoose casting the concatenated string back to a number on save) | PaymentController.NumeralDepositDrift | PaymentController.Deposit |
| server/src/controllers/payment.controller.ts:51-52 | `balance -= amount` subtracts numerically, but `totalWithdrawn += amount` concatenates a string amount | withdrawal of the string "5" for a user with 10 withdrawn: totalWithdrawn becomes 105 instead of 15 | numeric addition, so drift is kept | not executed; medium (relies on Mongoose casting the concatenated string back to a number on save) | PaymentController.NumeralWithdrawalDrift | PaymentController.Withdraw |
| server/src/models/User.ts:99-103 | `referralCode` is `required`, but only the pre-save hook at lines 150-161 fills it in, and `register` (auth.controller.ts:17-29) creates a user without one, and Mongoose validates before the pre-save hooks run | any registration: the document passed to `User.create` has no referral code, so the validator refuses it | the code generated before validation (a `pre('validate')` hook), so a registration with a free email and username succeeds | not executed; medium (relies on Mongoose running validation before pre-save hooks) | AuthController.RegistrationRefusedAsWritten | AuthController.Register |
