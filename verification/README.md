# Errand marketplace service layer, modelled in Dafny

This project models the backend service layer of a two-sided errand
marketplace. Clients post paid missions. Nearby available providers are
pushed a notification, and one of them accepts the mission, starts it and
completes it. The client pays through Stripe, which credits the provider's
balance minus the platform commission. The provider can withdraw the
balance. Both parties chat about the mission and rate each other once it is
completed. Requests are authenticated by a bearer token and authorised by
role.

The store is one class, `Store.Db`, holding six tables as sequences:
users, missions, payments, ratings, messages and notifications. A record's
id is its position in its table. Every state-changing service is a method
on the store:

- its guards come in the source's order, each with its error (HTTP status
  and message);
- it states the exact new state, and that the store invariant `Db.Valid()`
  is kept. Valid() covers unique e-mails, existing references, the fee
  split of every mission, at most one payment and one rating per mission,
  provider assignment matching the status, non-negative balances, and
  stored rating aggregates equal to the ratings;
- every mission operation also keeps `Lifecycle.Evolves`: missions are only
  added, a status moves only along the state machine, and client, price,
  fee split and an assigned provider never change.

Read-only services are functions.

Collaborators the code cannot see become parameters:

- the distance function (`Proximity.DistanceFn`);
- the clock value `now`;
- the outcome of each push delivery;
- Stripe's results (the new customer id, the intent id and client secret,
  whether an intent has succeeded);
- bcrypt's hash and comparison;
- jwt signing and verification.

A push that throws after the service has written something reaches the
error handler as a 500. Every service returns this as the error
`PushFailed` and keeps the writes already made.

## Model

| member | source | states |
|---|---|---|
| Fees.Round2 | backend/src/config/stripe.ts:27-28 | The result is a whole number of cents within half a cent of the input, halves rounded up. |
| Fees.CalculateFees | backend/src/config/stripe.ts:22-30 | Both parts are whole cents. The fee is within half a cent of total × commission / 100. The earning is within half a cent of the total minus the unrounded fee. |
| Fees.SplitWithinOneCent | backend/src/config/stripe.ts:22-30 | Fee plus earning differs from the total by at most one cent. |
| Fees.SplitNotNegative | backend/src/config/stripe.ts:22-30 | For a commission in [0, 100] and a non-negative total, neither part is negative. |
| Fees.DefaultSplitOfFifty | backend/src/config/stripe.ts:15-30 | With the default 15 % commission, a price of 50 splits into 7.5 and 42.5. |
| Fees.SplitCanExceedPrice | backend/src/config/stripe.ts:22-30 | The one-cent bound is reached: over exact reals, 1.10 splits into 0.17 + 0.94, one cent above the price. |
| Lifecycle.RunEndsReachable | backend/src/services/missionService.ts:293-444 | Any sequence of accept, start, complete and cancel steps ends in a status that is Reachable from its start. |
| Lifecycle.ReachableHasRun | backend/src/services/missionService.ts:293-444 | Every Reachable status is the end of some run, so Reachable is exactly what the transitions allow. |
| Lifecycle.TerminalIsFinal | backend/src/services/missionService.ts:293-444 | COMPLETED and CANCELLED reach only themselves. |
| Lifecycle.EvolvesTransitive | backend/src/services/missionService.ts:273-462 | The table-level invariant kept by every mission operation composes over any sequence of operations. |
| Lifecycle.EvolvesKeepsTerminal | backend/src/services/missionService.ts:433-445 | A completed or cancelled mission keeps that status in every later state of the table. |
| RatingMath.Round1 | backend/src/services/ratingService.ts:119 | The result is a whole number of tenths within 0.05 of the input. |
| RatingMath.AppendRating | backend/src/services/ratingService.ts:106-114 | A new rating changes only its rated user's count, by one, and score sum, by its score. |
| RatingMath.NoRatingsAbout | backend/src/services/ratingService.ts:111-114 | A user nobody rated has count 0 and stored average 0. |
| RatingMath.SumBetweenCountBounds | backend/src/services/ratingService.ts:111-113 | With scores in 1..5, the score sum of a user with n ratings lies in [n, 5n]. |
| RatingMath.AverageInRange | backend/src/services/ratingService.ts:112-119 | With scores in 1..5, a rated user's rounded mean lies in [1, 5]. |
| Store.StoredAverageInRange | backend/src/services/ratingService.ts:106-122 | In a valid store every user's averageRating lies in [0, 5], and in [1, 5] once rated. |
| Store.EarningsNotNegative | backend/src/services/missionService.ts:65-87 | Every stored mission's platform fee and provider earning are non-negative. |
| Proximity.CandidatesAreListed | backend/src/services/missionService.ts:172-211 | The filter and map steps keep exactly the pending missions with a truthy pickup point within the radius, each with its distance, in table order. |
| Proximity.InsertKeepsSorted | backend/src/services/missionService.ts:212 | Inserting into a list sorted by distance keeps it sorted and adds exactly the new entry. |
| Proximity.SortByDistanceCorrect | backend/src/services/missionService.ts:212 | The sort result is ascending by distance and a permutation of its input. |
| Proximity.InsertKeepsTiesById | backend/src/services/missionService.ts:212 | Inserting an entry newer than every entry keeps equal distances in table order. |
| Proximity.SortByDistanceStable | backend/src/services/missionService.ts:212 | The sort is stable: entries at equal distance keep table order. |
| Proximity.NearbyMissionsCorrect | backend/src/services/missionService.ts:160-212 | The nearby list holds exactly the listed missions, nearest first, ties in table order, as a permutation of the filtered candidates. |
| Proximity.NotifiableProvidersCorrect | backend/src/services/missionService.ts:471-491 | The fan-out targets are exactly the notifiable providers, each once, in table order. A provider is notifiable when available, active, with a token and a truthy position within its serviceRadius (10 km when that is falsy) of the pickup point. |
| MissionService.FanOut | backend/src/services/missionService.ts:494-513 | If every push is delivered, one NEW_MISSION record per target, in order. Otherwise the walk stops at the first failed push, with records for the earlier targets only. |
| MissionService.NotifyNearbyProviders | backend/src/services/missionService.ts:467-514 | A mission without truthy pickup coordinates notifies nobody. Otherwise the notifications table grows as FanOut states over the notifiable providers, and nothing else changes. |
| MissionService.CreateMission | backend/src/services/missionService.ts:37-105 | A missing or non-CLIENT caller gets 403 and nothing is created. Otherwise one PENDING, unassigned mission carrying CalculateFees of its price is appended, then the fan-out runs; a failed push gives PushFailed with the mission kept. |
| MissionService.UserMissionIdsCorrect | backend/src/services/missionService.ts:110-151 | The listed ids are exactly the user's missions in the given role and status, each once, newest first. |
| MissionService.GetUserMissions | backend/src/services/missionService.ts:110-151 | Same as UserMissionIdsCorrect, as the service's result: a client's, a provider's, or every mission for any other role, newest first. |
| MissionService.GetMissionById | backend/src/services/missionService.ts:220-268 | An unknown id gives 404. Otherwise the mission goes only to its client, its provider or an administrator; anyone else gets 403. |
| MissionService.IsAdmin | backend/src/services/missionService.ts:519-524 | True exactly when the user exists and has the ADMIN role; an unknown user is not an administrator. |
| MissionService.GetNearbyMissions | backend/src/services/missionService.ts:156-215 | Non-providers get 403. Otherwise the result is exactly the pending missions with a truthy pickup point within the radius (10 km when omitted), with their distances, nearest first, ties in table order. |
| MissionService.AcceptMission | backend/src/services/missionService.ts:273-332 | The guards run in order: non-provider 403, unknown 404, not PENDING 400, each with no change. Otherwise the caller becomes the provider, with status ACCEPTED and acceptedAt. Exactly one MISSION_ACCEPTED record is appended for the client, unless the push fails. |
| MissionService.StartMission | backend/src/services/missionService.ts:337-373 | The guards run in order: 404, 403 unless the caller is the assigned provider, 400 unless ACCEPTED. Otherwise IN_PROGRESS with startedAt, and no notification record. |
| MissionService.CompleteMission | backend/src/services/missionService.ts:378-417 | The guards run in order: 404, 403 unless the caller is the assigned provider, 400 unless IN_PROGRESS. Otherwise COMPLETED with completedAt, and no notification record. |
| MissionService.CancelMission | backend/src/services/missionService.ts:422-462 | The guards run in order: 404, 403 unless client or assigned provider, 400 when COMPLETED. Otherwise only the status changes, to CANCELLED, with the provider kept; a cancelled mission can be cancelled again. |
| Store.OtherParty | backend/src/services/missionService.ts:448-451 | The other party is a party of the mission. It is absent exactly when the user is the client and no provider is assigned, and it is never the user when client and provider differ. The same choice is the rated user (backend/src/services/ratingService.ts:51) and the message receiver (backend/src/services/messageService.ts:37-38). |
| PaymentService.FindPayment | backend/src/services/paymentService.ts:40-46 | The payment found belongs to the mission, or no payment belongs to it. |
| PaymentService.CreatePaymentIntent | backend/src/services/paymentService.ts:14-101 | The guards run in order: 404, 403 unless the client, 400 unless COMPLETED, 400 when a payment exists, each with no write. Otherwise a truthy customer id is reused, or the new one is stored. The mission is charged Math.round(price × 100) cents. A PENDING payment copying price and fee split is appended and becomes the mission's only payment. |
| PaymentService.Credited | backend/src/services/paymentService.ts:137-151 | Only the assigned provider's balance changes, by exactly the amount; with no provider nothing changes. |
| PaymentService.ConfirmPayment | backend/src/services/paymentService.ts:106-167 | Unknown payment 404, already COMPLETED 400, intent not succeeded 400, each with no change. Otherwise the payment is COMPLETED and the provider is credited exactly its providerEarning. |
| PaymentService.GetPaymentByMissionId | backend/src/services/paymentService.ts:172-201 | No payment for the mission gives 404. Otherwise the mission's client or provider gets that payment, and anyone else gets 403. |
| PaymentService.PaidWithinTotal | backend/src/services/paymentService.ts:243-267 | With non-negative earnings, 0 ≤ paid earnings ≤ total earnings. |
| PaymentService.NoCompletedNoEarnings | backend/src/services/paymentService.ts:243-267 | A provider with no completed mission has total and paid earnings 0. |
| PaymentService.GetProviderEarnings | backend/src/services/paymentService.ts:238-276 | Non-providers get 403. Otherwise the total sums the earnings of the provider's completed missions and paid restricts that to completed payments, with 0 ≤ paid ≤ total and pending = total − paid. The result also carries the balance and the completed count. |
| PaymentService.RequestPayout | backend/src/services/paymentService.ts:281-317 | The guards run in order: non-provider 403, balance below the amount 400, amount below 10 400, each with no change. Otherwise the balance drops by exactly the amount and stays non-negative. |
| PaymentService.FirstPaymentWithIntent | backend/src/services/paymentService.ts:339-341 | The first payment in table order carrying the intent id, or none carries it. |
| PaymentService.HandleStripeWebhook | backend/src/services/paymentService.ts:322-369 | Other event types change nothing. A failed intent marks its payment FAILED, whatever its status. A succeeded intent confirms its payment only when it is PENDING. |
| RatingService.FindRating | backend/src/services/ratingService.ts:42-44 | The rating found belongs to the mission, or no rating belongs to it. |
| RatingService.CompletedHasRatedParty | backend/src/services/ratingService.ts:51-55 | A completed mission always has a party to rate, so the "cannot rate" branch is unreachable in a valid store. |
| RatingService.UpdateUserRating | backend/src/services/ratingService.ts:106-123 | Only the user's record changes: totalRatings becomes the number of ratings about them, and averageRating their mean score rounded to a tenth, or 0 without ratings. |
| RatingService.CreateRating | backend/src/services/ratingService.ts:12-72 | The guards run in order: score outside 1..5 400, unknown 404, not COMPLETED 400, not a party 403, already rated by either party 400, each with no write. Otherwise the other party's rating is appended and the rated user's record changes only in totalRatings, now one more, and averageRating, both recomputed from all ratings about them; no other user changes. |
| RatingService.SaveRating | backend/src/services/ratingService.ts:56-68 | Appending a valid rating of a mission with none keeps the store valid, makes it the mission's rating, and recomputes only the rated user's count, one more, and average. |
| MessageService.SendMessage | backend/src/services/messageService.ts:13-76 | The guards run in order: unknown mission 404, non-party 403, no provider yet 400, each with no write. Otherwise an unread message from the sender to the other party is appended, whatever the mission's status. |
| MessageService.MissionMessagesCorrect | backend/src/services/messageService.ts:99-112 | The listed messages are exactly the messages of the mission, and there are no more of them than in the table. |
| MessageService.MissionMessagesInOrder | backend/src/services/messageService.ts:99-112 | The k-th listed message is the table's message at the k-th of strictly increasing positions, and these are exactly the positions of the mission's messages: each message once, in sending order. |
| MessageService.MarkRead | backend/src/services/messageService.ts:115-122 | Marking keeps the table's length, message for message; MarkReadEffect states what happens to each. |
| MessageService.MarkReadEffect | backend/src/services/messageService.ts:115-122 | After marking, every message of the mission addressed to the reader is read; every other message is unchanged. |
| MessageService.MarkMessages | backend/src/services/messageService.ts:115-122 | The marking loop computes exactly MarkRead. |
| MessageService.GetMissionMessages | backend/src/services/messageService.ts:81-125 | Unknown 404 and non-party 403, with no change. Otherwise it returns the mission's messages as they were before marking, and the table becomes MarkRead of the old table. |
| MessageService.UnreadCount | backend/src/services/messageService.ts:130-139 | The count is zero exactly when no unread message is addressed to the user. |
| MessageService.MarkReadUnreadCount | backend/src/services/messageService.ts:115-136 | Reading a mission's messages lowers the reader's unread count by exactly their unread messages of that mission, and leaves every other user's count unchanged. |
| AuthService.Public | backend/src/services/authService.ts:96-101 | The login view drops the password hash and nothing else: given the hash back, it is the stored user. |
| AuthService.FindUserByEmail | backend/src/services/authService.ts:24-26 | The user found has the e-mail, or no user has it. |
| AuthService.FoundUserIsUnique | backend/src/services/authService.ts:24-30 | With unique e-mails, lookup finds the one user with that address. |
| AuthService.NewUser | backend/src/services/authService.ts:33-56 | A new user keeps the e-mail and role and only the password hash, and starts active with zero balance and no ratings. |
| AuthService.RegisterUser | backend/src/services/authService.ts:15-62 | A registered e-mail gives 400 and adds nobody. Otherwise the new user is appended and becomes the one found by its e-mail. Its id, e-mail, names, phone, role and status are returned with a token for its id, e-mail and role. |
| AuthService.LoginUser | backend/src/services/authService.ts:67-102 | The gates run in order: unknown e-mail 401, inactive 403, wrong password 401 with the same error as an unknown e-mail. On success only lastActiveAt changes, and the user is returned without a password. |
| AuthService.GetUserProfile | backend/src/services/authService.ts:107-140 | An unknown id gives 404. Otherwise the result is exactly the selected profile of that user (ProfileOf). |
| AuthService.ProfileHidesSecrets | backend/src/services/authService.ts:108-133 | Two users have the same profile exactly when they differ at most in password hash, push token and Stripe customer id: the profile shows none of these and every other modelled field. |
| AuthService.UpdateUserLocation | backend/src/services/authService.ts:183-198 | Only the user's position and lastActiveAt change. |
| AuthService.UpdateProviderAvailability | backend/src/services/authService.ts:203-221 | A missing or non-provider user gets 403 and nothing changes. Otherwise only isAvailable is set. |
| AuthService.UpdateFcmToken | backend/src/services/authService.ts:226-233 | Only the user's push token changes. |
| AuthMiddleware.SplitOnSpace | backend/src/middleware/auth.ts:34 | Splitting on spaces yields at least one field, and no field contains a space. |
| AuthMiddleware.JoinSplit | backend/src/middleware/auth.ts:34 | Joining the fields with spaces gives back the header. |
| AuthMiddleware.SplitJoin | backend/src/middleware/auth.ts:34 | Splitting a join of space-free fields gives back the fields. |
| AuthMiddleware.BearerToken | backend/src/middleware/auth.ts:33-41 | A token exists exactly when the header has a non-empty second field, and then the token is that field. |
| AuthMiddleware.BearerTokenOfScheme | backend/src/middleware/auth.ts:33-41 | "Bearer <token>" yields the token, whatever the first word is. |
| AuthMiddleware.NoSpaceNoToken | backend/src/middleware/auth.ts:33-41 | A header without a space carries no token. |
| AuthMiddleware.AuthenticateToken | backend/src/middleware/auth.ts:26-60 | No token gives 401, and a token that does not verify gives 403; in both cases the user is unchanged. Otherwise req.user becomes the token's claims and the request proceeds. |
| AuthMiddleware.AuthorizeRole | backend/src/middleware/auth.ts:65-83 | The request proceeds exactly when an authenticated user's role is listed. Otherwise no user gives 401 and an unlisted role gives 403. |
| AuthMiddleware.OptionalAuth | backend/src/middleware/auth.ts:88-111 | The request always proceeds, and req.user is set exactly when a token is present and verifies. |

## Behaviour of the code worth knowing

The model follows the code in each of these:

- A failed push is not ignored: `sendPushNotification` rethrows the error (backend/src/config/firebase.ts:62-65). The service then ends with an error after its earlier writes, and AcceptMission skips its notification record.
- State conflicts answer 400: accepting a mission that is not pending, starting one that is not accepted, completing one that is not in progress and cancelling a completed one (backend/src/services/missionService.ts:294, 352, 396, 439).
- A `payment_intent.payment_failed` event marks the matching payment FAILED whatever its status, a COMPLETED one included (backend/src/services/paymentService.ts:327-329 and the failure handler after it; PaymentService.HandleStripeWebhook).
- Cancelling refuses only a COMPLETED mission (backend/src/services/missionService.ts:438-440), so a cancelled mission can be cancelled again (MissionService.CancelMission).

## Left out

- Distance: the haversine formula `calculateDistance` (backend/src/services/missionService.ts:15-32) is floating-point trigonometry. The model takes it as a function parameter and proves nothing about it.
- Floating point: prices, fees, balances and averages are exact reals. Fees.SplitCanExceedPrice holds over reals; IEEE doubles may round differently at that input.
- Persistence: the Prisma client, string ids and the joined records of `include` are not modelled; ids are table positions. The schema defaults of a new user (active, unavailable, zero balance, no ratings) are assumed as `AuthService.NewUser` states them.
- Result shaping: registerUser, loginUser and getUserProfile return the fields the model's `User` has, less what each leaves out (`AuthService.Registered`, `AuthService.PublicUser`, `AuthService.Profile`). The columns the model's `User` lacks (profile picture, address, city, country, vehicle type, creation time) are not part of this model.
- Unordered queries: `findMany` without `orderBy` in getNearbyMissions (backend/src/services/missionService.ts:172-189) and in notifyNearbyProviders (backend/src/services/missionService.ts:471-480) is modelled as table order. That order decides which of two equally distant missions comes first, and which providers are notified before a failed push stops the fan-out.
- Store invariant: the model assumes the referential integrity the database enforces. Every reference points at an existing record, and payments and ratings are unique per mission, as the schema declares.
- Timestamps: `new Date()` is the parameter `now`. Ordering by `createdAt` is modelled as table order, since records are appended as they are created.
- Push delivery: the Firebase gateway and the notification titles, bodies and data payloads are not modelled. A delivery outcome is a parameter.
- Push failure: a push to a user with a token can throw. The service then stops, keeping the writes already made, and the error reaches the error handler. The model returns `PushFailed` with status 500 and does not model the handler's response body.
- Missing record: `prisma.user.update` on a missing id throws. The model returns `RecordMissing` (500) from `UpdateUserLocation` and `UpdateFcmToken`.
- Stripe: customer creation, intent creation and retrieval, and webhook signature checking are external. Their results are parameters, and currency, metadata and descriptions are not modelled.
- Hashing and tokens: bcrypt is a supplied hash and a comparison predicate. jwt signing is a supplied function of the claims, and verification a supplied partial function; secrets and expiry are not modelled.
- Concurrency: services run one at a time. Two providers accepting the same mission concurrently (backend/src/services/missionService.ts:284-304) are not modelled, and no claim is made about that race.
- Out of scope: `updateUserProfile`, `getUserPaymentHistory`, `getUserRatings`, the HTTP routes and controllers, and the mobile app are not part of this model.
- MissionService.CreateMission: the controller's validators (non-empty texts, price at least 1) are a precondition (backend/src/controllers/missionController.ts:15-27). Urgency is always given; the schema default for an omitted urgency is not part of this model.
- PaymentService.RequestPayout: the controller's `amount > 0` check (backend/src/controllers/paymentController.ts:111) is a precondition.
- RatingService.CreateRating: the score is an integer, as `parseInt` gives it (backend/src/controllers/ratingController.ts:27); a NaN score is not modelled. The 400 branch for a mission with no party to rate has no outcome of its own, because a completed mission always has a provider in a valid store (RatingService.CompletedHasRatedParty).
- MessageService.SendMessage: the controller's required, non-empty content (backend/src/controllers/messageController.ts:17-22) is a precondition.
- PaymentService.GetPaymentByMissionId: it requires the store's payment invariant (every payment's mission exists), which the database's foreign key guarantees.
- PaymentService.ConfirmPayment: the branch for a payment whose mission has no provider is kept and credits nobody. In a valid store only completed missions have payments, and those always have a provider.
- MissionService.GetUserMissions: returns the ids of the listed missions, not the records with their joined client, provider and payment.
- PaymentService.HandleStripeWebhook: `findFirst` without an order is modelled as the first match in table order.
- Fees.CalculateFees: the commission is a parameter. The environment variable that configures it is left out; its default of 15 is `Fees.PlatformCommission`.
