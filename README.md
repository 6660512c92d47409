# Furniture shop: orders, tracking and accounts in Dafny

This project models the core of a furniture e-commerce application. It has
an Express/Mongoose server and a React client.

On the server side it models:

- the order lifecycle: placing orders by cash on delivery or by an online payment, cancellation, tracking updates, soft deletion, listings and statistics;
- the separate tracking controller: it looks up one order and overwrites its status;
- the account life cycle driven by one-time codes: registration with an e-mail code, verification, login, profile update, the forgot-password code check and the password reset.

On the client side it models the components that drive those endpoints:

- the admin tracking dialog and the customer progress dialog;
- the tracking stepper;
- the cancellation dialog of "My Orders";
- the profile form;
- the product listing, with its paging (the page merge is modelled for every page number, although the client only ever asks for page 1) and its sub-category strip, and the home-page carousel that repeats that logic;
- the registration and OTP forms;
- the add-to-cart button;
- the sub-category upload and edit forms;
- the product upload form.

Each source file has one Dafny module:

- `Common`: options, HTTP-style outcomes (`Success(data)` or `Failure(code, message)`), and the JavaScript string helpers the code relies on (`split`, `join`, `indexOf`, `lastIndexOf`, `trim`-emptiness, a hexadecimal numeral).
- `OrderModel`: the order schema, its defaults and the Mongoose queries used on it (`findOne`, `find`, `countDocuments`).
- `OrderController`: the order handlers. The pure guard chains are functions with complete contracts. The collection (`OrderStore`) is a class whose methods look an order up, apply the decision and write it back. Its invariant is that order ids are unique and that an order is cancelled exactly when its status is `Cancelled`.
- `TrackingController`, `UserController` (with the class `UserStore`) and one module per client component, named after it.

Client components are classes whose fields are the component's React state and whose methods are its handlers. The requests whose server handler is modelled are tied by lemmas to that handler: the tracking update, the cancellation, the registration and its e-mail verification, the forgot-password code and the profile update. For example, a status offered by the tracking dialog is exactly a status the server accepts, and the cancel dialog opens exactly when the server would accept the cancellation. The menu shows its Cancel Order entry on more orders than that: on every order not cancelled, Shipped and Delivered included, where the dialog refuses with a toast. The cart, sub-category and product requests go to handlers outside the modelled core.

Facts about the code that the model proves:

- The tracking update treats `Pending` as a wildcard. From `Pending` every step is accepted, `Pending` itself included, and each accepted update appends a history entry (`OrderController.TrackingOrder`). The status sequence is therefore not strictly monotonic. The model follows the code here.
- The tracking controller's overwrite skips the cancellation and order checks. A cancelled order overwritten to `Delivered` breaks the store invariant, and the statistics then report `-1` received orders (`TrackingController.OverwriteBreaksStatistics`).
- The reset-password handler never looks at the forgot-password code (`UserController.ResetIgnoresForgotOtp`).
- Login ignores whether the e-mail was verified (`UserController.LoginIgnoresVerification`).
- The admin tracking dialog keeps its selection when the orders page swaps in another order, so a stale selection can enable an update the server refuses (`TrackingModal.StaleSelectionAfterReopen`; see "## Findings").
- A verified forgot-password code reads as expired on its next use, because its expiry is cleared to the empty string (`UserController.ForgotOtpSingleUse`; this takes the expiry field to be String-typed, see "## Left out").

## Model

| member | source | states |
|---|---|---|
| `OrderModel.ParseStatus` | server/models/order.model.js:55-59 | a name is accepted by the status enum exactly when it is the name of one of the five statuses, and the parsed status prints back as that name |
| `OrderModel.ParseStatusName` | server/models/order.model.js:55-59 | every status name parses back to its status (round trip) |
| `OrderModel.StepIndex` | server/controllers/order.controller.js:336-338 | the position of a status in Pending, Processing, Shipped, Delivered, or -1 exactly when it is not one of them |
| `OrderModel.NewOrder` | server/models/order.model.js:24-97 | a created order carries the given fields, quantity 1 and empty payment strings and amounts 0 when absent, status Pending, no history, not cancelled or deleted, both timestamps now |
| `OrderModel.FindOne` | server/controllers/order.controller.js:244 | the index of the first order matching the filter, or None exactly when no order matches |
| `OrderModel.FindAll` | server/controllers/order.controller.js:187 | exactly the orders matching the filter, none added |
| `OrderModel.FindAllMultiplicity` | server/controllers/order.controller.js:187 | every matching order appears as often as it is stored, every other order not at all |
| `OrderModel.FindAllAppend` | server/controllers/order.controller.js:187 | the answer keeps the store's order: the matches of a concatenation are those of each part in turn |
| `OrderModel.MatchingPositionsSnoc` | server/controllers/order.controller.js:432-450 | the matching positions of a store are those of all but its last order, plus the last position when that order matches |
| `OrderModel.FindAllCountsPositions` | server/controllers/order.controller.js:432-450 | one answer per matching position |
| `OrderModel.CountDocuments` | server/controllers/order.controller.js:432-450 | the number of stored orders the filter matches, counted by position, never more than the collection |
| `OrderModel.FindByUniqueId` | server/models/order.model.js:10-14 | with unique order ids, a lookup by id finds the one order carrying that id |
| `OrderController.CeilDiv100` | server/controllers/order.controller.js:70-74 | the ceiling of x/100: the least q with x <= 100q |
| `OrderController.PriceWithDiscount` | server/controllers/order.controller.js:70-74 | the discount taken off is price*discount/100 rounded up, a missing discount counting as 0 |
| `OrderController.DiscountBounds` | server/controllers/order.controller.js:70-74 | for a discount between 0 and 100 the discounted price lies between 0 and the price, equals the price without discount and is 0 at 100 |
| `OrderController.OrderIdInjective` | server/controllers/order.controller.js:33 | two fresh ObjectIds give different "ORD-" order ids |
| `OrderController.PlacedOrders` | server/controllers/order.controller.js:28-46 | one order per cart line in line order, each with the line's product, quantity, address, payment fields and discounted total, lifecycle defaults, and pairwise different order ids |
| `OrderController.CartTotalFromFirstLine` | server/controllers/order.controller.js:153-156 | the cart total is the first line's total plus the rest's, the same sum whichever end it is taken from |
| `OrderController.StoredTotalsMatchQuote` | server/controllers/order.controller.js:117-172 | the stored orders' totals add up to the amount the payment quote is built from |
| `OrderController.RowsNotOf` | server/controllers/order.controller.js:52 | after clearing the cart, a cart row remains exactly when it belongs to another user |
| `OrderController.EmptyCart` | server/controllers/order.controller.js:53 | the user's `shopping_cart` becomes empty and every other user's is unchanged |
| `OrderController.CancelOrder` | server/controllers/order.controller.js:236-279 | each failure in the source's order with its code and message; success exactly for a found, uncancelled order that is not Shipped or Delivered, giving status Cancelled with reason and date and no other field changed |
| `OrderController.UpdateTracking` | server/controllers/order.controller.js:301-360 | each failure in the source's order, including 400 "Cannot revert to a previous tracking status" for a step not after a non-Pending current status; success exactly for a valid non-Cancelled step on a found, uncancelled order that may move there, stamped with the request time, appending one history entry by the caller and changing nothing else |
| `OrderController.SoftDelete` | server/controllers/order.controller.js:384-413 | missing id 400, missing order 404, Delivered order 400; otherwise only `isDeleted` and the time change |
| `OrderController.TrackingOrder` | server/controllers/order.controller.js:336-345 | from Pending every step is accepted, from a later step exactly the strictly later steps, Cancelled never |
| `OrderController.DeliveredIsFinal` | server/controllers/order.controller.js:262-268 | a Delivered order can be neither cancelled, moved nor deleted |
| `OrderController.CancelTwiceFails` | server/controllers/order.controller.js:254-260 | cancelling an order a second time reports it as already cancelled |
| `OrderController.DecisionsKeepConsistent` | server/controllers/order.controller.js:270-279 | cancel, tracking update and delete each keep `isCancelled` in step with the Cancelled status |
| `OrderController.DecisionsKeepHistory` | server/controllers/order.controller.js:348-360 | the status of an uncancelled order stays that of its last history entry; only the tracking update extends the history, by one entry |
| `OrderController.At` | server/controllers/order.controller.js:244 | the order at a lookup result, present exactly when the lookup found one |
| `OrderController.OrderIds` | server/models/order.model.js:10-14 | the order ids of a collection, position by position |
| `OrderController.CancelIn` | server/controllers/order.controller.js:231-294 | the collection keeps its length; a failure changes nothing; a success replies a cancelled order with the requested id, and the only document changed is the caller's, now that reply |
| `OrderController.TrackIn` | server/controllers/order.controller.js:296-378 | the collection keeps its length; a failure changes nothing; a success replies an order at the requested status, and the only document changed has the requested id and is now that reply |
| `OrderController.DeleteIn` | server/controllers/order.controller.js:380-428 | the collection keeps its length; a failure changes nothing; a success replies a deleted order, and the only document changed has the requested id and is now that reply |
| `OrderController.TrackInWritesDecision` | server/controllers/order.controller.js:318-360 | the handler writes the decision back to exactly the order it looked up, and nothing on failure |
| `OrderController.DeleteInWritesDecision` | server/controllers/order.controller.js:392-413 | the same for the soft delete |
| `OrderController.CancelInWritesDecision` | server/controllers/order.controller.js:244-279 | a success writes the cancel decision, made on the order the `{ orderId, userId }` lookup found, back at that order's position (the caller's order); a refusal writes nothing |
| `OrderController.WriteBackKeepsInvariant` | server/controllers/order.controller.js:270-279 | writing back a consistent order with the same id keeps the ids and the consistency of the collection |
| `OrderController.CancelKeepsInvariant` | server/controllers/order.controller.js:231-294 | cancellation keeps the order ids and the consistency of every order, and changes nothing on failure |
| `OrderController.TrackKeepsInvariant` | server/controllers/order.controller.js:296-378 | the same for the tracking update |
| `OrderController.DeleteKeepsInvariant` | server/controllers/order.controller.js:380-428 | the same for the soft delete |
| `OrderController.ListingsAndDeletion` | server/controllers/order.controller.js:183-229 | a user's listing holds all their orders, deleted ones included; the admin listing holds an order exactly when it is not deleted |
| `OrderController.CountRole` | server/controllers/order.controller.js:432 | the number of users whose role is the given one (its multiplicity among the roles), at most the number of users |
| `OrderController.OrderStatsOf` | server/controllers/order.controller.js:430-462 | the USER-role users, the live orders, the live cancelled and the live delivered orders, each counted by position, and received orders as the live ones minus those two |
| `OrderController.ReceivedOrdersInProgress` | server/controllers/order.controller.js:430-450 | in a consistent collection, received orders (total minus cancelled minus delivered) are exactly the live orders still in progress, so never negative |
| `OrderController.LiveOrdersSplit` | server/controllers/order.controller.js:430-450 | in a consistent collection every live order is exactly one of cancelled, delivered or in progress |
| `OrderController.DistinctKeysUniqueIds` | server/models/order.model.js:10-14 | orders whose ids come from distinct ObjectIds have unique ids |
| `OrderController.OrderStore.IdsUnique` | server/models/order.model.js:10-14 | the stored orders have unique ids |
| `OrderController.OrderStore.constructor` | server/models/order.model.js:1-97 | an empty, valid collection |
| `OrderController.OrderStore.PlaceOrders` | server/controllers/order.controller.js:28-53 | appends exactly the placed orders, clears the user's cart rows and `shopping_cart`, keeps the store valid |
| `OrderController.OrderStore.CashOnDelivery` | server/controllers/order.controller.js:13-68 | missing items or address: 400 and nothing changes; otherwise the placed orders with "CASH ON DELIVERY" and the cart cleared |
| `OrderController.OrderStore.Checkout` | server/controllers/order.controller.js:76-181 | missing fields 400, unknown user 404, a bad signature 400; with full gateway fields the orders are placed with "Online Payments"; without them the reply carries the gateway order's id, the cart total in paise, "INR" and the user's e-mail, one ObjectId is drawn for the receipt and nothing is stored |
| `OrderController.OrderStore.Cancel` | server/controllers/order.controller.js:231-294 | the reply and new collection are the cancellation decision applied to the caller's order found by id and user; the store stays valid |
| `OrderController.OrderStore.UpdateTrackingStatus` | server/controllers/order.controller.js:296-378 | the reply and new collection are the tracking decision applied to the live order with that id; the store stays valid |
| `OrderController.OrderStore.DeleteOrder` | server/controllers/order.controller.js:380-428 | the reply and new collection are the soft-delete decision applied to the live order with that id; the store stays valid |
| `OrderController.OrderStore.GetAllOrders` | server/controllers/order.controller.js:208-229 | exactly the orders not deleted |
| `OrderController.OrderStore.GetOrderDetails` | server/controllers/order.controller.js:183-206 | exactly the orders of the user |
| `OrderController.OrderStore.GetOrderStats` | server/controllers/order.controller.js:430-462 | the USER-role users and the live, live cancelled and live delivered orders counted by position, with received orders equal to the live orders in progress and never negative |
| `TrackingController.GetOrderTracking` | server/controllers/tracking.controller.js:4-49 | missing product 400; 404 exactly when the user has no order of that product; otherwise the view of the first such order |
| `TrackingController.OverwriteIn` | server/controllers/tracking.controller.js:51-105 | the guards and messages; success exactly for a valid step and an order with that id and user, whose status alone is overwritten without a history entry or a cancellation check |
| `TrackingController.UpdateOrderTracking` | server/controllers/tracking.controller.js:74-86 | the store after the handler is the overwrite applied to it, and its ids stay unique |
| `TrackingController.OverwriteBreaksStatistics` | server/controllers/tracking.controller.js:74-86 | a cancelled order overwritten to Delivered is accepted, becomes inconsistent, and the statistics report -1 received orders |
| `TrackingController.CancelledDeliveredCountsTwice` | server/controllers/order.controller.js:434-441 | a live order both cancelled and Delivered is counted in both counts |
| `UserController.FindByEmail` | server/controllers/user.controller.js:24 | the first user with that e-mail, None exactly when there is none |
| `UserController.FindById` | server/controllers/user.controller.js:86 | the first user with that id, None exactly when there is none |
| `UserController.RemoveAt` | server/controllers/user.controller.js:105 | the users with the one at the index removed, the others in order |
| `UserController.RegisterIn` | server/controllers/user.controller.js:16-45 | missing fields 400, a known e-mail "Already registered email"; success exactly otherwise, appending a temporary user with the code and an expiry five minutes on |
| `UserController.VerifyOtpIn` | server/controllers/user.controller.js:78-127 | each failure with its message (an expired code also removes the temporary user); success exactly for a temporary user with a live, matching code, which becomes a verified permanent user without a code |
| `UserController.RegisterThenVerify` | server/controllers/user.controller.js:16-127 | a registration verified with its own code in time succeeds, and verifying again reports "User already verified" |
| `UserController.LoginIn` | server/controllers/user.controller.js:147-188 | missing fields 400, unknown e-mail, inactive account, wrong password; on success the tokens are stored and returned; users change only on success |
| `UserController.LoginIgnoresVerification` | server/controllers/user.controller.js:147-188 | the login outcome does not depend on whether the user is temporary or verified |
| `UserController.EmailLookupIgnoresOtherFields` | server/controllers/user.controller.js:24 | replacing a user by one with the same e-mail leaves every e-mail lookup unchanged |
| `UserController.ApplyDetails` | server/controllers/user.controller.js:292-297 | each non-empty field replaces the stored one (the password by its hash), empty fields keep it, nothing else changes |
| `UserController.UpdateDetailsIn` | server/controllers/user.controller.js:280-313 | the reply is success; the matching user, if any, gets the details applied and no one else changes |
| `UserController.ApplyDetailsIdempotent` | server/controllers/user.controller.js:292-297 | applying the same details twice equals applying them once, and no details change nothing |
| `UserController.StrLessIrreflexive` | server/controllers/user.controller.js:383 | the string comparison used for the expiry is irreflexive |
| `UserController.StrLessAsymmetric` | server/controllers/user.controller.js:383 | and asymmetric |
| `UserController.VerifyForgotIn` | server/controllers/user.controller.js:365-404 | missing fields, unknown e-mail, expired code and wrong code with their messages; success exactly for a live matching code, which clears the code and expiry to "" |
| `UserController.ForgotOtpSingleUse` | server/controllers/user.controller.js:383-404 | after a successful check, any further check reports the code as expired |
| `UserController.ResetIn` | server/controllers/user.controller.js:425-454 | missing fields, unknown e-mail and differing passwords with their messages; success exactly otherwise, storing the new hash for that user only |
| `UserController.ResetIgnoresForgotOtp` | server/controllers/user.controller.js:425-454 | the reset's outcome is the same whatever the user's forgot-password code and expiry |
| `UserController.UserStore.constructor` | server/controllers/user.controller.js:12-72 | an empty user collection |
| `UserController.UserStore.Register` | server/controllers/user.controller.js:12-72 | reply and users are the registration decision; a fresh id is used only on success |
| `UserController.UserStore.VerifyOtp` | server/controllers/user.controller.js:74-141 | reply and users are the verification decision |
| `UserController.UserStore.Login` | server/controllers/user.controller.js:143-216 | reply and users are the login decision |
| `UserController.UserStore.UpdateUserDetails` | server/controllers/user.controller.js:280-313 | reply and users are the details update |
| `UserController.UserStore.VerifyForgotPasswordOtp` | server/controllers/user.controller.js:361-419 | reply and users are the forgot-password check |
| `UserController.UserStore.ResetPassword` | server/controllers/user.controller.js:421-469 | reply and users are the reset decision |
| `TrackingStepper.Render` | client/src/components/TrackingStepper.jsx:11-36 | one step per label, in label order |
| `TrackingStepper.CompletedCount` | client/src/components/TrackingStepper.jsx:49 | no step is completed for a cancelled order or without an active step |
| `TrackingStepper.CompletedStepsFormPrefix` | client/src/components/TrackingStepper.jsx:49 | a step is completed exactly when it is among the first CompletedCount; completed steps form a prefix |
| `TrackingStepper.CheckMarkOnCompletedSteps` | client/src/components/TrackingStepper.jsx:51-56 | the check icon is drawn exactly on completed steps |
| `TrackingStepper.AtMostOneBoldLabel` | client/src/components/TrackingStepper.jsx:65 | at most one label is bold, the last completed one |
| `TrackingStepper.GreyedLabels` | client/src/components/TrackingStepper.jsx:61-64 | a label is grey exactly when the order is cancelled or the step lies beyond the active one, i.e. exactly the uncompleted steps of a live order |
| `TrackingStepper.NoActiveStepShowsNoProgress` | client/src/components/TrackingStepper.jsx:38-65 | without an active step nothing is completed or bold, and labels are grey only for a cancelled order |
| `TrackingModal.AvailableStatuses` | client/src/components/TrackingModal.jsx:45-50 | the steps from the current one to Delivered, or all steps when there is no known current step |
| `TrackingModal.InitialSelection` | client/src/components/TrackingModal.jsx:22 | the order's status, or Pending when it has none |
| `TrackingModal.DialogStepper` | client/src/components/TrackingModal.jsx:60-63 | the dialog's stepper shows no completed, checked or bold step |
| `TrackingModal.TrackingDialog.constructor` | client/src/components/TrackingModal.jsx:22 | starts on the initial selection, with Update disabled for an order with a status |
| `TrackingModal.TrackingDialog.Select` | client/src/components/TrackingModal.jsx:80 | choosing an enabled radio selects it and enables Update |
| `TrackingModal.TrackingDialog.UpdateRequest` | client/src/components/TrackingModal.jsx:24-33 | the request's status text parses to the selected status |
| `TrackingModal.OfferedStatusesAreAccepted` | client/src/components/TrackingModal.jsx:45-50 | for a live order, a status other than the current one is offered exactly when the server accepts moving to it |
| `TrackingModal.UpdateButtonRequestIsAccepted` | client/src/components/TrackingModal.jsx:96-101 | whenever Update is enabled and the selection was made on the order now shown, the server accepts its request |
| `TrackingModal.TrackingDialog.ShowOrder` | client/src/pages/TotalOrders.jsx:47-51 | showing another order changes the dialog's order and keeps the earlier selection, as the code does |
| `TrackingModal.TrackingDialog.ShowOrderResynced` | client/src/components/TrackingModal.jsx:22 | showing another order also resets the selection to that order's status, so Update starts disabled |
| `TrackingModal.StaleSelectionAfterReopen` | client/src/pages/TotalOrders.jsx:155-165 | a selection kept from an earlier order enables Update on a later-stage order, and the server refuses it with 400 "Cannot revert to a previous tracking status" |
| `TrackingModal.ResyncedReopenIsAccepted` | client/src/components/TrackingModal.jsx:22-33 | with the selection reset, any status then chosen on the new order is accepted and moves it there |
| `TrackingModal.ReopenResyncedAndSelect` | client/src/components/TrackingModal.jsx:22-80 | reopened with the selection reset and set to an enabled status, the dialog selects it and enables Update |
| `TrackingModal.OfferedSelectionMovesTo` | client/src/components/TrackingModal.jsx:45-50 | an offered status other than the current one is accepted and becomes the order's status |
| `UserTrackingModal.TargetStep` | client/src/components/UserTrackingModal.jsx:25-27 | the status's step index, or -1 exactly for a cancelled order or a status off the steps |
| `UserTrackingModal.UpTo` | client/src/components/UserTrackingModal.jsx:43-51 | the step values 0, 1, ... n-1 the interval walks through |
| `UserTrackingModal.ProgressDialog.constructor` | client/src/components/UserTrackingModal.jsx:22 | the current step starts at 0 |
| `UserTrackingModal.ProgressDialog.RunEffect` | client/src/components/UserTrackingModal.jsx:29-54 | closed: reset to 0; cancelled: -1; otherwise the interval shows steps 0, 1, ... up to the target and stops there, never beyond it |
| `UserTrackingModal.FinishedWalkShowsStatus` | client/src/components/UserTrackingModal.jsx:25-54 | when the walk ends, the stepper completes exactly the steps up to the order's status and bolds exactly that one |
| `MyOrders.StatusStyle` | client/src/pages/MyOrders.jsx:74-107 | every badge has white text |
| `MyOrders.StatusIcon` | client/src/pages/MyOrders.jsx:109-118 | the package icon exactly for text that is not a status |
| `MyOrders.KnownStatusBadges` | client/src/pages/MyOrders.jsx:74-118 | each status has its own colour and an icon other than the default package |
| `MyOrders.UnknownStatusBadge` | client/src/pages/MyOrders.jsx:74-118 | any other text gets the default style and the package icon |
| `MyOrders.CancelEligible` | client/src/pages/MyOrders.jsx:120-128 | for a consistent order, eligible exactly when Pending or Processing; never for a cancelled order |
| `MyOrders.ClientEligibilityMatchesServer` | client/src/pages/MyOrders.jsx:120-128 | the client offers cancellation exactly when the server would accept it |
| `MyOrders.CancelMenuOffersMoreThanDialog` | client/src/pages/MyOrders.jsx:292-297 | every order the cancel dialog opens for shows the Cancel Order entry; the entry is also shown, though the dialog refuses, exactly on the Shipped and Delivered orders not cancelled |
| `MyOrders.EffectiveReason` | client/src/pages/MyOrders.jsx:170-179 | "Other" sends the typed reason, any other choice itself; the fixed choices are never empty |
| `MyOrders.CancelDialog.constructor` | client/src/pages/MyOrders.jsx:50-57 | closed, nothing selected, empty reasons |
| `MyOrders.CancelDialog.OpenMenu` | client/src/pages/MyOrders.jsx:292-297 | opens the row menu |
| `MyOrders.CancelDialog.OpenCancelModal` | client/src/pages/MyOrders.jsx:120-128 | opens on an eligible order only, selecting it and closing the menu |
| `MyOrders.CancelDialog.CloseCancelModal` | client/src/pages/MyOrders.jsx:142-147 | closes and clears the selection and both reasons |
| `MyOrders.CancelDialog.ChooseReason` | client/src/pages/MyOrders.jsx:333-349 | records the chosen reason |
| `MyOrders.CancelDialog.EnterCustomReason` | client/src/pages/MyOrders.jsx:333-349 | records the typed reason |
| `MyOrders.CancelDialog.SubmitCancel` | client/src/pages/MyOrders.jsx:169-199 | no request and no change without a reason; otherwise sends the order id with the effective reason and resets; a sent request is accepted by the server |
| `Profile.Stars` | client/src/pages/Profile.jsx:80-85 | n asterisks |
| `Profile.MaskEmailPieces` | client/src/pages/Profile.jsx:80-85 | the split gives the name before the first '@' and the domain up to the next '@' |
| `Profile.SecondPieceIsDomain` | client/src/pages/Profile.jsx:80-85 | with an '@', the second piece of the split is the text after the first '@' up to the next one |
| `Profile.SecondPieceAfterFirstAt` | client/src/pages/Profile.jsx:80-85 | with an '@', the second piece is the first piece of the text after the first '@' |
| `Profile.MaskEmail` | client/src/pages/Profile.jsx:80-85 | without a name or domain the address is unchanged; otherwise max(len,3) characters keeping the name's first and last, stars between, then '@' and the domain |
| `Profile.WithField` | client/src/pages/Profile.jsx:43-54 | exactly the named field takes the value |
| `Profile.ProfileForm.constructor` | client/src/pages/Profile.jsx:16-27 | both copies hold the user; Save is disabled |
| `Profile.ProfileForm.OnChange` | client/src/pages/Profile.jsx:43-54 | the field changes and the modified flag tracks whether the form differs from the initial data |
| `Profile.ProfileForm.Resync` | client/src/pages/Profile.jsx:30-41 | both copies take the user; the modified flag is kept, so it tracks the data only if it was false |
| `Profile.ProfileForm.Submit` | client/src/pages/Profile.jsx:56-78 | sends the form's data |
| `Profile.SubmittedFormUpdatesUser` | client/src/pages/Profile.jsx:61-64 | the form's body, sent without a password, succeeds and updates the signed-in user: each filled field replaces the stored one, a cleared field keeps it, the password, every other field and every other user stay |
| `ProductListPage.ParamId` | client/src/pages/ProductListPage.jsx:23-24 | the id is the text after the last '-', the whole segment without one, "" without a segment, and never contains '-' |
| `ProductListPage.ParamName` | client/src/pages/ProductListPage.jsx:21-22 | the name is the segment without its last '-' piece, dashes turned into spaces, or "Products" |
| `ProductListPage.TitlePieces` | client/src/pages/ProductListPage.jsx:21-22 | the pieces before the last, joined with spaces, are the text before the last '-' with dashes turned into spaces |
| `ProductListPage.MergePage` | client/src/pages/ProductListPage.jsx:41-48 | page 1 replaces the list, later pages append to it |
| `ProductListPage.LaterPagesAppend` | client/src/pages/ProductListPage.jsx:41-48 | loading pages after the first appends them all in order |
| `ProductListPage.PagesAccumulate` | client/src/pages/ProductListPage.jsx:41-48 | starting from page 1 the list is exactly the loaded pages in order |
| `ProductListPage.ProductFeed.constructor` | client/src/pages/ProductListPage.jsx:12 | the list starts empty |
| `ProductListPage.ProductFeed.ApplyResponse` | client/src/pages/ProductListPage.jsx:41-48 | a successful response merges its page; a failed one changes nothing |
| `ProductListPage.FilterByCategory` | client/src/pages/ProductListPage.jsx:87-89 | exactly the sub-categories listing the category, none added |
| `ProductListPage.FilterByCategoryMultiplicity` | client/src/pages/ProductListPage.jsx:87-89 | each sub-category in the category is kept as often as it occurs, no other is kept |
| `ProductListPage.FilterByCategoryAppend` | client/src/pages/ProductListPage.jsx:87-89 | the filter keeps the given order: filtering a concatenation filters each part in turn |
| `ProductListPage.InsertAddsOne` | client/src/pages/ProductListPage.jsx:91-94 | one insertion step adds exactly that element |
| `ProductListPage.InsertKeepsOrder` | client/src/pages/ProductListPage.jsx:91-94 | one insertion step keeps the list newest first |
| `ProductListPage.InsertKeepsTies` | client/src/pages/ProductListPage.jsx:91-94 | one insertion step keeps the order of entries with equal dates |
| `ProductListPage.SortNewestFirst` | client/src/pages/ProductListPage.jsx:91-94 | the sort is newest first, a permutation, and stable for equal dates |
| `ProductListPage.InsertSortedTail` | client/src/pages/ProductListPage.jsx:91-94 | inserting the head into a sorted copy of the tail gives a sorted copy of the whole list |
| `ProductListPage.InsertKeepsAllTies` | client/src/pages/ProductListPage.jsx:91-94 | one insertion step keeps the order of entries with equal dates, for every date |
| `ProductListPage.DisplayedSubCategories` | client/src/pages/ProductListPage.jsx:87-94 | the strip is newest first and holds exactly the filtered sub-categories |
| `DisplayTable.CarouselSubCategories` | client/src/components/DisplayTable.jsx:65-71 | exactly the sub-categories listing the category, each as often as the store holds it (in the store's order, by `FilterByCategoryAppend`) |
| `DisplayTable.SameSubCategoriesAsListing` | client/src/components/DisplayTable.jsx:65-71 | the carousel and the listing page show the same sub-categories, in the same order when the input is already newest first |
| `DisplayTable.NavButtonsAfterResponse` | client/src/components/DisplayTable.jsx:148-149 | after a first page the arrows are shown exactly when it held more than one product; appending a later page never hides them |
| `DisplayTable.SortedInputIsUnchanged` | client/src/pages/ProductListPage.jsx:91-94 | sorting a newest-first list leaves it unchanged |
| `Register.RegisterForm.constructor` | client/src/pages/Register.jsx:11-22 | empty fields, no user id, no code sent, not loading |
| `Register.RegisterForm.HandleChange` | client/src/pages/Register.jsx:25-35 | a code field takes only up to six digits; every other field takes the value; no other field changes |
| `Register.RegisterForm.SendOtp` | client/src/pages/Register.jsx:42-76 | a request is sent exactly when the passwords match, carrying name, e-mail and password; an answer records the user id and shows the code field |
| `Register.RegisterForm.VerifyOtp` | client/src/pages/Register.jsx:78-118 | a request is sent exactly with a user id and a code; on success the form is reset |
| `Register.SendButtonRequestHasFields` | client/src/pages/Register.jsx:280 | whenever Send is enabled, the server does not reject the request for missing fields |
| `Register.VerifyButtonRequestHasOtp` | client/src/pages/Register.jsx:259 | whenever Verify is enabled, the code is six digits and the server does not reject it for missing fields |
| `OtpVerification.JoinOfSingleCharacters` | client/src/pages/OtpVerification.jsx:31-32 | joining one-character cells gives their characters in order |
| `OtpVerification.OtpForm.constructor` | client/src/pages/OtpVerification.jsx:11 | six empty cells, focus on the first, Submit disabled |
| `OtpVerification.OtpForm.HandleChange` | client/src/pages/OtpVerification.jsx:57-72 | a digit or empty value replaces the cell and moves the focus forward or back; anything else changes nothing |
| `OtpVerification.OtpForm.HandleKeyDown` | client/src/pages/OtpVerification.jsx:74-78 | Backspace on an empty cell moves the focus back, other keys keep it |
| `OtpVerification.OtpForm.Submit` | client/src/pages/OtpVerification.jsx:24-55 | sends a six-digit code made of the cells, with the e-mail; success clears the cells |
| `OtpVerification.SubmittedOtpHasFields` | client/src/pages/OtpVerification.jsx:126 | a submitted code with an e-mail is never rejected for missing fields |
| `OtpVerification.StayingFormHasFields` | client/src/pages/OtpVerification.jsx:16-20 | a page not sent back to the forgot-password page has an e-mail, and with a six-character code its request passes the server's check for missing fields |
| `AddToCartButton.FindLine` | client/src/components/AddToCartButton.jsx:53 | the first cart line of the product, None exactly when there is none |
| `AddToCartButton.DecreaseRequest` | client/src/components/AddToCartButton.jsx:67-78 | quantity 1 deletes the line, otherwise the quantity goes down by one |
| `AddToCartButton.StepsKeepQuantityPositive` | client/src/components/AddToCartButton.jsx:58-78 | increase gives at least 2, a decrease update stays at least 1, and decreasing after increasing returns the quantity |
| `AddToCartButton.CartButton.constructor` | client/src/components/AddToCartButton.jsx:15-19 | not in the cart, no details, not loading |
| `AddToCartButton.CartButton.Refresh` | client/src/components/AddToCartButton.jsx:49-56 | in the cart exactly when some line has the product, showing the first such line |
| `AddToCartButton.CartButton.Increase` | client/src/components/AddToCartButton.jsx:58-65 | asks for the shown quantity plus one |
| `AddToCartButton.CartButton.Decrease` | client/src/components/AddToCartButton.jsx:67-78 | asks for the decrease of the shown line |
| `AddToCartButton.CartButton.Add` | client/src/components/AddToCartButton.jsx:22-47 | run from the enabled Add to Cart button (the product is not in the cart and no request is in flight): asks to add the product; a failure sends to login; loading ends and the button is enabled again |
| `UploadSubCategoryModel.FindCategory` | client/src/components/UploadSubCategoryModel.jsx:168-177 | a category with the chosen id from the list, None exactly when none has it |
| `UploadSubCategoryModel.AddCategory` | client/src/components/UploadSubCategoryModel.jsx:168-177 | adds the found category once; an unknown or already chosen id changes nothing |
| `UploadSubCategoryModel.RemoveCategory` | client/src/components/UploadSubCategoryModel.jsx:65-70 | exactly the chosen categories with another id remain |
| `UploadSubCategoryModel.RemoveCategoryMultiplicity` | client/src/components/UploadSubCategoryModel.jsx:65-70 | each chip without the id is kept as often as it occurs, none with it |
| `UploadSubCategoryModel.RemoveCategoryAppend` | client/src/components/UploadSubCategoryModel.jsx:65-70 | removal keeps the chips' order: removing from a concatenation removes from each part in turn |
| `UploadSubCategoryModel.AddKeepsIdsDistinct` | client/src/components/UploadSubCategoryModel.jsx:168-177 | adding keeps the chosen ids distinct |
| `UploadSubCategoryModel.DistinctCons` | client/src/components/UploadSubCategoryModel.jsx:168-177 | a list has distinct ids exactly when its head's id is not in its tail and the tail has distinct ids |
| `UploadSubCategoryModel.RemoveAbsentIdIsIdentity` | client/src/components/UploadSubCategoryModel.jsx:65-70 | removing an id not chosen changes nothing |
| `UploadSubCategoryModel.RemoveKeepsIdsDistinct` | client/src/components/UploadSubCategoryModel.jsx:65-70 | removing keeps the chosen ids distinct |
| `UploadSubCategoryModel.RemoveUndoesAdd` | client/src/components/UploadSubCategoryModel.jsx:65-70 | removing a newly added id restores the chosen list |
| `UploadSubCategoryModel.RemoveAppendedId` | client/src/components/UploadSubCategoryModel.jsx:65-70 | removing an id drops an appended entry with that id |
| `UploadSubCategoryModel.SubCategoryDraft.constructor` | client/src/components/UploadSubCategoryModel.jsx:29-35 | empty draft, Submit disabled |
| `UploadSubCategoryModel.SubCategoryDraft.SetName` | client/src/components/UploadSubCategoryModel.jsx:38-44 | the name takes the value |
| `UploadSubCategoryModel.SubCategoryDraft.SelectCategory` | client/src/components/UploadSubCategoryModel.jsx:168-177 | the chosen list is the addition and its ids stay distinct |
| `UploadSubCategoryModel.SubCategoryDraft.RemoveCategorySelected` | client/src/components/UploadSubCategoryModel.jsx:65-70 | the chosen list is the removal and its ids stay distinct |
| `UploadSubCategoryModel.SubCategoryDraft.UploadImage` | client/src/components/UploadSubCategoryModel.jsx:46-63 | an uploaded file's URL becomes the image; no file changes nothing; an upload ends loading |
| `UploadSubCategoryModel.SubCategoryDraft.Submit` | client/src/components/UploadSubCategoryModel.jsx:72-92 | sends name, image and at least one category; loading ends |
| `EditSubCategory.SubCategoryEdit.constructor` | client/src/components/EditSubCategory.jsx:65-70 | starts from the stored sub-category, no categories counting as none chosen |
| `EditSubCategory.SubCategoryEdit.SetName` | client/src/components/EditSubCategory.jsx:74-80 | the name takes the value |
| `EditSubCategory.SubCategoryEdit.SelectCategory` | client/src/components/EditSubCategory.jsx:177-186 | the chosen list is the addition; distinct ids stay distinct |
| `EditSubCategory.SubCategoryEdit.RemoveCategorySelected` | client/src/components/EditSubCategory.jsx:93-99 | the chosen list is the removal, the id is gone, distinct ids stay distinct |
| `EditSubCategory.SubCategoryEdit.UploadImage` | client/src/components/EditSubCategory.jsx:82-91 | an uploaded file's URL becomes the image, otherwise it is kept |
| `EditSubCategory.SubCategoryEdit.Submit` | client/src/components/EditSubCategory.jsx:101-117 | sends the id with the current name, image and categories, all non-empty |
| `UploadProduct.RemoveAt` | client/src/pages/UploadProduct.jsx:89-93 | `splice(index, 1)`: the element at the index is removed and the rest kept in order; an index past the end changes nothing |
| `UploadProduct.RemoveLastUndoesAppend` | client/src/pages/UploadProduct.jsx:89-93 | removing the last appended element restores the list |
| `UploadProduct.AppendSelected` | client/src/pages/UploadProduct.jsx:247-256 | a found entry is appended, an unknown id changes nothing |
| `UploadProduct.SelectingTwiceDuplicates` | client/src/pages/UploadProduct.jsx:247-256 | choosing the same entry twice lists it twice |
| `UploadProduct.UploadedUrls` | client/src/pages/UploadProduct.jsx:65-87 | exactly the non-empty URLs the uploads answered with |
| `UploadProduct.UploadedUrlsMultiplicity` | client/src/pages/UploadProduct.jsx:65-87 | each non-empty URL appears as often as an upload answered with it; "" never |
| `UploadProduct.UploadedUrlsAppend` | client/src/pages/UploadProduct.jsx:65-87 | the URLs keep the uploads' order |
| `UploadProduct.ImagesAfterUpload` | client/src/pages/UploadProduct.jsx:65-87 | a rejected upload leaves the images unchanged; otherwise the uploaded URLs are appended in order |
| `UploadProduct.Coerce` | client/src/pages/UploadProduct.jsx:129-131 | empty text gives null and only empty text does; a digit string gives its value |
| `UploadProduct.CoerceReadsNumeral` | client/src/pages/UploadProduct.jsx:129-131 | the decimal numeral of n coerces back to n |
| `UploadProduct.Payload` | client/src/pages/UploadProduct.jsx:121-135 | stock, price and discount are null exactly when left empty |
| `UploadProduct.AddDetail` | client/src/pages/UploadProduct.jsx:107-119 | a blank name changes nothing; otherwise it adds that key with an empty value and keeps the other keys |
| `UploadProduct.ProductForm.constructor` | client/src/pages/UploadProduct.jsx:34-55 | the initial data, empty selects, the add-field dialog closed |
| `UploadProduct.ProductForm.HandleChange` | client/src/pages/UploadProduct.jsx:57-63 | exactly the named field takes the value |
| `UploadProduct.ProductForm.UploadImages` | client/src/pages/UploadProduct.jsx:65-87 | no files changes nothing; otherwise the images after upload, loading ended |
| `UploadProduct.ProductForm.DeleteImage` | client/src/pages/UploadProduct.jsx:89-93 | the image at the index is removed |
| `UploadProduct.ProductForm.RemoveCategoryAt` | client/src/pages/UploadProduct.jsx:95-99 | the category at the index is removed |
| `UploadProduct.ProductForm.RemoveSubCategoryAt` | client/src/pages/UploadProduct.jsx:101-105 | the sub-category at the index is removed |
| `UploadProduct.ProductForm.SelectCategory` | client/src/pages/UploadProduct.jsx:247-256 | appends the found category and clears the select only when found |
| `UploadProduct.ProductForm.SelectSubCategory` | client/src/pages/UploadProduct.jsx:281-290 | appends the found sub-category and clears the select only when found |
| `UploadProduct.ProductForm.EditDetail` | client/src/pages/UploadProduct.jsx:363-380 | the detail's value changes, its keys do not |
| `UploadProduct.ProductForm.OpenAddField` | client/src/pages/UploadProduct.jsx:107-119 | opens the add-field dialog |
| `UploadProduct.ProductForm.SetFieldName` | client/src/pages/UploadProduct.jsx:107-119 | records the field name |
| `UploadProduct.ProductForm.AddField` | client/src/pages/UploadProduct.jsx:107-119 | adds the detail; a non-blank name also clears the name and closes the dialog |
| `UploadProduct.ProductForm.Submit` | client/src/pages/UploadProduct.jsx:121-155 | sends the payload of the data; success resets the form to the initial data, failure keeps it |

## Left out

- Network, database and browser effects are not modelled: HTTP, Axios, Mongoose I/O, toasts, navigation and rendering. Their outcomes enter as parameters, for example the reply of an upload, whether a request succeeded, or the user found by id.
- Hashing (bcrypt), JWT signing, the HMAC payment signature check, the Razorpay order call, the mailer and the OTP generator are parameters: a hash string, a comparison function, a token string, a boolean, the gateway's order id, a code string.
- Clocks are parameters: milliseconds for the e-mail code, ISO strings for the forgot-password expiry.
- Concurrency is left out: parallel requests, races between handlers, and the order of an insert failure against clearing the cart (the cart is cleared after the insert).
- Mongoose `populate`, `sort` and `select` projections are left out; listings keep the collection's order.
- Floating-point prices are left out; prices and discounts are integers.
- server/models/user.model.js is not part of this model. New users are assumed to be active, with role "USER" and `verify_email` false.
- The user handlers for forgot-password mail sending, logout, avatar upload, refresh token and user details are outside the modelled core.
- The tracking controller's handlers are modelled as written, although the order routes do not mount them.
- OrderController.OrderIdInjective: an `ObjectId` is modelled by a counter printed as a minimal hexadecimal numeral, not as a 24-digit padded value with a timestamp. Only the injectivity matters.
- OrderController.OrderStore.Checkout: the receipt "receipt_<ObjectId>" goes only to the payment gateway, so the model draws its ObjectId but does not keep the text; the gateway is taken to echo the amount and currency it was sent.
- `resetpassword` filters `findOneAndUpdate` by `user._id` itself. It is modelled as updating that user.
- An unset forgot-password expiry is modelled as not expired: JavaScript's comparison of undefined with a string is false.
- UploadProduct.Coerce: `Number()` of text that is not all digits (signs, decimals, exponents, spaces) is not evaluated. It yields an uninterpreted `OtherNumber` carrying the text.
- UserTrackingModal.ProgressDialog.RunEffect: the 500-millisecond interval is modelled as a number of ticks that have fired; clearing the interval on close is a reset.
- Date parsing of `createdAt` for the newest-first sort is left out; a missing date is the key 0.
- The "My Orders" tracking and details modals, the menu's anchor element, and all page layout are left out; only the cancellation flow is modelled.
- The global cart helpers (`fetchCartItem`, `updateCartItem`, `deleteCartItem`) are left out: the button's requests are modelled, not what they do to the cart.
- Browser form validation (`required` attributes) is not modelled; the handlers' own checks are.
- Profile.ProfileForm.Resync: after a refresh the modified flag is kept as the code keeps it, so it can be stale.
- server/models/user.model.js is not part of this model, so the types of `forgot_password_otp` and `forgot_password_expiry` are not known. They are taken to be String-typed, as the handlers store strings in them. With a Date-typed expiry, the comparison and `UserController.ForgotOtpSingleUse` would not hold as stated.
- Strings are sequences of Unicode scalar values, while JavaScript strings are sequences of UTF-16 code units. Lengths, indexes and slices in `Profile.MaskEmail`, `ProductListPage.ParamId`, `ProductListPage.ParamName` and the form checks therefore differ from the code's for characters outside the Basic Multilingual Plane, which JavaScript counts as two units.
- ProductListPage.LaterPagesAppend and ProductListPage.PagesAccumulate describe pages after the first, but the listing page and the carousel never call `setPage`, so the client only asks for page 1 and the append branch of the merge does not run.
- DisplayTable's route parsing and paging are the same code as the listing page's. The functions of `ProductListPage` stand for both.

## Findings

| source | as written | input that shows it | evidently intended | confidence | as-written member | corrected member |
|---|---|---|---|---|---|---|
| client/src/components/TrackingModal.jsx:22 | `selectedStatus` is initialised from `order` only when the dialog mounts; the orders page keeps the dialog mounted once an order was selected (client/src/pages/TotalOrders.jsx:155-165) and only swaps the `order` prop | open tracking on a Pending order A, close, open it on a Delivered order B: the selection is still Pending, which differs from B's status, so Update is enabled, and the server answers 400 "Cannot revert to a previous tracking status" | the selection follows the order shown, so Update starts disabled and every status then offered is accepted | not executed | `TrackingModal.StaleSelectionAfterReopen` | `TrackingModal.ResyncedReopenIsAccepted` |
