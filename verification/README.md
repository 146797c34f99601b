# LineByLine core in Dafny

LineByLine is a campus service that shows how crowded cafeterias, libraries
and gyms are, lets a user take a waiting ticket for a corner, and sells meal
tickets (orders) whose QR code must be activated near the facility. This
project models its core logic as pure functions over immutable records and
proves properties of them:

- **Order store** (`order_store.dfy`, module `OrderStore`). Orders are
  created PAID with ids `ORD_YYYYMMDD_NNNNNN`. A QR code is activated
  behind ordered status checks and a 50 m radius, and lasts three minutes.
  Orders end COMPLETED or CANCELLED. Each session keeps a newest-first list,
  and a global map holds the current version of every order.
- **Waiting store** (`waiting_store.dfy`, module `WaitingStore`). There is
  one ticket per session key and a ticket counter. Each session has a
  CANCELLED history capped at ten entries, newest first. The module also
  holds the queue half of the periodic tick.
- **Periodic tick** (`congestion_tick.dfy`, module `CongestionTick`). Each
  corner and facility figure takes a bounded random step and is clamped.
  Every ticket with people ahead of it moves one place up.
- **Waiting endpoint** (`waiting_handler.dfy`, module `WaitingHandler`).
  GET, POST and DELETE on the waiting resource are a function from the store
  and a request to a response and a new store.
- **Prediction** (`prediction.dfy`, module `Prediction`). Slot multipliers,
  jitter for other dates, and rounding and clamping. It also decides when a
  prediction is shown and builds the predicted view of a facility.
- **Cart** (`cart.dfy`, module `Cart`). The cart context as a reducer: one
  facility, unique menu ids, quantities in 1..5, and totals.
- **Time-slot picker** (`time_slots.dfy`, module `TimeSlots`). Half-hour
  slots from 06:00 to 22:30, the current slot, and the window shown for
  today.
- **Pickup** (`pickup.dfy`, module `Pickup`). The cart sheet's 10-minute
  pickup slots, the pickup time passed to payment, and the payment guard.
- **QR dialog** (`qr_modal.dfy`, module `QrModal`). Screen selection, the
  180-second countdown, and how activation replies and geolocation answers
  change the dialog.
- **Ticket wallet** (`orders_page.dfy`, module `OrdersPage`). The split
  into usable and past tickets, the menu summary, button labels and status
  badges.
- **Lookup tables** (`mock_data.dfy`, module `MockData`). Congestion
  colours and words, facility-type labels and icons, and the hourly chart.
- **Shared helpers** (`common.dfy`, `decimal.dfy`, `schema.dfy`). `Option`;
  JavaScript's `Math.min`/`Math.max` clamps, `Math.round` and
  `Math.floor(Math.random() * k)`; order-keeping filters; decimal text
  with `padStart`; the stored records and a first-match search over them.

Everything the code takes from the environment is a parameter:
- clock readings are epoch milliseconds, or a local time of day;
- every `Math.random()` result is a real in [0, 1);
- generated UUIDs are strings;
- the distance between the user and the facility is a real number of metres;
- "is the selected date today" is a boolean.

Three facts about the code shape the model:

- The congestion multiplier is a step function of the hour. It is 1.5 for
  hour 12, 1.3 for hours 11 and 13, 1.2 for 17-19, 0.8 for 7-9, 0.7 for
  14-16 and 0.6 otherwise. The wait-time multiplier is 1.6 from 12:00 to
  12:30, then 1.4, 1.3, 0.7, 0.6 and 0.5 over the same bands. Another
  date's jitter factor lies in [0.9, 1.1) for congestion and [0.85, 1.15)
  for waiting time.
- Only a successful activation, a cancellation or a completion changes an
  order's status. Nothing moves an order to QR_EXPIRED, so
  `ReachableOrdersNeverExpire` proves that no reachable order is PENDING or
  QR_EXPIRED. The QR_EXPIRED branches of `activateQR` and of the client are
  unreachable with orders from the store.
- The waiting endpoint takes the session id from the `sessionId` cookie
  first. It falls back to the `x-session-id` header, then to `"guest"`. An
  empty value counts as absent.

## Model

| member | source | states |
|---|---|---|
| OrderStore.CreateOrder | api/storage.ts:363-397 | The counter and order number go up by exactly one, and the id is the formatted date and counter. The order is PAID with no QR state, with `paidAt` equal to `createdAt` and every request field copied. It is put at the head of the session's list and into the global map under its id. |
| OrderStore.OrderIdRoundTrip | api/storage.ts:366 | An order id reads back as the date and counter it was made from. |
| OrderStore.OrderIdInjective | api/storage.ts:366 | Different (date, counter) pairs give different order ids. |
| OrderStore.DateStampRoundTrip | api/storage.ts:366 | The eight-digit date stamp reads back as its year, month and day. |
| Decimal.ZeroPadRoundTrip | api/storage.ts:366 | A counter padded with zeros to at least six digits reads back as the counter. |
| OrderStore.CreateIsFresh | api/storage.ts:364-366 | In a store that keeps its invariant, a new order's id is not yet in the global map, so creating never overwrites an order. |
| OrderStore.GetOrders | api/storage.ts:399-405 | The result has the session list's length and order. Each element is the global map's version when the map knows its id, and the stored element otherwise. |
| OrderStore.GetOrder | api/storage.ts:407-409 | Present exactly when the id is in the global map, and then that entry. |
| OrderStore.ActivateQr | api/storage.ts:411-468 | Checks in order: unknown id, COMPLETED, CANCELLED, a status other than PAID/QR_EXPIRED, then distance over 50 m, reported rounded. Success happens exactly when all pass. Every failure leaves the store unchanged. On success only that order changes: QR_ACTIVE, a code for it, activated now, expiring 180 000 ms later. |
| OrderStore.CancelOrder | api/storage.ts:470-484 | Succeeds exactly for a known order that is not COMPLETED, an already CANCELLED one included. It sets CANCELLED and `cancelledAt` on that order only; a failure changes nothing. |
| OrderStore.CompleteOrder | api/storage.ts:486-500 | Succeeds exactly for a QR_ACTIVE order and sets COMPLETED and `completedAt` on it only; a failure changes nothing. |
| OrderStore.InitialInv | api/storage.ts:277-282 | The empty store at counter 1000 satisfies the store invariant. |
| OrderStore.ApplyPreservesInv | api/storage.ts:363-500 | Every store operation keeps the invariant: each order is filed under its own id, each id was issued from a counter value already used, and each listed order is in the global map. |
| OrderStore.CreatePreservesInv | api/storage.ts:363-397 | Creating an order keeps the invariant. |
| OrderStore.ActivatePreservesInv | api/storage.ts:457-465 | Activation keeps the invariant. |
| OrderStore.CancelPreservesInv | api/storage.ts:470-484 | Cancellation keeps the invariant. |
| OrderStore.CompletePreservesInv | api/storage.ts:486-500 | Completion keeps the invariant. |
| OrderStore.ApplyKeepsTerminal | api/storage.ts:411-500 | One operation of any kind leaves a COMPLETED order exactly as it is, and a CANCELLED order CANCELLED. |
| OrderStore.TerminalStatusesPersist | api/storage.ts:411-500 | Over any sequence of operations, a COMPLETED order never changes again and a CANCELLED order stays CANCELLED. |
| OrderStore.ReachableOrdersNeverExpire | api/storage.ts:363-500 | From the empty store, no sequence of operations produces a PENDING or QR_EXPIRED order, in the map or in any session list. |
| OrderStore.CreateThenList | api/storage.ts:363-405 | After an order is created, the session reads it first, followed by exactly what it read before. |
| OrderStore.ActivationVisibleInList | api/storage.ts:399-468 | An activation by anyone shows up in the owning session's list, and no other element of the list changes. |
| WaitingStore.ActiveWaiting | api/storage.ts:315-317 | The session's ticket when it has one, and none otherwise. |
| WaitingStore.WaitingHistory | api/storage.ts:359-361 | The session's history, or the empty list. |
| WaitingStore.CreateWaiting | api/storage.ts:319-339 | The counter goes up by one and becomes the ticket's number. The ticket is WAITING, snapshots the corner's wait time and queue as `estimatedTime` and `waitingAhead`, and satisfies `waitingAhead + currentCalling + 1 == waitingNumber`. It replaces any ticket of that session, and the history is untouched. |
| WaitingStore.CancelWaiting | api/storage.ts:341-357 | Succeeds exactly when the session has a ticket; otherwise nothing changes. On success the ticket is removed, the counter is kept, and a CANCELLED entry goes to the head of the session's history, which keeps the previous entries after it up to ten in all. Other sessions' histories are untouched. |
| WaitingStore.PushHistory | server/storage.ts:246-247 | The new entry comes first, then the old entries in order, cut to ten entries. |
| WaitingStore.InitialInv | api/storage.ts:276-280 | The empty store at counter 100 satisfies the queue invariant. |
| WaitingStore.CreatePreservesInv | server/storage.ts:212-232 | Registering keeps every ticket's creation identity and the history cap. The new ticket's number is larger than every stored ticket's, so numbers strictly increase. |
| WaitingStore.CancelPreservesInv | server/storage.ts:234-250 | Cancelling keeps the invariant, including the ten-entry cap. |
| WaitingStore.HistoryCapped | api/storage.ts:341-357 | After n register-then-cancel rounds the session's history holds min(old + n, 10) entries with a CANCELLED entry first. The counter has gone up by n and the session has no ticket. |
| WaitingStore.AdvanceTicket | server/storage.ts:271-281 | A ticket with people ahead moves up one place, its estimate drops by three minutes but not below zero, and the calling number goes up by one. Any other ticket is unchanged. `waitingAhead + currentCalling` is preserved and no other field changes. |
| WaitingStore.AdvanceQueue | server/storage.ts:271-281 | The tick keeps the counter, the histories and the set of sessions with a ticket. |
| WaitingStore.AdvancePreservesInv | server/storage.ts:271-281 | The tick keeps every ticket's creation identity. |
| CongestionTick.StepCongestion | server/storage.ts:261 | The new congestion is in 1..5 and, from a level in 1..5, moves by at most one. |
| CongestionTick.StepWaitTime | server/storage.ts:262 | The new wait time is non-negative and moves by at most two, apart from flooring at zero. |
| CongestionTick.StepQueue | server/storage.ts:263 | The new queue length is non-negative and moves by at most one, apart from flooring at zero. |
| CongestionTick.SeatBound | server/storage.ts:265 | The seat bound is the capacity, or 100 when the capacity is missing or 0. |
| CongestionTick.StepAvailable | server/storage.ts:264-266 | Tracked free seats stay tracked and lie between 0 and the bound (0 when the bound is negative), moving by at most two from an in-range value. Untracked seats stay untracked. |
| CongestionTick.TickCorner | server/storage.ts:259-267 | Only congestion, wait time, queue and free seats change, each by its own step and draw. |
| CongestionTick.TickFacility | server/storage.ts:257-269 | Only the corners and the average congestion change. The corners keep their number and order, each ticked with its own position. |
| CongestionTick.TickFacilities | server/storage.ts:257-269 | Same facilities and corners, ids and order. Every live figure ends in range, and every congestion figure moves by at most one level. |
| CongestionTick.UpdateCongestion | server/storage.ts:256-282 | One whole tick. The directory keeps its shape and comes out in range, with bounded congestion steps. Each ticket advances as above, and the session keys, counter and histories are kept. |
| CongestionTick.TicksPreserveInv | server/storage.ts:256-282 | Any number of ticks keeps the queue invariant, and after at least one tick the directory is in range. |
| Schema.FindFirst | api/storage.ts:311-313 | None exactly when no element has the id; otherwise the first element with it. Facility and corner lookups are this search over the id field. |
| WaitingHandler.SessionId | api/waiting.ts:6 | The non-empty cookie value, else the non-empty header value, else "guest"; never empty. |
| WaitingHandler.ParseInsertWaiting | api/waiting.ts:24-27 | Succeeds exactly for an object whose five required fields are strings and whose `menu` is absent or a string, and then carries those values. |
| WaitingHandler.Register | api/waiting.ts:17-44 | The POST checks in order: an existing ticket gives 400 before the body is read, then an invalid body 400, unknown facility 404, unknown corner 404, full corner 400. It answers 201 exactly when all pass, and then the store holds the new ticket. Every refusal leaves the store unchanged. |
| WaitingHandler.Handle | api/waiting.ts:5-63 | GET returns the session's ticket without change, DELETE returns 404 without a ticket and 200 after cancelling, and other methods get 405 and change nothing. The directory is never written, and no request replaces a ticket. A ticket appears only for the requester on a 201 and disappears only for the requester on a 200 DELETE. |
| WaitingHandler.HandleAllPreservesInv | api/waiting.ts:5-63 | Any sequence of requests keeps the queue invariant. |
| WaitingHandler.SecondRegistrationRefused | api/waiting.ts:19-22 | After a successful registration, a second POST from the same session is refused with 400 whatever its body, and changes nothing. |
| Prediction.CongestionMultiplier | client/src/lib/prediction.ts:13-25 | The multiplier lies in 0.6..1.5. It is 1.5 exactly at hour 12 (with a minute of 0 or more), and above 1 exactly in hours 11-13 and 17-19. It is 1.3 in hours 11 and 13, 1.2 in 17-19, 0.8 in 7-9, 0.7 in 14-16, and 0.6 in hour 10 and outside 7-19. |
| Prediction.WaitTimeMultiplier | client/src/lib/prediction.ts:44-56 | The multiplier lies in 0.5..1.6. It is 1.6 exactly from 12:00 to 12:30, and above 1 exactly in hours 11-13 and 17-19. It is 1.4 in the rest of 11-13, 1.3 in 17-19, 0.7 in 7-9, 0.6 in 14-16, and 0.5 in hour 10 and outside 7-19. |
| Prediction.CongestionJitter | client/src/lib/prediction.ts:28 | Another day's congestion factor lies in [0.9, 1.1). |
| Prediction.WaitTimeJitter | client/src/lib/prediction.ts:59 | Another day's wait-time factor lies in [0.85, 1.15). |
| Prediction.PredictedCongestion | client/src/lib/prediction.ts:27-32 | The predicted congestion is always a level in 1..5, whatever the base and the draw. |
| Prediction.PredictedWaitTime | client/src/lib/prediction.ts:58-62 | The predicted wait is always at least one minute. |
| Prediction.TodayIsUnjittered | client/src/lib/prediction.ts:27-29 | For today neither prediction depends on the draw. Each equals the other-day prediction at the draw whose factor is exactly one. |
| Prediction.TodayCongestionIsNearest | client/src/lib/prediction.ts:31-32 | For today the prediction is the level nearest the scaled base, rounding halves up. Below 0.5 it is 1 and from 5.5 it is 5. |
| Prediction.TodayWaitIsNearest | client/src/lib/prediction.ts:62 | For today the prediction is the whole minute nearest the scaled base, and 1 when the scaled base is below 0.5. |
| Prediction.OtherDayCongestionBounds | client/src/lib/prediction.ts:27-32 | For another day, the predicted congestion lies between the predictions at jitter factors 0.9 and 1.1. |
| Prediction.OtherDayWaitTimeBounds | client/src/lib/prediction.ts:58-62 | For another day, the predicted wait lies between the predictions at jitter factors 0.85 and 1.15. |
| Prediction.TodayCongestionFollowsPeaks | client/src/lib/prediction.ts:13-32 | For today, a slot with multiplier above one never predicts less than the live level, and one below one never more. |
| Prediction.TodayWaitFollowsPeaks | client/src/lib/prediction.ts:44-62 | For today, a peak slot never predicts a shorter wait than the live one, and a quiet slot never a longer one. |
| Prediction.ShouldShowPrediction | client/src/lib/prediction.ts:67-76 | True for every other date. For today, true exactly when the slot starts strictly after now. |
| Prediction.CurrentSlotShowsLiveValues | client/src/lib/prediction.ts:67-76 | For today, the half-hour slot the clock is in shows live values, and the next one is predicted. |
| Prediction.WaitTimeBase | client/src/lib/prediction.ts:97 | A wait time of 0 is predicted as if it were 5; any other is used as is. |
| Prediction.PredictCorner | client/src/lib/prediction.ts:91-102 | Only congestion, wait time and menu change. The live figures are kept when no prediction is shown. The menu becomes the placeholder exactly for another day with a non-empty menu. |
| Prediction.PredictedFacility | client/src/lib/prediction.ts:78-104 | It keeps the id, every field other than the average, and the corners' number, order and ids. Corner j is that corner's prediction from its own two draws. When a prediction is shown, the average is its predicted congestion, and a corner with a wait time of 0 is predicted from 5 minutes. Without a prediction it keeps every live figure. With one, every level is in 1..5 and every wait at least one minute. The menu becomes the placeholder exactly for another day's non-empty menus. |
| Cart.AddBase | client/src/context/CartContext.tsx:40-42 | Adding from a facility other than the cart's current one starts from no lines, and otherwise from the cart's lines. |
| Cart.AddItem | client/src/context/CartContext.tsx:35-63 | The cart opens and records the facility and corner. A present menu id raises that line to min(5, q + 1) and adds no line. A new one appends a line with quantity 1 and the given id. |
| Cart.AddItemPreservesInv | client/src/context/CartContext.tsx:50-59 | With a fresh line id, adding keeps quantities in 1..5 and menu ids and line ids unique. |
| Cart.AddItemTotals | client/src/context/CartContext.tsx:50-59 | In a good cart from the same facility, a new menu adds one item and its price to the totals. An existing line below five adds one item and its price; a line at five leaves both totals unchanged. |
| Cart.TotalItemsBounds | client/src/context/CartContext.tsx:104 | With quantities in 1..5 the item count lies between the number of lines and five times it. With no negative quantity it is never negative, and no line holds more than it. |
| Cart.TotalAmountCoversLines | client/src/context/CartContext.tsx:105 | With no negative price or quantity the amount is never negative, and at least what any single line costs. |
| Cart.TotalsAfterSet | client/src/context/CartContext.tsx:104-105 | Changing one line's quantity moves the item total and the amount by exactly that line's difference. |
| Cart.Without | client/src/context/CartContext.tsx:67 | The result holds exactly the lines whose id differs from the removed one, in their original order. |
| Cart.RemoveItem | client/src/context/CartContext.tsx:65-77 | Exactly the matching lines are dropped. An emptied cart forgets its facility and corner; otherwise nothing else changes. |
| Cart.RemoveItemPreservesInv | client/src/context/CartContext.tsx:65-77 | Removing keeps quantities in range and ids unique, and no remaining line has the removed id. |
| Cart.UpdateQuantity | client/src/context/CartContext.tsx:79-89 | Below 1 this removes the line. Otherwise it sets min(5, q) on the matching line only, and nothing else changes. |
| Cart.UpdateQuantityPreservesInv | client/src/context/CartContext.tsx:79-89 | Updating a quantity keeps quantities in 1..5 and ids unique. |
| Cart.ClearCart | client/src/context/CartContext.tsx:91-99 | No lines, no facility or corner, and the sheet closed. |
| TimeSlots.SlotText | client/src/components/TimeSlotSelector.tsx:15-16 | A slot is five characters with the colon in the middle. |
| TimeSlots.ParseSlotText | client/src/components/TimeSlotSelector.tsx:15-16 | A slot reads back as its hour and 0 or 30. |
| TimeSlots.SlotTextInjective | client/src/components/TimeSlotSelector.tsx:15-16 | Different hours or halves give different slot texts. |
| Decimal.TwoDigitsIsZeroPad | client/src/components/TimeSlotSelector.tsx:15 | Two-digit formatting agrees with `padStart(2, "0")` below 100. |
| TimeSlots.GenerateTimeSlots | client/src/components/TimeSlotSelector.tsx:12-19 | The loop yields 34 slots: slot i is hour 6 + i/2, on the half hour when i is odd. |
| TimeSlots.SlotsAscending | client/src/components/TimeSlotSelector.tsx:12-19 | The slots run from 06:00 to 22:30, 30 minutes apart, strictly increasing. |
| TimeSlots.CurrentTimeSlot | client/src/components/TimeSlotSelector.tsx:21-27 | The hour with ":00" before half past and ":30" from half past, reading back as that hour and minute. |
| TimeSlots.IndexOf | client/src/components/TimeSlotSelector.tsx:37 | The first position of the text, or -1 exactly when it is absent. |
| TimeSlots.CurrentSlotListed | client/src/components/TimeSlotSelector.tsx:14-37 | The current slot is listed exactly for hours 6 to 22, at position 2 * (hour - 6), plus one from half past. |
| TimeSlots.VisibleSlots | client/src/components/TimeSlotSelector.tsx:39-41 | All slots for another day, and for a today whose current slot is absent. Otherwise the suffix from four before the current slot. |
| TimeSlots.VisibleWindow | client/src/components/TimeSlotSelector.tsx:40 | With the current slot at position 4 or later, today's view starts four before it and shows it fifth. |
| Pickup.RoundUpToStep | client/src/components/CartSheet.tsx:30 | The minute rounded up to the next multiple of ten, at most 60. |
| Pickup.StartMinute | client/src/components/CartSheet.tsx:30-32 | The start is a multiple of ten minutes, no earlier than the current minute and less than ten minutes after it. |
| Pickup.ParseClockText | client/src/components/CartSheet.tsx:37 | An "HH:mm" text reads back as the hour modulo the day and the minute. |
| Pickup.GeneratePickupSlots | client/src/components/CartSheet.tsx:27-41 | The loop builds exactly the formatted candidates at start + 10 .. start + 60 that the closing-hour test keeps, at most six. |
| Pickup.StepsWhereSpec | client/src/components/CartSheet.tsx:34-39 | A step is kept exactly when it is in 1..n and accepted, and kept steps come in increasing order. |
| Pickup.PickupSlotAt | client/src/components/CartSheet.tsx:30-37 | Each offered slot is strictly after now, on a multiple of ten minutes, with an hour before 22, and its text reads back as that hour and minute. |
| Pickup.PickupSlotsInOrder | client/src/components/CartSheet.tsx:34-39 | Offered slots are in chronological order, at least ten minutes apart. |
| Pickup.PickupSlotsComplete | client/src/components/CartSheet.tsx:34-39 | Every candidate whose hour is before 22 is offered. |
| Pickup.AllSixBeforeClosing | client/src/components/CartSheet.tsx:34-39 | When the last candidate is before 22:00, all six are offered. |
| Pickup.NoneAfterClosing | client/src/components/CartSheet.tsx:36 | From the first candidate at or after 22:00 until the last is past midnight, nothing is offered. |
| Pickup.WrapsPastMidnight | client/src/components/CartSheet.tsx:36 | Once the first candidate is at or after midnight, all six are offered again, because the filter looks only at the hour modulo the day. |
| Pickup.PickupTime | client/src/components/CartSheet.tsx:50-55 | "Now" reads back as the hour and minute five minutes from now. A scheduled pickup is the selected slot unchanged. |
| Pickup.ProceedToPayment | client/src/components/CartSheet.tsx:45-48 | The dialog opens unless the pickup is scheduled with nothing selected, and it opens exactly when the pay button is enabled. |
| QrModal.Mount | client/src/components/QRModal.tsx:18-22 | The dialog starts on the location screen with 180 seconds and no error. |
| QrModal.FormatTimeRoundTrip | client/src/components/QRModal.tsx:137-141 | "M:SS" reads back as the seconds it shows. |
| QrModal.WholeMinutesText | client/src/components/QRModal.tsx:137-141 | Whole minutes under ten show as "M:00", and 180 seconds as "3:00". |
| QrModal.RemainingSeconds | client/src/components/QRModal.tsx:44 | The whole seconds left, never negative, and positive exactly when at least a second is left. |
| QrModal.OrderChanged | client/src/components/QRModal.tsx:39-57 | A live code with time left shows the code with the seconds left. One whose time is up shows "expired". PAID and QR_EXPIRED ask for the location, and other statuses keep the screen. |
| QrModal.Tick | client/src/components/QRModal.tsx:59-74 | Above one second the count drops by one; otherwise it stops at zero on "expired". Nothing happens while the timer is stopped. |
| QrModal.CountdownRunsOut | client/src/components/QRModal.tsx:59-74 | A code shown with t seconds counts down for t - 1 ticks and is "expired" with zero left from tick t on. |
| QrModal.StoppedStaysPut | client/src/components/QRModal.tsx:60 | Ticks change nothing while the timer is stopped. |
| QrModal.ReplyOf | api/storage.ts:411-468 | The server's reply is successful exactly for an activation, and then carries the order. A failure carries the failure's message instead. |
| QrModal.ActivationReplied | client/src/components/QRModal.tsx:83-92 | A successful reply adopts the order, restarts at 180 seconds and shows the code. Otherwise the error shows the reply's message, or a fallback, and keeps the screen. |
| QrModal.ActivationSettled | client/src/components/QRModal.tsx:76-100 | The endpoint (api/orders/[orderId]/activate-qr.ts, line 24) answers 200 for an activation and 400 for a refusal. An activation always shows the code with 180 seconds. A refusal shows the server's message when the request helper hands 400 replies to `onSuccess`. When it rejects them, `onError` runs and the dialog is unchanged. |
| QrModal.ActivationAgreesWithServer | client/src/components/QRModal.tsx:83-92 | The 180 seconds set after a successful activation are exactly what the server's three-minute expiry gives, and re-deriving the screen from the new order changes nothing. |
| QrModal.RequestActivation | client/src/components/QRModal.tsx:103-135 | The error is cleared and the position is sent exactly when one was obtained. Otherwise a non-empty reason is shown, and the screen never changes. |
| QrModal.Reactivate | client/src/components/QRModal.tsx:281 | The reactivate button leads from "expired" to the location screen and changes nothing else. |
| QrModal.React | client/src/components/QRModal.tsx:39-135 | "Expired" leads back to the location screen only through the button, or a new PAID or QR_EXPIRED order. Only a new order or a successful reply shows the code. |
| QrModal.LeavingExpiredWithStoreOrders | client/src/components/QRModal.tsx:52-55 | With orders read from the store, "expired" is left for the location screen only through the button or a PAID order. |
| QrModal.Title | client/src/components/QRModal.tsx:154 | The title is "QR 코드" exactly on the code screen. |
| QrModal.TimerUrgency | client/src/components/QRModal.tsx:218-224 | Urgent at 30 seconds or less, a warning up to 60, calm above. |
| Common.Filter | client/src/pages/OrdersPage.tsx:34-37 | The kept elements are exactly those of the list that satisfy the test. |
| Common.FilterIsSubsequence | client/src/pages/OrdersPage.tsx:34-37 | Filtering keeps the relative order of the list. |
| OrdersPage.ActiveOrders | client/src/pages/OrdersPage.tsx:34-36 | Exactly the PAID, QR_ACTIVE and QR_EXPIRED orders, in the server's order. |
| OrdersPage.PastOrders | client/src/pages/OrdersPage.tsx:37 | Exactly the COMPLETED and CANCELLED orders, in the server's order, none of them also usable. |
| OrdersPage.ListsCount | client/src/pages/OrdersPage.tsx:34-37 | The two lists and the unlisted (PENDING) orders account for every order once. |
| OrdersPage.StoreOrdersAllListed | client/src/pages/OrdersPage.tsx:34-37 | A session's orders read from the store all appear in one of the two lists, and none shows the expiry warning. |
| OrdersPage.MenuSummary | client/src/pages/OrdersPage.tsx:133-136 | With several lines: the first menu, " 외 ", the number of other lines (reading back as that number), "개". With one line: its menu unless that is empty. Otherwise "메뉴". |
| OrdersPage.ButtonLabel | client/src/pages/OrdersPage.tsx:176-185 | "QR 보기" exactly for QR_ACTIVE, "재활성화" exactly for QR_EXPIRED, and "QR 활성화" otherwise. |
| OrdersPage.WarningOnlyInActiveList | client/src/pages/OrdersPage.tsx:191 | The warning shows for exactly the expired tickets of the usable list and for none of the past list. |
| OrdersPage.StatusNameInjective | client/src/pages/OrdersPage.tsx:17-21 | Different statuses have different names. |
| OrdersPage.StatusBadge | client/src/pages/OrdersPage.tsx:13-22 | The five known statuses get their label and variant. Anything else shows its raw name with the outline variant. |
| OrdersPage.BadgeLabels | client/src/pages/OrdersPage.tsx:129-132 | PENDING falls back to its raw name, and the five known statuses get five different labels. |
| MockData.CongestionColor | client/src/lib/mock-data.ts:208-217 | A colour class per level, grey exactly outside 1..5. |
| MockData.CongestionText | client/src/lib/mock-data.ts:219-228 | A word per level, "알 수 없음" exactly outside 1..5. |
| MockData.CongestionLabelsDistinct | client/src/lib/mock-data.ts:208-228 | Each level's word and colour identify that level; anything outside 1..5 falls back. |
| MockData.FacilityIcon | client/src/lib/mock-data.ts:230-238 | The known types get their icons, and any other type the building icon. |
| MockData.FacilityLabel | client/src/lib/mock-data.ts:240-248 | The known types get their names, and any other type "기타". |
| MockData.IconMatchesLabel | client/src/lib/mock-data.ts:230-248 | A type gets the building icon exactly when it is labelled "기타". |
| MockData.ParseHourLabelOf | client/src/lib/mock-data.ts:175 | An hour label reads back as its hour. |
| MockData.Bar | client/src/lib/mock-data.ts:180 | A bar is the base value, or one less when the draw is below one half (never below 1). |
| MockData.HourlyData | client/src/lib/mock-data.ts:174-182 | Ten bars labelled 9 to 18 o'clock in order, each in 1..5 and equal to its base value or one less, as the draw decides. |

## Left out

- The great-circle distance (`calculateDistance`, api/storage.ts:285-296) is floating-point trigonometry; `ActivateQr` takes the distance in metres as an input.
- Clocks, `Math.random()` and UUID generation are inputs. ISO date strings are reduced to what is used: the UTC date in an order id and the minute stamp of a history entry, which is taken as given.
- The QR payload is kept as a record (order id, number, facility, times); its JSON and base64 text is not modelled. The QR image rendering (`QRCodeLib.toDataURL`) is left out.
- Timers are left out. The 30-second `setInterval` of the tick is replaced by an explicit `UpdateCongestion` operation. The one-second countdown interval of the QR dialog is an explicit `Tick` event. The five-second refetch of the wallet page is not modelled.
- `UpdateCongestion` models the tick of server/storage.ts:256-282. api/storage.ts has no tick, so its waiting tickets change only through create and cancel and never advance. The WebSocket broadcast and client are not part of this model.
- Time zones and daylight-saving changes are not modelled; local times of day are plain minutes since midnight.
- zod's error details in a 400 reply, and the 500 replies of thrown exceptions (none of the modelled store operations throws), are not modelled.
- The cart's `openCart`/`closeCart` only set `isOpen` and are left out.
- Floating point is replaced by exact rationals. `Math.round` is round-half-up on exact values, so results at IEEE rounding boundaries may differ from the browser's.
- Prediction: parsing the slot string into hour and minute (`timeSlot.split(":").map(Number)`) is taken as done; the hour and minute are inputs.
- QrModal: the error toast of a failed request, the loading spinner and the query cache invalidation are side effects without state in the model.
- OrdersPage: the loading skeleton, the date formatting of a card and the modal's open/close state are left out.
- Pickup.NoneAfterClosing: covers only clocks whose last candidate is before midnight. Later clocks are covered by `Pickup.WrapsPastMidnight`, which shows the code offering next-day slots.
- Prediction.PredictedCongestion and Prediction.PredictedWaitTime: their contracts state only the range; the exact value for today and the bounds for other days are separate lemmas.
- server/routes.ts repeats the POST guard of api/waiting.ts and is not part of this model, and neither are the thin order, history and facility handlers.
- QrModal.ActivationSettled: client/src/lib/queryClient.ts is not part of this model. Whether its `apiRequest` rejects a 400 reply is a `Transport` parameter, and both cases are stated.
