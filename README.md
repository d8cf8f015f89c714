# Booking payment reconciliation and ticket check-in, in Dafny

This project models the core of an event-ticketing backend. It covers two parts.

The payment service (`payment_service.dfy`):
- It starts a Khalti ePayment for a booking.
- It verifies the payment with Khalti's lookup.
- It lets the owner override a payment status by hand.
- It reports a booking's payment status.

The event-ticket controller (`ticket_controller.dfy`):
- It checks attendees in by scanned booking id or QR code.
- It cancels tickets.
- It chooses the value a ticket's QR code encodes.
- It counts an event's bookings by status.
- It computes the booking listing's paging.

The store (`store.dfy`, class `Tables.Store`) holds five tables:
- generic service bookings (`Booking`), keyed by booking id;
- event-ticket bookings (`EventTicketBooking`), keyed by booking id;
- one payment-transaction table per booking kind, in creation order, where a transaction's id is its position in its table;
- events, which the model only reads.

`Model.Db` is a snapshot of the same tables as a value (`model.dfy`).

The five operations that write the store come in two parts: initiation (`Initiate` / `InitializeKhaltiPayment`), verification (`Verify` / `VerifyKhaltiPayment`), the manual override (`UpdateStatus` / `UpdatePaymentStatus`), check-in (`CheckIn` / `CheckInAttendee`) and cancellation (`Cancel` / `CancelBooking`).
- A function over `Db` whose `ensures` state what the operation promises. These cover the error cases, what changes on each path, and frame conditions such as "nothing else changes".
- A method over `Store` that does the same steps in the source's order. Its `modifies` clause names the tables it may write. It is proved to leave the store in the state the function gives.

The payment-status query is a read-only method over `Store` (`GetPaymentStatus`). The QR value, the analytics counts and the paging arithmetic compute values only, so they are functions (`TicketQrValue`, `DownloadTicketQr`, `BookingAnalytics`, `EventBookingPage`).

The Khalti gateway is an oracle. What the initiate or lookup endpoint answered arrives as a parameter:
- `InitReply` is a response body with optional `pidx` and `payment_url`, or an HTTP/transport error.
- `LookupReply` is a status string with an optional message, or an HTTP/transport error.

The clock and the UUID generator are parameters too:
- `now` is the current time.
- `token` is the UUID a new QR code would get. Its freshness (`FreshToken`) is the one thing the model assumes of it. That freshness keeps QR codes unique, which is the store's invariant (`Store.Valid`).

Behaviour of the code worth knowing:
- **Generic-booking eligibility.** The initiation query admits generic bookings in `pending_provider_confirmation`, `confirmed_awaiting_payment` and `confirmed_paid`; a `pending` one is not found. A `pending_provider_confirmation` booking is then refused with BOOKING_NOT_CONFIRMED.
- **Event-ticket eligibility.** The event-ticket query's status list holds all six ticket statuses, so it filters nothing (`TicketStatusFilterAdmitsAll`). A cancelled or refunded ticket whose payment status is `pending` or `failed` can therefore be paid, and a successful verification then makes it `confirmed`. A ticket cancelled after payment stays `paid` and is not matched.
- **Failed verification.** A verification the gateway reports as failed marks the transaction `failed` and leaves the booking untouched, `payment_status` included. The manual override with `failed`, by contrast, sets `paymentStatus` to `failed`.
- **Cancelling a paid ticket.** Cancelling keeps `payment_status`, so a cancelled ticket can stay `paid`, and for event tickets `paid` does not imply a confirmed status (`CancelKeepsPaid`). For generic bookings it does: every paid generic booking stays `confirmed_paid` under verification and the manual override (`PaidIsConfirmed`, kept by `Verify` and `UpdateStatus`).
- **Malformed gateway response.** A response without `pidx` or `payment_url` raises an error inside the `try`. The `catch` rethrows it as KHALTI_INIT_FAILED with code 500. KHALTI_INVALID_RESPONSE never reaches the caller.
- **Missing booking on verification.** A successful verification completes the transaction even when the booking it refers to no longer exists. No booking is updated in that case.
- **Empty QR code.** `qr_code` is tested for JavaScript truthiness when a payment is confirmed. An empty string is replaced by a new token; a whitespace-only code is kept. The ticket download trims the code instead.

## Model

| member | source | states |
|---|---|---|
| `Model.FindHandle` | Backend/src/modules/payment/payment.service.js:223-234 | a transaction whose handle is the pidx (the first in creation order, where the unordered query leaves the choice open); none exactly when no row has it |
| `Model.LatestFor` | Backend/src/modules/payment/payment.service.js:429-432 | the most recently created transaction of a booking; none exactly when the booking has no transaction |
| `PaymentService.InitFailure` | Backend/src/modules/payment/payment.service.js:178-194 | any unusable gateway reply becomes KHALTI_INIT_FAILED; a malformed body gets code 500 and the fallback message; a transport error gets its non-zero HTTP status, else 500, and the response's truthy message, else "Failed to initialize Khalti payment" (the event-ticket copy is lines 94-108) |
| `PaymentService.OpenTransaction` | Backend/src/modules/payment/payment.service.js:136-209 | exactly one row is appended and created pending; a usable reply attaches its pidx and URL (`Opened`, lines 197-201) and the result returns them with the new row's id; otherwise the row stays pending with no handle |
| `PaymentService.Initiate` | Backend/src/modules/payment/payment.service.js:11-215 | BOOKING_NOT_FOUND exactly when neither query matches (owner, eligible status, payment status `pending`/`failed`), creating nothing; BOOKING_NOT_CONFIRMED exactly for a matched `pending_provider_confirmation` booking, creating nothing; on a gateway failure the new row stays pending and handle-less; on success the row in the matched kind's table stores the returned pidx/URL and the result echoes them; no booking ever changes |
| `PaymentService.TicketStatusFilterAdmitsAll` | Backend/src/modules/payment/payment.service.js:25-32 | the event-ticket query's status filter admits every ticket status: only owner and payment status decide |
| `PaymentService.InitializeKhaltiPayment` | Backend/src/modules/payment/payment.service.js:11-215 | writes only the transaction tables, and leaves the store as `Initiate` gives |
| `PaymentService.Locate` | Backend/src/modules/payment/payment.service.js:222-249 | the regular table is searched first, the event-ticket table only when the regular table lacks the handle; none exactly when neither has it |
| `PaymentService.Settled` | Backend/src/modules/payment/payment.service.js:294-304 | the transaction becomes `completed` (with a completion time) exactly when the gateway status is "Completed", else `failed` with a failure reason; its booking, amount and handle are kept |
| `PaymentService.ConfirmTicket` | Backend/src/modules/payment/payment.service.js:306-319 | a confirmed ticket is `paid` and `confirmed` and has a QR code; an existing truthy `qr_code` is kept and only a missing one gets the fresh token |
| `PaymentService.ConfirmRegular` | Backend/src/modules/payment/payment.service.js:340-349 | a confirmed generic booking is `paid` and `confirmed_paid`, its owner and amount kept |
| `PaymentService.Verify` | Backend/src/modules/payment/payment.service.js:218-358 | TRANSACTION_NOT_FOUND exactly when no table holds the handle; ALREADY_VERIFIED exactly for a completed transaction, whatever the gateway's reply; VERIFICATION_FAILED for a lookup error; in all three nothing changes; otherwise only the located row settles, a failure leaves every booking untouched, a success confirms the row's own booking in its own table, and only if that booking still exists (`ConfirmedBookings`, lines 308-309 and 341-342); truthy QR codes are never replaced, fresh tokens keep QR codes unique, and every paid generic booking stays `confirmed_paid` |
| `PaymentService.VerifyIsIdempotent` | Backend/src/modules/payment/payment.service.js:251-261 | after a successful verification, verifying the same handle again reports ALREADY_VERIFIED with any gateway reply and changes nothing; in particular no second QR code |
| `PaymentService.InitiateThenVerifyTicket` | Backend/src/modules/payment/payment.service.js:222-328 | a payable ticket initiated with a fresh handle and then verified is confirmed exactly when the gateway says "Completed"; otherwise the ticket is left as it was and its transaction is `failed`; no generic booking changes |
| `PaymentService.VerifyKhaltiPayment` | Backend/src/modules/payment/payment.service.js:218-368 | writes bookings and transactions only as `Verify` gives, keeping QR codes unique |
| `PaymentService.DerivedStatuses` | Backend/src/modules/payment/payment.service.js:458-471 | `completed` gives `paid`/`confirmed_paid`; `failed` and `pending` set only the payment status and keep the booking status |
| `PaymentService.Overridden` | Backend/src/modules/payment/payment.service.js:442-456 | the latest transaction takes the given status, a completion time exactly when `completed`, and the given pidx and verification time when supplied |
| `PaymentService.UpdateStatus` | Backend/src/modules/payment/payment.service.js:408-492 | BOOKING_NOT_FOUND exactly when the booking is absent or not the caller's; TRANSACTION_NOT_FOUND exactly when it has no transaction; both change nothing; success exactly when the caller's booking has a transaction, and then only the latest transaction and the booking change, by the derivation rule, so every paid generic booking stays `confirmed_paid` |
| `PaymentService.OverrideAgreesWithVerification` | Backend/src/modules/payment/payment.service.js:462-464 | on `completed`, the override leaves a generic booking in the same state as a successful verification (lines 343-346) |
| `PaymentService.UpdatePaymentStatus` | Backend/src/modules/payment/payment.service.js:408-498 | writes only generic bookings and their transactions, as `UpdateStatus` gives |
| `PaymentService.GetPaymentStatus` | Backend/src/modules/payment/payment.service.js:371-405 | BOOKING_NOT_FOUND exactly when the booking is absent or not the caller's; otherwise its payment status, amount and latest transaction (none exactly when it has none) |
| `TicketController.Resolve` | Backend/src/modules/event_ticket_booking/event_ticket_booking.controller.js:448-469 | the scanned value is a booking id if any booking has that id; only otherwise is it matched against `qr_code` |
| `TicketController.CheckIn` | Backend/src/modules/event_ticket_booking/event_ticket_booking.controller.js:438-537 | no booking (404), no event (404) and another organizer (403) all give the same message and no data; then, in order: unpaid is rejected whatever the status, `attended` gives `alreadyCheckedIn`, `cancelled`/`refunded` are voided, `no_show` cannot check in; success exactly for a paid `pending`/`confirmed` ticket and changes only its status, to `attended`; every rejection changes nothing |
| `TicketController.CheckInTwiceIsNoOp` | Backend/src/modules/event_ticket_booking/event_ticket_booking.controller.js:503-509 | repeating a successful check-in with the same scanned value is rejected as already checked in and changes nothing; the ticket stays `attended` |
| `TicketController.CheckInAttendee` | Backend/src/modules/event_ticket_booking/event_ticket_booking.controller.js:438-546 | writes only the ticket table, as `CheckIn` gives |
| `TicketController.Cancel` | Backend/src/modules/event_ticket_booking/event_ticket_booking.controller.js:409-421 | 404 when the booking is absent or not the caller's; 400 for a `cancelled`/`refunded` ticket; both change nothing; otherwise both `status` and `booking_status` become `cancelled` and nothing else changes |
| `TicketController.CancelTwiceFails` | Backend/src/modules/event_ticket_booking/event_ticket_booking.controller.js:417-420 | a second cancel of a cancelled booking is always rejected and changes nothing |
| `TicketController.CancelKeepsPaid` | Backend/src/modules/event_ticket_booking/event_ticket_booking.controller.js:413-421 | cancelling a paid `confirmed` ticket succeeds and leaves it `cancelled` but still `paid` |
| `TicketController.CancelBooking` | Backend/src/modules/event_ticket_booking/event_ticket_booking.controller.js:409-423 | writes only the ticket table, as `Cancel` gives |
| `TicketController.TicketQrValue` | Backend/src/modules/event_ticket_booking/event_ticket_booking.controller.js:95-102 | a non-blank `qr_code` is used; else the booking id; the value is never blank; there is no value exactly when both are blank |
| `TicketController.DownloadTicketQr` | Backend/src/modules/event_ticket_booking/event_ticket_booking.controller.js:86-102 | 404 exactly for a missing or foreign booking; for the owner's ticket, exactly the `TicketQrValue` rule: the non-blank code, else the non-blank id, else 400 with "No valid QR code data for this ticket." |
| `TicketController.WithStatus` | Backend/src/modules/event_ticket_booking/event_ticket_booking.controller.js:586-590 | every element has the status, every booking of the status is kept, nothing outside the input appears, and it is no longer than the input |
| `TicketController.WithStatusKeepsMultiplicity` | Backend/src/modules/event_ticket_booking/event_ticket_booking.controller.js:586-590 | the filter keeps every occurrence of each booking of the status and drops every other booking (as multisets) |
| `TicketController.StatusCountsPartition` | Backend/src/modules/event_ticket_booking/event_ticket_booking.controller.js:584-591 | the six per-status counts add up to the number of bookings |
| `TicketController.BookingAnalytics` | Backend/src/modules/event_ticket_booking/event_ticket_booking.controller.js:579-594 | each field counts the bookings of its own status and is at most the total; the five counted statuses sum to the total less the pending bookings, so at most the total |
| `TicketController.QueryInt` | Backend/src/modules/event_ticket_booking/event_ticket_booking.controller.js:552-553 | `NaN` and 0 fall back to the default, so page and limit are never 0 |
| `TicketController.CeilDiv` | Backend/src/modules/event_ticket_booking/event_ticket_booking.controller.js:572 | `Math.ceil(count / limit)`: for a positive limit the least page count whose pages hold all results, and the matching bound for a negative limit |
| `TicketController.EventBookingPage` | Backend/src/modules/event_ticket_booking/event_ticket_booking.controller.js:549-575 | page and limit are the parsed query values, falling back to 1 and 20 when falsy; `offset = (page-1)*limit`; `totalPages` is `Math.ceil(count / limit)`, so with a positive limit `totalPages` pages of `limit` cover `count` and one fewer do not; defaults give offset 0 and limit 20 |
| `TicketController.PageStartsInResults` | Backend/src/modules/event_ticket_booking/event_ticket_booking.controller.js:554-572 | with a positive limit, page `p >= 1` starts inside the results exactly when `p <= totalPages` |

## Left out

- The Khalti HTTP calls are left out: URLs, headers, the secret key, and the request body (return and website URLs, purchase order name, customer info from `User.findByPk`, and the `Math.round(total * 100)` amount conversion). The gateway's answer is an input instead. Amounts are integers.
- The raw gateway response is not stored. The model has no `khalti_response`/`khaltiResponse` field, and no `payment_method` on transactions.
- Logging is left out, and so is the debugging lookup in the not-found path of initiation, which changes nothing.
- The catch-all exception paths are left out: VERIFICATION_ERROR, check-in's 500 reply, and `next(err)`. They fire only on ORM or runtime exceptions, and the model has none.
- Timestamps are the parameter `now`. `createdAt` ordering is the row's position in its table.
- `uuidv4()` is the parameter `token`, assumed fresh.
- UpdatePaymentStatus: `updateData.status` is limited to `pending`, `completed` and `failed`. The transaction model that would reject other strings is not part of this model.
- CheckIn: the event's organizer is one field. The source's `organizer_id || organizerId` fallback between two column names is not modelled.
- TicketQrValue: `qr_code` is `null` or a string. The `typeof` test for other types is not modelled.
- The PDF layout and QR image rendering of `downloadTicket` are left out.
- EventBookingPage: only the paging arithmetic is modelled. The query that applies offset and limit is not, and `parseInt`'s result is an input (`None` for `NaN`).
- BookingAnalytics: the event's bookings, as the query returns them, are an input.
- GetPaymentStatus: the latest transaction is the one `createdAt DESC, limit 1` names. How the ORM treats `order`/`limit` inside an `include` is not modelled.
- FindHandle: the transaction lookup by `pidx` has no `order`, so with duplicate handles the database may return any matching row; the model returns the first in creation order. Handles are not required to be unique, since neither the gateway's `pidx` nor the override's `pidx` is checked against existing rows.
- EventBookingPage: page, limit and offset are unbounded integers. In the source they are JavaScript numbers, exact only below 2^53.
- Concurrency is out of scope, including two verifications of one handle racing past the idempotency check.
- Handlers outside this core are left out: `bookTickets`, `verifyPayment` and `processPayment` only forward to a booking service that is not part of this model. Also left out: `getQRCode`, `getMyBookings`, `getEventBookings`, `getBooking`, `getOrganizerBookings`, `getAvailableEvents`, `searchEvents`, `applyDiscountCode` and `getPaymentHistory`.
