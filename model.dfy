/** Rows and tables shared by the payment service and the event-ticket controller.

    A generic service booking lives in the `Booking` table, an event ticket in the
    `EventTicketBooking` table; each has its own payment-transaction table. Booking
    tables are keyed by booking id. Transaction tables are kept in creation order,
    and a transaction's id is its position in its own table. */
module Model {

  datatype Option<T> = None | Some(value: T)

  /** Booking ids, user ids, event ids and gateway handles are opaque strings. */
  type Id = string

  /** A timestamp; the model never reads a clock, callers pass `now` in. */
  type Time = int

  /** `status` of a generic service booking. */
  datatype BookingStatus =
    | Pending
    | PendingProviderConfirmation
    | ConfirmedAwaitingPayment
    | Confirmed
    | ConfirmedPaid
    | Attended
    | Cancelled
    | NoShow
    | Refunded

  /** `status` (and `booking_status`) of an event-ticket booking. */
  datatype TicketStatus = Pending | Confirmed | Cancelled | Attended | NoShow | Refunded

  /** `paymentStatus` / `payment_status` of either kind of booking. */
  datatype PaymentStatus = Pending | Paid | Failed

  /** `status` of a payment transaction. */
  datatype TxnStatus = Pending | Completed | Failed

  datatype ServiceBooking = ServiceBooking(
    clientId: Id,
    totalAmount: int,
    status: BookingStatus,
    paymentStatus: PaymentStatus)

  datatype TicketBooking = TicketBooking(
    userId: Id,
    eventId: Id,
    totalAmount: int,
    status: TicketStatus,
    bookingStatus: TicketStatus,
    paymentStatus: PaymentStatus,
    qrCode: Option<string>,
    paymentDate: Option<Time>,
    paymentMethod: Option<string>)

  /** A payment transaction; `handle` is the gateway's `pidx`. */
  datatype Transaction = Transaction(
    bookingId: Id,
    amount: int,
    status: TxnStatus,
    handle: Option<string>,
    paymentUrl: Option<string>,
    completedAt: Option<Time>,
    failureReason: Option<string>,
    verifiedAt: Option<Time>)

  datatype Event = Event(organizerId: Id)

  /** A snapshot of every table the core reads or writes. */
  datatype Db = Db(
    bookings: map<Id, ServiceBooking>,
    tickets: map<Id, TicketBooking>,
    payments: seq<Transaction>,
    ticketPayments: seq<Transaction>,
    events: map<Id, Event>)

  /** JavaScript truthiness of an optional string: null, undefined and "" are falsy. */
  predicate Present(s: Option<string>) {
    s.Some? && s.value != ""
  }

  /** No two event-ticket bookings carry the same `qr_code`. */
  ghost predicate QrUnique(tickets: map<Id, TicketBooking>) {
    forall a, b :: a in tickets && b in tickets && tickets[a].qrCode.Some? && tickets[a].qrCode == tickets[b].qrCode ==> a == b
  }

  /** `token` is not the `qr_code` of any event-ticket booking (what a fresh UUID guarantees). */
  predicate FreshToken(tickets: map<Id, TicketBooking>, token: string) {
    forall k :: k in tickets ==> tickets[k].qrCode != Some(token)
  }

  /** The row `create` inserts when a payment is initiated: pending, with no gateway handle yet. */
  function NewTransaction(bookingId: Id, amount: int): Transaction {
    Transaction(bookingId, amount, TxnStatus.Pending, None, None, None, None, None)
  }

  /** `findOne({ where: { khaltiTransactionId: h } })`: a row whose handle is `h`. The query has
      no `order`, so when several rows share a handle the database may return any of them; the
      model resolves that choice to the first row in creation order. */
  function FindHandle(ts: seq<Transaction>, h: string): (r: Option<nat>)
    ensures r.Some? ==> r.value < |ts| && ts[r.value].handle == Some(h)
    ensures r.Some? ==> forall j :: 0 <= j < r.value ==> ts[j].handle != Some(h)
    ensures r.None? <==> forall j :: 0 <= j < |ts| ==> ts[j].handle != Some(h)
  {
    if |ts| == 0 then None
    else if ts[0].handle == Some(h) then Some(0)
    else
      match FindHandle(ts[1..], h)
      case None =>
        assert forall j :: 1 <= j < |ts| ==> ts[j] == ts[1..][j - 1];
        None
      case Some(i) =>
        assert forall j :: 1 <= j < i + 1 ==> ts[j] == ts[1..][j - 1];
        Some(i + 1)
  }

  /** `findOne({ where: { bookingId }, order: [['createdAt', 'DESC']] })`: the most recently created row of a booking. */
  function LatestFor(ts: seq<Transaction>, bookingId: Id): (r: Option<nat>)
    ensures r.Some? ==> r.value < |ts| && ts[r.value].bookingId == bookingId
    ensures r.Some? ==> forall j :: r.value < j < |ts| ==> ts[j].bookingId != bookingId
    ensures r.None? <==> forall j :: 0 <= j < |ts| ==> ts[j].bookingId != bookingId
  {
    if |ts| == 0 then None
    else if ts[|ts| - 1].bookingId == bookingId then Some(|ts| - 1)
    else LatestFor(ts[..|ts| - 1], bookingId)
  }

  /** Replacing a row by one with the same handle leaves every handle lookup as it was. */
  lemma FindHandleKeptByUpdate(ts: seq<Transaction>, i: nat, t: Transaction, h: string)
    requires i < |ts| && t.handle == ts[i].handle
    ensures FindHandle(ts[i := t], h) == FindHandle(ts, h)
  {
    var ts' := ts[i := t];
    assert forall j :: 0 <= j < |ts| ==> ts'[j].handle == ts[j].handle;
  }
}
