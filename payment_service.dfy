/** The payment service: initiating a Khalti payment for a booking, verifying it with
    the gateway's lookup, the manual status override, and the payment-status query.

    The Khalti gateway is an oracle: what its initiate or lookup endpoint answered is
    passed in as `InitReply` / `LookupReply`. Each operation is a function over a
    snapshot `Db` whose `ensures` state what the operation promises, and a method over
    the mutable `Store` that performs the same steps in the source's order and is
    proved to end in the state the function gives. */
module PaymentService {
  import opened Model
  import opened Tables

  /** The `status` codes of the errors the service throws. */
  datatype ErrorKind = BookingNotFound | BookingNotConfirmed | KhaltiInitFailed | TransactionNotFound

  /** A thrown `{ code, message, status }` object. */
  datatype Failure = Failure(code: nat, kind: ErrorKind, message: string)

  datatype Result<T> = Ok(value: T) | Err(error: Failure)

  /** Which booking table (and so which transaction table) an operation used. */
  datatype BookingKind = Regular | EventTicket

  /** What the initiate endpoint produced: a response body, or an HTTP/transport error. */
  datatype InitReply =
    | InitReply(pidx: Option<string>, paymentUrl: Option<string>)
    | InitTransportError(httpStatus: Option<nat>, message: Option<string>)

  /** What the lookup endpoint produced: a response body, or an HTTP/transport error. */
  datatype LookupReply =
    | LookupReply(status: string, message: Option<string>)
    | LookupTransportError

  /** A successful initiation: `{ success: true, paymentUrl, pidx, transactionId }`. The `kind`
      field is the model's own bookkeeping: which booking table matched, and so which transaction
      table `transactionId` indexes; the source's reply does not carry it. */
  datatype Initiated = Initiated(paymentUrl: string, pidx: string, transactionId: nat, kind: BookingKind)

  /** The result object of a verification. */
  datatype VerifyResult =
    | NoTransaction                                       // TRANSACTION_NOT_FOUND
    | AlreadyVerified(transaction: Transaction)           // ALREADY_VERIFIED
    | VerificationFailed                                  // VERIFICATION_FAILED
    | Verified(success: bool, transaction: Transaction, kind: BookingKind)
  {
    /** The `success` field of the result object. */
    predicate Succeeded() {
      AlreadyVerified? || (Verified? && success)
    }
  }

  /** The manual update's input: `{ status, pidx, verified_at }`. */
  datatype StatusUpdate = StatusUpdate(status: TxnStatus, pidx: Option<string>, verifiedAt: Option<Time>)

  /** The manual update's result: `{ success: true, bookingId, paymentStatus, bookingStatus, transactionStatus }`. */
  datatype StatusUpdated = StatusUpdated(
    bookingId: Id, paymentStatus: PaymentStatus, bookingStatus: BookingStatus, transactionStatus: TxnStatus)

  /** `getPaymentStatus`'s result. */
  datatype PaymentStatusView = PaymentStatusView(
    bookingId: Id, paymentStatus: PaymentStatus, totalAmount: int, latestTransaction: Option<Transaction>)

  /** The gateway's status string for a completed payment. */
  const KhaltiCompleted := "Completed"

  // ---------------------------------------------------------------------------
  // Initiation

  /** Generic booking statuses the initiation query accepts. */
  const RegularPayable: set<BookingStatus> :=
    {BookingStatus.PendingProviderConfirmation, BookingStatus.ConfirmedAwaitingPayment, BookingStatus.ConfirmedPaid}

  /** Event-ticket statuses the initiation query accepts. */
  const TicketPayable: set<TicketStatus> :=
    {TicketStatus.Pending, TicketStatus.Confirmed, TicketStatus.Cancelled,
     TicketStatus.Attended, TicketStatus.NoShow, TicketStatus.Refunded}

  predicate AwaitsPayment(ps: PaymentStatus) {
    ps == PaymentStatus.Pending || ps == PaymentStatus.Failed
  }

  /** The first initiation query (generic `Booking`) matches. */
  predicate RegularMatches(bookings: map<Id, ServiceBooking>, bookingId: Id, userId: Id) {
    && bookingId in bookings
    && bookings[bookingId].clientId == userId
    && bookings[bookingId].status in RegularPayable
    && AwaitsPayment(bookings[bookingId].paymentStatus)
  }

  /** The second initiation query (`EventTicketBooking`) matches. */
  predicate TicketMatches(tickets: map<Id, TicketBooking>, bookingId: Id, userId: Id) {
    && bookingId in tickets
    && tickets[bookingId].userId == userId
    && tickets[bookingId].status in TicketPayable
    && AwaitsPayment(tickets[bookingId].paymentStatus)
  }

  /** The response carries a truthy `pidx` and a truthy `payment_url`. */
  predicate UsableInitReply(reply: InitReply) {
    reply.InitReply? && Present(reply.pidx) && Present(reply.paymentUrl)
  }

  /** The error a failed gateway call is rethrown as. A response without `pidx` or
      `payment_url` raises an error inside the `try`, which the `catch` turns into
      KHALTI_INIT_FAILED with code 500, since that error has no HTTP response. */
  function InitFailure(reply: InitReply): (f: Failure)
    requires !UsableInitReply(reply)
    ensures f.kind == KhaltiInitFailed && f.code != 0
    ensures reply.InitReply? ==> f.code == 500 && f.message == "Failed to initialize Khalti payment"
    // `axiosError.response?.status || 500` and `response?.data?.message || "Failed to initialize Khalti payment"`.
    ensures reply.InitTransportError? ==>
              f.code == (if reply.httpStatus.Some? && reply.httpStatus.value != 0 then reply.httpStatus.value else 500)
    ensures reply.InitTransportError? ==>
              f.message == (if Present(reply.message) then reply.message.value else "Failed to initialize Khalti payment")
  {
    var fallback := "Failed to initialize Khalti payment";
    match reply
    case InitReply(_, _) => Failure(500, KhaltiInitFailed, fallback)
    case InitTransportError(status, message) =>
      Failure(if status.Some? && status.value != 0 then status.value else 500,
              KhaltiInitFailed,
              if Present(message) then message.value else fallback)
  }

  function Table(db: Db, kind: BookingKind): seq<Transaction> {
    if kind == Regular then db.payments else db.ticketPayments
  }

  function WithTable(db: Db, kind: BookingKind, ts: seq<Transaction>): Db {
    if kind == Regular then db.(payments := ts) else db.(ticketPayments := ts)
  }

  function Other(kind: BookingKind): BookingKind {
    if kind == Regular then EventTicket else Regular
  }

  /** The transaction row after a successful initiation: the new row with the gateway's handle and URL. */
  function Opened(bookingId: Id, amount: int, reply: InitReply): Transaction
    requires UsableInitReply(reply)
  {
    NewTransaction(bookingId, amount).(handle := reply.pidx, paymentUrl := reply.paymentUrl)
  }

  /** Create the pending row, call the gateway, attach its handle: the part both booking kinds share. */
  function OpenTransaction(ts: seq<Transaction>, bookingId: Id, amount: int, reply: InitReply, kind: BookingKind)
    : (r: (seq<Transaction>, Result<Initiated>))
    ensures |r.0| == |ts| + 1 && r.0[..|ts|] == ts
    ensures r.1.Ok? <==> UsableInitReply(reply)
    ensures r.1.Err? ==> r.0[|ts|] == NewTransaction(bookingId, amount) && r.1.error == InitFailure(reply)
    ensures r.1.Ok? ==> r.0[|ts|] == Opened(bookingId, amount, reply)
    ensures r.1.Ok? ==> r.1.value == Initiated(reply.paymentUrl.value, reply.pidx.value, |ts|, kind)
  {
    if UsableInitReply(reply) then
      (ts + [Opened(bookingId, amount, reply)], Ok(Initiated(reply.paymentUrl.value, reply.pidx.value, |ts|, kind)))
    else
      (ts + [NewTransaction(bookingId, amount)], Err(InitFailure(reply)))
  }

  /** `initializeKhaltiPayment(bookingId, userId)`. */
  function Initiate(db: Db, bookingId: Id, userId: Id, reply: InitReply): (r: (Db, Result<Initiated>))
    // Initiation never touches a booking.
    ensures r.0.bookings == db.bookings && r.0.tickets == db.tickets && r.0.events == db.events
    // BOOKING_NOT_FOUND exactly when neither query matches; then nothing is created.
    ensures (r.1.Err? && r.1.error.kind == BookingNotFound)
            <==> !RegularMatches(db.bookings, bookingId, userId) && !TicketMatches(db.tickets, bookingId, userId)
    ensures r.1.Err? && r.1.error.kind == BookingNotFound ==> r.0 == db && r.1.error.code == 404
    // BOOKING_NOT_CONFIRMED for a matched generic booking still awaiting its provider; nothing is created.
    ensures (r.1.Err? && r.1.error.kind == BookingNotConfirmed)
            <==> RegularMatches(db.bookings, bookingId, userId)
                 && db.bookings[bookingId].status == BookingStatus.PendingProviderConfirmation
    ensures r.1.Err? && r.1.error.kind == BookingNotConfirmed ==> r.0 == db && r.1.error.code == 400
    // A gateway failure leaves the freshly created row pending and without a handle.
    ensures r.1.Err? && r.1.error.kind == KhaltiInitFailed ==>
              !UsableInitReply(reply) && r.1.error == InitFailure(reply)
              && var kind := if RegularMatches(db.bookings, bookingId, userId) then Regular else EventTicket;
                 var amount := if kind == Regular then db.bookings[bookingId].totalAmount else db.tickets[bookingId].totalAmount;
                 && Table(r.0, kind) == Table(db, kind) + [NewTransaction(bookingId, amount)]
                 && Table(r.0, Other(kind)) == Table(db, Other(kind))
    ensures r.1.Err? ==> r.1.error.kind != TransactionNotFound
    // Success: the booking the generic query found (else the event query), and a usable gateway reply.
    ensures r.1.Ok? <==>
              || (RegularMatches(db.bookings, bookingId, userId)
                  && db.bookings[bookingId].status != BookingStatus.PendingProviderConfirmation
                  && UsableInitReply(reply))
              || (!RegularMatches(db.bookings, bookingId, userId)
                  && TicketMatches(db.tickets, bookingId, userId)
                  && UsableInitReply(reply))
    ensures r.1.Ok? ==>
              var kind := r.1.value.kind;
              && kind == (if RegularMatches(db.bookings, bookingId, userId) then Regular else EventTicket)
              && r.1.value.pidx == reply.pidx.value
              && r.1.value.paymentUrl == reply.paymentUrl.value
              && r.1.value.transactionId == |Table(db, kind)|
              && var amount := if kind == Regular then db.bookings[bookingId].totalAmount else db.tickets[bookingId].totalAmount;
                 && Table(r.0, kind) == Table(db, kind) + [Opened(bookingId, amount, reply)]
                 && Table(r.0, kind)[r.1.value.transactionId].handle == Some(r.1.value.pidx)
                 && Table(r.0, kind)[r.1.value.transactionId].paymentUrl == Some(r.1.value.paymentUrl)
                 && Table(r.0, Other(kind)) == Table(db, Other(kind))
  {
    if RegularMatches(db.bookings, bookingId, userId) then
      var b := db.bookings[bookingId];
      if b.status == BookingStatus.PendingProviderConfirmation then
        (db, Err(Failure(400, BookingNotConfirmed, "Booking must be confirmed by provider before payment can be processed")))
      else
        var (ts, res) := OpenTransaction(db.payments, bookingId, b.totalAmount, reply, Regular);
        (db.(payments := ts), res)
    else if TicketMatches(db.tickets, bookingId, userId) then
      var (ts, res) := OpenTransaction(db.ticketPayments, bookingId, db.tickets[bookingId].totalAmount, reply, EventTicket);
      (db.(ticketPayments := ts), res)
    else
      (db, Err(Failure(404, BookingNotFound, "Booking not found or payment already processed")))
  }

  /** The event-ticket query's status filter lists every ticket status, so it filters nothing:
      ownership and the payment status alone decide whether a ticket is payable. */
  lemma TicketStatusFilterAdmitsAll(tickets: map<Id, TicketBooking>, bookingId: Id, userId: Id)
    ensures TicketMatches(tickets, bookingId, userId)
            <==> bookingId in tickets && tickets[bookingId].userId == userId
                 && AwaitsPayment(tickets[bookingId].paymentStatus)
  {
    if bookingId in tickets {
      match tickets[bookingId].status
      case Pending => case Confirmed => case Cancelled =>
      case Attended => case NoShow => case Refunded =>
    }
  }

  method InitializeKhaltiPayment(db: Store, bookingId: Id, userId: Id, reply: InitReply) returns (r: Result<Initiated>)
    requires db.Valid()
    modifies db`payments, db`ticketPayments
    ensures db.Valid()
    ensures (db.Snapshot(), r) == Initiate(old(db.Snapshot()), bookingId, userId, reply)
  {
    if !RegularMatches(db.bookings, bookingId, userId) {
      if !TicketMatches(db.tickets, bookingId, userId) {
        return Err(Failure(404, BookingNotFound, "Booking not found or payment already processed"));
      }
      var booking := db.tickets[bookingId];
      var id := |db.ticketPayments|;
      db.ticketPayments := db.ticketPayments + [NewTransaction(bookingId, booking.totalAmount)];
      if !UsableInitReply(reply) {
        return Err(InitFailure(reply));
      }
      db.ticketPayments := db.ticketPayments[id := db.ticketPayments[id].(handle := reply.pidx, paymentUrl := reply.paymentUrl)];
      assert db.ticketPayments == old(db.ticketPayments) + [Opened(bookingId, booking.totalAmount, reply)];
      return Ok(Initiated(reply.paymentUrl.value, reply.pidx.value, id, EventTicket));
    }
    var booking := db.bookings[bookingId];
    if booking.status == BookingStatus.PendingProviderConfirmation {
      return Err(Failure(400, BookingNotConfirmed, "Booking must be confirmed by provider before payment can be processed"));
    }
    var id := |db.payments|;
    db.payments := db.payments + [NewTransaction(bookingId, booking.totalAmount)];
    if !UsableInitReply(reply) {
      return Err(InitFailure(reply));
    }
    db.payments := db.payments[id := db.payments[id].(handle := reply.pidx, paymentUrl := reply.paymentUrl)];
    assert db.payments == old(db.payments) + [Opened(bookingId, booking.totalAmount, reply)];
    r := Ok(Initiated(reply.paymentUrl.value, reply.pidx.value, id, Regular));
  }

  // ---------------------------------------------------------------------------
  // Verification

  /** Where a handle is found: the regular table first, the event-ticket table second. */
  function Locate(db: Db, pidx: string): (r: Option<(BookingKind, nat)>)
    ensures r.Some? ==> r.value.1 < |Table(db, r.value.0)| && Table(db, r.value.0)[r.value.1].handle == Some(pidx)
    ensures r.Some? ==> forall j :: 0 <= j < r.value.1 ==> Table(db, r.value.0)[j].handle != Some(pidx)
    ensures (r.Some? && r.value.0 == Regular) <==> exists j :: 0 <= j < |db.payments| && db.payments[j].handle == Some(pidx)
    ensures r.None? <==>
              && (forall j :: 0 <= j < |db.payments| ==> db.payments[j].handle != Some(pidx))
              && (forall j :: 0 <= j < |db.ticketPayments| ==> db.ticketPayments[j].handle != Some(pidx))
  {
    match FindHandle(db.payments, pidx)
    case Some(i) => Some((Regular, i))
    case None =>
      match FindHandle(db.ticketPayments, pidx)
      case Some(i) => Some((EventTicket, i))
      case None => None
  }

  /** The transaction after the gateway's verdict: `completed` with a completion time when the
      gateway said "Completed", otherwise `failed` with the gateway's message as the reason. */
  function Settled(t: Transaction, reply: LookupReply, now: Time): (t': Transaction)
    requires reply.LookupReply?
    ensures t'.status == TxnStatus.Completed <==> reply.status == KhaltiCompleted
    ensures t'.status == TxnStatus.Failed <==> reply.status != KhaltiCompleted
    ensures t'.completedAt.Some? <==> reply.status == KhaltiCompleted
    ensures t'.failureReason.Some? <==> reply.status != KhaltiCompleted
    ensures t'.bookingId == t.bookingId && t'.amount == t.amount && t'.handle == t.handle
            && t'.paymentUrl == t.paymentUrl && t'.verifiedAt == t.verifiedAt
  {
    var ok := reply.status == KhaltiCompleted;
    t.(status := if ok then TxnStatus.Completed else TxnStatus.Failed,
       completedAt := if ok then Some(now) else None,
       failureReason := if ok then None else Some(if Present(reply.message) then reply.message.value else "Payment failed"))
  }

  /** An event ticket after its payment is confirmed: paid, confirmed, and holding a QR code;
      an existing (truthy) `qr_code` is kept, only a missing one is replaced by `token`. */
  function ConfirmTicket(b: TicketBooking, now: Time, token: string): (b': TicketBooking)
    ensures b'.paymentStatus == PaymentStatus.Paid && b'.status == TicketStatus.Confirmed
    ensures b'.qrCode.Some?
    ensures Present(b.qrCode) ==> b'.qrCode == b.qrCode
    ensures !Present(b.qrCode) ==> b'.qrCode == Some(token)
    ensures b'.userId == b.userId && b'.eventId == b.eventId && b'.totalAmount == b.totalAmount
            && b'.bookingStatus == b.bookingStatus
  {
    b.(paymentStatus := PaymentStatus.Paid,
       status := TicketStatus.Confirmed,
       qrCode := if Present(b.qrCode) then b.qrCode else Some(token),
       paymentDate := Some(now),
       paymentMethod := Some("khalti"))
  }

  /** A generic booking after its payment is confirmed. */
  function ConfirmRegular(b: ServiceBooking): (b': ServiceBooking)
    ensures b'.paymentStatus == PaymentStatus.Paid && b'.status == BookingStatus.ConfirmedPaid
    ensures b'.clientId == b.clientId && b'.totalAmount == b.totalAmount
  {
    b.(paymentStatus := PaymentStatus.Paid, status := BookingStatus.ConfirmedPaid)
  }

  /** The bookings after a verdict: only a success confirms the booking the transaction refers
      to, and only if that booking still exists. */
  function ConfirmedBookings(db: Db, kind: BookingKind, bookingId: Id, ok: bool, now: Time, token: string): Db {
    if !ok then db
    else if kind == EventTicket then
      if bookingId in db.tickets then db.(tickets := db.tickets[bookingId := ConfirmTicket(db.tickets[bookingId], now, token)])
      else db
    else
      if bookingId in db.bookings then db.(bookings := db.bookings[bookingId := ConfirmRegular(db.bookings[bookingId])])
      else db
  }

  /** Every paid generic booking is `confirmed_paid`: the only assignments of `paid` to a generic
      booking (a successful verification, an override with `completed`) also set `confirmed_paid`. */
  predicate PaidIsConfirmed(bookings: map<Id, ServiceBooking>) {
    forall k :: k in bookings && bookings[k].paymentStatus == PaymentStatus.Paid ==>
      bookings[k].status == BookingStatus.ConfirmedPaid
  }

  /** `verifyKhaltiPayment(pidx)`; `token` stands for the `uuidv4()` a new QR code would get. */
  function Verify(db: Db, pidx: string, reply: LookupReply, now: Time, token: string): (r: (Db, VerifyResult))
    ensures r.0.events == db.events
    // TRANSACTION_NOT_FOUND exactly when neither table holds the handle; nothing changes.
    ensures r.1.NoTransaction? <==> Locate(db, pidx).None?
    // Idempotency: an already completed transaction is reported as such; the gateway's reply is
    // not consulted and nothing changes.
    ensures r.1.AlreadyVerified? <==>
              Locate(db, pidx).Some? && Table(db, Locate(db, pidx).value.0)[Locate(db, pidx).value.1].status == TxnStatus.Completed
    ensures r.1.AlreadyVerified? ==>
              r.1.transaction == Table(db, Locate(db, pidx).value.0)[Locate(db, pidx).value.1]
    // A failed lookup call changes nothing either.
    ensures r.1.VerificationFailed? <==>
              Locate(db, pidx).Some? && !Table(db, Locate(db, pidx).value.0)[Locate(db, pidx).value.1].status.Completed?
              && reply.LookupTransportError?
    ensures !r.1.Verified? ==> r.0 == db
    // Otherwise the located row, and only it, is settled by the gateway's status.
    ensures r.1.Verified? ==>
              var (kind, i) := Locate(db, pidx).value;
              && reply.LookupReply?
              && r.1.kind == kind
              && r.1.transaction == Settled(Table(db, kind)[i], reply, now)
              && Table(r.0, kind) == Table(db, kind)[i := r.1.transaction]
              && Table(r.0, Other(kind)) == Table(db, Other(kind))
              && (r.1.success <==> reply.status == KhaltiCompleted)
              && (r.1.transaction.status == TxnStatus.Completed <==> reply.status == KhaltiCompleted)
              && (r.1.transaction.status == TxnStatus.Failed <==> reply.status != KhaltiCompleted)
    // A reported failure leaves every booking untouched.
    ensures r.1.Verified? && !r.1.success ==> r.0.bookings == db.bookings && r.0.tickets == db.tickets
    // A success confirms the transaction's own booking, in its own table, and no other.
    ensures r.1.Verified? && r.1.success && r.1.kind == EventTicket ==>
              var id := r.1.transaction.bookingId;
              && r.0.bookings == db.bookings
              && r.0.tickets == (if id in db.tickets then db.tickets[id := ConfirmTicket(db.tickets[id], now, token)] else db.tickets)
    ensures r.1.Verified? && r.1.success && r.1.kind == Regular ==>
              var id := r.1.transaction.bookingId;
              && r.0.tickets == db.tickets
              && r.0.bookings == (if id in db.bookings then db.bookings[id := ConfirmRegular(db.bookings[id])] else db.bookings)
    // A truthy QR code is never replaced, and fresh tokens keep QR codes unique.
    ensures forall k :: k in db.tickets && Present(db.tickets[k].qrCode) ==>
              k in r.0.tickets && r.0.tickets[k].qrCode == db.tickets[k].qrCode
    ensures QrUnique(db.tickets) && FreshToken(db.tickets, token) ==> QrUnique(r.0.tickets)
    // Verification keeps "paid implies confirmed_paid" for generic bookings.
    ensures PaidIsConfirmed(db.bookings) ==> PaidIsConfirmed(r.0.bookings)
  {
    match Locate(db, pidx)
    case None => (db, NoTransaction)
    case Some((kind, i)) =>
      var t := Table(db, kind)[i];
      if t.status == TxnStatus.Completed then (db, AlreadyVerified(t))
      else if reply.LookupTransportError? then (db, VerificationFailed)
      else
        var t' := Settled(t, reply, now);
        var ok := reply.status == KhaltiCompleted;
        (ConfirmedBookings(WithTable(db, kind, Table(db, kind)[i := t']), kind, t.bookingId, ok, now, token),
         Verified(ok, t', kind))
  }

  /** A second verification of a handle whose first verification succeeded reports
      ALREADY_VERIFIED, whatever the gateway would say, and changes nothing: no second QR code. */
  lemma VerifyIsIdempotent(db: Db, pidx: string, reply1: LookupReply, reply2: LookupReply,
                           now1: Time, now2: Time, token1: string, token2: string)
    requires Verify(db, pidx, reply1, now1, token1).1.Succeeded()
    ensures var (db1, r1) := Verify(db, pidx, reply1, now1, token1);
            Verify(db1, pidx, reply2, now2, token2) == (db1, AlreadyVerified(r1.transaction))
  {
    var (db1, r1) := Verify(db, pidx, reply1, now1, token1);
    if r1.Verified? {
      var (kind, i) := Locate(db, pidx).value;
      FindHandleKeptByUpdate(Table(db, kind), i, r1.transaction, pidx);
      assert Table(db1, kind) == Table(db, kind)[i := r1.transaction];
      assert Table(db1, Other(kind)) == Table(db, Other(kind));
      if kind == Regular {
        assert db1.payments == Table(db1, kind);
        assert FindHandle(db1.payments, pidx) == Some(i);
      } else {
        assert db1.payments == db.payments && db1.ticketPayments == Table(db1, kind);
      }
      assert Locate(db1, pidx) == Some((kind, i));
    }
  }

  /** An event ticket awaiting payment, initiated with a fresh handle and then verified: the
      transaction settles by the gateway's status; "Completed" confirms the ticket (paid,
      confirmed, with a QR code), anything else leaves it as it was. */
  lemma InitiateThenVerifyTicket(db: Db, bookingId: Id, userId: Id, reply: InitReply,
                                 status: string, message: Option<string>, now: Time, token: string)
    requires !RegularMatches(db.bookings, bookingId, userId) && TicketMatches(db.tickets, bookingId, userId)
    requires UsableInitReply(reply)
    requires forall j :: 0 <= j < |db.payments| ==> db.payments[j].handle != reply.pidx
    requires forall j :: 0 <= j < |db.ticketPayments| ==> db.ticketPayments[j].handle != reply.pidx
    ensures var (db1, r1) := Initiate(db, bookingId, userId, reply);
            var (db2, r2) := Verify(db1, reply.pidx.value, LookupReply(status, message), now, token);
            && r1.Ok? && r1.value.kind == EventTicket
            && r2.Verified? && r2.kind == EventTicket && (r2.success <==> status == KhaltiCompleted)
            && (db2.ticketPayments[r1.value.transactionId].status == TxnStatus.Completed <==> status == KhaltiCompleted)
            && (status != KhaltiCompleted ==> db2.ticketPayments[r1.value.transactionId].status == TxnStatus.Failed)
            && db2.bookings == db.bookings
            && (status == KhaltiCompleted ==> db2.tickets == db.tickets[bookingId := ConfirmTicket(db.tickets[bookingId], now, token)])
            && (status != KhaltiCompleted ==> db2.tickets == db.tickets)
  {
  }

  method VerifyKhaltiPayment(db: Store, pidx: string, reply: LookupReply, now: Time, token: string)
    returns (r: VerifyResult)
    requires db.Valid()
    requires FreshToken(db.tickets, token)
    modifies db`payments, db`ticketPayments, db`bookings, db`tickets
    ensures db.Valid()
    ensures (db.Snapshot(), r) == Verify(old(db.Snapshot()), pidx, reply, now, token)
  {
    ghost var before := db.Snapshot();
    var kind := Regular;
    var found := FindHandle(db.payments, pidx);
    if found.None? {
      found := FindHandle(db.ticketPayments, pidx);
      if found.None? {
        return NoTransaction;
      }
      kind := EventTicket;
    }
    var i := found.value;
    var t := if kind == Regular then db.payments[i] else db.ticketPayments[i];
    if t.status == TxnStatus.Completed {
      return AlreadyVerified(t);
    }
    if reply.LookupTransportError? {
      return VerificationFailed;
    }
    var ok := reply.status == KhaltiCompleted;
    var t' := Settled(t, reply, now);
    if kind == EventTicket {
      db.ticketPayments := db.ticketPayments[i := t'];
      if ok && t.bookingId in db.tickets {
        db.tickets := db.tickets[t.bookingId := ConfirmTicket(db.tickets[t.bookingId], now, token)];
      }
    } else {
      db.payments := db.payments[i := t'];
      if ok && t.bookingId in db.bookings {
        db.bookings := db.bookings[t.bookingId := ConfirmRegular(db.bookings[t.bookingId])];
      }
    }
    r := Verified(ok, t', kind);
    assert (db.Snapshot(), r) == Verify(before, pidx, reply, now, token);
  }

  // ---------------------------------------------------------------------------
  // Manual status override

  /** The booking's new `(paymentStatus, status)` for a transaction status: `completed` confirms
      and marks paid; `failed` and `pending` set only the payment status. */
  function DerivedStatuses(b: ServiceBooking, s: TxnStatus): (r: (PaymentStatus, BookingStatus))
    ensures r.0 == PaymentStatus.Paid <==> s == TxnStatus.Completed
    ensures r.0 == PaymentStatus.Failed <==> s == TxnStatus.Failed
    ensures r.0 == PaymentStatus.Pending <==> s == TxnStatus.Pending
    ensures s == TxnStatus.Completed ==> r.1 == BookingStatus.ConfirmedPaid
    ensures s != TxnStatus.Completed ==> r.1 == b.status
  {
    match s
    case Completed => (PaymentStatus.Paid, BookingStatus.ConfirmedPaid)
    case Failed => (PaymentStatus.Failed, b.status)
    case Pending => (PaymentStatus.Pending, b.status)
  }

  /** The latest transaction after the override: the given status, a completion time only when
      completed, the given (truthy) handle and verification time when supplied. */
  function Overridden(t: Transaction, u: StatusUpdate, now: Time): (t': Transaction)
    ensures t'.status == u.status
    ensures t'.completedAt.Some? <==> u.status == TxnStatus.Completed
    ensures t'.handle == (if Present(u.pidx) then u.pidx else t.handle)
    ensures t'.verifiedAt == (if u.verifiedAt.Some? then u.verifiedAt else t.verifiedAt)
    ensures t'.bookingId == t.bookingId && t'.amount == t.amount && t'.paymentUrl == t.paymentUrl
            && t'.failureReason == t.failureReason
  {
    t.(status := u.status,
       completedAt := if u.status == TxnStatus.Completed then Some(now) else None,
       handle := if Present(u.pidx) then u.pidx else t.handle,
       verifiedAt := if u.verifiedAt.Some? then u.verifiedAt else t.verifiedAt)
  }

  predicate Owns(bookings: map<Id, ServiceBooking>, bookingId: Id, userId: Id) {
    bookingId in bookings && bookings[bookingId].clientId == userId
  }

  /** `updatePaymentStatus(bookingId, userId, updateData)`. */
  function UpdateStatus(db: Db, bookingId: Id, userId: Id, u: StatusUpdate, now: Time): (r: (Db, Result<StatusUpdated>))
    ensures r.0.tickets == db.tickets && r.0.ticketPayments == db.ticketPayments && r.0.events == db.events
    ensures r.1.Err? ==> r.0 == db && r.1.error.code == 404
    ensures (r.1.Err? && r.1.error.kind == BookingNotFound) <==> !Owns(db.bookings, bookingId, userId)
    ensures (r.1.Err? && r.1.error.kind == TransactionNotFound) <==>
              Owns(db.bookings, bookingId, userId)
              && forall j :: 0 <= j < |db.payments| ==> db.payments[j].bookingId != bookingId
    // Otherwise the override goes through.
    ensures r.1.Ok? <==>
              Owns(db.bookings, bookingId, userId)
              && exists j :: 0 <= j < |db.payments| && db.payments[j].bookingId == bookingId
    ensures r.1.Ok? ==>
              var i := LatestFor(db.payments, bookingId).value;
              var b := db.bookings[bookingId];
              var (ps, bs) := DerivedStatuses(b, u.status);
              && Owns(db.bookings, bookingId, userId)
              && r.0.payments == db.payments[i := Overridden(db.payments[i], u, now)]
              && r.0.bookings == db.bookings[bookingId := b.(paymentStatus := ps, status := bs)]
              && r.1.value == StatusUpdated(bookingId, ps, bs, u.status)
    // The override keeps "paid implies confirmed_paid" for generic bookings.
    ensures PaidIsConfirmed(db.bookings) ==> PaidIsConfirmed(r.0.bookings)
  {
    if !Owns(db.bookings, bookingId, userId) then
      (db, Err(Failure(404, BookingNotFound, "Booking not found")))
    else
      match LatestFor(db.payments, bookingId)
      case None => (db, Err(Failure(404, TransactionNotFound, "Payment transaction not found")))
      case Some(i) =>
        var b := db.bookings[bookingId];
        var (ps, bs) := DerivedStatuses(b, u.status);
        (db.(payments := db.payments[i := Overridden(db.payments[i], u, now)],
             bookings := db.bookings[bookingId := b.(paymentStatus := ps, status := bs)]),
         Ok(StatusUpdated(bookingId, ps, bs, u.status)))
  }

  /** On a completed payment the override and the verification give a generic booking the same state. */
  lemma OverrideAgreesWithVerification(b: ServiceBooking)
    ensures var (ps, bs) := DerivedStatuses(b, TxnStatus.Completed);
            b.(paymentStatus := ps, status := bs) == ConfirmRegular(b)
  {
  }

  method UpdatePaymentStatus(db: Store, bookingId: Id, userId: Id, u: StatusUpdate, now: Time)
    returns (r: Result<StatusUpdated>)
    requires db.Valid()
    modifies db`payments, db`bookings
    ensures db.Valid()
    ensures (db.Snapshot(), r) == UpdateStatus(old(db.Snapshot()), bookingId, userId, u, now)
  {
    if !(bookingId in db.bookings && db.bookings[bookingId].clientId == userId) {
      return Err(Failure(404, BookingNotFound, "Booking not found"));
    }
    var booking := db.bookings[bookingId];
    var latest := LatestFor(db.payments, bookingId);
    if latest.None? {
      return Err(Failure(404, TransactionNotFound, "Payment transaction not found"));
    }
    var i := latest.value;
    db.payments := db.payments[i := Overridden(db.payments[i], u, now)];
    var bookingStatus := booking.status;
    var paymentStatus := booking.paymentStatus;
    if u.status == TxnStatus.Completed {
      paymentStatus := PaymentStatus.Paid;
      bookingStatus := BookingStatus.ConfirmedPaid;
    } else if u.status == TxnStatus.Failed {
      paymentStatus := PaymentStatus.Failed;
    } else if u.status == TxnStatus.Pending {
      paymentStatus := PaymentStatus.Pending;
    }
    db.bookings := db.bookings[bookingId := booking.(paymentStatus := paymentStatus, status := bookingStatus)];
    r := Ok(StatusUpdated(bookingId, paymentStatus, bookingStatus, u.status));
  }

  // ---------------------------------------------------------------------------
  // Status query

  /** `getPaymentStatus(bookingId, userId)`: the owner's view of a generic booking's payment. */
  method GetPaymentStatus(db: Store, bookingId: Id, userId: Id) returns (r: Result<PaymentStatusView>)
    ensures r.Err? <==> !Owns(db.bookings, bookingId, userId)
    ensures r.Err? ==> r.error == Failure(404, BookingNotFound, "Booking not found")
    ensures r.Ok? ==>
              && r.value.bookingId == bookingId
              && r.value.paymentStatus == db.bookings[bookingId].paymentStatus
              && r.value.totalAmount == db.bookings[bookingId].totalAmount
    ensures r.Ok? ==>
              (r.value.latestTransaction.None? <==>
                 forall j :: 0 <= j < |db.payments| ==> db.payments[j].bookingId != bookingId)
    ensures r.Ok? && r.value.latestTransaction.Some? ==>
              exists i :: 0 <= i < |db.payments| && db.payments[i] == r.value.latestTransaction.value
                          && db.payments[i].bookingId == bookingId
                          && forall j :: i < j < |db.payments| ==> db.payments[j].bookingId != bookingId
  {
    if !(bookingId in db.bookings && db.bookings[bookingId].clientId == userId) {
      return Err(Failure(404, BookingNotFound, "Booking not found"));
    }
    var booking := db.bookings[bookingId];
    var latest := LatestFor(db.payments, bookingId);
    var txn := if latest.Some? then Some(db.payments[latest.value]) else None;
    r := Ok(PaymentStatusView(bookingId, booking.paymentStatus, booking.totalAmount, txn));
  }
}
