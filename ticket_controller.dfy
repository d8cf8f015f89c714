/** The event-ticket booking controller: attendee check-in by scanned value, cancellation,
    the value a ticket's QR code encodes, per-status booking counts and the paginated
    booking listing's arithmetic.

    A handler's HTTP reply is a `Response`; check-in and cancel are functions over a
    `Db` snapshot whose `ensures` state what they promise, and methods over the mutable
    `Store` proved to end in the state the function gives. */
module TicketController {
  import opened Model
  import opened Tables

  /** The JSON reply `res.status(code).json({ data, message, alreadyCheckedIn })`. */
  datatype Response = Response(code: nat, message: string, data: Option<TicketBooking>, alreadyCheckedIn: bool)

  /** The one message check-in gives for a missing booking, a missing event and a foreign organizer. */
  const NotFoundOrUnauthorized := "Booking or event not found or not authorized"

  /** How the status is spelled in messages. */
  function StatusName(s: TicketStatus): string {
    match s
    case Pending => "pending"
    case Confirmed => "confirmed"
    case Cancelled => "cancelled"
    case Attended => "attended"
    case NoShow => "no_show"
    case Refunded => "refunded"
  }

  // ---------------------------------------------------------------------------
  // Check-in

  /** The scanned value as a booking id, or else as a `qr_code`. */
  ghost function Resolve(tickets: map<Id, TicketBooking>, scanned: string): (r: Option<Id>)
    ensures scanned in tickets ==> r == Some(scanned)
    ensures scanned !in tickets ==>
              (r.Some? <==> exists k :: k in tickets && tickets[k].qrCode == Some(scanned))
    ensures r.Some? ==> r.value in tickets && (r.value == scanned || tickets[r.value].qrCode == Some(scanned))
  {
    if scanned in tickets then Some(scanned)
    else if exists k :: k in tickets && tickets[k].qrCode == Some(scanned) then
      var k :| k in tickets && tickets[k].qrCode == Some(scanned);
      Some(k)
    else None
  }

  /** The scanned value resolves to a booking of an event that `organizerId` organizes. */
  ghost predicate Authorized(db: Db, scanned: string, organizerId: Id) {
    && Resolve(db.tickets, scanned).Some?
    && db.tickets[Resolve(db.tickets, scanned).value].eventId in db.events
    && db.events[db.tickets[Resolve(db.tickets, scanned).value].eventId].organizerId == organizerId
  }

  /** `checkInAttendee` with the scanned value and the caller's user id. */
  ghost function CheckIn(db: Db, scanned: string, organizerId: Id): (r: (Db, Response))
    // Only the ticket table may change, and only a successful check-in changes it.
    ensures r.0 == db.(tickets := r.0.tickets)
    ensures r.1.code != 200 ==> r.0 == db
    // Nothing found, no event, another organizer: one message, no data.
    ensures Resolve(db.tickets, scanned).None? ==> r.1 == Response(404, NotFoundOrUnauthorized, None, false)
    ensures Resolve(db.tickets, scanned).Some? && db.tickets[Resolve(db.tickets, scanned).value].eventId !in db.events ==>
              r.1 == Response(404, NotFoundOrUnauthorized, None, false)
    ensures !Authorized(db, scanned, organizerId) ==>
              r.1.message == NotFoundOrUnauthorized && r.1.data.None? && r.1.code in {403, 404}
    ensures Resolve(db.tickets, scanned).Some? && db.tickets[Resolve(db.tickets, scanned).value].eventId in db.events
            && !Authorized(db, scanned, organizerId) ==>
              r.1 == Response(403, NotFoundOrUnauthorized, None, false)
    ensures Authorized(db, scanned, organizerId) ==> r.1.message != NotFoundOrUnauthorized
    // The ordered validations, each rejecting with the booking as it was.
    ensures Authorized(db, scanned, organizerId) ==>
              var b := db.tickets[Resolve(db.tickets, scanned).value];
              && (b.paymentStatus != PaymentStatus.Paid ==>
                    r.1 == Response(400, "Payment not completed for this ticket", Some(b), false))
              && (b.paymentStatus == PaymentStatus.Paid && b.status == TicketStatus.Attended ==>
                    r.1 == Response(400, "Already checked in", Some(b), true))
              && (b.paymentStatus == PaymentStatus.Paid && b.status in {TicketStatus.Cancelled, TicketStatus.Refunded} ==>
                    r.1 == Response(400, "Ticket is " + StatusName(b.status), Some(b), false))
              && (b.paymentStatus == PaymentStatus.Paid && b.status == TicketStatus.NoShow ==>
                    r.1 == Response(400, "Cannot check-in with status: no_show", Some(b), false))
    ensures r.1.alreadyCheckedIn ==> r.1.code == 400
    // Success exactly for a paid, pending or confirmed ticket; only its status changes.
    ensures r.1.code == 200 <==>
              && Authorized(db, scanned, organizerId)
              && db.tickets[Resolve(db.tickets, scanned).value].paymentStatus == PaymentStatus.Paid
              && db.tickets[Resolve(db.tickets, scanned).value].status in {TicketStatus.Pending, TicketStatus.Confirmed}
    ensures r.1.code == 200 ==>
              var k := Resolve(db.tickets, scanned).value;
              var b' := db.tickets[k].(status := TicketStatus.Attended);
              r.0.tickets == db.tickets[k := b'] && r.1 == Response(200, "Check-in successful", Some(b'), false)
    ensures QrUnique(db.tickets) ==> QrUnique(r.0.tickets)
  {
    match Resolve(db.tickets, scanned)
    case None => (db, Response(404, NotFoundOrUnauthorized, None, false))
    case Some(k) =>
      var b := db.tickets[k];
      if b.eventId !in db.events then (db, Response(404, NotFoundOrUnauthorized, None, false))
      else if db.events[b.eventId].organizerId != organizerId then (db, Response(403, NotFoundOrUnauthorized, None, false))
      else if b.paymentStatus != PaymentStatus.Paid then
        (db, Response(400, "Payment not completed for this ticket", Some(b), false))
      else if b.status == TicketStatus.Attended then (db, Response(400, "Already checked in", Some(b), true))
      else if b.status in {TicketStatus.Cancelled, TicketStatus.Refunded} then
        (db, Response(400, "Ticket is " + StatusName(b.status), Some(b), false))
      else if b.status !in {TicketStatus.Pending, TicketStatus.Confirmed} then
        (db, Response(400, "Cannot check-in with status: " + StatusName(b.status), Some(b), false))
      else
        var b' := b.(status := TicketStatus.Attended);
        (db.(tickets := db.tickets[k := b']), Response(200, "Check-in successful", Some(b'), false))
  }

  /** Checking in the same scanned value again after a successful check-in is rejected as
      "Already checked in" and changes nothing: the ticket stays `attended`. */
  lemma CheckInTwiceIsNoOp(db: Db, scanned: string, organizerId: Id)
    requires QrUnique(db.tickets)
    requires CheckIn(db, scanned, organizerId).1.code == 200
    ensures var (db1, r1) := CheckIn(db, scanned, organizerId);
            && CheckIn(db1, scanned, organizerId) == (db1, Response(400, "Already checked in", r1.data, true))
            && db1.tickets[Resolve(db.tickets, scanned).value].status == TicketStatus.Attended
  {
  }

  method CheckInAttendee(db: Store, scanned: string, organizerId: Id) returns (resp: Response)
    requires db.Valid()
    modifies db`tickets
    ensures db.Valid()
    ensures (db.Snapshot(), resp) == CheckIn(old(db.Snapshot()), scanned, organizerId)
  {
    var key: Id;
    if scanned in db.tickets {
      key := scanned;
    } else if exists k :: k in db.tickets && db.tickets[k].qrCode == Some(scanned) {
      key :| key in db.tickets && db.tickets[key].qrCode == Some(scanned);
      assert Resolve(db.tickets, scanned) == Some(key);
    } else {
      return Response(404, NotFoundOrUnauthorized, None, false);
    }
    var booking := db.tickets[key];
    if booking.eventId !in db.events {
      return Response(404, NotFoundOrUnauthorized, None, false);
    }
    if db.events[booking.eventId].organizerId != organizerId {
      return Response(403, NotFoundOrUnauthorized, None, false);
    }
    if booking.paymentStatus != PaymentStatus.Paid {
      return Response(400, "Payment not completed for this ticket", Some(booking), false);
    }
    if booking.status == TicketStatus.Attended {
      return Response(400, "Already checked in", Some(booking), true);
    }
    if booking.status in {TicketStatus.Cancelled, TicketStatus.Refunded} {
      return Response(400, "Ticket is " + StatusName(booking.status), Some(booking), false);
    }
    if booking.status !in {TicketStatus.Pending, TicketStatus.Confirmed} {
      return Response(400, "Cannot check-in with status: " + StatusName(booking.status), Some(booking), false);
    }
    var updated := booking.(status := TicketStatus.Attended);
    db.tickets := db.tickets[key := updated];
    resp := Response(200, "Check-in successful", Some(updated), false);
  }

  // ---------------------------------------------------------------------------
  // Cancellation

  /** `cancelBooking` with the booking id and the caller's user id. */
  function Cancel(db: Db, bookingId: Id, userId: Id): (r: (Db, Response))
    ensures r.0 == db.(tickets := r.0.tickets)
    ensures r.1.code != 200 ==> r.0 == db
    ensures (bookingId !in db.tickets || db.tickets[bookingId].userId != userId) ==>
              r.1 == Response(404, "Booking not found", None, false)
    ensures bookingId in db.tickets && db.tickets[bookingId].userId == userId
            && db.tickets[bookingId].status in {TicketStatus.Cancelled, TicketStatus.Refunded} ==>
              r.1 == Response(400, "Booking already cancelled or refunded", Some(db.tickets[bookingId]), false)
    ensures r.1.code == 200 <==>
              && bookingId in db.tickets && db.tickets[bookingId].userId == userId
              && db.tickets[bookingId].status !in {TicketStatus.Cancelled, TicketStatus.Refunded}
    ensures r.1.code == 200 ==>
              var b' := db.tickets[bookingId].(status := TicketStatus.Cancelled, bookingStatus := TicketStatus.Cancelled);
              r.0.tickets == db.tickets[bookingId := b'] && r.1 == Response(200, "Booking cancelled", Some(b'), false)
    ensures QrUnique(db.tickets) ==> QrUnique(r.0.tickets)
  {
    if bookingId !in db.tickets || db.tickets[bookingId].userId != userId then
      (db, Response(404, "Booking not found", None, false))
    else
      var b := db.tickets[bookingId];
      if b.status == TicketStatus.Cancelled || b.status == TicketStatus.Refunded then
        (db, Response(400, "Booking already cancelled or refunded", Some(b), false))
      else
        var b' := b.(status := TicketStatus.Cancelled, bookingStatus := TicketStatus.Cancelled);
        (db.(tickets := db.tickets[bookingId := b']), Response(200, "Booking cancelled", Some(b'), false))
  }

  /** A second cancellation of a booking always fails and changes nothing. */
  lemma CancelTwiceFails(db: Db, bookingId: Id, userId: Id)
    requires Cancel(db, bookingId, userId).1.code == 200
    ensures var db1 := Cancel(db, bookingId, userId).0;
            Cancel(db1, bookingId, userId) ==
              (db1, Response(400, "Booking already cancelled or refunded", Some(db1.tickets[bookingId]), false))
  {
  }

  /** Cancelling a paid, confirmed ticket leaves it `paid`: a cancelled ticket can stay paid, so
      `paid` does not imply a confirmed status. */
  lemma CancelKeepsPaid(db: Db, bookingId: Id, userId: Id)
    requires bookingId in db.tickets && db.tickets[bookingId].userId == userId
    requires db.tickets[bookingId].status == TicketStatus.Confirmed
    requires db.tickets[bookingId].paymentStatus == PaymentStatus.Paid
    ensures var (db1, r) := Cancel(db, bookingId, userId);
            && r.code == 200
            && db1.tickets[bookingId].status == TicketStatus.Cancelled
            && db1.tickets[bookingId].paymentStatus == PaymentStatus.Paid
  {
  }

  method CancelBooking(db: Store, bookingId: Id, userId: Id) returns (resp: Response)
    requires db.Valid()
    modifies db`tickets
    ensures db.Valid()
    ensures (db.Snapshot(), resp) == Cancel(old(db.Snapshot()), bookingId, userId)
  {
    if !(bookingId in db.tickets && db.tickets[bookingId].userId == userId) {
      return Response(404, "Booking not found", None, false);
    }
    var booking := db.tickets[bookingId];
    if booking.status == TicketStatus.Cancelled || booking.status == TicketStatus.Refunded {
      return Response(400, "Booking already cancelled or refunded", Some(booking), false);
    }
    var updated := booking.(status := TicketStatus.Cancelled, bookingStatus := TicketStatus.Cancelled);
    db.tickets := db.tickets[bookingId := updated];
    resp := Response(200, "Booking cancelled", Some(updated), false);
  }

  // ---------------------------------------------------------------------------
  // The value a ticket's QR code encodes

  /** The characters JavaScript's `String.prototype.trim` removes. */
  predicate IsJsWhitespace(c: char) {
    || c == ' ' || c == '\t' || c == '\n' || c == '\r' || c == '\U{B}' || c == '\U{C}'
    || c == '\U{A0}' || c == '\U{1680}' || ('\U{2000}' <= c <= '\U{200A}')
    || c == '\U{2028}' || c == '\U{2029}' || c == '\U{202F}' || c == '\U{205F}'
    || c == '\U{3000}' || c == '\U{FEFF}'
  }

  /** `!s.trim()`: the string is empty once trimmed. */
  predicate IsBlank(s: string) {
    forall i :: 0 <= i < |s| ==> IsJsWhitespace(s[i])
  }

  /** The ticket's `qr_code` when it is a non-blank string, else the booking id; neither when both are blank. */
  function TicketQrValue(qrCode: Option<string>, id: Id): (r: Option<string>)
    ensures r.Some? ==> !IsBlank(r.value)
    ensures r.Some? ==> r == qrCode || r.value == id
    ensures qrCode.Some? && !IsBlank(qrCode.value) ==> r == qrCode
    ensures r.None? <==> (qrCode.None? || IsBlank(qrCode.value)) && IsBlank(id)
  {
    var v := if qrCode.None? || IsBlank(qrCode.value) then id else qrCode.value;
    if IsBlank(v) then None else Some(v)
  }

  /** What `downloadTicket` encodes: the owner's ticket's QR value, or the error reply. */
  datatype TicketQr = QrData(value: string) | QrRefused(code: nat, message: string)

  function DownloadTicketQr(tickets: map<Id, TicketBooking>, bookingId: Id, userId: Id): (r: TicketQr)
    ensures (r.QrRefused? && r.code == 404) <==> bookingId !in tickets || tickets[bookingId].userId != userId
    ensures r.QrRefused? && r.code == 404 ==> r.message == "Booking not found"
    ensures (r.QrRefused? && r.code == 400) <==>
              && bookingId in tickets && tickets[bookingId].userId == userId
              && (tickets[bookingId].qrCode.None? || IsBlank(tickets[bookingId].qrCode.value))
              && IsBlank(bookingId)
    ensures r.QrData? ==> !IsBlank(r.value) && (tickets[bookingId].qrCode == Some(r.value) || r.value == bookingId)
    // For the owner's ticket, the reply is exactly what the QR-value rule gives.
    ensures bookingId in tickets && tickets[bookingId].userId == userId ==>
              r == match TicketQrValue(tickets[bookingId].qrCode, bookingId)
                   case Some(v) => QrData(v)
                   case None => QrRefused(400, "No valid QR code data for this ticket.")
  {
    if bookingId !in tickets || tickets[bookingId].userId != userId then QrRefused(404, "Booking not found")
    else
      match TicketQrValue(tickets[bookingId].qrCode, bookingId)
      case None => QrRefused(400, "No valid QR code data for this ticket.")
      case Some(v) => QrData(v)
  }

  // ---------------------------------------------------------------------------
  // Analytics

  /** `bookings.filter(b => b.status === s)`. */
  function WithStatus(bs: seq<TicketBooking>, s: TicketStatus): (r: seq<TicketBooking>)
    ensures |r| <= |bs|
    ensures forall i :: 0 <= i < |r| ==> r[i].status == s
    ensures forall i :: 0 <= i < |bs| && bs[i].status == s ==> bs[i] in r
    ensures forall x :: x in r ==> x in bs
  {
    if |bs| == 0 then []
    else
      var rest := WithStatus(bs[1..], s);
      assert forall i :: 1 <= i < |bs| ==> bs[i] == bs[1..][i - 1];
      if bs[0].status == s then [bs[0]] + rest else rest
  }

  /** The filter keeps each booking of status `s` as many times as it occurs, and drops every other one. */
  lemma {:induction false} WithStatusKeepsMultiplicity(bs: seq<TicketBooking>, s: TicketStatus, x: TicketBooking)
    ensures multiset(WithStatus(bs, s))[x] == if x.status == s then multiset(bs)[x] else 0
  {
    if |bs| > 0 {
      WithStatusKeepsMultiplicity(bs[1..], s, x);
      assert bs == [bs[0]] + bs[1..];
    }
  }

  /** `getBookingAnalytics`' counts. */
  datatype Analytics = Analytics(total: nat, confirmed: nat, cancelled: nat, attended: nat, noShow: nat, refunded: nat)

  /** The six filters partition the bookings. */
  lemma {:induction false} StatusCountsPartition(bs: seq<TicketBooking>)
    ensures |WithStatus(bs, TicketStatus.Pending)| + |WithStatus(bs, TicketStatus.Confirmed)|
            + |WithStatus(bs, TicketStatus.Cancelled)| + |WithStatus(bs, TicketStatus.Attended)|
            + |WithStatus(bs, TicketStatus.NoShow)| + |WithStatus(bs, TicketStatus.Refunded)| == |bs|
  {
    if |bs| > 0 {
      StatusCountsPartition(bs[1..]);
    }
  }

  /** The counts of the bookings of one event: each at most the total, and together the total
      less the pending bookings, which are not counted. */
  function BookingAnalytics(bs: seq<TicketBooking>): (a: Analytics)
    ensures a.total == |bs|
    // Each field counts the bookings of its own status.
    ensures a.confirmed == |WithStatus(bs, TicketStatus.Confirmed)| && a.cancelled == |WithStatus(bs, TicketStatus.Cancelled)|
            && a.attended == |WithStatus(bs, TicketStatus.Attended)| && a.noShow == |WithStatus(bs, TicketStatus.NoShow)|
            && a.refunded == |WithStatus(bs, TicketStatus.Refunded)|
    ensures a.confirmed <= a.total && a.cancelled <= a.total && a.attended <= a.total
            && a.noShow <= a.total && a.refunded <= a.total
    ensures a.confirmed + a.cancelled + a.attended + a.noShow + a.refunded
            == a.total - |WithStatus(bs, TicketStatus.Pending)|
  {
    StatusCountsPartition(bs);
    Analytics(|bs|,
              |WithStatus(bs, TicketStatus.Confirmed)|,
              |WithStatus(bs, TicketStatus.Cancelled)|,
              |WithStatus(bs, TicketStatus.Attended)|,
              |WithStatus(bs, TicketStatus.NoShow)|,
              |WithStatus(bs, TicketStatus.Refunded)|)
  }

  // ---------------------------------------------------------------------------
  // Pagination

  /** `parseInt(q) || fallback`: `NaN` (here `None`) and 0 are falsy. */
  function QueryInt(parsed: Option<int>, fallback: int): (r: int)
    ensures fallback != 0 ==> r != 0
    ensures parsed.Some? && parsed.value != 0 ==> r == parsed.value
    ensures parsed.None? || parsed.value == 0 ==> r == fallback
  {
    if parsed.Some? && parsed.value != 0 then parsed.value else fallback
  }

  /** `Math.ceil(count / limit)` for a non-zero integer limit. */
  function CeilDiv(count: nat, limit: int): (r: int)
    requires limit != 0
    ensures limit > 0 ==> (r - 1) * limit < count <= r * limit
    ensures limit < 0 ==> r * limit <= count < (r - 1) * limit
  {
    if limit > 0 then
      var q := (count + limit - 1) / limit;
      DivBounds(count + limit - 1, limit);
      assert (q - 1) * limit == q * limit - limit;
      q
    else
      var q := count / -limit;
      DivBounds(count, -limit);
      assert (-q) * limit == q * -limit;
      assert (-q - 1) * limit == q * -limit + -limit;
      -q
  }

  lemma DivBounds(n: nat, d: int)
    requires d > 0
    ensures (n / d) * d <= n < (n / d) * d + d
  {
  }

  datatype Pagination = Pagination(offset: int, total: nat, page: int, limit: int, totalPages: int)

  /** `getEventBookingDetails`' paging: page and limit from the query (default 1 and 20),
      `offset = (page - 1) * limit` and `totalPages = ceil(count / limit)`. */
  function EventBookingPage(pageParam: Option<int>, limitParam: Option<int>, count: nat): (p: Pagination)
    ensures p.page != 0 && p.limit != 0 && p.total == count
    ensures p.offset == (p.page - 1) * p.limit
    ensures p.limit > 0 ==> (p.totalPages - 1) * p.limit < count <= p.totalPages * p.limit
    ensures pageParam.None? && limitParam.None? ==> p.offset == 0 && p.limit == 20
    ensures p.page == QueryInt(pageParam, 1) && p.limit == QueryInt(limitParam, 20)
    ensures p.totalPages == CeilDiv(count, p.limit)
  {
    var page := QueryInt(pageParam, 1);
    var limit := QueryInt(limitParam, 20);
    Pagination((page - 1) * limit, count, page, limit, CeilDiv(count, limit))
  }

  /** With a positive limit, a page from 1 on starts inside the results exactly when it is at
      most `totalPages`. */
  lemma PageStartsInResults(count: nat, page: int, limit: int)
    requires limit > 0 && page >= 1
    ensures (page - 1) * limit < count <==> page <= CeilDiv(count, limit)
  {
  }
}
