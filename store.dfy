/** The in-memory store: the tables the ORM would persist, as mutable fields. */
module Tables {
  import opened Model

  class Store {
    var bookings: map<Id, ServiceBooking>
    var tickets: map<Id, TicketBooking>
    var payments: seq<Transaction>
    var ticketPayments: seq<Transaction>
    var events: map<Id, Event>

    /** The store's invariant: `qr_code` values identify event tickets. */
    ghost predicate Valid()
      reads this
    {
      QrUnique(tickets)
    }

    /** The current contents of all tables, as a value. */
    function Snapshot(): Db
      reads this
    {
      Db(bookings, tickets, payments, ticketPayments, events)
    }

    constructor (d: Db)
      requires QrUnique(d.tickets)
      ensures Valid() && Snapshot() == d
    {
      bookings, tickets := d.bookings, d.tickets;
      payments, ticketPayments := d.payments, d.ticketPayments;
      events := d.events;
    }
  }
}
