/** The database session the route handlers work on: one sequence of rows per
    table, kept in primary-key order, and the id the next insert into each
    table receives. A request either commits all of its writes or, when a
    constraint rejects one, none of them. */
module Store {
  import opened Models

  class Db {
    var clients: seq<Client>
    var invoices: seq<Invoice>
    var lineItems: seq<LineItem>
    var expenses: seq<Expense>
    var insights: seq<Insight>
    var next: Counters

    /** An empty database; every table's ids start at 1. */
    constructor ()
      ensures Snapshot() == Tables([], [], [], [], [])
      ensures next == Counters(1, 1, 1, 1, 1)
      ensures Valid()
    {
      clients, invoices, lineItems, expenses, insights := [], [], [], [], [];
      next := Counters(1, 1, 1, 1, 1);
    }

    /** The rows of every table. */
    function Snapshot(): Tables
      reads this
    {
      Tables(clients, invoices, lineItems, expenses, insights)
    }

    /** The rows and the counters. */
    function Current(): State
      reads this
    {
      State(Snapshot(), next)
    }

    /** The integrity rules hold. */
    ghost predicate Valid()
      reads this
    {
      Sound(Current())
    }
  }
}
