/** The client routes: the list with per-client totals, the detail page, the
    forms, and the create, edit and delete handlers (a delete takes the
    client's invoices and their line items with it). */
module Clients {
  import opened Wrappers
  import opened Models
  import Seqs
  import opened Store

  /** The contact fields the client form posts. */
  datatype ContactFields = ContactFields(
    name: string,
    email: string,
    phone: Option<string>,
    address: Option<string>,
    city: Option<string>,
    country: Option<string>,
    taxId: Option<string>,
    notes: Option<string>)

  /** `c` with the posted contact fields written over it. */
  function WithContact(c: Client, f: ContactFields): (r: Client)
    ensures r.id == c.id && r.userId == c.userId && r.createdAt == c.createdAt
    ensures r.name == f.name && r.email == f.email && r.phone == f.phone && r.address == f.address
    ensures r.city == f.city && r.country == f.country && r.taxId == f.taxId && r.notes == f.notes
  {
    c.(name := f.name, email := f.email, phone := f.phone, address := f.address,
       city := f.city, country := f.country, taxId := f.taxId, notes := f.notes)
  }

  // ---------------------------------------------------------------- totals

  /** Every invoice of client `id`, whoever it is visible to. */
  function InvoicesOf(t: Tables, id: nat): (r: seq<Invoice>)
    ensures forall inv :: inv in r <==> inv in t.invoices && inv.clientId == id
  {
    Seqs.Filter(t.invoices, OfClient(id))
  }

  /** The sum of the totals of the client's invoices. */
  function TotalInvoiced(t: Tables, id: nat): real
  {
    Seqs.SumBy(InvoicesOf(t, id), TotalOf)
  }

  /** The sum of the totals of the client's paid invoices. */
  function TotalPaid(t: Tables, id: nat): real
  {
    Seqs.SumBy(Seqs.Filter(InvoicesOf(t, id), Paid()), TotalOf)
  }

  /** A line of the client list. */
  datatype ClientRow = ClientRow(client: Client, totalInvoiced: real, totalPaid: real, outstanding: real)

  function StatsOf(t: Tables, c: Client): ClientRow
  {
    var invoiced := TotalInvoiced(t, c.id);
    var paid := TotalPaid(t, c.id);
    ClientRow(c, invoiced, paid, invoiced - paid)
  }

  /** The outstanding balance is the sum of the totals of the client's
      invoices that are not paid; with non-negative totals it is never
      negative and never exceeds the amount invoiced. */
  lemma OutstandingIsUnpaid(t: Tables, c: Client)
    ensures var row := StatsOf(t, c);
      && row.outstanding == Seqs.SumBy(Seqs.Filter(InvoicesOf(t, c.id), Seqs.Not(Paid())), TotalOf)
      && ((forall inv :: inv in t.invoices ==> inv.total >= 0.0) ==>
            0.0 <= row.totalPaid && 0.0 <= row.outstanding <= row.totalInvoiced)
  {
    var invs := InvoicesOf(t, c.id);
    Seqs.SumByPartition(invs, Paid(), TotalOf);
    if forall inv :: inv in t.invoices ==> inv.total >= 0.0 {
      Seqs.SumByNonneg(Seqs.Filter(invs, Paid()), TotalOf);
      Seqs.SumByNonneg(Seqs.Filter(invs, Seqs.Not(Paid())), TotalOf);
    }
  }

  /** The user's clients by name. */
  function SortedClients(t: Tables, user: UserId): (r: seq<Client>)
    ensures multiset(r) == multiset(OwnerClients(t, user))
  {
    Seqs.SortBy(OwnerClients(t, user), NameAsc())
  }

  /** The list holds exactly the user's clients, by name. */
  lemma SortedClientsSpec(t: Tables, user: UserId)
    ensures var r := SortedClients(t, user);
      && Seqs.SortedBy(r, NameAsc())
      && forall c :: c in r <==> c in t.clients && c.userId == user
  {
    OrdersArePreorders();
    Seqs.SortBySorted(OwnerClients(t, user), NameAsc());
    var r := SortedClients(t, user);
    forall c
      ensures c in r <==> c in OwnerClients(t, user)
    {
      assert c in r <==> c in multiset(r);
      assert c in OwnerClients(t, user) <==> c in multiset(OwnerClients(t, user));
    }
  }

  /** GET /clients: the user's clients by name, each with the totals of its invoices. */
  method ListClients(db: Db, user: UserId) returns (rows: seq<ClientRow>)
    ensures var clients := SortedClients(db.Snapshot(), user);
      && |rows| == |clients|
      && forall i :: 0 <= i < |rows| ==> rows[i] == StatsOf(db.Snapshot(), clients[i])
  {
    var t := db.Snapshot();
    var clients := SortedClients(t, user);
    rows := [];
    for i := 0 to |clients|
      invariant |rows| == i
      invariant forall j :: 0 <= j < i ==> rows[j] == StatsOf(t, clients[j])
    {
      var c := clients[i];
      var invoiced := TotalInvoiced(t, c.id);
      var paid := TotalPaid(t, c.id);
      rows := rows + [ClientRow(c, invoiced, paid, invoiced - paid)];
    }
  }

  // ---------------------------------------------------------------- lookups

  function OwnedClientWithId(user: UserId, id: nat): Client -> bool
  {
    (c: Client) => c.id == id && c.userId == user
  }

  /** The position of client `id` when it belongs to `user`. */
  function FindClient(t: Tables, user: UserId, id: nat): (r: Option<nat>)
    ensures r.Some? ==> r.value < |t.clients| && t.clients[r.value].id == id && t.clients[r.value].userId == user
    ensures r.None? ==> forall c :: c in t.clients && c.id == id ==> c.userId != user
  {
    var r := Seqs.FirstIndex(t.clients, OwnedClientWithId(user, id));
    assert r.None? ==> forall i :: 0 <= i < |t.clients| ==> !OwnedClientWithId(user, id)(t.clients[i]);
    r
  }

  /** What the detail page shows. */
  datatype ClientView = ClientView(client: Client, invoices: seq<Invoice>, totalRevenue: real)

  /** GET /clients/{id}: the client, its invoices latest issue date first and
      the total of the paid ones; NotFound for a missing or foreign client. */
  function ClientDetail(t: Tables, user: UserId, id: nat): (r: Result<ClientView>)
    ensures r.Ok? <==> exists c :: c in t.clients && c.id == id && c.userId == user
    ensures r.Err? ==> r.error == NotFound
    ensures r.Ok? ==> r.value.client in t.clients && r.value.client.id == id && r.value.client.userId == user
                      && multiset(r.value.invoices) == multiset(InvoicesOf(t, id))
                      && Seqs.SortedBy(r.value.invoices, IssueDesc())
  {
    match FindClient(t, user, id)
    case None => Err(NotFound)
    case Some(k) =>
      var invoices := Seqs.SortBy(InvoicesOf(t, id), IssueDesc());
      OrdersArePreorders();
      Seqs.SortBySorted(InvoicesOf(t, id), IssueDesc());
      Ok(ClientView(t.clients[k], invoices, Seqs.SumBy(Seqs.Filter(invoices, Paid()), TotalOf)))
  }

  /** Sorting a sequence does not change what the paid ones add up to. */
  lemma {:induction false} PaidSumSorted(s: seq<Invoice>)
    ensures Seqs.SumBy(Seqs.Filter(Seqs.SortBy(s, IssueDesc()), Paid()), TotalOf)
         == Seqs.SumBy(Seqs.Filter(s, Paid()), TotalOf)
  {
    var sorted := Seqs.SortBy(s, IssueDesc());
    Seqs.SumByFilter(sorted, Paid(), TotalOf);
    Seqs.SumByFilter(s, Paid(), TotalOf);
    Seqs.SumByPermutation(sorted, s, Seqs.Masked(Paid(), TotalOf));
  }

  /** The revenue on the detail page is the total paid in the client list. */
  lemma DetailRevenueIsTotalPaid(t: Tables, user: UserId, id: nat)
    requires ClientDetail(t, user, id).Ok?
    ensures ClientDetail(t, user, id).value.totalRevenue == TotalPaid(t, id)
  {
    PaidSumSorted(InvoicesOf(t, id));
  }

  /** GET /clients/{id}/edit: the client, or NotFound. */
  function EditClientForm(t: Tables, user: UserId, id: nat): (r: Result<Client>)
    ensures r.Ok? <==> exists c :: c in t.clients && c.id == id && c.userId == user
    ensures r.Err? ==> r.error == NotFound
    ensures r.Ok? ==> r.value in t.clients && r.value.id == id && r.value.userId == user
  {
    match FindClient(t, user, id)
    case None => Err(NotFound)
    case Some(k) => Ok(t.clients[k])
  }

  // ---------------------------------------------------------------- create

  /** POST /clients/new: the client is inserted for `user` with the next id. */
  function CreateClientIn(s: State, user: UserId, f: ContactFields, now: Instant): (o: Outcome<nat>)
    ensures o.result == Ok(s.next.client)
  {
    var c := WithContact(Client(s.next.client, user, "", "", None, None, None, None, None, None, now), f);
    Outcome(Ok(s.next.client), s.(tables := s.tables.(clients := s.tables.clients + [c]),
                                  next := s.next.(client := s.next.client + 1)))
  }

  /** Creating a client keeps every integrity rule; the new client belongs to
      its creator and carries the posted fields. */
  lemma CreateClientSound(s: State, user: UserId, f: ContactFields, now: Instant)
    requires Sound(s)
    ensures var o := CreateClientIn(s, user, f, now);
      && Sound(o.state)
      && EditClientForm(o.state.tables, user, s.next.client).Ok?
      && EditClientForm(o.state.tables, user, s.next.client).value
         == WithContact(Client(s.next.client, user, "", "", None, None, None, None, None, None, now), f)
  {
    var o := CreateClientIn(s, user, f, now);
    var t, t', id := s.tables, o.state.tables, s.next.client;
    var c := t'.clients[|t'.clients| - 1];
    KeysBelowAppend(t.clients, [c], ClientKey, id, id + 1);
    assert c in t'.clients;
    forall x | x in t'.clients && x.id == id
      ensures x == c
    {
      if x in t.clients {
        assert false;
      }
    }
    var k := FindClient(t', user, id).value;
    assert t'.clients[k] in t'.clients;
  }

  /** The create handler on the session. */
  method CreateClient(db: Db, user: UserId, f: ContactFields, now: Instant) returns (r: Result<nat>)
    requires db.Valid()
    modifies db
    ensures var o := CreateClientIn(old(db.Current()), user, f, now);
      r == o.result && db.Current() == o.state
    ensures db.Valid()
  {
    CreateClientSound(db.Current(), user, f, now);
    var id := db.next.client;
    var c := Client(id, user, f.name, f.email, f.phone, f.address, f.city, f.country, f.taxId, f.notes, now);
    db.clients := db.clients + [c];
    db.next := db.next.(client := id + 1);
    r := Ok(id);
  }

  // ---------------------------------------------------------------- edit

  /** POST /clients/{id}/edit: NotFound for a missing or foreign client;
      otherwise its contact fields are overwritten. */
  function UpdateClientIn(s: State, user: UserId, id: nat, f: ContactFields): (o: Outcome<nat>)
    ensures o.result.Err? ==> o.result.error == NotFound && o.state == s
    ensures o.result.Ok? <==> FindClient(s.tables, user, id).Some?
    ensures o.result.Ok? ==> o.result.value == id
  {
    match FindClient(s.tables, user, id)
    case None => Outcome(Err(NotFound), s)
    case Some(k) =>
      var c := WithContact(s.tables.clients[k], f);
      Outcome(Ok(id), s.(tables := s.tables.(clients := s.tables.clients[k := c])))
  }

  /** Editing a client keeps every integrity rule, keeps who owns the client
      and leaves every other table and every other client as it was. */
  lemma UpdateClientSound(s: State, user: UserId, id: nat, f: ContactFields)
    requires Sound(s)
    ensures var o := UpdateClientIn(s, user, id, f);
      && Sound(o.state)
      && o.state.tables.invoices == s.tables.invoices
      && o.state.tables.lineItems == s.tables.lineItems
      && o.state.tables.expenses == s.tables.expenses
      && o.state.tables.insights == s.tables.insights
      && o.state.next == s.next
      && |o.state.tables.clients| == |s.tables.clients|
      && (forall i :: 0 <= i < |s.tables.clients| && s.tables.clients[i].id != id ==>
            o.state.tables.clients[i] == s.tables.clients[i])
      && OwnedClientIds(o.state.tables.clients, user) == OwnedClientIds(s.tables.clients, user)
      && (o.result.Ok? ==> EditClientForm(o.state.tables, user, id) == Ok(WithContact(EditClientForm(s.tables, user, id).value, f)))
  {
    var o := UpdateClientIn(s, user, id, f);
    if o.result.Ok? {
      var t, t', k := s.tables, o.state.tables, FindClient(s.tables, user, id).value;
      var c := WithContact(t.clients[k], f);
      assert t'.clients == t.clients[k := c];
      assert t'.clients[k] == c;
      KeysBelowReplace(t.clients, k, c, ClientKey, s.next.client);
      forall x | x in t'.clients && x.id == id && x.userId == user
        ensures x == c
      {
        assert c in t'.clients;
        SameKeySameRow(t'.clients, ClientKey, x, c);
      }
      forall u
        ensures OwnedClientIds(t'.clients, u) == OwnedClientIds(t.clients, u)
      {
        forall cid | cid in OwnedClientIds(t.clients, u)
          ensures cid in OwnedClientIds(t'.clients, u)
        {
          var x :| x in t.clients && x.userId == u && x.id == cid;
          var i :| 0 <= i < |t.clients| && t.clients[i] == x;
          assert t'.clients[i] in t'.clients;
        }
        forall cid | cid in OwnedClientIds(t'.clients, u)
          ensures cid in OwnedClientIds(t.clients, u)
        {
          var x :| x in t'.clients && x.userId == u && x.id == cid;
          var i :| 0 <= i < |t'.clients| && t'.clients[i] == x;
          assert t.clients[i] in t.clients;
        }
      }
      var k' := FindClient(t', user, id).value;
      assert t'.clients[k'] in t'.clients;
      assert t.clients[k] in t.clients;
    }
  }

  /** The edit handler on the session. */
  method UpdateClient(db: Db, user: UserId, id: nat, f: ContactFields) returns (r: Result<nat>)
    requires db.Valid()
    modifies db
    ensures var o := UpdateClientIn(old(db.Current()), user, id, f);
      r == o.result && db.Current() == o.state
    ensures db.Valid()
  {
    UpdateClientSound(db.Current(), user, id, f);
    var found := FindClient(db.Snapshot(), user, id);
    if found.None? {
      return Err(NotFound);
    }
    var k := found.value;
    var c := db.clients[k].(name := f.name, email := f.email, phone := f.phone, address := f.address,
                            city := f.city, country := f.country, taxId := f.taxId, notes := f.notes);
    db.clients := db.clients[k := c];
    r := Ok(id);
  }

  // ---------------------------------------------------------------- delete

  /** The line items of any of the invoices `ids`. */
  function ItemOfAny(ids: set<nat>): LineItem -> bool
  {
    (li: LineItem) => li.invoiceId in ids
  }

  /** POST /clients/{id}/delete: NotFound for a missing or foreign client;
      otherwise the client row goes, with every invoice that names it and
      every line item of those invoices. */
  function DeleteClientIn(s: State, user: UserId, id: nat): (o: Outcome<nat>)
    ensures o.result.Err? ==> o.result.error == NotFound && o.state == s
    ensures o.result.Ok? <==> FindClient(s.tables, user, id).Some?
    ensures o.result.Ok? ==> o.result.value == id
  {
    match FindClient(s.tables, user, id)
    case None => Outcome(Err(NotFound), s)
    case Some(k) =>
      var gone := InvoiceIds(InvoicesOf(s.tables, id));
      var t := s.tables.(clients := Seqs.RemoveAt(s.tables.clients, k),
                         invoices := Seqs.Filter(s.tables.invoices, Seqs.Not(OfClient(id))),
                         lineItems := Seqs.Filter(s.tables.lineItems, Seqs.Not(ItemOfAny(gone))));
      Outcome(Ok(id), s.(tables := t))
  }

  /** Deleting a client keeps every integrity rule; afterwards no client has
      its id, no invoice names it, no line item belongs to one of its former
      invoices, and every other client, invoice and line item remains. */
  lemma DeleteClientSound(s: State, user: UserId, id: nat)
    requires Sound(s)
    ensures var o := DeleteClientIn(s, user, id);
      var t, t' := s.tables, o.state.tables;
      && Sound(o.state)
      && t'.expenses == t.expenses
      && t'.insights == t.insights
      && o.state.next == s.next
      && (o.result.Ok? ==>
            && (forall c :: c in t'.clients ==> c.id != id)
            && (forall c :: c in t.clients && c.id != id ==> c in t'.clients)
            && InvoicesOf(t', id) == []
            && (forall inv :: inv in t.invoices && inv.clientId != id ==> inv in t'.invoices)
            && (forall li :: li in t'.lineItems ==> li.invoiceId !in InvoiceIds(InvoicesOf(t, id)))
            && (forall li :: li in t.lineItems && li.invoiceId !in InvoiceIds(InvoicesOf(t, id)) ==> li in t'.lineItems))
  {
    var o := DeleteClientIn(s, user, id);
    if o.result.Ok? {
      var t, t', k := s.tables, o.state.tables, FindClient(s.tables, user, id).value;
      var gone := InvoiceIds(InvoicesOf(t, id));
      KeysBelowRemoveAt(t.clients, k, ClientKey, s.next.client);
      KeysBelowFilter(t.invoices, Seqs.Not(OfClient(id)), InvoiceKey, s.next.invoice);
      KeysBelowFilter(t.lineItems, Seqs.Not(ItemOfAny(gone)), LineItemKey, s.next.lineItem);
      Seqs.FilterNone(t'.invoices, OfClient(id));
      forall li | li in t'.lineItems
        ensures li.invoiceId in InvoiceIds(t'.invoices)
      {
        var x :| x in t.invoices && x.id == li.invoiceId;
        assert x.clientId != id;
        assert x in t'.invoices;
      }
    }
  }

  /** The delete handler on the session. */
  method DeleteClient(db: Db, user: UserId, id: nat) returns (r: Result<nat>)
    requires db.Valid()
    modifies db
    ensures var o := DeleteClientIn(old(db.Current()), user, id);
      r == o.result && db.Current() == o.state
    ensures db.Valid()
  {
    DeleteClientSound(db.Current(), user, id);
    var found := FindClient(db.Snapshot(), user, id);
    if found.None? {
      return Err(NotFound);
    }
    var gone := InvoiceIds(InvoicesOf(db.Snapshot(), id));
    db.clients := Seqs.RemoveAt(db.clients, found.value);
    db.invoices := Seqs.Filter(db.invoices, Seqs.Not(OfClient(id)));
    db.lineItems := Seqs.Filter(db.lineItems, Seqs.Not(ItemOfAny(gone)));
    r := Ok(id);
  }
}
