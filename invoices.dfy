/** The invoice routes: the owner-scoped list, detail and form views, and the
    create, edit, status and delete handlers. Each handler's effect is a
    function from one database state to an outcome; the handlers on the
    database session are proved to have exactly that effect, and the lemmas
    below say what the effects mean. */
module Invoices {
  import opened Wrappers
  import opened Models
  import opened LineItems
  import Seqs
  import Calendar
  import Numbering
  import Status
  import opened Store

  /** The fields the invoice form posts. */
  datatype InvoiceForm = InvoiceForm(
    clientId: nat,
    number: string,
    issueDate: Calendar.Day,
    dueDate: Calendar.Day,
    taxRate: real,
    currency: string,
    notes: Option<string>,
    descriptions: seq<string>,
    quantities: seq<real>,
    unitPrices: seq<real>)

  /** The entries of the form that become line items. */
  function FormKept(form: InvoiceForm): seq<Entry>
  {
    Kept(Entries(form.descriptions, form.quantities, form.unitPrices))
  }

  /** `inv` with the form's columns written over it and its money columns
      recomputed from the form's entries; id, status, paid date and creation
      time are left as they were. */
  function Edited(inv: Invoice, form: InvoiceForm): (r: Invoice)
    ensures r.id == inv.id && r.status == inv.status && r.paidDate == inv.paidDate && r.createdAt == inv.createdAt
    ensures r.clientId == form.clientId && r.number == form.number
    ensures r.issueDate == form.issueDate && r.dueDate == form.dueDate
    ensures r.taxRate == form.taxRate && r.currency == form.currency && r.notes == form.notes
    ensures Totals(r.subtotal, r.taxAmount, r.total) == TotalsOf(FormKept(form), form.taxRate)
  {
    var totals := TotalsOf(FormKept(form), form.taxRate);
    inv.(clientId := form.clientId, number := form.number, issueDate := form.issueDate,
         dueDate := form.dueDate, taxRate := form.taxRate, currency := form.currency,
         notes := form.notes, subtotal := totals.subtotal, taxAmount := totals.taxAmount,
         total := totals.total)
  }

  /** The invoice row a successful creation inserts with id `id`. */
  function Created(id: nat, form: InvoiceForm, now: Instant): (inv: Invoice)
    ensures inv.id == id && inv.createdAt == now
    ensures inv.status == "draft" && inv.paidDate == None && StatusConsistent(inv)
    ensures inv.clientId == form.clientId && inv.number == form.number
    ensures inv.issueDate == form.issueDate && inv.dueDate == form.dueDate
    ensures inv.taxRate == form.taxRate && inv.currency == form.currency && inv.notes == form.notes
    ensures Totals(inv.subtotal, inv.taxAmount, inv.total) == TotalsOf(FormKept(form), form.taxRate)
  {
    Edited(NewInvoice(id, form.clientId, form.number, form.issueDate, form.dueDate, now), form)
  }

  /** The line items stored for invoice `id`, in table order. */
  function ItemsOf(t: Tables, id: nat): (r: seq<LineItem>)
    ensures forall li :: li in r <==> li in t.lineItems && li.invoiceId == id
  {
    Seqs.Filter(t.lineItems, OfInvoice(id))
  }

  // ---------------------------------------------------------------- lookups and views

  /** The invoice row `id`, provided its client belongs to `user`. */
  function OwnedWithId(t: Tables, user: UserId, id: nat): Invoice -> bool
  {
    (inv: Invoice) => inv.id == id && OwnsInvoice(t, user, inv)
  }

  /** The position of invoice `id` when `user` may see it; None for a missing
      invoice and for another user's invoice alike. */
  function FindInvoice(t: Tables, user: UserId, id: nat): (r: Option<nat>)
    ensures r.Some? ==> r.value < |t.invoices| && t.invoices[r.value].id == id
                        && OwnsInvoice(t, user, t.invoices[r.value])
    ensures r.None? ==> forall inv :: inv in t.invoices && inv.id == id ==> !OwnsInvoice(t, user, inv)
  {
    var r := Seqs.FirstIndex(t.invoices, OwnedWithId(t, user, id));
    assert r.None? ==> forall i :: 0 <= i < |t.invoices| ==> !OwnedWithId(t, user, id)(t.invoices[i]);
    r
  }

  /** The invoice list: the invoices of the user's clients, latest issue date first. */
  function ListInvoices(t: Tables, user: UserId): (r: seq<Invoice>)
    ensures multiset(r) == multiset(OwnerInvoices(t, user))
  {
    Seqs.SortBy(OwnerInvoices(t, user), IssueDesc())
  }

  /** The list holds exactly the user's invoices, each once, latest issue date first. */
  lemma ListInvoicesSpec(t: Tables, user: UserId)
    ensures var r := ListInvoices(t, user);
      && Seqs.SortedBy(r, IssueDesc())
      && (forall inv :: inv in r <==> inv in t.invoices && OwnsInvoice(t, user, inv))
      && |r| == |OwnerInvoices(t, user)|
  {
    OrdersArePreorders();
    Seqs.SortBySorted(OwnerInvoices(t, user), IssueDesc());
    var r := ListInvoices(t, user);
    forall inv
      ensures inv in r <==> inv in OwnerInvoices(t, user)
    {
      assert inv in r <==> inv in multiset(r);
      assert inv in OwnerInvoices(t, user) <==> inv in multiset(OwnerInvoices(t, user));
    }
  }

  /** What the detail page shows. */
  datatype InvoiceView = InvoiceView(invoice: Invoice, lineItems: seq<LineItem>)

  /** The detail page of invoice `id`, or NotFound when `user` may not see it. */
  function InvoiceDetail(t: Tables, user: UserId, id: nat): (r: Result<InvoiceView>)
    ensures r.Ok? <==> exists inv :: inv in t.invoices && inv.id == id && OwnsInvoice(t, user, inv)
    ensures r.Err? ==> r.error == NotFound
    ensures r.Ok? ==> r.value.invoice in t.invoices && r.value.invoice.id == id
                      && OwnsInvoice(t, user, r.value.invoice)
                      && r.value.lineItems == ItemsOf(t, id)
  {
    match FindInvoice(t, user, id)
    case None => Err(NotFound)
    case Some(k) => Ok(InvoiceView(t.invoices[k], ItemsOf(t, id)))
  }

  /** What the edit form shows: the invoice and the user's clients to pick from. */
  datatype EditView = EditView(invoice: Invoice, clients: seq<Client>)

  function EditInvoiceForm(t: Tables, user: UserId, id: nat): (r: Result<EditView>)
    ensures r.Ok? <==> exists inv :: inv in t.invoices && inv.id == id && OwnsInvoice(t, user, inv)
    ensures r.Err? ==> r.error == NotFound
    ensures r.Ok? ==> r.value.invoice in t.invoices && r.value.invoice.id == id
                      && OwnsInvoice(t, user, r.value.invoice)
                      && forall c :: c in r.value.clients <==> c in t.clients && c.userId == user
  {
    match FindInvoice(t, user, id)
    case None => Err(NotFound)
    case Some(k) => Ok(EditView(t.invoices[k], OwnerClients(t, user)))
  }

  /** What the new-invoice form shows. */
  datatype NewView = NewView(clients: seq<Client>, suggestedNumber: string, today: Calendar.Day)

  /** The new-invoice form: the user's clients and the number suggested from
      every invoice in the store, whoever owns it. */
  function NewInvoiceForm(t: Tables, user: UserId, today: Calendar.Day): (r: NewView)
    ensures forall c :: c in r.clients <==> c in t.clients && c.userId == user
    ensures var prefix := Numbering.YearPrefix(Calendar.FromOrdinal(today).year);
      && Numbering.HasPrefix(r.suggestedNumber, prefix)
      && Numbering.SequenceOf(r.suggestedNumber) == Some(Numbering.NextSequence(t.invoices, prefix))
    ensures r.today == today
  {
    Numbering.SuggestionShape(t.invoices, today);
    NewView(OwnerClients(t, user), Numbering.Suggest(t.invoices, today), today)
  }

  // ---------------------------------------------------------------- create

  /** POST /invoices/new: NotFound unless the client belongs to the user;
      Conflict (the unique number index rejects the insert and the session
      rolls back) when the number is taken; otherwise the invoice and its line
      items are inserted with the next ids. */
  function CreateInvoiceIn(s: State, user: UserId, form: InvoiceForm, now: Instant): (o: Outcome<nat>)
    ensures o.result.Err? ==> o.state == s
    ensures o.result == Err(NotFound) <==> form.clientId !in OwnedClientIds(s.tables.clients, user)
    ensures o.result.Ok? <==> (form.clientId in OwnedClientIds(s.tables.clients, user)
                               && !NumberTaken(s.tables.invoices, form.number))
    ensures o.result.Ok? ==> o.result.value == s.next.invoice
  {
    if form.clientId !in OwnedClientIds(s.tables.clients, user) then Outcome(Err(NotFound), s)
    else if NumberTaken(s.tables.invoices, form.number) then Outcome(Err(Conflict), s)
    else
      var id := s.next.invoice;
      var kept := FormKept(form);
      var t := s.tables.(invoices := s.tables.invoices + [Created(id, form, now)],
                         lineItems := s.tables.lineItems + Rows(id, s.next.lineItem, now, kept));
      Outcome(Ok(id), State(t, s.next.(invoice := id + 1, lineItem := s.next.lineItem + |kept|)))
  }

  /** Line items for an invoice id no stored item carries: afterwards exactly
      the new rows belong to it. */
  lemma ItemsAfterSave(items: seq<LineItem>, id: nat, firstId: nat, now: Instant, kept: seq<Entry>)
    requires forall li :: li in items ==> li.invoiceId != id
    ensures Seqs.Filter(items + Rows(id, firstId, now, kept), OfInvoice(id)) == Rows(id, firstId, now, kept)
  {
    var rows := Rows(id, firstId, now, kept);
    Seqs.FilterAppend(items, rows, OfInvoice(id));
    Seqs.FilterNone(items, OfInvoice(id));
    RowsKeys(id, firstId, now, kept);
    Seqs.FilterAll(rows, OfInvoice(id));
  }

  /** Rows for invoice `id` leave the line items of every other invoice as they were. */
  lemma OtherItemsAfterSave(items: seq<LineItem>, id: nat, firstId: nat, now: Instant, kept: seq<Entry>, other: nat)
    requires other != id
    ensures Seqs.Filter(items + Rows(id, firstId, now, kept), OfInvoice(other)) == Seqs.Filter(items, OfInvoice(other))
  {
    var rows := Rows(id, firstId, now, kept);
    Seqs.FilterAppend(items, rows, OfInvoice(other));
    RowsKeys(id, firstId, now, kept);
    Seqs.FilterNone(rows, OfInvoice(other));
  }

  /** Creating an invoice keeps every integrity rule. */
  lemma CreateInvoiceSound(s: State, user: UserId, form: InvoiceForm, now: Instant)
    requires Sound(s)
    ensures Sound(CreateInvoiceIn(s, user, form, now).state)
  {
    var o := CreateInvoiceIn(s, user, form, now);
    if o.result.Ok? {
      var t, id, firstItem, kept := s.tables, s.next.invoice, s.next.lineItem, FormKept(form);
      var inv := Created(id, form, now);
      var rows := Rows(id, firstItem, now, kept);
      KeysBelowAppend(t.invoices, [inv], InvoiceKey, id, id + 1);
      RowsKeys(id, firstItem, now, kept);
      KeysBelowAppend(t.lineItems, rows, LineItemKey, firstItem, firstItem + |kept|);
      UniqueNumbersAppend(t.invoices, inv);
      var t' := o.state.tables;
      forall li | li in t'.lineItems
        ensures li.invoiceId in InvoiceIds(t'.invoices)
      {
        if li in t.lineItems {
          var x :| x in t.invoices && x.id == li.invoiceId;
          assert x in t'.invoices;
        } else {
          assert li in rows;
          assert inv in t'.invoices;
        }
      }
    }
  }

  /** A created invoice is visible to its creator, carries the form's values
      and starts as a draft, its line items are the rows of the form's
      billable entries, their amounts add up to its subtotal, and every other
      invoice keeps its line items. */
  lemma CreateInvoiceSaves(s: State, user: UserId, form: InvoiceForm, now: Instant)
    requires Sound(s)
    requires CreateInvoiceIn(s, user, form, now).result.Ok?
    ensures var o := CreateInvoiceIn(s, user, form, now);
      var id := o.result.value;
      var kept := FormKept(form);
      && InvoiceDetail(o.state.tables, user, id)
         == Ok(InvoiceView(Created(id, form, now), Rows(id, s.next.lineItem, now, kept)))
      && Seqs.SumBy(ItemsOf(o.state.tables, id), LineAmount) == Created(id, form, now).subtotal
      && NumberTaken(o.state.tables.invoices, form.number)
      && forall other :: other != id ==> ItemsOf(o.state.tables, other) == ItemsOf(s.tables, other)
  {
    var o := CreateInvoiceIn(s, user, form, now);
    var t, t', id, kept := s.tables, o.state.tables, s.next.invoice, FormKept(form);
    var inv := Created(id, form, now);
    var rows := Rows(id, s.next.lineItem, now, kept);
    forall li | li in t.lineItems
      ensures li.invoiceId != id
    {
      var x :| x in t.invoices && x.id == li.invoiceId;
    }
    ItemsAfterSave(t.lineItems, id, s.next.lineItem, now, kept);
    forall other | other != id
      ensures ItemsOf(t', other) == ItemsOf(t, other)
    {
      OtherItemsAfterSave(t.lineItems, id, s.next.lineItem, now, kept, other);
    }
    assert inv in t'.invoices;
    assert OwnsInvoice(t', user, inv);
    forall x | x in t'.invoices && x.id == id
      ensures x == inv
    {
      if x in t.invoices {
        assert false;
      }
    }
    var k := FindInvoice(t', user, id).value;
    assert t'.invoices[k] in t'.invoices;
    assert forall e :: e in kept ==> Billable(e);
    RowsMatchEntries(id, s.next.lineItem, now, kept);
  }

  /** The create handler on the session. */
  method CreateInvoice(db: Db, user: UserId, form: InvoiceForm, now: Instant) returns (r: Result<nat>)
    requires db.Valid()
    modifies db
    ensures var o := CreateInvoiceIn(old(db.Current()), user, form, now);
      r == o.result && db.Current() == o.state
    ensures db.Valid()
  {
    CreateInvoiceSound(db.Current(), user, form, now);
    if form.clientId !in OwnedClientIds(db.clients, user) {
      return Err(NotFound);
    }
    if NumberTaken(db.invoices, form.number) {
      return Err(Conflict);
    }
    var id := db.next.invoice;
    var items, subtotal := BuildLineItems(id, db.next.lineItem, now, form.descriptions, form.quantities, form.unitPrices);
    var tax := subtotal * (form.taxRate / 100.0);
    var inv := NewInvoice(id, form.clientId, form.number, form.issueDate, form.dueDate, now)
      .(taxRate := form.taxRate, currency := form.currency, notes := form.notes,
        subtotal := subtotal, taxAmount := tax, total := subtotal + tax);
    assert inv == Created(id, form, now);
    db.invoices := db.invoices + [inv];
    db.lineItems := db.lineItems + items;
    db.next := db.next.(invoice := id + 1, lineItem := db.next.lineItem + |items|);
    r := Ok(id);
  }

  // ---------------------------------------------------------------- edit

  /** Another invoice already carries `number`. */
  predicate NumberTakenByOther(invoices: seq<Invoice>, number: string, id: nat)
  {
    exists inv :: inv in invoices && inv.number == number && inv.id != id
  }

  /** POST /invoices/{id}/edit as written: NotFound unless the user may see
      the invoice; Conflict when another invoice carries the new number;
      otherwise the row is overwritten from the form (the new client id is
      taken as given) and its line items are replaced by the form's rows. */
  function UpdateInvoiceIn(s: State, user: UserId, id: nat, form: InvoiceForm, now: Instant): (o: Outcome<nat>)
    ensures o.result.Err? ==> o.state == s
    ensures o.result == Err(NotFound) <==> FindInvoice(s.tables, user, id).None?
    ensures o.result.Ok? <==> (FindInvoice(s.tables, user, id).Some?
                               && !NumberTakenByOther(s.tables.invoices, form.number, id))
    ensures o.result.Ok? ==> o.result.value == id
  {
    match FindInvoice(s.tables, user, id)
    case None => Outcome(Err(NotFound), s)
    case Some(k) =>
      if NumberTakenByOther(s.tables.invoices, form.number, id) then Outcome(Err(Conflict), s)
      else
        var kept := FormKept(form);
        var t := s.tables.(invoices := s.tables.invoices[k := Edited(s.tables.invoices[k], form)],
                           lineItems := Seqs.Filter(s.tables.lineItems, Seqs.Not(OfInvoice(id)))
                                        + Rows(id, s.next.lineItem, now, kept));
        Outcome(Ok(id), State(t, s.next.(lineItem := s.next.lineItem + |kept|)))
  }

  /** Filtering out one invoice's items and then selecting another's is the
      same as selecting the other's directly. */
  lemma FilterOtherInvoice(items: seq<LineItem>, id: nat, other: nat)
    requires other != id
    ensures Seqs.Filter(Seqs.Filter(items, Seqs.Not(OfInvoice(id))), OfInvoice(other)) == Seqs.Filter(items, OfInvoice(other))
  {
    Seqs.FilterFilter(items, Seqs.Not(OfInvoice(id)), OfInvoice(other));
  }

  /** Editing an invoice keeps every integrity rule. */
  lemma UpdateInvoiceSound(s: State, user: UserId, id: nat, form: InvoiceForm, now: Instant)
    requires Sound(s)
    ensures Sound(UpdateInvoiceIn(s, user, id, form, now).state)
  {
    var o := UpdateInvoiceIn(s, user, id, form, now);
    if o.result.Ok? {
      var t, k, kept := s.tables, FindInvoice(s.tables, user, id).value, FormKept(form);
      var firstItem := s.next.lineItem;
      var inv := Edited(t.invoices[k], form);
      var rows := Rows(id, firstItem, now, kept);
      var t' := o.state.tables;
      KeysBelowReplace(t.invoices, k, inv, InvoiceKey, s.next.invoice);
      forall other | other in t.invoices && other.number == inv.number
        ensures other.id == inv.id
      {
      }
      UniqueNumbersReplace(t.invoices, k, inv);
      InvoiceIdsReplace(t.invoices, k, inv);
      var rest := Seqs.Filter(t.lineItems, Seqs.Not(OfInvoice(id)));
      KeysBelowFilter(t.lineItems, Seqs.Not(OfInvoice(id)), LineItemKey, firstItem);
      RowsKeys(id, firstItem, now, kept);
      KeysBelowAppend(rest, rows, LineItemKey, firstItem, firstItem + |kept|);
      forall x | x in t'.invoices
        ensures StatusConsistent(x)
      {
        var i :| 0 <= i < |t'.invoices| && t'.invoices[i] == x;
        assert t.invoices[i] in t.invoices;
      }
      forall li | li in t'.lineItems
        ensures li.invoiceId in InvoiceIds(t'.invoices)
      {
        if li in rest {
        } else {
          assert li in rows;
          assert t.invoices[k] in t.invoices;
        }
      }
    }
  }

  /** A successful edit overwrites the invoice from the form while keeping its
      status and paid date, replaces its line items wholesale by the rows of
      the form's billable entries, whose amounts add up to the new subtotal,
      and leaves every other invoice and its line items as they were. */
  lemma UpdateInvoiceSaves(s: State, user: UserId, id: nat, form: InvoiceForm, now: Instant)
    requires Sound(s)
    requires FindInvoice(s.tables, user, id).Some? && !NumberTakenByOther(s.tables.invoices, form.number, id)
    ensures var o := UpdateInvoiceIn(s, user, id, form, now);
      var k := FindInvoice(s.tables, user, id).value;
      var t' := o.state.tables;
      && |t'.invoices| == |s.tables.invoices|
      && t'.invoices[k] == Edited(s.tables.invoices[k], form)
      && (forall i :: 0 <= i < |t'.invoices| && i != k ==> t'.invoices[i] == s.tables.invoices[i])
      && ItemsOf(t', id) == Rows(id, s.next.lineItem, now, FormKept(form))
      && Seqs.SumBy(ItemsOf(t', id), LineAmount) == t'.invoices[k].subtotal
      && (forall other :: other != id ==> ItemsOf(t', other) == ItemsOf(s.tables, other))
  {
    var o := UpdateInvoiceIn(s, user, id, form, now);
    var t, t', kept := s.tables, o.state.tables, FormKept(form);
    var rest := Seqs.Filter(t.lineItems, Seqs.Not(OfInvoice(id)));
    ItemsAfterSave(rest, id, s.next.lineItem, now, kept);
    forall other | other != id
      ensures ItemsOf(t', other) == ItemsOf(t, other)
    {
      OtherItemsAfterSave(rest, id, s.next.lineItem, now, kept, other);
      FilterOtherInvoice(t.lineItems, id, other);
    }
    assert forall e :: e in kept ==> Billable(e);
    RowsMatchEntries(id, s.next.lineItem, now, kept);
  }

  /** The columns the edit handler writes are those of `Edited`. */
  lemma EditedWith(inv: Invoice, form: InvoiceForm, subtotal: real)
    requires subtotal == TotalsOf(FormKept(form), 0.0).subtotal
    ensures var tax := subtotal * (form.taxRate / 100.0);
      Edited(inv, form)
        == inv.(clientId := form.clientId, number := form.number, issueDate := form.issueDate,
                dueDate := form.dueDate, taxRate := form.taxRate, currency := form.currency, notes := form.notes,
                subtotal := subtotal, taxAmount := tax, total := subtotal + tax)
  {
  }

  /** The state a successful edit leaves, in the terms the handler below
      computes it: the loop's rows and subtotal written into the row. */
  lemma UpdateInvoiceOk(s: State, user: UserId, id: nat, form: InvoiceForm, now: Instant, k: nat,
                        items: seq<LineItem>, subtotal: real)
    requires FindInvoice(s.tables, user, id) == Some(k)
    requires !NumberTakenByOther(s.tables.invoices, form.number, id)
    requires items == Rows(id, s.next.lineItem, now, FormKept(form))
    requires subtotal == TotalsOf(FormKept(form), 0.0).subtotal
    ensures var t := s.tables;
      var tax := subtotal * (form.taxRate / 100.0);
      var inv := t.invoices[k].(clientId := form.clientId, number := form.number, issueDate := form.issueDate,
                                dueDate := form.dueDate, taxRate := form.taxRate, currency := form.currency,
                                notes := form.notes, subtotal := subtotal, taxAmount := tax, total := subtotal + tax);
      UpdateInvoiceIn(s, user, id, form, now)
        == Outcome(Ok(id), State(Tables(t.clients, t.invoices[k := inv],
                                        Seqs.Filter(t.lineItems, Seqs.Not(OfInvoice(id))) + items,
                                        t.expenses, t.insights),
                                 s.next.(lineItem := s.next.lineItem + |items|)))
  {
    EditedWith(s.tables.invoices[k], form, subtotal);
  }

  /** The edit handler on the session, as written. */
  method UpdateInvoice(db: Db, user: UserId, id: nat, form: InvoiceForm, now: Instant) returns (r: Result<nat>)
    requires db.Valid()
    modifies db
    ensures var o := UpdateInvoiceIn(old(db.Current()), user, id, form, now);
      r == o.result && db.Current() == o.state
    ensures db.Valid()
  {
    UpdateInvoiceSound(db.Current(), user, id, form, now);
    var found := FindInvoice(db.Snapshot(), user, id);
    if found.None? {
      return Err(NotFound);
    }
    if NumberTakenByOther(db.invoices, form.number, id) {
      return Err(Conflict);
    }
    SaveEdit(db, user, id, found.value, form, now);
    r := Ok(id);
  }

  /** The writes of a successful edit: the row's columns from the form, its
      old line items deleted and the form's billable entries inserted. */
  method SaveEdit(db: Db, user: UserId, id: nat, k: nat, form: InvoiceForm, now: Instant)
    requires FindInvoice(db.Snapshot(), user, id) == Some(k)
    requires !NumberTakenByOther(db.invoices, form.number, id)
    modifies db
    ensures db.Current() == UpdateInvoiceIn(old(db.Current()), user, id, form, now).state
  {
    var items, subtotal := BuildLineItems(id, db.next.lineItem, now, form.descriptions, form.quantities, form.unitPrices);
    var tax := subtotal * (form.taxRate / 100.0);
    var inv := db.invoices[k]
      .(clientId := form.clientId, number := form.number, issueDate := form.issueDate,
        dueDate := form.dueDate, taxRate := form.taxRate, currency := form.currency, notes := form.notes,
        subtotal := subtotal, taxAmount := tax, total := subtotal + tax);
    UpdateInvoiceOk(db.Current(), user, id, form, now, k, items, subtotal);
    db.invoices := db.invoices[k := inv];
    db.lineItems := Seqs.Filter(db.lineItems, Seqs.Not(OfInvoice(id))) + items;
    db.next := db.next.(lineItem := db.next.lineItem + |items|);
  }

  /** The edit takes the posted client id without checking who owns it: an
      invoice of user "a" can be moved to a client of user "b", after which
      "a" no longer sees it and "b" does. */
  lemma EditCanHandInvoiceToAnotherOwner(inv: Invoice, form: InvoiceForm)
    requires inv.clientId == 1 && form.clientId == 2
    ensures var t := Tables([Client(1, "a", "A", "a@x", None, None, None, None, None, None, 0),
                             Client(2, "b", "B", "b@x", None, None, None, None, None, None, 0)],
                            [inv], [], [], []);
      && OwnsInvoice(t, "a", inv)
      && !OwnsInvoice(t, "a", Edited(inv, form))
      && OwnsInvoice(t, "b", Edited(inv, form))
  {
    var ca := Client(1, "a", "A", "a@x", None, None, None, None, None, None, 0);
    var cb := Client(2, "b", "B", "b@x", None, None, None, None, None, None, 0);
    var t := Tables([ca, cb], [inv], [], [], []);
    assert ca in t.clients && cb in t.clients;
    assert OwnedClientIds(t.clients, "a") == {1};
  }

  /** The edit as evidently intended: the new client must belong to the user too. */
  function UpdateInvoiceCheckedIn(s: State, user: UserId, id: nat, form: InvoiceForm, now: Instant): (o: Outcome<nat>)
    ensures form.clientId !in OwnedClientIds(s.tables.clients, user) ==> o == Outcome(Err(NotFound), s)
    ensures form.clientId in OwnedClientIds(s.tables.clients, user) ==> o == UpdateInvoiceIn(s, user, id, form, now)
  {
    if form.clientId !in OwnedClientIds(s.tables.clients, user) then Outcome(Err(NotFound), s)
    else UpdateInvoiceIn(s, user, id, form, now)
  }

  /** With the check, an edited invoice stays visible to the user who edited it. */
  lemma CheckedEditKeepsOwner(s: State, user: UserId, id: nat, form: InvoiceForm, now: Instant)
    requires Sound(s)
    ensures var o := UpdateInvoiceCheckedIn(s, user, id, form, now);
      o.result.Ok? ==> InvoiceDetail(o.state.tables, user, id).Ok?
  {
    var o := UpdateInvoiceCheckedIn(s, user, id, form, now);
    if o.result.Ok? {
      UpdateInvoiceSaves(s, user, id, form, now);
      var k := FindInvoice(s.tables, user, id).value;
      var t' := o.state.tables;
      assert t'.invoices[k] in t'.invoices;
      assert t'.clients == s.tables.clients;
      assert OwnsInvoice(t', user, t'.invoices[k]);
    }
  }

  /** The edit handler with the ownership check on the new client. */
  method UpdateInvoiceChecked(db: Db, user: UserId, id: nat, form: InvoiceForm, now: Instant) returns (r: Result<nat>)
    requires db.Valid()
    modifies db
    ensures var o := UpdateInvoiceCheckedIn(old(db.Current()), user, id, form, now);
      r == o.result && db.Current() == o.state
    ensures db.Valid()
  {
    if form.clientId !in OwnedClientIds(db.clients, user) {
      return Err(NotFound);
    }
    r := UpdateInvoice(db, user, id, form, now);
  }

  // ---------------------------------------------------------------- status

  /** POST /invoices/{id}/status: NotFound unless the user may see the
      invoice; otherwise the status machine applied to that row (an unknown
      label leaves it as it was). */
  function UpdateStatusIn(s: State, user: UserId, id: nat, newStatus: string, today: Calendar.Day): (o: Outcome<nat>)
    ensures o.result.Err? ==> o.result.error == NotFound && o.state == s
    ensures o.result.Ok? <==> FindInvoice(s.tables, user, id).Some?
    ensures o.result.Ok? ==> o.result.value == id
  {
    match FindInvoice(s.tables, user, id)
    case None => Outcome(Err(NotFound), s)
    case Some(k) =>
      var t := s.tables.(invoices := s.tables.invoices[k := Status.ApplyStatus(s.tables.invoices[k], newStatus, today)]);
      Outcome(Ok(id), s.(tables := t))
  }

  /** A status change keeps every integrity rule; it touches only that
      invoice's status and paid date, and an unknown label changes nothing. */
  lemma UpdateStatusSound(s: State, user: UserId, id: nat, newStatus: string, today: Calendar.Day)
    requires Sound(s)
    ensures var o := UpdateStatusIn(s, user, id, newStatus, today);
      && Sound(o.state)
      && o.state.tables.lineItems == s.tables.lineItems
      && o.state.tables.clients == s.tables.clients
      && o.state.tables.expenses == s.tables.expenses
      && o.state.tables.insights == s.tables.insights
      && o.state.next == s.next
      && |o.state.tables.invoices| == |s.tables.invoices|
      && (!IsStatusLabel(newStatus) ==> o.state == s)
      && (o.result.Ok? ==>
            var k := FindInvoice(s.tables, user, id).value;
            && (forall i :: 0 <= i < |s.tables.invoices| && i != k ==> o.state.tables.invoices[i] == s.tables.invoices[i])
            && o.state.tables.invoices[k].status == (if IsStatusLabel(newStatus) then newStatus else s.tables.invoices[k].status)
            && o.state.tables.invoices[k] == s.tables.invoices[k].(status := o.state.tables.invoices[k].status,
                                                                  paidDate := o.state.tables.invoices[k].paidDate)
            && (newStatus == "paid" ==> o.state.tables.invoices[k].paidDate == Some(today))
            && (IsStatusLabel(newStatus) && newStatus != "paid" ==> o.state.tables.invoices[k].paidDate == None))
  {
    UpdateStatusKeepsSound(s, user, id, newStatus, today);
    var o := UpdateStatusIn(s, user, id, newStatus, today);
    if o.result.Ok? && !IsStatusLabel(newStatus) {
      var k := FindInvoice(s.tables, user, id).value;
      assert s.tables.invoices[k := s.tables.invoices[k]] == s.tables.invoices;
    }
  }

  /** The integrity rules survive a status change. */
  lemma UpdateStatusKeepsSound(s: State, user: UserId, id: nat, newStatus: string, today: Calendar.Day)
    requires Sound(s)
    ensures Sound(UpdateStatusIn(s, user, id, newStatus, today).state)
  {
    var o := UpdateStatusIn(s, user, id, newStatus, today);
    if o.result.Ok? {
      var t, k := s.tables, FindInvoice(s.tables, user, id).value;
      var inv := Status.ApplyStatus(t.invoices[k], newStatus, today);
      var t' := o.state.tables;
      assert t.invoices[k] in t.invoices;
      Status.ApplyStatusConsistent(t.invoices[k], newStatus, today);
      KeysBelowReplace(t.invoices, k, inv, InvoiceKey, s.next.invoice);
      UniqueNumbersReplace(t.invoices, k, inv);
      InvoiceIdsReplace(t.invoices, k, inv);
      forall x | x in t'.invoices
        ensures StatusConsistent(x)
      {
        var i :| 0 <= i < |t'.invoices| && t'.invoices[i] == x;
        assert t.invoices[i] in t.invoices;
      }
    }
  }

  /** The status handler on the session. */
  method UpdateInvoiceStatus(db: Db, user: UserId, id: nat, newStatus: string, today: Calendar.Day) returns (r: Result<nat>)
    requires db.Valid()
    modifies db
    ensures var o := UpdateStatusIn(old(db.Current()), user, id, newStatus, today);
      r == o.result && db.Current() == o.state
    ensures db.Valid()
  {
    UpdateStatusSound(db.Current(), user, id, newStatus, today);
    var found := FindInvoice(db.Snapshot(), user, id);
    if found.None? {
      return Err(NotFound);
    }
    var k := found.value;
    if newStatus in StatusLabels {
      var inv := db.invoices[k].(status := newStatus);
      if newStatus == "paid" {
        inv := inv.(paidDate := Some(today));
      } else if inv.paidDate.Some? {
        inv := inv.(paidDate := None);
      }
      db.invoices := db.invoices[k := inv];
    } else {
      assert db.invoices[k := db.invoices[k]] == db.invoices;
    }
    r := Ok(id);
  }

  // ---------------------------------------------------------------- delete

  /** POST /invoices/{id}/delete: NotFound unless the user may see the
      invoice; otherwise the invoice row goes and its line items with it. */
  function DeleteInvoiceIn(s: State, user: UserId, id: nat): (o: Outcome<nat>)
    ensures o.result.Err? ==> o.result.error == NotFound && o.state == s
    ensures o.result.Ok? <==> FindInvoice(s.tables, user, id).Some?
    ensures o.result.Ok? ==> o.result.value == id
  {
    match FindInvoice(s.tables, user, id)
    case None => Outcome(Err(NotFound), s)
    case Some(k) =>
      var t := s.tables.(invoices := Seqs.RemoveAt(s.tables.invoices, k),
                         lineItems := Seqs.Filter(s.tables.lineItems, Seqs.Not(OfInvoice(id))));
      Outcome(Ok(id), s.(tables := t))
  }

  /** Deleting an invoice keeps every integrity rule, leaves no invoice and no
      line item with its id, and keeps every other invoice and its items. */
  lemma DeleteInvoiceSound(s: State, user: UserId, id: nat)
    requires Sound(s)
    ensures var o := DeleteInvoiceIn(s, user, id);
      && Sound(o.state)
      && (o.result.Ok? ==>
            && (forall inv :: inv in o.state.tables.invoices ==> inv.id != id)
            && ItemsOf(o.state.tables, id) == []
            && (forall inv :: inv in s.tables.invoices && inv.id != id ==> inv in o.state.tables.invoices)
            && (forall other :: other != id ==> ItemsOf(o.state.tables, other) == ItemsOf(s.tables, other)))
  {
    var o := DeleteInvoiceIn(s, user, id);
    if o.result.Ok? {
      var t, k := s.tables, FindInvoice(s.tables, user, id).value;
      var t' := o.state.tables;
      KeysBelowRemoveAt(t.invoices, k, InvoiceKey, s.next.invoice);
      KeysBelowFilter(t.lineItems, Seqs.Not(OfInvoice(id)), LineItemKey, s.next.lineItem);
      assert forall x :: x in t'.invoices ==> x in t.invoices;
      forall li | li in t'.lineItems
        ensures li.invoiceId in InvoiceIds(t'.invoices)
      {
        var x :| x in t.invoices && x.id == li.invoiceId;
        assert x in t'.invoices;
      }
      Seqs.FilterNone(t'.lineItems, OfInvoice(id));
      forall other | other != id
        ensures ItemsOf(t', other) == ItemsOf(t, other)
      {
        FilterOtherInvoice(t.lineItems, id, other);
      }
    }
  }

  /** The delete handler on the session. */
  method DeleteInvoice(db: Db, user: UserId, id: nat) returns (r: Result<nat>)
    requires db.Valid()
    modifies db
    ensures var o := DeleteInvoiceIn(old(db.Current()), user, id);
      r == o.result && db.Current() == o.state
    ensures db.Valid()
  {
    DeleteInvoiceSound(db.Current(), user, id);
    var found := FindInvoice(db.Snapshot(), user, id);
    if found.None? {
      return Err(NotFound);
    }
    db.invoices := Seqs.RemoveAt(db.invoices, found.value);
    db.lineItems := Seqs.Filter(db.lineItems, Seqs.Not(OfInvoice(id)));
    r := Ok(id);
  }
}
