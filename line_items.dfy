/** The line-item calculator shared by invoice creation and invoice editing:
    the form's three parallel lists become entries, the billable entries become
    line-item rows, and their amounts give the subtotal, the tax and the total. */
module LineItems {
  import opened Models
  import Seqs

  /** One submitted row of the invoice form. */
  datatype Entry = Entry(description: string, quantity: real, unitPrice: real)

  /** The invoice's money columns. */
  datatype Totals = Totals(subtotal: real, taxAmount: real, total: real)

  function Min3(a: nat, b: nat, c: nat): (m: nat)
    ensures m <= a && m <= b && m <= c
    ensures m == a || m == b || m == c
  {
    if a <= b && a <= c then a else if b <= c then b else c
  }

  /** The rows the three lists describe: as many as the shortest list, the
      surplus of the longer lists ignored. */
  function Entries(descriptions: seq<string>, quantities: seq<real>, unitPrices: seq<real>): (r: seq<Entry>)
    ensures |r| == Min3(|descriptions|, |quantities|, |unitPrices|)
    ensures forall i :: 0 <= i < |r| ==> r[i] == Entry(descriptions[i], quantities[i], unitPrices[i])
  {
    var n := Min3(|descriptions|, |quantities|, |unitPrices|);
    seq(n, i requires 0 <= i < n => Entry(descriptions[i], quantities[i], unitPrices[i]))
  }

  /** An entry becomes a line item iff it has a description and a positive quantity. */
  predicate Billable(e: Entry)
  {
    e.description != "" && e.quantity > 0.0
  }

  function IsBillable(): Entry -> bool
  {
    (e: Entry) => Billable(e)
  }

  function Amount(e: Entry): real
  {
    e.quantity * e.unitPrice
  }

  /** The entries that become line items, in submitted order. */
  function Kept(entries: seq<Entry>): (r: seq<Entry>)
    ensures forall e :: e in r ==> e in entries && Billable(e)
    ensures forall e :: e in entries && Billable(e) ==> e in r
  {
    Seqs.Filter(entries, IsBillable())
  }

  /** The totals of an invoice whose kept entries are `kept`, taxed at
      `taxRate` percent. */
  function TotalsOf(kept: seq<Entry>, taxRate: real): (t: Totals)
    ensures t.subtotal == Seqs.SumBy(kept, Amount)
    ensures t.taxAmount == t.subtotal * (taxRate / 100.0)
    ensures t.total == t.subtotal + t.taxAmount
  {
    var subtotal := Seqs.SumBy(kept, Amount);
    var tax := subtotal * (taxRate / 100.0);
    Totals(subtotal, tax, subtotal + tax)
  }

  /** The line-item rows stored for the kept entries of invoice `invoiceId`,
      their ids allocated consecutively from `firstId`. */
  function Rows(invoiceId: nat, firstId: nat, createdAt: Instant, kept: seq<Entry>): (r: seq<LineItem>)
    ensures |r| == |kept|
    ensures forall i :: 0 <= i < |r| ==> r[i].id == firstId + i && r[i].invoiceId == invoiceId
  {
    seq(|kept|, i requires 0 <= i < |kept| =>
      LineItem(firstId + i, invoiceId, kept[i].description, kept[i].quantity, kept[i].unitPrice,
               Amount(kept[i]), createdAt))
  }

  /** The rows' ids are consecutive from `firstId`, all for `invoiceId`. */
  lemma RowsKeys(invoiceId: nat, firstId: nat, createdAt: Instant, kept: seq<Entry>)
    ensures var r := Rows(invoiceId, firstId, createdAt, kept);
      && Seqs.IncreasingBy(r, LineItemKey)
      && forall li :: li in r ==> firstId <= li.id < firstId + |kept| && li.invoiceId == invoiceId
  {
  }

  function LineAmount(li: LineItem): real
  {
    li.amount
  }

  /** Each stored row carries its entry's description, quantity and unit price,
      has a non-empty description, a positive quantity and amount = quantity x
      unit price, and the rows' amounts add up to the invoice subtotal. */
  lemma {:induction false} RowsMatchEntries(invoiceId: nat, firstId: nat, createdAt: Instant, kept: seq<Entry>)
    requires forall e :: e in kept ==> Billable(e)
    decreases kept
    ensures var r := Rows(invoiceId, firstId, createdAt, kept);
      && (forall i :: 0 <= i < |r| ==>
            && r[i].description == kept[i].description
            && r[i].quantity == kept[i].quantity
            && r[i].unitPrice == kept[i].unitPrice)
      && (forall li :: li in r ==>
            li.description != "" && li.quantity > 0.0 && li.amount == li.quantity * li.unitPrice)
      && Seqs.SumBy(r, LineAmount) == TotalsOf(kept, 0.0).subtotal
  {
    var r := Rows(invoiceId, firstId, createdAt, kept);
    forall li | li in r
      ensures li.description != "" && li.quantity > 0.0 && li.amount == li.quantity * li.unitPrice
    {
      var i :| 0 <= i < |r| && r[i] == li;
      assert kept[i] in kept;
    }
    if kept != [] {
      RowsMatchEntries(invoiceId, firstId + 1, createdAt, kept[1..]);
      assert r[1..] == Rows(invoiceId, firstId + 1, createdAt, kept[1..]);
    }
  }

  // ---------------------------------------------------------------- reference definition

  /** What an entry adds to the subtotal: its amount when billable, nothing otherwise. */
  function Contribution(e: Entry): real
  {
    if Billable(e) then Amount(e) else 0.0
  }

  /** The subtotal sums every submitted entry's contribution: entries without a
      description or with a quantity of zero or less change nothing. */
  lemma {:induction false} SubtotalIgnoresDroppedEntries(entries: seq<Entry>)
    ensures TotalsOf(Kept(entries), 0.0).subtotal == Seqs.SumBy(entries, Contribution)
  {
    if entries != [] {
      SubtotalIgnoresDroppedEntries(entries[1..]);
      var head := if Billable(entries[0]) then [entries[0]] else [];
      assert Kept(entries) == head + Kept(entries[1..]);
      Seqs.SumByAppend(head, Kept(entries[1..]), Amount);
    }
  }

  /** Adding one more entry at the end of the form: it is kept iff billable,
      after the entries already kept. */
  lemma KeptSnoc(entries: seq<Entry>, e: Entry)
    ensures Kept(entries + [e]) == Kept(entries) + (if Billable(e) then [e] else [])
  {
    Seqs.FilterAppend(entries, [e], IsBillable());
  }

  lemma RowsSnoc(invoiceId: nat, firstId: nat, createdAt: Instant, kept: seq<Entry>, e: Entry)
    ensures Rows(invoiceId, firstId, createdAt, kept + [e])
         == Rows(invoiceId, firstId, createdAt, kept)
            + [LineItem(firstId + |kept|, invoiceId, e.description, e.quantity, e.unitPrice, Amount(e), createdAt)]
  {
  }

  /** One turn of the loop below, for entry `i` = (desc, qty, price): it adds
      a row and qty x price to the subtotal when it is billable, and nothing
      otherwise. */
  lemma LoopStep(invoiceId: nat, firstId: nat, createdAt: Instant, entries: seq<Entry>, i: nat,
                 desc: string, qty: real, price: real)
    requires i < |entries| && entries[i] == Entry(desc, qty, price)
    ensures var before, after := Kept(entries[..i]), Kept(entries[..i + 1]);
      && (desc != "" && qty > 0.0 ==>
            && after == before + [entries[i]]
            && Rows(invoiceId, firstId, createdAt, after)
               == Rows(invoiceId, firstId, createdAt, before)
                  + [LineItem(firstId + |before|, invoiceId, desc, qty, price, qty * price, createdAt)]
            && Seqs.SumBy(after, Amount) == Seqs.SumBy(before, Amount) + qty * price)
      && (!(desc != "" && qty > 0.0) ==> after == before)
  {
    var before, e := Kept(entries[..i]), entries[i];
    assert entries[..i + 1] == entries[..i] + [e];
    KeptSnoc(entries[..i], e);
    if Billable(e) {
      assert Amount(e) == qty * price;
      Seqs.SumByAppend(before, [e], Amount);
      assert [e][1..] == [];
      assert Seqs.SumBy([e], Amount) == Amount(e);
      RowsSnoc(invoiceId, firstId, createdAt, before, e);
    }
  }

  /** The loop of invoice creation and editing: walks the first min(...) entries
      of the three lists, accumulates the subtotal and builds a line-item row for
      every billable entry, ids allocated from `firstId`. */
  method BuildLineItems(invoiceId: nat, firstId: nat, createdAt: Instant,
                        descriptions: seq<string>, quantities: seq<real>, unitPrices: seq<real>)
    returns (items: seq<LineItem>, subtotal: real)
    ensures var kept := Kept(Entries(descriptions, quantities, unitPrices));
      && items == Rows(invoiceId, firstId, createdAt, kept)
      && subtotal == TotalsOf(kept, 0.0).subtotal
  {
    ghost var entries := Entries(descriptions, quantities, unitPrices);
    var count := Min3(|descriptions|, |quantities|, |unitPrices|);
    items := [];
    subtotal := 0.0;
    ghost var kept: seq<Entry> := [];
    var i := 0;
    assert Kept(entries[..0]) == [];
    assert Rows(invoiceId, firstId, createdAt, []) == [];
    while i < count
      invariant 0 <= i <= count
      invariant kept == Kept(entries[..i])
      invariant items == Rows(invoiceId, firstId, createdAt, kept)
      invariant subtotal == Seqs.SumBy(kept, Amount)
    {
      var desc := descriptions[i];
      var qty := quantities[i];
      var price := unitPrices[i];
      LoopStep(invoiceId, firstId, createdAt, entries, i, desc, qty, price);
      if desc != "" && qty > 0.0 {
        var amt := qty * price;
        subtotal := subtotal + amt;
        items := items + [LineItem(firstId + |items|, invoiceId, desc, qty, price, amt, createdAt)];
        kept := kept + [entries[i]];
      }
      i := i + 1;
    }
    assert entries[..count] == entries;
  }

  // ---------------------------------------------------------------- a worked example

  /** Two billable rows, one row without a description and a surplus quantity:
      2 x 100 + 1 x 50 at 10 % gives 250 + 25 = 275. */
  lemma WorkedExample()
    ensures var kept := Kept(Entries(["Design", "", "Hosting"], [2.0, 5.0, 1.0, 7.0], [100.0, 9.0, 50.0]));
      && kept == [Entry("Design", 2.0, 100.0), Entry("Hosting", 1.0, 50.0)]
      && TotalsOf(kept, 10.0) == Totals(250.0, 25.0, 275.0)
  {
    var entries := Entries(["Design", "", "Hosting"], [2.0, 5.0, 1.0, 7.0], [100.0, 9.0, 50.0]);
    var e0, e1, e2 := Entry("Design", 2.0, 100.0), Entry("", 5.0, 9.0), Entry("Hosting", 1.0, 50.0);
    assert entries == [e0, e1, e2];
    assert Kept([e2]) == [e2] by {
      assert [e2][1..] == [];
    }
    assert Kept([e1, e2]) == [e2] by {
      assert [e1, e2][1..] == [e2];
    }
    assert Kept(entries) == [e0, e2] by {
      assert [e0, e1, e2][1..] == [e1, e2];
    }
    assert Seqs.SumBy([e0, e2], Amount) == 250.0 by {
      assert [e0, e2][1..] == [e2];
      assert [e2][1..] == [];
    }
  }
}
