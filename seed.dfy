/** The demo fixture written for a user the first time their dashboard is
    opened: six clients, eight invoices with nineteen line items, ten
    expenses and two insights. Fixture positions 1..n stand for the rows
    created first, and are remapped to the ids those rows receive. */
module Seed {
  import opened Wrappers
  import opened Models
  import Seqs
  import opened Calendar
  import opened Store
  import LineItems

  /** A 1-based position in a fixture list. */
  type Index = k: nat | 1 <= k witness 1

  datatype ClientFixture = ClientFixture(
    name: string, email: string, phone: string, address: string, city: string, country: string,
    taxId: Option<string>)

  datatype InvoiceFixture = InvoiceFixture(
    client: Index, number: string, status: string, issueDate: Day, dueDate: Day,
    subtotal: real, taxRate: real, taxAmount: real, total: real, currency: string, notes: string,
    paidDate: Option<Day>)

  datatype ItemFixture = ItemFixture(invoice: Index, description: string, quantity: real, unitPrice: real, amount: real)

  datatype ExpenseFixture = ExpenseFixture(
    category: string, description: string, amount: real, currency: string, date: Day, vendor: string,
    taxDeductible: bool)

  datatype InsightFixture = InsightFixture(insightType: string, content: string, modelUsed: string, requestedBy: string)

  /** A calendar date written as year, month and day, as `strptime` reads it. */
  function On(y: int, m: int, d: int): Day
    requires Valid(Ymd(y, m, d))
  {
    ToOrdinal(Ymd(y, m, d))
  }

  const ClientsData: seq<ClientFixture> := [
    ClientFixture("Acme Corporation", "billing@acme.com", "+1-555-0201", "123 Business Ave", "San Francisco", "US", Some("US-94-1234567")),
    ClientFixture("TechStart Inc", "ap@techstart.io", "+1-555-0202", "456 Innovation Blvd", "Austin", "US", Some("US-73-7654321")),
    ClientFixture("Global Retail Group", "finance@globalretail.com", "+44-20-5550303", "78 Commerce St", "London", "UK", Some("GB-123456789")),
    ClientFixture("Nordic Design Studio", "invoices@nordicdesign.se", "+46-8-5550404", "15 Kreativ Gatan", "Stockholm", "SE", Some("SE-559012345601")),
    ClientFixture("Marina Bay Consulting", "accounts@marinabay.sg", "+65-5550505", "88 Raffles Place", "Singapore", "SG", Some("SG-201912345K")),
    ClientFixture("Cloudworks Solutions", "billing@cloudworks.dev", "+1-555-0606", "321 Cloud Lane", "Seattle", "US", None)]

  const InvoicesData: seq<InvoiceFixture> := [
    InvoiceFixture(1, "INV-2026-001", "paid", On(2026, 1, 5), On(2026, 1, 20), 12500.00, 10.0, 1250.00, 13750.00, "USD", "Website redesign - Phase 1", Some(On(2026, 1, 18))),
    InvoiceFixture(1, "INV-2026-002", "paid", On(2026, 1, 20), On(2026, 2, 5), 8500.00, 10.0, 850.00, 9350.00, "USD", "Website redesign - Phase 2", Some(On(2026, 2, 3))),
    InvoiceFixture(2, "INV-2026-003", "sent", On(2026, 2, 1), On(2026, 2, 15), 15000.00, 0.0, 0.00, 15000.00, "USD", "Mobile app development - Sprint 1", None),
    InvoiceFixture(3, "INV-2026-004", "overdue", On(2026, 1, 10), On(2026, 1, 25), 22000.00, 20.0, 4400.00, 26400.00, "GBP", "E-commerce platform integration", None),
    InvoiceFixture(4, "INV-2026-005", "draft", On(2026, 2, 10), On(2026, 2, 25), 7500.00, 25.0, 1875.00, 9375.00, "SEK", "Brand identity refresh", None),
    InvoiceFixture(5, "INV-2026-006", "sent", On(2026, 2, 8), On(2026, 2, 22), 18000.00, 8.0, 1440.00, 19440.00, "SGD", "AI strategy consulting - February", None),
    InvoiceFixture(6, "INV-2026-007", "paid", On(2026, 1, 15), On(2026, 1, 30), 5000.00, 10.0, 500.00, 5500.00, "USD", "Cloud migration assessment", Some(On(2026, 1, 28))),
    InvoiceFixture(2, "INV-2026-008", "viewed", On(2026, 2, 12), On(2026, 2, 26), 15000.00, 0.0, 0.00, 15000.00, "USD", "Mobile app development - Sprint 2", None)]

  const ItemsData: seq<ItemFixture> := [
    ItemFixture(1, "UX Research & Discovery", 40.0, 150.00, 6000.00),
    ItemFixture(1, "UI Design - Homepage & Landing Pages", 25.0, 175.00, 4375.00),
    ItemFixture(1, "Design System Documentation", 12.5, 170.00, 2125.00),
    ItemFixture(2, "Frontend Development", 50.0, 170.00, 8500.00),
    ItemFixture(3, "React Native Development", 60.0, 175.00, 10500.00),
    ItemFixture(3, "API Integration", 30.0, 150.00, 4500.00),
    ItemFixture(4, "Shopify Integration", 80.0, 160.00, 12800.00),
    ItemFixture(4, "Payment Gateway Setup", 40.0, 155.00, 6200.00),
    ItemFixture(4, "Data Migration Scripts", 20.0, 150.00, 3000.00),
    ItemFixture(5, "Brand Strategy Workshop", 8.0, 200.00, 1600.00),
    ItemFixture(5, "Logo & Visual Identity Design", 30.0, 175.00, 5250.00),
    ItemFixture(5, "Brand Guidelines Document", 5.0, 130.00, 650.00),
    ItemFixture(6, "AI Strategy Assessment", 40.0, 250.00, 10000.00),
    ItemFixture(6, "Implementation Roadmap", 20.0, 250.00, 5000.00),
    ItemFixture(6, "Team Training Sessions", 12.0, 250.00, 3000.00),
    ItemFixture(7, "Cloud Architecture Review", 20.0, 175.00, 3500.00),
    ItemFixture(7, "Migration Plan Document", 10.0, 150.00, 1500.00),
    ItemFixture(8, "React Native Development - Sprint 2", 60.0, 175.00, 10500.00),
    ItemFixture(8, "Push Notification System", 30.0, 150.00, 4500.00)]

  const ExpensesData: seq<ExpenseFixture> := [
    ExpenseFixture("software", "GitHub Team Plan", 44.00, "USD", On(2026, 1, 1), "GitHub", true),
    ExpenseFixture("software", "Figma Professional", 15.00, "USD", On(2026, 1, 1), "Figma", true),
    ExpenseFixture("software", "AWS Monthly", 287.50, "USD", On(2026, 1, 31), "Amazon Web Services", true),
    ExpenseFixture("hardware", "Mechanical Keyboard", 189.00, "USD", On(2026, 1, 15), "Keychron", true),
    ExpenseFixture("travel", "Client meeting - Flight SFO to AUS", 385.00, "USD", On(2026, 1, 22), "United Airlines", true),
    ExpenseFixture("travel", "Hotel 2 nights - Austin", 420.00, "USD", On(2026, 1, 22), "Hilton", true),
    ExpenseFixture("marketing", "LinkedIn Ads - January", 500.00, "USD", On(2026, 1, 31), "LinkedIn", true),
    ExpenseFixture("professional", "Accounting services Q4", 750.00, "USD", On(2026, 1, 10), "Smith & Associates CPA", true),
    ExpenseFixture("office", "Coworking space February", 350.00, "USD", On(2026, 2, 1), "WeWork", true),
    ExpenseFixture("software", "Anthropic API usage", 200.00, "USD", On(2026, 2, 1), "Anthropic", true)]

  const InsightsData: seq<InsightFixture> := [
    InsightFixture("revenue_forecast",
      "REVENUE TREND: Q1 2026 is tracking strong at $89,815 invoiced across 8 invoices. Based on current pipeline: $15,000 pending from TechStart (Sprint 1), $19,440 from Marina Bay Consulting, and $9,375 draft for Nordic Design. If all outstanding invoices are collected, Q1 revenue will reach $89,815. RISK: Global Retail Group invoice ($26,400 GBP) is overdue by 21 days — recommend immediate follow-up. Cash collection rate: 72% within terms.",
      "seed_data", "system"),
    InsightFixture("expense_analysis",
      "EXPENSE BREAKDOWN (Jan-Feb 2026): Total expenses $3,140.50. Software subscriptions: $546.50 (17%). Travel: $805.00 (26%). Marketing: $500.00 (16%). Professional services: $750.00 (24%). Hardware: $189.00 (6%). Office: $350.00 (11%). 100% of expenses are tax-deductible. RECOMMENDATION: Software costs are well-controlled. Travel expenses are high relative to revenue — consider video calls for routine client meetings.",
      "seed_data", "system")]

  // ---------------------------------------------------------------- the fixture is consistent
  /** The whole fixture, one list per table. */
  datatype Fixture = Fixture(
    clients: seq<ClientFixture>, invoices: seq<InvoiceFixture>, items: seq<ItemFixture>,
    expenses: seq<ExpenseFixture>, insights: seq<InsightFixture>)

  const Demo: Fixture := Fixture(ClientsData, InvoicesData, ItemsData, ExpensesData, InsightsData)

  /** What writing a fixture relies on: it has clients and invoices, every
      invoice names one of its clients and every item one of its invoices,
      every status is consistent with the paid date, and no two invoices
      share a number. */
  predicate Consistent(fx: Fixture)
  {
    && |fx.clients| > 0 && |fx.invoices| > 0
    && (forall i :: 0 <= i < |fx.invoices| ==> fx.invoices[i].client <= |fx.clients|)
    && (forall i :: 0 <= i < |fx.items| ==> fx.items[i].invoice <= |fx.invoices|)
    && (forall i :: 0 <= i < |fx.invoices| ==>
          IsStatusLabel(fx.invoices[i].status) && (fx.invoices[i].paidDate.Some? <==> fx.invoices[i].status == "paid"))
    && (forall i, j :: 0 <= i < j < |fx.invoices| ==> fx.invoices[i].number != fx.invoices[j].number)
    && (forall i :: 0 <= i < |fx.insights| ==> fx.insights[i].requestedBy == "system")
  }

  /** Every invoice names one of the six clients and every item one of the
      eight invoices. */
  lemma FixtureIndicesInRange()
    ensures forall i :: 0 <= i < |InvoicesData| ==> InvoicesData[i].client <= |ClientsData|
    ensures forall i :: 0 <= i < |ItemsData| ==> ItemsData[i].invoice <= |InvoicesData|
  {
  }

  /** Every status is a label, and an invoice has a paid date exactly when it is paid. */
  lemma FixtureStatusesConsistent()
    ensures forall i :: 0 <= i < |InvoicesData| ==>
              IsStatusLabel(InvoicesData[i].status)
              && (InvoicesData[i].paidDate.Some? <==> InvoicesData[i].status == "paid")
  {
  }

  /** No two fixture invoices share a number. */
  lemma FixtureNumbersDistinct()
    ensures forall i, j :: 0 <= i < j < |InvoicesData| ==> InvoicesData[i].number != InvoicesData[j].number
  {
  }

  /** Both insights are written on behalf of "system". */
  lemma FixtureInsightsBySystem()
    ensures forall i :: 0 <= i < |InsightsData| ==> InsightsData[i].requestedBy == "system"
  {
  }

  lemma DemoConsistent()
    ensures Consistent(Demo)
  {
    FixtureIndicesInRange();
    FixtureStatusesConsistent();
    FixtureNumbersDistinct();
    FixtureInsightsBySystem();
  }

  // ---------------------------------------------------------------- the fixture agrees with the calculator

  /** Every invoice falls due on or after its issue date, and is paid on or
      after it was issued. */
  lemma FixtureDatesOrdered()
    ensures forall i :: 0 <= i < |InvoicesData| ==>
              InvoicesData[i].issueDate <= InvoicesData[i].dueDate
              && (InvoicesData[i].paidDate.Some? ==> InvoicesData[i].issueDate <= InvoicesData[i].paidDate.value)
  {
  }

  /** An item the calculator keeps (a description and a positive quantity)
      whose amount is its quantity times its unit price. */
  predicate Priced(f: ItemFixture)
  {
    f.description != "" && f.quantity > 0.0 && f.amount == f.quantity * f.unitPrice
  }

  /** Every item has a description and a positive quantity, so the
      calculator keeps all of them, and its amount is its quantity times its
      unit price. */
  lemma FixtureItemsPriced()
    ensures forall f :: f in ItemsData ==> Priced(f)
  {
  }

  /** An invoice whose tax is its rate applied to its subtotal, and whose
      total is the two added. */
  predicate Taxed(inv: InvoiceFixture)
  {
    inv.taxAmount == inv.subtotal * (inv.taxRate / 100.0) && inv.total == inv.subtotal + inv.taxAmount
  }

  /** Every fixture invoice is taxed as the calculator taxes. */
  lemma FixtureTaxMatches()
    ensures forall inv :: inv in InvoicesData ==> Taxed(inv)
  {
  }

  function ForInvoice(k: Index): ItemFixture -> bool
  {
    (f: ItemFixture) => f.invoice == k
  }

  function FixtureAmount(f: ItemFixture): real
  {
    f.amount
  }

  /** The fixture items that name invoice `k`, in fixture order. */
  function ItemsOfFixture(k: Index): seq<ItemFixture>
  {
    Seqs.Filter(ItemsData, ForInvoice(k))
  }

  /** Where each invoice's items start in the item list (they are listed
      invoice by invoice). */
  const ItemBounds: seq<nat> := [0, 3, 4, 6, 9, 12, 15, 17, 19]

  lemma ItemsGrouped(k: Index)
    requires k <= |InvoicesData|
    ensures ItemBounds[k - 1] <= ItemBounds[k] <= |ItemsData|
    ensures ItemsOfFixture(k) == ItemsData[ItemBounds[k - 1]..ItemBounds[k]]
  {
    assert forall i :: 0 <= i < |ItemsData| ==> (ForInvoice(k)(ItemsData[i]) <==> ItemBounds[k - 1] <= i < ItemBounds[k]);
    Seqs.FilterRange(ItemsData, ForInvoice(k), ItemBounds[k - 1], ItemBounds[k]);
  }

  /** The amounts of the items in positions lo..hi (at most three) add up to `total`. */
  lemma SliceAddsUp(lo: nat, hi: nat, total: real)
    requires lo <= hi <= |ItemsData| && hi - lo <= 3
    requires total == (if hi > lo then ItemsData[lo].amount else 0.0) + (if hi > lo + 1 then ItemsData[lo + 1].amount else 0.0)
                      + (if hi > lo + 2 then ItemsData[lo + 2].amount else 0.0)
    ensures Seqs.SumBy(ItemsData[lo..hi], FixtureAmount) == total
  {
    Seqs.SumBySmall(ItemsData[lo..hi], FixtureAmount);
  }

  /** The items in positions `ItemBounds[k - 1]` up to `ItemBounds[k]` add up
      to invoice `k`'s subtotal. */
  lemma GroupAddsUp(k: Index)
    requires k <= |InvoicesData|
    ensures ItemBounds[k - 1] <= ItemBounds[k] <= |ItemsData|
    ensures Seqs.SumBy(ItemsData[ItemBounds[k - 1]..ItemBounds[k]], FixtureAmount) == InvoicesData[k - 1].subtotal
  {
    match k
    case 1 => SliceAddsUp(0, 3, 12500.00);
    case 2 => SliceAddsUp(3, 4, 8500.00);
    case 3 => SliceAddsUp(4, 6, 15000.00);
    case 4 => SliceAddsUp(6, 9, 22000.00);
    case 5 => SliceAddsUp(9, 12, 7500.00);
    case 6 => SliceAddsUp(12, 15, 18000.00);
    case 7 => SliceAddsUp(15, 17, 5000.00);
    case 8 => SliceAddsUp(17, 19, 15000.00);
  }

  /** Every invoice's subtotal is the sum of the amounts of its items. */
  lemma FixtureSubtotals(k: Index)
    requires k <= |InvoicesData|
    ensures Seqs.SumBy(ItemsOfFixture(k), FixtureAmount) == InvoicesData[k - 1].subtotal
  {
    ItemsGrouped(k);
    GroupAddsUp(k);
  }

  /** A fixture item as a row of the invoice form. */
  function EntryOf(f: ItemFixture): LineItems.Entry
  {
    LineItems.Entry(f.description, f.quantity, f.unitPrice)
  }

  function EntriesOf(items: seq<ItemFixture>): (r: seq<LineItems.Entry>)
    ensures |r| == |items|
    ensures forall i :: 0 <= i < |r| ==> r[i] == EntryOf(items[i])
  {
    seq(|items|, i requires 0 <= i < |items| => EntryOf(items[i]))
  }

  lemma EntryAmount(f: ItemFixture)
    requires Priced(f)
    ensures LineItems.Amount(EntryOf(f)) == FixtureAmount(f)
  {
  }

  /** Items that are billable and whose amounts are quantity times price go
      through the calculator unchanged: it keeps them all, its subtotal is
      the sum of their amounts, and so an invoice taxed as the calculator
      taxes, whose subtotal is that sum, gets its own figures back. */
  lemma CalculatorKeepsItems(items: seq<ItemFixture>, inv: InvoiceFixture)
    requires forall f :: f in items ==> Priced(f)
    requires Taxed(inv) && Seqs.SumBy(items, FixtureAmount) == inv.subtotal
    ensures LineItems.TotalsOf(LineItems.Kept(EntriesOf(items)), inv.taxRate)
              == LineItems.Totals(inv.subtotal, inv.taxAmount, inv.total)
  {
    CalculatorKeepsEntries(items);
  }

  /** The calculator keeps every entry of priced items, and their amounts add
      up to the items' own amounts. */
  lemma CalculatorKeepsEntries(items: seq<ItemFixture>)
    requires forall f :: f in items ==> Priced(f)
    ensures LineItems.Kept(EntriesOf(items)) == EntriesOf(items)
    ensures Seqs.SumBy(EntriesOf(items), LineItems.Amount) == Seqs.SumBy(items, FixtureAmount)
  {
    var entries := EntriesOf(items);
    forall e | e in entries
      ensures LineItems.IsBillable()(e)
    {
      var i :| 0 <= i < |entries| && entries[i] == e;
      assert items[i] in items;
    }
    Seqs.FilterAll(entries, LineItems.IsBillable());
    forall i | 0 <= i < |entries|
      ensures LineItems.Amount(entries[i]) == FixtureAmount(items[i])
    {
      assert items[i] in items;
      EntryAmount(items[i]);
    }
    Seqs.SumByPointwise(entries, LineItems.Amount, items, FixtureAmount);
  }

  /** The items of invoice `k` are all billable and priced as quantity times
      unit price. */
  lemma GroupBillable(k: Index)
    requires k <= |InvoicesData|
    ensures forall f :: f in ItemsOfFixture(k) ==> Priced(f)
  {
    FixtureItemsPriced();
    ItemsGrouped(k);
    var lo, hi := ItemBounds[k - 1], ItemBounds[k];
    forall f | f in ItemsData[lo..hi]
      ensures f in ItemsData
    {
    }
  }

  /** The fixture agrees with the calculator: submitting invoice `k`'s items
      and tax rate through the invoice form stores exactly the subtotal, tax
      and total the fixture gives it. */
  lemma FixtureMatchesCalculator(k: Index)
    requires k <= |InvoicesData|
    ensures var inv := InvoicesData[k - 1];
      LineItems.TotalsOf(LineItems.Kept(EntriesOf(ItemsOfFixture(k))), inv.taxRate)
        == LineItems.Totals(inv.subtotal, inv.taxAmount, inv.total)
  {
    var inv := InvoicesData[k - 1];
    GroupBillable(k);
    FixtureSubtotals(k);
    FixtureTaxMatches();
    assert inv in InvoicesData;
    CalculatorKeepsItems(ItemsOfFixture(k), inv);
  }

  // ---------------------------------------------------------------- the seeded rows

  function ClientRow(f: ClientFixture, id: nat, user: UserId, now: Instant): Client
  {
    Client(id, user, f.name, f.email, Some(f.phone), Some(f.address), Some(f.city), Some(f.country), f.taxId, None, now)
  }

  function InvoiceRow(f: InvoiceFixture, id: nat, clientId: nat, now: Instant): Invoice
  {
    Invoice(id, clientId, f.number, f.status, f.issueDate, f.dueDate, f.subtotal, f.taxRate, f.taxAmount,
            f.total, f.currency, Some(f.notes), f.paidDate, now)
  }

  function ItemRow(f: ItemFixture, id: nat, invoiceId: nat, now: Instant): LineItem
  {
    LineItem(id, invoiceId, f.description, f.quantity, f.unitPrice, f.amount, now)
  }

  function ExpenseRow(f: ExpenseFixture, id: nat, user: UserId, now: Instant): Expense
  {
    Expense(id, user, Some(f.category), f.description, f.amount, f.currency, f.date, Some(f.vendor), None,
            f.taxDeductible, now)
  }

  /** An insight requested by "system" is stored as requested by the user. */
  function InsightRow(f: InsightFixture, id: nat, user: UserId, now: Instant): Insight
  {
    var requestedBy := if f.requestedBy == "system" then user else f.requestedBy;
    Insight(id, Some(f.insightType), Some(f.content), Some(f.modelUsed), now, Some(requestedBy))
  }

  /** The clients, with ids from `first` on. */
  function SeededClients(fx: Fixture, first: nat, user: UserId, now: Instant): (r: seq<Client>)
    ensures |r| == |fx.clients|
    ensures forall i :: 0 <= i < |r| ==> r[i] == ClientRow(fx.clients[i], first + i, user, now)
  {
    seq(|fx.clients|, i requires 0 <= i < |fx.clients| => ClientRow(fx.clients[i], first + i, user, now))
  }

  /** The invoices, with ids from `first` on; fixture client k becomes the
      k-th client created, whose id is `firstClient + k - 1`. */
  function SeededInvoices(fx: Fixture, firstClient: nat, first: nat, now: Instant): (r: seq<Invoice>)
    ensures |r| == |fx.invoices|
    ensures forall i :: 0 <= i < |r| ==>
              r[i] == InvoiceRow(fx.invoices[i], first + i, firstClient + fx.invoices[i].client - 1, now)
  {
    seq(|fx.invoices|, i requires 0 <= i < |fx.invoices| =>
          InvoiceRow(fx.invoices[i], first + i, firstClient + fx.invoices[i].client - 1, now))
  }

  /** The line items, with ids from `first` on; fixture invoice k becomes the
      k-th invoice created. */
  function SeededItems(fx: Fixture, firstInvoice: nat, first: nat, now: Instant): (r: seq<LineItem>)
    ensures |r| == |fx.items|
    ensures forall i :: 0 <= i < |r| ==>
              r[i] == ItemRow(fx.items[i], first + i, firstInvoice + fx.items[i].invoice - 1, now)
  {
    seq(|fx.items|, i requires 0 <= i < |fx.items| =>
          ItemRow(fx.items[i], first + i, firstInvoice + fx.items[i].invoice - 1, now))
  }

  function SeededExpenses(fx: Fixture, first: nat, user: UserId, now: Instant): (r: seq<Expense>)
    ensures |r| == |fx.expenses|
    ensures forall i :: 0 <= i < |r| ==> r[i] == ExpenseRow(fx.expenses[i], first + i, user, now)
  {
    seq(|fx.expenses|, i requires 0 <= i < |fx.expenses| => ExpenseRow(fx.expenses[i], first + i, user, now))
  }

  function SeededInsights(fx: Fixture, first: nat, user: UserId, now: Instant): (r: seq<Insight>)
    ensures |r| == |fx.insights|
    ensures forall i :: 0 <= i < |r| ==> r[i] == InsightRow(fx.insights[i], first + i, user, now)
  {
    seq(|fx.insights|, i requires 0 <= i < |fx.insights| => InsightRow(fx.insights[i], first + i, user, now))
  }

  /** The state after the fixture is written: every table extended by its
      rows and every counter moved past them. */
  function Seeded(s: State, fx: Fixture, user: UserId, now: Instant): State
  {
    var n := s.next;
    State(Tables(s.tables.clients + SeededClients(fx, n.client, user, now),
                 s.tables.invoices + SeededInvoices(fx, n.client, n.invoice, now),
                 s.tables.lineItems + SeededItems(fx, n.invoice, n.lineItem, now),
                 s.tables.expenses + SeededExpenses(fx, n.expense, user, now),
                 s.tables.insights + SeededInsights(fx, n.insight, user, now)),
          Counters(n.client + |fx.clients|, n.invoice + |fx.invoices|, n.lineItem + |fx.items|,
                   n.expense + |fx.expenses|, n.insight + |fx.insights|))
  }

  /** Some fixture invoice number is already stored. */
  predicate NumberClash(invoices: seq<Invoice>, fx: Fixture)
  {
    exists i :: 0 <= i < |fx.invoices| && NumberTaken(invoices, fx.invoices[i].number)
  }

  /** `seed_data`: nothing to do when the user already owns a client
      (Ok(false)); the unique invoice number rejecting the batch when a
      fixture number is already stored (Conflict, nothing written);
      otherwise the fixture is written (Ok(true)). */
  function SeedIn(s: State, fx: Fixture, user: UserId, now: Instant): Outcome<bool>
  {
    if |OwnerClients(s.tables, user)| > 0 then Outcome(Ok(false), s)
    else if NumberClash(s.tables.invoices, fx) then Outcome(Err(Conflict), s)
    else Outcome(Ok(true), Seeded(s, fx, user, now))
  }

  // ---------------------------------------------------------------- seeding keeps the rules

  /** Rows numbered `first`, `first + 1`, ... by their key. */
  lemma NumberedFrom<T>(rows: seq<T>, key: T -> int, first: nat, next: nat)
    requires forall i :: 0 <= i < |rows| ==> key(rows[i]) == first + i
    requires first + |rows| <= next
    ensures Seqs.IncreasingBy(rows, key)
    ensures forall x :: x in rows ==> first <= key(x) < next
  {
  }

  lemma SeededNumbersUnique(invoices: seq<Invoice>, fx: Fixture, firstClient: nat, first: nat, now: Instant)
    requires Consistent(fx)
    requires UniqueNumbers(invoices) && !NumberClash(invoices, fx)
    ensures UniqueNumbers(invoices + SeededInvoices(fx, firstClient, first, now))
  {
    var extra := SeededInvoices(fx, firstClient, first, now);
    var r := invoices + extra;
    forall a, b | a in r && b in r && a.number == b.number
      ensures a.id == b.id
    {
      if a in extra && b in extra {
        var i :| 0 <= i < |extra| && extra[i] == a;
        var j :| 0 <= j < |extra| && extra[j] == b;
      }
    }
  }

  /** Every seeded line item points at a seeded invoice. */
  lemma SeededItemsHaveInvoices(fx: Fixture, firstClient: nat, firstInvoice: nat, firstItem: nat, now: Instant)
    requires Consistent(fx)
    ensures forall li :: li in SeededItems(fx, firstInvoice, firstItem, now) ==>
              li.invoiceId in InvoiceIds(SeededInvoices(fx, firstClient, firstInvoice, now))
  {
    var items := SeededItems(fx, firstInvoice, firstItem, now);
    var invoices := SeededInvoices(fx, firstClient, firstInvoice, now);
    forall li | li in items
      ensures li.invoiceId in InvoiceIds(invoices)
    {
      var i :| 0 <= i < |items| && items[i] == li;
      var k := fx.items[i].invoice;
      assert invoices[k - 1] in invoices;
    }
  }

  lemma InvoiceIdsAppend(a: seq<Invoice>, b: seq<Invoice>)
    ensures InvoiceIds(a + b) == InvoiceIds(a) + InvoiceIds(b)
  {
    var r := a + b;
    forall id | id in InvoiceIds(r)
      ensures id in InvoiceIds(a) + InvoiceIds(b)
    {
      var x :| x in r && x.id == id;
    }
  }

  /** Writing a consistent fixture into a sound state where none of its
      numbers is taken gives a sound state. */
  lemma SeededSound(s: State, fx: Fixture, user: UserId, now: Instant)
    requires Sound(s) && Consistent(fx) && !NumberClash(s.tables.invoices, fx)
    ensures Sound(Seeded(s, fx, user, now))
  {
    var t, n, s' := s.tables, s.next, Seeded(s, fx, user, now);
    var t' := s'.tables;
    var clients := SeededClients(fx, n.client, user, now);
    var invoices := SeededInvoices(fx, n.client, n.invoice, now);
    var items := SeededItems(fx, n.invoice, n.lineItem, now);
    var expenses := SeededExpenses(fx, n.expense, user, now);
    var insights := SeededInsights(fx, n.insight, user, now);
    NumberedFrom(clients, ClientKey, n.client, s'.next.client);
    KeysBelowAppend(t.clients, clients, ClientKey, n.client, s'.next.client);
    NumberedFrom(invoices, InvoiceKey, n.invoice, s'.next.invoice);
    KeysBelowAppend(t.invoices, invoices, InvoiceKey, n.invoice, s'.next.invoice);
    NumberedFrom(items, LineItemKey, n.lineItem, s'.next.lineItem);
    KeysBelowAppend(t.lineItems, items, LineItemKey, n.lineItem, s'.next.lineItem);
    NumberedFrom(expenses, ExpenseKey, n.expense, s'.next.expense);
    KeysBelowAppend(t.expenses, expenses, ExpenseKey, n.expense, s'.next.expense);
    NumberedFrom(insights, InsightKey, n.insight, s'.next.insight);
    KeysBelowAppend(t.insights, insights, InsightKey, n.insight, s'.next.insight);
    SeededNumbersUnique(t.invoices, fx, n.client, n.invoice, now);
    forall inv | inv in t'.invoices
      ensures StatusConsistent(inv)
    {
      if inv in invoices {
        var i :| 0 <= i < |invoices| && invoices[i] == inv;
      }
    }
    SeededItemsHaveInvoices(fx, n.client, n.invoice, n.lineItem, now);
    InvoiceIdsAppend(t.invoices, invoices);
  }

  /** The guard: seeding does nothing for a user who owns a client, is
      rejected without writes when a fixture number is already stored, and
      otherwise writes the fixture, after which the user owns exactly the
      seeded clients (the seeded expenses and insights are theirs too) and a
      second call does nothing. Every outcome keeps the integrity rules. */
  lemma SeedSound(s: State, fx: Fixture, user: UserId, now: Instant, later: Instant)
    requires Sound(s) && Consistent(fx)
    ensures var o := SeedIn(s, fx, user, now);
      && Sound(o.state)
      && (o.result == Ok(false) <==> |OwnerClients(s.tables, user)| > 0)
      && (o.result == Err(Conflict) <==> |OwnerClients(s.tables, user)| == 0 && NumberClash(s.tables.invoices, fx))
      && (o.result != Ok(true) ==> o.state == s)
      && (o.result == Ok(true) ==>
            && o.state == Seeded(s, fx, user, now)
            && OwnerClients(o.state.tables, user) == SeededClients(fx, s.next.client, user, now)
            && (forall e :: e in SeededExpenses(fx, s.next.expense, user, now) ==> e.userId == user)
            && (forall x :: x in SeededInsights(fx, s.next.insight, user, now) ==> x.requestedBy == Some(user))
            && SeedIn(o.state, fx, user, later) == Outcome(Ok(false), o.state))
  {
    var o := SeedIn(s, fx, user, now);
    if o.result == Ok(true) {
      SeededSound(s, fx, user, now);
      var t, t' := s.tables, o.state.tables;
      var clients := SeededClients(fx, s.next.client, user, now);
      Seqs.FilterAppend(t.clients, clients, ClientOwnedBy(user));
      assert OwnerClients(t, user) == [];
      Seqs.FilterAll(clients, ClientOwnedBy(user));
      assert |OwnerClients(t', user)| == |fx.clients|;
      forall x | x in SeededInsights(fx, s.next.insight, user, now)
        ensures x.requestedBy == Some(user)
      {
        var i :| 0 <= i < |fx.insights| && SeededInsights(fx, s.next.insight, user, now)[i] == x;
      }
    }
  }

  /** Invoice numbers are unique across users: once one user has been
      seeded, seeding a second user who owns no clients is rejected. */
  lemma SecondSeedConflicts(s: State, fx: Fixture, first: UserId, second: UserId, now: Instant, later: Instant)
    requires Consistent(fx) && SeedIn(s, fx, first, now).result == Ok(true)
    requires first != second && |OwnerClients(s.tables, second)| == 0
    ensures var s' := SeedIn(s, fx, first, now).state;
      SeedIn(s', fx, second, later) == Outcome(Err(Conflict), s')
  {
    var s' := SeedIn(s, fx, first, now).state;
    var clients := SeededClients(fx, s.next.client, first, now);
    Seqs.FilterAppend(s.tables.clients, clients, ClientOwnedBy(second));
    Seqs.FilterNone(clients, ClientOwnedBy(second));
    var inv := SeededInvoices(fx, s.next.client, s.next.invoice, now)[0];
    assert inv in s'.tables.invoices;
    assert NumberTaken(s'.tables.invoices, fx.invoices[0].number);
  }

  /** The corrected seed: a batch whose invoice numbers are already taken is
      skipped like a user who already has clients, so the page still loads. */
  function SeedOrSkipIn(s: State, fx: Fixture, user: UserId, now: Instant): Outcome<bool>
  {
    if |OwnerClients(s.tables, user)| > 0 || NumberClash(s.tables.invoices, fx) then Outcome(Ok(false), s)
    else Outcome(Ok(true), Seeded(s, fx, user, now))
  }

  /** The corrected seed never fails and keeps the integrity rules; it seeds
      exactly when the seed as written succeeds, with the same new state, and
      otherwise changes nothing. */
  lemma SeedOrSkipSound(s: State, fx: Fixture, user: UserId, now: Instant)
    requires Sound(s) && Consistent(fx)
    ensures var o := SeedOrSkipIn(s, fx, user, now);
      && o.result.Ok?
      && Sound(o.state)
      && (o.result == Ok(true) <==> SeedIn(s, fx, user, now).result == Ok(true))
      && (o.result == Ok(true) ==> o.state == SeedIn(s, fx, user, now).state)
      && (o.result == Ok(false) ==> o.state == s)
  {
    SeedSound(s, fx, user, now, now);
  }

  /** With the corrected seed, a second user without clients after a seeded
      first user is skipped instead of rejected. */
  lemma SecondSeedSkips(s: State, fx: Fixture, first: UserId, second: UserId, now: Instant, later: Instant)
    requires Consistent(fx) && SeedIn(s, fx, first, now).result == Ok(true)
    requires first != second && |OwnerClients(s.tables, second)| == 0
    ensures var s' := SeedIn(s, fx, first, now).state;
      SeedOrSkipIn(s', fx, second, later) == Outcome(Ok(false), s')
  {
    SecondSeedConflicts(s, fx, first, second, now, later);
  }

  // ---------------------------------------------------------------- the loops

  /** `seed_data` on the session: the guard query, then one loop per table,
      remapping fixture positions to the ids just allocated through
      `clientMap` and `invoiceMap`. A number clash rejects the whole batch
      before anything is kept. */
  method SeedData(db: Db, user: UserId, now: Instant) returns (r: Result<bool>)
    requires db.Valid()
    modifies db
    ensures var o := SeedIn(old(db.Current()), Demo, user, now);
      r == o.result && db.Current() == o.state
    ensures db.Valid()
  {
    DemoConsistent();
    r := SeedFixture(db, Demo, user, now);
  }

  method SeedFixture(db: Db, fx: Fixture, user: UserId, now: Instant) returns (r: Result<bool>)
    requires db.Valid() && Consistent(fx)
    modifies db
    ensures var o := SeedIn(old(db.Current()), fx, user, now);
      r == o.result && db.Current() == o.state
    ensures db.Valid()
  {
    ghost var s := db.Current();
    SeedSound(s, fx, user, now, now);
    var existing := Seqs.FirstIndex(db.clients, ClientOwnedBy(user));
    if existing.Some? {
      assert db.clients[existing.value] in OwnerClients(s.tables, user);
      return Ok(false);
    }
    assert |OwnerClients(s.tables, user)| == 0 by {
      Seqs.FilterNone(db.clients, ClientOwnedBy(user));
    }
    if NumberClash(db.invoices, fx) {
      return Err(Conflict);
    }
    var n := db.next;
    var clientMap := AddClients(db, fx, user, now);
    var invoiceMap := AddInvoices(db, fx, clientMap, n.client, now);
    AddItems(db, fx, invoiceMap, n.invoice, now);
    AddExpenses(db, fx, user, now);
    AddInsights(db, fx, user, now);
    r := Ok(true);
  }

  /** The client loop: fixture client k gets the k-th id allocated. */
  method AddClients(db: Db, fx: Fixture, user: UserId, now: Instant) returns (clientMap: map<nat, nat>)
    modifies db
    ensures db.clients == old(db.clients) + SeededClients(fx, old(db.next.client), user, now)
    ensures db.next == old(db.next).(client := old(db.next.client) + |fx.clients|)
    ensures forall k :: k in clientMap <==> 1 <= k <= |fx.clients|
    ensures forall k :: k in clientMap ==> clientMap[k] == old(db.next.client) + k - 1
    ensures db.invoices == old(db.invoices) && db.lineItems == old(db.lineItems)
    ensures db.expenses == old(db.expenses) && db.insights == old(db.insights)
  {
    var first := db.next.client;
    clientMap := map[];
    for i := 0 to |fx.clients|
      invariant db.clients == old(db.clients) + SeededClients(fx, first, user, now)[..i]
      invariant db.next == old(db.next).(client := first + i)
      invariant forall k :: k in clientMap <==> 1 <= k <= i
      invariant forall k :: k in clientMap ==> clientMap[k] == first + k - 1
      invariant db.invoices == old(db.invoices) && db.lineItems == old(db.lineItems)
      invariant db.expenses == old(db.expenses) && db.insights == old(db.insights)
    {
      var client := ClientRow(fx.clients[i], db.next.client, user, now);
      assert SeededClients(fx, first, user, now)[..i + 1] == SeededClients(fx, first, user, now)[..i] + [client];
      db.clients := db.clients + [client];
      db.next := db.next.(client := db.next.client + 1);
      clientMap := clientMap[i + 1 := client.id];
    }
    assert SeededClients(fx, first, user, now)[..|fx.clients|] == SeededClients(fx, first, user, now);
  }

  /** The invoice loop: fixture invoice k gets the k-th id allocated, and
      its client is looked up in `clientMap`. */
  method AddInvoices(db: Db, fx: Fixture, clientMap: map<nat, nat>, ghost firstClient: nat, now: Instant)
    returns (invoiceMap: map<nat, nat>)
    requires forall i :: 0 <= i < |fx.invoices| ==> fx.invoices[i].client in clientMap
    requires forall k :: k in clientMap ==> clientMap[k] == firstClient + k - 1
    modifies db
    ensures db.invoices == old(db.invoices) + SeededInvoices(fx, firstClient, old(db.next.invoice), now)
    ensures db.next == old(db.next).(invoice := old(db.next.invoice) + |fx.invoices|)
    ensures forall k :: k in invoiceMap <==> 1 <= k <= |fx.invoices|
    ensures forall k :: k in invoiceMap ==> invoiceMap[k] == old(db.next.invoice) + k - 1
    ensures db.clients == old(db.clients) && db.lineItems == old(db.lineItems)
    ensures db.expenses == old(db.expenses) && db.insights == old(db.insights)
  {
    var first := db.next.invoice;
    invoiceMap := map[];
    for i := 0 to |fx.invoices|
      invariant db.invoices == old(db.invoices) + SeededInvoices(fx, firstClient, first, now)[..i]
      invariant db.next == old(db.next).(invoice := first + i)
      invariant forall k :: k in invoiceMap <==> 1 <= k <= i
      invariant forall k :: k in invoiceMap ==> invoiceMap[k] == first + k - 1
      invariant db.clients == old(db.clients) && db.lineItems == old(db.lineItems)
      invariant db.expenses == old(db.expenses) && db.insights == old(db.insights)
    {
      var data := fx.invoices[i];
      var invoice := InvoiceRow(data, db.next.invoice, clientMap[data.client], now);
      assert SeededInvoices(fx, firstClient, first, now)[..i + 1] == SeededInvoices(fx, firstClient, first, now)[..i] + [invoice];
      db.invoices := db.invoices + [invoice];
      db.next := db.next.(invoice := db.next.invoice + 1);
      invoiceMap := invoiceMap[i + 1 := invoice.id];
    }
    assert SeededInvoices(fx, firstClient, first, now)[..|fx.invoices|] == SeededInvoices(fx, firstClient, first, now);
  }

  /** The line-item loop: each item's invoice is looked up in `invoiceMap`. */
  method AddItems(db: Db, fx: Fixture, invoiceMap: map<nat, nat>, ghost firstInvoice: nat, now: Instant)
    requires forall i :: 0 <= i < |fx.items| ==> fx.items[i].invoice in invoiceMap
    requires forall k :: k in invoiceMap ==> invoiceMap[k] == firstInvoice + k - 1
    modifies db
    ensures db.lineItems == old(db.lineItems) + SeededItems(fx, firstInvoice, old(db.next.lineItem), now)
    ensures db.next == old(db.next).(lineItem := old(db.next.lineItem) + |fx.items|)
    ensures db.clients == old(db.clients) && db.invoices == old(db.invoices)
    ensures db.expenses == old(db.expenses) && db.insights == old(db.insights)
  {
    var first := db.next.lineItem;
    for i := 0 to |fx.items|
      invariant db.lineItems == old(db.lineItems) + SeededItems(fx, firstInvoice, first, now)[..i]
      invariant db.next == old(db.next).(lineItem := first + i)
      invariant db.clients == old(db.clients) && db.invoices == old(db.invoices)
      invariant db.expenses == old(db.expenses) && db.insights == old(db.insights)
    {
      var data := fx.items[i];
      var item := ItemRow(data, db.next.lineItem, invoiceMap[data.invoice], now);
      assert SeededItems(fx, firstInvoice, first, now)[..i + 1] == SeededItems(fx, firstInvoice, first, now)[..i] + [item];
      db.lineItems := db.lineItems + [item];
      db.next := db.next.(lineItem := db.next.lineItem + 1);
    }
    assert SeededItems(fx, firstInvoice, first, now)[..|fx.items|] == SeededItems(fx, firstInvoice, first, now);
  }

  /** The expense loop: every expense belongs to the user. */
  method AddExpenses(db: Db, fx: Fixture, user: UserId, now: Instant)
    modifies db
    ensures db.expenses == old(db.expenses) + SeededExpenses(fx, old(db.next.expense), user, now)
    ensures db.next == old(db.next).(expense := old(db.next.expense) + |fx.expenses|)
    ensures db.clients == old(db.clients) && db.invoices == old(db.invoices)
    ensures db.lineItems == old(db.lineItems) && db.insights == old(db.insights)
  {
    var first := db.next.expense;
    for i := 0 to |fx.expenses|
      invariant db.expenses == old(db.expenses) + SeededExpenses(fx, first, user, now)[..i]
      invariant db.next == old(db.next).(expense := first + i)
      invariant db.clients == old(db.clients) && db.invoices == old(db.invoices)
      invariant db.lineItems == old(db.lineItems) && db.insights == old(db.insights)
    {
      var expense := ExpenseRow(fx.expenses[i], db.next.expense, user, now);
      assert SeededExpenses(fx, first, user, now)[..i + 1] == SeededExpenses(fx, first, user, now)[..i] + [expense];
      db.expenses := db.expenses + [expense];
      db.next := db.next.(expense := db.next.expense + 1);
    }
    assert SeededExpenses(fx, first, user, now)[..|fx.expenses|] == SeededExpenses(fx, first, user, now);
  }

  /** The insight loop: "system" is replaced by the user. */
  method AddInsights(db: Db, fx: Fixture, user: UserId, now: Instant)
    modifies db
    ensures db.insights == old(db.insights) + SeededInsights(fx, old(db.next.insight), user, now)
    ensures db.next == old(db.next).(insight := old(db.next.insight) + |fx.insights|)
    ensures db.clients == old(db.clients) && db.invoices == old(db.invoices)
    ensures db.lineItems == old(db.lineItems) && db.expenses == old(db.expenses)
  {
    var first := db.next.insight;
    for i := 0 to |fx.insights|
      invariant db.insights == old(db.insights) + SeededInsights(fx, first, user, now)[..i]
      invariant db.next == old(db.next).(insight := first + i)
      invariant db.clients == old(db.clients) && db.invoices == old(db.invoices)
      invariant db.lineItems == old(db.lineItems) && db.expenses == old(db.expenses)
    {
      var insight := InsightRow(fx.insights[i], db.next.insight, user, now);
      assert SeededInsights(fx, first, user, now)[..i + 1] == SeededInsights(fx, first, user, now)[..i] + [insight];
      db.insights := db.insights + [insight];
      db.next := db.next.(insight := db.next.insight + 1);
    }
    assert SeededInsights(fx, first, user, now)[..|fx.insights|] == SeededInsights(fx, first, user, now);
  }
}
