/** The five tables of the invoicing store as record values, with the column
    defaults and the integrity rules (primary keys, the unique invoice number,
    the status / paid-date pairing) that every stored state satisfies. */
module Models {
  import opened Wrappers
  import opened Calendar
  import Seqs

  /** The identity of a signed-in user, as stored in the `user_id` and
      `requested_by` columns. */
  type UserId = string

  /** A server timestamp (`created_at`, `generated_at`) in whole seconds since
      0001-01-01T00:00:00, naive. */
  type Instant = nat

  /** The six invoice status labels. */
  const StatusLabels: seq<string> := ["draft", "sent", "viewed", "paid", "overdue", "cancelled"]

  predicate IsStatusLabel(s: string)
  {
    s in StatusLabels
  }

  datatype Client = Client(
    id: nat,
    userId: UserId,
    name: string,
    email: string,
    phone: Option<string>,
    address: Option<string>,
    city: Option<string>,
    country: Option<string>,
    taxId: Option<string>,
    notes: Option<string>,
    createdAt: Instant)

  datatype Invoice = Invoice(
    id: nat,
    clientId: nat,
    number: string,
    status: string,
    issueDate: Day,
    dueDate: Day,
    subtotal: real,
    taxRate: real,
    taxAmount: real,
    total: real,
    currency: string,
    notes: Option<string>,
    paidDate: Option<Day>,
    createdAt: Instant)

  datatype LineItem = LineItem(
    id: nat,
    invoiceId: nat,
    description: string,
    quantity: real,
    unitPrice: real,
    amount: real,
    createdAt: Instant)

  datatype Expense = Expense(
    id: nat,
    userId: UserId,
    category: Option<string>,
    description: string,
    amount: real,
    currency: string,
    date: Day,
    vendor: Option<string>,
    receiptRef: Option<string>,
    taxDeductible: bool,
    createdAt: Instant)

  datatype Insight = Insight(
    id: nat,
    insightType: Option<string>,
    content: Option<string>,
    modelUsed: Option<string>,
    generatedAt: Instant,
    requestedBy: Option<UserId>)

  /** The contents of the whole store. */
  datatype Tables = Tables(
    clients: seq<Client>,
    invoices: seq<Invoice>,
    lineItems: seq<LineItem>,
    expenses: seq<Expense>,
    insights: seq<Insight>)

  /** The id the next insert into each table receives. */
  datatype Counters = Counters(client: nat, invoice: nat, lineItem: nat, expense: nat, insight: nat)

  /** A whole database state: the rows and the id counters. */
  datatype State = State(tables: Tables, next: Counters)

  /** What a request answers and the state it leaves behind. */
  datatype Outcome<T> = Outcome(result: Result<T>, state: State)

  /** An invoice row as first inserted: the given columns, every other column
      at its declared default. */
  function NewInvoice(id: nat, clientId: nat, number: string, issueDate: Day, dueDate: Day,
                      createdAt: Instant): (inv: Invoice)
    ensures inv.id == id && inv.clientId == clientId && inv.number == number
    ensures inv.issueDate == issueDate && inv.dueDate == dueDate && inv.createdAt == createdAt
    ensures inv.status == "draft" && IsStatusLabel(inv.status)
    ensures inv.currency == "USD"
    ensures inv.subtotal == 0.0 && inv.taxRate == 0.0 && inv.taxAmount == 0.0 && inv.total == 0.0
    ensures inv.notes.None? && inv.paidDate.None?
  {
    Invoice(id, clientId, number, "draft", issueDate, dueDate, 0.0, 0.0, 0.0, 0.0, "USD", None, None, createdAt)
  }

  // ---------------------------------------------------------------- keys

  function ClientKey(c: Client): int { c.id }
  function InvoiceKey(inv: Invoice): int { inv.id }
  function LineItemKey(li: LineItem): int { li.id }
  function ExpenseKey(e: Expense): int { e.id }
  function InsightKey(i: Insight): int { i.id }

  /** Rows in primary-key order, every key below the table's counter. */
  ghost predicate KeysBelow<T>(s: seq<T>, key: T -> int, next: nat)
  {
    Seqs.IncreasingBy(s, key) && forall x :: x in s ==> key(x) < next
  }

  /** No two invoices share an invoice number (rows are told apart by id). */
  ghost predicate UniqueNumbers(invoices: seq<Invoice>)
  {
    forall a, b :: a in invoices && b in invoices && a.number == b.number ==> a.id == b.id
  }

  predicate NumberTaken(invoices: seq<Invoice>, number: string)
  {
    exists inv :: inv in invoices && inv.number == number
  }

  /** The ids of the invoice rows. */
  function InvoiceIds(invoices: seq<Invoice>): (ids: set<nat>)
    ensures forall inv :: inv in invoices ==> inv.id in ids
    ensures forall id :: id in ids ==> exists inv :: inv in invoices && inv.id == id
  {
    set inv | inv in invoices :: inv.id
  }

  /** Every line item belongs to an invoice that exists (no orphans). */
  ghost predicate ItemsHaveInvoices(t: Tables)
  {
    forall li :: li in t.lineItems ==> li.invoiceId in InvoiceIds(t.invoices)
  }

  /** Every status is one of the six labels, and an invoice carries a paid date
      exactly when its status is "paid". */
  predicate StatusConsistent(inv: Invoice)
  {
    IsStatusLabel(inv.status) && (inv.paidDate.Some? <==> inv.status == "paid")
  }

  /** The integrity rules of a stored state. */
  ghost predicate WellFormed(t: Tables, next: Counters)
  {
    && KeysBelow(t.clients, ClientKey, next.client)
    && KeysBelow(t.invoices, InvoiceKey, next.invoice)
    && KeysBelow(t.lineItems, LineItemKey, next.lineItem)
    && KeysBelow(t.expenses, ExpenseKey, next.expense)
    && KeysBelow(t.insights, InsightKey, next.insight)
    && UniqueNumbers(t.invoices)
    && (forall inv :: inv in t.invoices ==> StatusConsistent(inv))
    && ItemsHaveInvoices(t)
  }

  /** A state satisfying the integrity rules. */
  ghost predicate Sound(s: State)
  {
    WellFormed(s.tables, s.next)
  }

  /** Appending rows with fresh, increasing keys from the counter on. */
  lemma KeysBelowAppend<T>(s: seq<T>, extra: seq<T>, key: T -> int, next: nat, next': nat)
    requires KeysBelow(s, key, next)
    requires Seqs.IncreasingBy(extra, key)
    requires forall x :: x in extra ==> next <= key(x) < next'
    requires next <= next'
    ensures KeysBelow(s + extra, key, next')
  {
    var r := s + extra;
    forall i, j | 0 <= i < j < |r|
      ensures key(r[i]) < key(r[j])
    {
      if j < |s| {
      } else if i < |s| {
        assert s[i] in s && r[j] == extra[j - |s|] && extra[j - |s|] in extra;
      } else {
        assert r[i] == extra[i - |s|] && r[j] == extra[j - |s|];
      }
    }
  }

  /** Overwriting a row with one of the same key. */
  lemma KeysBelowReplace<T>(s: seq<T>, k: nat, x: T, key: T -> int, next: nat)
    requires k < |s| && KeysBelow(s, key, next) && key(x) == key(s[k])
    ensures KeysBelow(s[k := x], key, next)
  {
    var r := s[k := x];
    forall y | y in r
      ensures key(y) < next
    {
      var i :| 0 <= i < |r| && r[i] == y;
      if i != k {
        assert s[i] in s;
      } else {
        assert s[k] in s;
      }
    }
  }

  /** A new invoice with an unused number keeps the numbers unique. */
  lemma UniqueNumbersAppend(invoices: seq<Invoice>, inv: Invoice)
    requires UniqueNumbers(invoices) && !NumberTaken(invoices, inv.number)
    ensures UniqueNumbers(invoices + [inv])
  {
  }

  /** Renumbering row `k` to a number no other invoice carries keeps the
      numbers unique. */
  lemma UniqueNumbersReplace(invoices: seq<Invoice>, k: nat, inv: Invoice)
    requires k < |invoices| && UniqueNumbers(invoices) && inv.id == invoices[k].id
    requires Seqs.IncreasingBy(invoices, InvoiceKey)
    requires forall other :: other in invoices && other.number == inv.number ==> other.id == inv.id
    ensures UniqueNumbers(invoices[k := inv])
  {
    var r := invoices[k := inv];
    forall a, b | a in r && b in r && a.number == b.number
      ensures a.id == b.id
    {
      var i :| 0 <= i < |r| && r[i] == a;
      var j :| 0 <= j < |r| && r[j] == b;
      assert invoices[i] in invoices && invoices[j] in invoices;
    }
  }

  /** Overwriting an invoice row with one of the same id keeps the set of ids. */
  lemma InvoiceIdsReplace(invoices: seq<Invoice>, k: nat, inv: Invoice)
    requires k < |invoices| && inv.id == invoices[k].id
    ensures InvoiceIds(invoices[k := inv]) == InvoiceIds(invoices)
  {
    var r := invoices[k := inv];
    forall id | id in InvoiceIds(invoices)
      ensures id in InvoiceIds(r)
    {
      var x :| x in invoices && x.id == id;
      var i :| 0 <= i < |invoices| && invoices[i] == x;
      assert r[i] in r;
    }
    forall id | id in InvoiceIds(r)
      ensures id in InvoiceIds(invoices)
    {
      var x :| x in r && x.id == id;
      var i :| 0 <= i < |r| && r[i] == x;
      assert invoices[i] in invoices;
    }
  }

  /** Deleting rows keeps the keys in order and below the counter. */
  lemma KeysBelowFilter<T>(s: seq<T>, p: T -> bool, key: T -> int, next: nat)
    requires KeysBelow(s, key, next)
    ensures KeysBelow(Seqs.Filter(s, p), key, next)
  {
    Seqs.FilterIncreasing(s, p, key);
  }

  lemma KeysBelowRemoveAt<T>(s: seq<T>, k: nat, key: T -> int, next: nat)
    requires k < |s| && KeysBelow(s, key, next)
    ensures KeysBelow(Seqs.RemoveAt(s, k), key, next)
    ensures forall x :: x in Seqs.RemoveAt(s, k) ==> x in s && key(x) != key(s[k])
    ensures forall x :: x in s && key(x) != key(s[k]) ==> x in Seqs.RemoveAt(s, k)
  {
    Seqs.RemoveAtIncreasing(s, k, key);
  }

  /** Two rows of a table in key order with the same key are the same row. */
  lemma SameKeySameRow<T>(s: seq<T>, key: T -> int, a: T, b: T)
    requires Seqs.IncreasingBy(s, key)
    requires a in s && b in s && key(a) == key(b)
    ensures a == b
  {
    var i :| 0 <= i < |s| && s[i] == a;
    var j :| 0 <= j < |s| && s[j] == b;
    if i < j {
    } else if j < i {
    }
  }

  // ---------------------------------------------------------------- ownership

  /** The ids of the clients `user` owns. */
  function OwnedClientIds(clients: seq<Client>, user: UserId): (ids: set<nat>)
    ensures forall c :: c in clients && c.userId == user ==> c.id in ids
    ensures forall id :: id in ids ==> exists c :: c in clients && c.userId == user && c.id == id
  {
    set c | c in clients && c.userId == user :: c.id
  }

  /** An invoice is visible to `user` when its client exists and belongs to them. */
  predicate OwnsInvoice(t: Tables, user: UserId, inv: Invoice)
  {
    inv.clientId in OwnedClientIds(t.clients, user)
  }

  /** The invoices whose client is one of `ids`. */
  function ForClients(ids: set<nat>): Invoice -> bool
  {
    (inv: Invoice) => inv.clientId in ids
  }

  /** The invoices of all the clients `user` owns, in table order. */
  function OwnerInvoices(t: Tables, user: UserId): (r: seq<Invoice>)
    ensures forall inv :: inv in r <==> inv in t.invoices && OwnsInvoice(t, user, inv)
  {
    Seqs.Filter(t.invoices, ForClients(OwnedClientIds(t.clients, user)))
  }

  function ExpenseOwnedBy(user: UserId): Expense -> bool
  {
    (e: Expense) => e.userId == user
  }

  function OwnerExpenses(t: Tables, user: UserId): (r: seq<Expense>)
    ensures forall e :: e in r <==> e in t.expenses && e.userId == user
  {
    Seqs.Filter(t.expenses, ExpenseOwnedBy(user))
  }

  function ClientOwnedBy(user: UserId): Client -> bool
  {
    (c: Client) => c.userId == user
  }

  function OwnerClients(t: Tables, user: UserId): (r: seq<Client>)
    ensures forall c :: c in r <==> c in t.clients && c.userId == user
  {
    Seqs.Filter(t.clients, ClientOwnedBy(user))
  }

  // ---------------------------------------------------------------- orderings (ORDER BY)

  /** Latest issue date first. */
  function IssueDesc(): (Invoice, Invoice) -> bool
  {
    (a: Invoice, b: Invoice) => a.issueDate >= b.issueDate
  }

  /** Latest creation first. */
  function CreatedDesc(): (Invoice, Invoice) -> bool
  {
    (a: Invoice, b: Invoice) => a.createdAt >= b.createdAt
  }

  /** Latest expense date first. */
  function DateDesc(): (Expense, Expense) -> bool
  {
    (a: Expense, b: Expense) => a.date >= b.date
  }

  /** Latest generation first. */
  function GeneratedDesc(): (Insight, Insight) -> bool
  {
    (a: Insight, b: Insight) => a.generatedAt >= b.generatedAt
  }

  /** Code-point order on strings, a prefix before its extensions. */
  predicate LexLe(a: string, b: string)
  {
    if a == [] then true
    else if b == [] then false
    else if a[0] != b[0] then a[0] < b[0]
    else LexLe(a[1..], b[1..])
  }

  lemma {:induction false} LexLeTotal(a: string, b: string)
    ensures LexLe(a, b) || LexLe(b, a)
  {
    if a != [] && b != [] && a[0] == b[0] {
      LexLeTotal(a[1..], b[1..]);
    }
  }

  lemma {:induction false} LexLeTransitive(a: string, b: string, c: string)
    requires LexLe(a, b) && LexLe(b, c)
    ensures LexLe(a, c)
  {
    if a != [] && b != [] && c != [] && a[0] == b[0] && b[0] == c[0] {
      LexLeTransitive(a[1..], b[1..], c[1..]);
    }
  }

  /** Clients by name. */
  function NameAsc(): (Client, Client) -> bool
  {
    (a: Client, b: Client) => LexLe(a.name, b.name)
  }

  /** Every ORDER BY used by the routes is a total preorder. */
  lemma OrdersArePreorders()
    ensures Seqs.TotalPreorder(IssueDesc()) && Seqs.TotalPreorder(CreatedDesc())
    ensures Seqs.TotalPreorder(DateDesc()) && Seqs.TotalPreorder(GeneratedDesc())
    ensures Seqs.TotalPreorder(NameAsc())
  {
    forall a: Client, b: Client
      ensures NameAsc()(a, b) || NameAsc()(b, a)
    {
      LexLeTotal(a.name, b.name);
    }
    forall a: Client, b: Client, c: Client | NameAsc()(a, b) && NameAsc()(b, c)
      ensures NameAsc()(a, c)
    {
      LexLeTransitive(a.name, b.name, c.name);
    }
  }

  // ---------------------------------------------------------------- column accessors

  function TotalOf(inv: Invoice): real { inv.total }
  function AmountOf(e: Expense): real { e.amount }

  predicate IsPaid(inv: Invoice) { inv.status == "paid" }
  function Paid(): Invoice -> bool { (inv: Invoice) => IsPaid(inv) }

  function OfClient(id: nat): Invoice -> bool { (inv: Invoice) => inv.clientId == id }
  function OfInvoice(id: nat): LineItem -> bool { (li: LineItem) => li.invoiceId == id }
}
