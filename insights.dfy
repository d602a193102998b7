/** AI insights: the list and detail pages, the serialisation of rows into
    JSON-ready records, the choice of data sent with each kind of request and
    the analyze endpoint, which stores exactly one insight when the provider
    answers and none otherwise. The provider itself is a parameter: its
    answer for a given request and data is not modelled. */
module Insights {
  import opened Wrappers
  import opened Models
  import Seqs
  import opened Calendar
  import opened Store
  import Clients
  import Text

  // ---------------------------------------------------------------- list and detail

  function RequestedBy(user: UserId): Insight -> bool
  {
    (x: Insight) => x.requestedBy == Some(user)
  }

  /** GET /insights: the insights the user requested, newest first. */
  function ListInsights(t: Tables, user: UserId): (r: seq<Insight>)
  {
    Seqs.SortBy(Seqs.Filter(t.insights, RequestedBy(user)), GeneratedDesc())
  }

  /** The list is newest first and holds exactly the user's insights. */
  lemma ListInsightsSpec(t: Tables, user: UserId)
    ensures var r := ListInsights(t, user);
      && Seqs.SortedBy(r, GeneratedDesc())
      && (forall x :: x in r <==> x in t.insights && x.requestedBy == Some(user))
      && |r| == |Seqs.Filter(t.insights, RequestedBy(user))|
  {
    var mine := Seqs.Filter(t.insights, RequestedBy(user));
    OrdersArePreorders();
    Seqs.SortBySorted(mine, GeneratedDesc());
    var r := ListInsights(t, user);
    forall x
      ensures x in r <==> x in mine
    {
      assert x in r <==> x in multiset(r);
      assert x in mine <==> x in multiset(mine);
    }
  }

  function WithId(id: nat): Insight -> bool
  {
    (x: Insight) => x.id == id
  }

  /** GET /insights/{id}: the first insight with the id, which must have been
      requested by the user; NotFound otherwise. */
  function InsightDetail(t: Tables, user: UserId, id: nat): (r: Result<Insight>)
    ensures r.Ok? ==> r.value in t.insights && r.value.id == id && r.value.requestedBy == Some(user)
    ensures r.Err? ==> r.error == NotFound
  {
    match Seqs.FirstIndex(t.insights, WithId(id))
    case None => Err(NotFound)
    case Some(k) =>
      if t.insights[k].requestedBy == Some(user) then Ok(t.insights[k]) else Err(NotFound)
  }

  /** With ids unique, the detail page shows an insight exactly when one with
      that id was requested by the user, and then it shows that one. */
  lemma InsightDetailSpec(t: Tables, user: UserId, id: nat, x: Insight, n: nat)
    requires KeysBelow(t.insights, InsightKey, n)
    requires x in t.insights && x.id == id
    ensures InsightDetail(t, user, id) == (if x.requestedBy == Some(user) then Ok(x) else Err(NotFound))
  {
    var r := Seqs.FirstIndex(t.insights, WithId(id));
    if r.Some? {
      var y := t.insights[r.value];
      SameKeySameRow(t.insights, InsightKey, x, y);
    }
  }

  // ---------------------------------------------------------------- serialisation

  /** A column value as read from a row. */
  datatype Value = Int(i: int) | Real(r: real) | Str(s: string) | Bool(b: bool) | Null
                 | Date(day: Day) | Stamp(at: Instant)

  /** A JSON-ready value: dates have become text. A timestamp stays a
      timestamp; its ISO text is not modelled. */
  datatype Json = JInt(i: int) | JReal(r: real) | JStr(s: string) | JBool(b: bool) | JNull
                | JStamp(at: Instant)

  /** A column name with its value, in table order. */
  type Column = (string, Value)

  /** The dictionary `serialize_model` builds, as name/value pairs in column order. */
  type Record = seq<(string, Json)>

  /** One value: anything with `isoformat` becomes its ISO text. */
  function Encode(v: Value): Json
  {
    match v
    case Int(i) => JInt(i)
    case Real(r) => JReal(r)
    case Str(s) => JStr(s)
    case Bool(b) => JBool(b)
    case Null => JNull
    case Date(day) => JStr(IsoDate(day))
    case Stamp(at) => JStamp(at)
  }

  function OptText(o: Option<string>): Value
  {
    if o.Some? then Str(o.value) else Null
  }

  function OptDate(o: Option<Day>): Value
  {
    if o.Some? then Date(o.value) else Null
  }

  function InvoiceColumns(inv: Invoice): seq<Column>
  {
    [("id", Int(inv.id)), ("client_id", Int(inv.clientId)), ("invoice_number", Str(inv.number)),
     ("status", Str(inv.status)), ("issue_date", Date(inv.issueDate)), ("due_date", Date(inv.dueDate)),
     ("subtotal", Real(inv.subtotal)), ("tax_rate", Real(inv.taxRate)), ("tax_amount", Real(inv.taxAmount)),
     ("total", Real(inv.total)), ("currency", Str(inv.currency)), ("notes", OptText(inv.notes)),
     ("paid_date", OptDate(inv.paidDate)), ("created_at", Stamp(inv.createdAt))]
  }

  function ExpenseColumns(e: Expense): seq<Column>
  {
    [("id", Int(e.id)), ("user_id", Str(e.userId)), ("category", OptText(e.category)),
     ("description", Str(e.description)), ("amount", Real(e.amount)), ("currency", Str(e.currency)),
     ("date", Date(e.date)), ("vendor", OptText(e.vendor)), ("receipt_ref", OptText(e.receiptRef)),
     ("tax_deductible", Bool(e.taxDeductible)), ("created_at", Stamp(e.createdAt))]
  }

  function ClientColumns(c: Client): seq<Column>
  {
    [("id", Int(c.id)), ("user_id", Str(c.userId)), ("name", Str(c.name)), ("email", Str(c.email)),
     ("phone", OptText(c.phone)), ("address", OptText(c.address)), ("city", OptText(c.city)),
     ("country", OptText(c.country)), ("tax_id", OptText(c.taxId)), ("notes", OptText(c.notes)),
     ("created_at", Stamp(c.createdAt))]
  }

  /** Every column kept under its own name, in order, with its value encoded. */
  function Serialized(cols: seq<Column>): (r: Record)
    ensures |r| == |cols|
    ensures forall i :: 0 <= i < |r| ==> r[i] == (cols[i].0, Encode(cols[i].1))
  {
    if cols == [] then [] else [(cols[0].0, Encode(cols[0].1))] + Serialized(cols[1..])
  }

  /** The loop of `serialize_model`: one entry per column. */
  method SerializeModel(cols: seq<Column>) returns (d: Record)
    ensures d == Serialized(cols)
  {
    d := [];
    for i := 0 to |cols|
      invariant |d| == i
      invariant forall j :: 0 <= j < i ==> d[j] == (cols[j].0, Encode(cols[j].1))
    {
      var (name, val) := cols[i];
      var out := Encode(val);
      d := d + [(name, out)];
    }
  }

  /** The serialised form keeps every column name, leaves numbers, text,
      booleans and nulls as they were, and writes a date as ten characters
      YYYY-MM-DD whose fields read back as that date. */
  lemma SerializedSpec(cols: seq<Column>, i: nat)
    requires i < |cols|
    ensures Serialized(cols)[i].0 == cols[i].0
    ensures match cols[i].1
      case Int(n) => Serialized(cols)[i].1 == JInt(n)
      case Real(x) => Serialized(cols)[i].1 == JReal(x)
      case Str(s) => Serialized(cols)[i].1 == JStr(s)
      case Bool(b) => Serialized(cols)[i].1 == JBool(b)
      case Null => Serialized(cols)[i].1 == JNull
      case Stamp(at) => Serialized(cols)[i].1 == JStamp(at)
      case Date(day) =>
        FromOrdinal(day).year <= 9999 ==>
          && Serialized(cols)[i].1.JStr?
          && var s := Serialized(cols)[i].1.s;
          && |s| == 10 && s[4] == '-' && s[7] == '-'
          && Text.ParseNat(s[..4]) == Some(FromOrdinal(day).year)
          && Text.ParseNat(s[5..7]) == Some(FromOrdinal(day).month)
          && Text.ParseNat(s[8..]) == Some(FromOrdinal(day).day)
  {
    if cols[i].1.Date? && FromOrdinal(cols[i].1.day).year <= 9999 {
      IsoDateRoundTrip(cols[i].1.day);
    }
  }

  /** `[serialize_model(x) for x in rows]` as a specification. */
  function SerializedAll<T>(rows: seq<T>, columns: T -> seq<Column>): (r: seq<Record>)
    ensures |r| == |rows|
    ensures forall i :: 0 <= i < |r| ==> r[i] == Serialized(columns(rows[i]))
  {
    if rows == [] then [] else [Serialized(columns(rows[0]))] + SerializedAll(rows[1..], columns)
  }

  /** The list comprehension: one call of `serialize_model` per row. */
  method SerializeAll<T>(rows: seq<T>, columns: T -> seq<Column>) returns (out: seq<Record>)
    ensures out == SerializedAll(rows, columns)
  {
    out := [];
    for i := 0 to |rows|
      invariant |out| == i
      invariant forall j :: 0 <= j < i ==> out[j] == Serialized(columns(rows[j]))
    {
      var d := SerializeModel(columns(rows[i]));
      out := out + [d];
    }
  }

  // ---------------------------------------------------------------- context selection

  /** The user's invoices, latest issue date first, at most `n` of them. */
  function LatestInvoices(t: Tables, user: UserId, n: nat): (r: seq<Invoice>)
    ensures |r| <= n
  {
    Seqs.Take(Seqs.SortBy(OwnerInvoices(t, user), IssueDesc()), n)
  }

  /** The user's expenses, latest date first, at most `n` of them. */
  function LatestExpenses(t: Tables, user: UserId, n: nat): (r: seq<Expense>)
    ensures |r| <= n
  {
    Seqs.Take(Seqs.SortBy(OwnerExpenses(t, user), DateDesc()), n)
  }

  /** The invoice slice holds only the user's invoices, `n` of them or all of
      them when there are fewer, latest first, and none left out was issued
      later than one sent. */
  lemma LatestInvoicesSpec(t: Tables, user: UserId, n: nat)
    ensures var r := LatestInvoices(t, user, n);
      var owned := OwnerInvoices(t, user);
      && Seqs.SortedBy(r, IssueDesc())
      && (forall inv :: inv in r ==> inv in t.invoices && OwnsInvoice(t, user, inv))
      && |r| == (if |owned| < n then |owned| else n)
      && (forall x, y :: x in multiset(owned) - multiset(r) && y in r ==> x.issueDate <= y.issueDate)
  {
    var owned := OwnerInvoices(t, user);
    var sorted := Seqs.SortBy(owned, IssueDesc());
    OrdersArePreorders();
    Seqs.SortBySorted(owned, IssueDesc());
    Seqs.TakeOfSortedIsTop(sorted, IssueDesc(), n);
    var r := LatestInvoices(t, user, n);
    forall inv | inv in r
      ensures inv in owned
    {
      assert inv in sorted;
      assert inv in multiset(sorted);
    }
    forall x: Invoice, y: Invoice | x in multiset(owned) - multiset(r) && y in r
      ensures x.issueDate <= y.issueDate
    {
      assert IssueDesc()(y, x);
    }
  }

  /** The expense slice holds only the user's expenses, `n` of them or all of
      them when there are fewer, latest first, and none left out is dated
      later than one sent. */
  lemma LatestExpensesSpec(t: Tables, user: UserId, n: nat)
    ensures var r := LatestExpenses(t, user, n);
      var owned := OwnerExpenses(t, user);
      && Seqs.SortedBy(r, DateDesc())
      && (forall e :: e in r ==> e in t.expenses && e.userId == user)
      && |r| == (if |owned| < n then |owned| else n)
      && (forall x, y :: x in multiset(owned) - multiset(r) && y in r ==> x.date <= y.date)
  {
    var owned := OwnerExpenses(t, user);
    var sorted := Seqs.SortBy(owned, DateDesc());
    OrdersArePreorders();
    Seqs.SortBySorted(owned, DateDesc());
    Seqs.TakeOfSortedIsTop(sorted, DateDesc(), n);
    var r := LatestExpenses(t, user, n);
    forall e | e in r
      ensures e in owned
    {
      assert e in sorted;
      assert e in multiset(sorted);
    }
    forall x: Expense, y: Expense | x in multiset(owned) - multiset(r) && y in r
      ensures x.date <= y.date
    {
      assert DateDesc()(y, x);
    }
  }

  /** A client's record for the client summary: its columns plus what it was
      invoiced in total and what of that was paid. */
  function ClientSummary(t: Tables, c: Client): Record
  {
    Serialized(ClientColumns(c))
      + [("total_invoiced", JReal(Clients.TotalInvoiced(t, c.id))), ("total_paid", JReal(Clients.TotalPaid(t, c.id)))]
  }

  /** The data sent with a request; an unknown kind sends none. */
  datatype InsightContext =
    | NoData
    | InvoicesData(invoices: seq<Record>)
    | ExpensesData(expenses: seq<Record>)
    | CashFlowData(invoices: seq<Record>, expenses: seq<Record>)
    | ClientsData(clients: seq<Record>)

  /** Which rows each kind of insight is given. */
  function ContextFor(t: Tables, user: UserId, insightType: string): InsightContext
  {
    if insightType == "revenue_forecast" then
      InvoicesData(SerializedAll(LatestInvoices(t, user, 50), InvoiceColumns))
    else if insightType == "expense_analysis" then
      ExpensesData(SerializedAll(LatestExpenses(t, user, 50), ExpenseColumns))
    else if insightType == "cash_flow" then
      CashFlowData(SerializedAll(LatestInvoices(t, user, 20), InvoiceColumns),
                   SerializedAll(LatestExpenses(t, user, 20), ExpenseColumns))
    else if insightType == "client_summary" then
      ClientsData(seq(|OwnerClients(t, user)|, i requires 0 <= i < |OwnerClients(t, user)| =>
                        ClientSummary(t, OwnerClients(t, user)[i])))
    else NoData
  }

  /** The sizes of the slices: at most 50 invoices or expenses for a forecast
      or an expense analysis, at most 20 of each for cash flow, one record per
      client of the user for a client summary, and nothing for any other kind.
      Every record sent for a client ends with its invoiced and paid totals. */
  lemma ContextBounds(t: Tables, user: UserId, insightType: string)
    ensures match ContextFor(t, user, insightType)
      case NoData =>
        insightType !in {"revenue_forecast", "expense_analysis", "cash_flow", "client_summary"}
      case InvoicesData(invs) => insightType == "revenue_forecast" && |invs| <= 50
      case ExpensesData(exps) => insightType == "expense_analysis" && |exps| <= 50
      case CashFlowData(invs, exps) => insightType == "cash_flow" && |invs| <= 20 && |exps| <= 20
      case ClientsData(cs) =>
        && insightType == "client_summary"
        && |cs| == |OwnerClients(t, user)|
        && forall i :: 0 <= i < |cs| ==>
             var c := OwnerClients(t, user)[i];
             && |cs[i]| == |ClientColumns(c)| + 2
             && cs[i][..|ClientColumns(c)|] == Serialized(ClientColumns(c))
             && cs[i][|ClientColumns(c)|] == ("total_invoiced", JReal(Clients.TotalInvoiced(t, c.id)))
             && cs[i][|ClientColumns(c)| + 1] == ("total_paid", JReal(Clients.TotalPaid(t, c.id)))
  {
  }

  /** The client-summary loop: each owned client's record, then its totals. */
  method SummarizeClients(db: Db, user: UserId) returns (clientData: seq<Record>)
    ensures |clientData| == |OwnerClients(db.Snapshot(), user)|
    ensures forall i :: 0 <= i < |clientData| ==>
              clientData[i] == ClientSummary(db.Snapshot(), OwnerClients(db.Snapshot(), user)[i])
  {
    var t := db.Snapshot();
    var clients := OwnerClients(t, user);
    clientData := [];
    for i := 0 to |clients|
      invariant |clientData| == i
      invariant forall j :: 0 <= j < i ==> clientData[j] == ClientSummary(t, clients[j])
    {
      var c := clients[i];
      var cDict := SerializeModel(ClientColumns(c));
      cDict := cDict + [("total_invoiced", JReal(Seqs.SumBy(Clients.InvoicesOf(t, c.id), TotalOf)))];
      cDict := cDict + [("total_paid", JReal(Seqs.SumBy(Seqs.Filter(Clients.InvoicesOf(t, c.id), Paid()), TotalOf)))];
      clientData := clientData + [cDict];
    }
  }

  /** The branch on the insight kind, reading the session. */
  method BuildContext(db: Db, user: UserId, insightType: string) returns (ctx: InsightContext)
    ensures ctx == ContextFor(db.Snapshot(), user, insightType)
  {
    var t := db.Snapshot();
    if insightType == "revenue_forecast" {
      var invData := SerializeAll(LatestInvoices(t, user, 50), InvoiceColumns);
      ctx := InvoicesData(invData);
    } else if insightType == "expense_analysis" {
      var expData := SerializeAll(LatestExpenses(t, user, 50), ExpenseColumns);
      ctx := ExpensesData(expData);
    } else if insightType == "cash_flow" {
      var invData := SerializeAll(LatestInvoices(t, user, 20), InvoiceColumns);
      var expData := SerializeAll(LatestExpenses(t, user, 20), ExpenseColumns);
      ctx := CashFlowData(invData, expData);
    } else if insightType == "client_summary" {
      var clientData := SummarizeClients(db, user);
      ctx := ClientsData(clientData);
    } else {
      ctx := NoData;
    }
  }

  // ---------------------------------------------------------------- analyze

  /** What the provider did with a request. */
  datatype Reply = Answer(text: string) | Failure(message: string)

  /** The reply to POST /api/insights/analyze on success. */
  datatype Analysis = Analysis(id: nat, content: string)

  const ModelName: string := "gemini-2.5-flash"

  /** The insight stored for a successful request. */
  function Stored(id: nat, user: UserId, insightType: string, text: string, now: Instant): Insight
  {
    Insight(id, Some(insightType), Some(text), Some(ModelName), now, Some(user))
  }

  /** A key that is absent or empty counts as not configured. */
  predicate HasKey(apiKey: Option<string>)
  {
    apiKey.Some? && apiKey.value != ""
  }

  /** POST /api/insights/analyze: without a key, an error before anything is
      read; otherwise the provider is asked about the kind and its data, a
      failure is reported with the provider's message, and an answer is
      stored as a new insight. */
  function AnalyzeIn(s: State, user: UserId, insightType: string, apiKey: Option<string>,
                     provider: (string, InsightContext) -> Reply, now: Instant): (o: Outcome<Analysis>)
  {
    if !HasKey(apiKey) then Outcome(Err(MissingApiKey), s)
    else match provider(insightType, ContextFor(s.tables, user, insightType))
      case Failure(m) => Outcome(Err(ProviderError(m)), s)
      case Answer(text) =>
        var x := Stored(s.next.insight, user, insightType, text, now);
        Outcome(Ok(Analysis(x.id, text)),
                s.(tables := s.tables.(insights := s.tables.insights + [x]),
                   next := s.next.(insight := s.next.insight + 1)))
  }

  /** Persist on success: the request succeeds exactly when a key is set and
      the provider answers; then exactly one insight is added, carrying the
      kind, the answer, the model and the user, and the user can open it and
      finds it in their list. Any failure leaves the store as it was. Nothing
      but the insight table and its counter ever changes. */
  lemma AnalyzeSound(s: State, user: UserId, insightType: string, apiKey: Option<string>,
                     provider: (string, InsightContext) -> Reply, now: Instant)
    requires Sound(s)
    ensures var o := AnalyzeIn(s, user, insightType, apiKey, provider, now);
      var reply := provider(insightType, ContextFor(s.tables, user, insightType));
      && Sound(o.state)
      && o.state.tables == s.tables.(insights := o.state.tables.insights)
      && (o.result == Err(MissingApiKey) <==> !HasKey(apiKey))
      && (o.result.Ok? <==> HasKey(apiKey) && reply.Answer?)
      && (HasKey(apiKey) && reply.Failure? ==> o.result == Err(ProviderError(reply.message)))
      && (o.result.Err? ==> o.state == s)
      && (o.result.Ok? ==>
            var x := Stored(s.next.insight, user, insightType, reply.text, now);
            && o.result.value == Analysis(s.next.insight, reply.text)
            && o.state.tables.insights == s.tables.insights + [x]
            && InsightDetail(o.state.tables, user, x.id) == Ok(x)
            && x in ListInsights(o.state.tables, user))
  {
    var o := AnalyzeIn(s, user, insightType, apiKey, provider, now);
    if o.result.Ok? {
      var t, t', id := s.tables, o.state.tables, s.next.insight;
      var reply := provider(insightType, ContextFor(t, user, insightType));
      var x := Stored(id, user, insightType, reply.text, now);
      KeysBelowAppend(t.insights, [x], InsightKey, id, id + 1);
      assert x in t'.insights;
      InsightDetailSpec(t', user, id, x, id + 1);
      ListInsightsSpec(t', user);
    }
  }

  /** The analyze handler on the session. */
  method AnalyzeInsights(db: Db, user: UserId, insightType: string, apiKey: Option<string>,
                         provider: (string, InsightContext) -> Reply, now: Instant) returns (r: Result<Analysis>)
    requires db.Valid()
    modifies db
    ensures var o := AnalyzeIn(old(db.Current()), user, insightType, apiKey, provider, now);
      r == o.result && db.Current() == o.state
    ensures db.Valid()
  {
    AnalyzeSound(db.Current(), user, insightType, apiKey, provider, now);
    if apiKey.None? || apiKey.value == "" {
      return Err(MissingApiKey);
    }
    var ctx := BuildContext(db, user, insightType);
    var reply := provider(insightType, ctx);
    match reply
    case Failure(m) =>
      r := Err(ProviderError(m));
    case Answer(content) =>
      var insight := Insight(db.next.insight, Some(insightType), Some(content), Some(ModelName), now, Some(user));
      db.insights := db.insights + [insight];
      db.next := db.next.(insight := insight.id + 1);
      r := Ok(Analysis(insight.id, content));
  }
}
