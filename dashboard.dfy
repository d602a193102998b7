/** The dashboard: month-to-date and year-to-date sums, the outstanding
    total, the status histogram, the ten most recent invoices, the overdue
    list with day counts and a six-point monthly revenue/expense chart scaled
    to percentages. Every figure is over the invoices of the user's clients
    and the user's expenses. */
module Dashboard {
  import opened Wrappers
  import opened Models
  import Seqs
  import opened Calendar
  import opened Store
  import Seed

  // ---------------------------------------------------------------- period sums

  function IssuedFrom(start: Day): Invoice -> bool
  {
    (inv: Invoice) => inv.issueDate >= start
  }

  /** The user's invoices issued on or after the first of today's month (no
      upper bound: invoices dated later in the future count too). */
  function InvoicesThisMonth(t: Tables, user: UserId, today: Day): (r: seq<Invoice>)
    ensures forall inv :: inv in r <==> (inv in t.invoices && OwnsInvoice(t, user, inv)
                                          && inv.issueDate >= FirstOfMonth(today))
  {
    Seqs.Filter(OwnerInvoices(t, user), IssuedFrom(FirstOfMonth(today)))
  }

  function TotalInvoicedMonth(t: Tables, user: UserId, today: Day): real
  {
    Seqs.SumBy(InvoicesThisMonth(t, user, today), TotalOf)
  }

  function TotalPaidMonth(t: Tables, user: UserId, today: Day): real
  {
    Seqs.SumBy(Seqs.Filter(InvoicesThisMonth(t, user, today), Paid()), TotalOf)
  }

  /** Statuses that count as awaiting payment. */
  predicate IsOutstanding(inv: Invoice)
  {
    inv.status == "sent" || inv.status == "viewed" || inv.status == "overdue"
  }

  function Outstanding(): Invoice -> bool
  {
    (inv: Invoice) => IsOutstanding(inv)
  }

  function TotalOutstanding(t: Tables, user: UserId): real
  {
    Seqs.SumBy(Seqs.Filter(OwnerInvoices(t, user), Outstanding()), TotalOf)
  }

  function PaidFrom(start: Day): Invoice -> bool
  {
    (inv: Invoice) => inv.issueDate >= start && inv.status == "paid"
  }

  /** Year-to-date revenue: paid invoices issued (not paid) since January 1. */
  function RevenueYtd(t: Tables, user: UserId, today: Day): real
  {
    Seqs.SumBy(Seqs.Filter(OwnerInvoices(t, user), PaidFrom(FirstOfYear(today))), TotalOf)
  }

  function DatedFrom(start: Day): Expense -> bool
  {
    (e: Expense) => e.date >= start
  }

  function ExpensesYtd(t: Tables, user: UserId, today: Day): real
  {
    Seqs.SumBy(Seqs.Filter(OwnerExpenses(t, user), DatedFrom(FirstOfYear(today))), AmountOf)
  }

  /** With non-negative totals the month's paid figure never exceeds the
      month's invoiced figure, and year-to-date revenue covers every paid
      invoice issued this month. */
  lemma PeriodSumsOrdered(t: Tables, user: UserId, today: Day)
    requires forall inv :: inv in t.invoices ==> inv.total >= 0.0
    ensures 0.0 <= TotalPaidMonth(t, user, today) <= TotalInvoicedMonth(t, user, today)
    ensures TotalPaidMonth(t, user, today) <= RevenueYtd(t, user, today)
  {
    var month := InvoicesThisMonth(t, user, today);
    Seqs.SumByPartition(month, Paid(), TotalOf);
    Seqs.SumByNonneg(Seqs.Filter(month, Paid()), TotalOf);
    Seqs.SumByNonneg(Seqs.Filter(month, Seqs.Not(Paid())), TotalOf);
    PeriodStartsOrdered(today);
    var owned := OwnerInvoices(t, user);
    var monthPaid := (inv: Invoice) => inv.issueDate >= FirstOfMonth(today) && inv.status == "paid";
    Seqs.FilterAnd(owned, IssuedFrom(FirstOfMonth(today)), Paid(), monthPaid);
    Seqs.SumByFilterMono(owned, monthPaid, PaidFrom(FirstOfYear(today)), TotalOf);
  }

  // ---------------------------------------------------------------- status histogram

  function HasStatus(status: string): Invoice -> bool
  {
    (inv: Invoice) => inv.status == status
  }

  /** How often `key` occurs in `h` (zero when absent). */
  function CountOf(h: map<string, nat>, key: string): nat
  {
    if key in h then h[key] else 0
  }

  /** GROUP BY status with COUNT: one entry per status that occurs. */
  function Histogram(s: seq<Invoice>): (h: map<string, nat>)
    ensures forall k :: k in h ==> h[k] > 0
  {
    if s == [] then map[]
    else
      var rest := Histogram(s[1..]);
      rest[s[0].status := CountOf(rest, s[0].status) + 1]
  }

  /** Each count is the number of invoices with that status. */
  lemma {:induction false} HistogramCounts(s: seq<Invoice>, k: string)
    ensures CountOf(Histogram(s), k) == |Seqs.Filter(s, HasStatus(k))|
  {
    if s != [] {
      HistogramCounts(s[1..], k);
    }
  }

  /** The counts of the given labels added up. */
  function LabelTotal(h: map<string, nat>, labels: seq<string>): nat
  {
    if labels == [] then 0 else CountOf(h, labels[0]) + LabelTotal(h, labels[1..])
  }

  lemma {:induction false} LabelTotalBump(h: map<string, nat>, key: string, labels: seq<string>)
    ensures LabelTotal(h[key := CountOf(h, key) + 1], labels) == LabelTotal(h, labels) + multiset(labels)[key]
  {
    if labels != [] {
      LabelTotalBump(h, key, labels[1..]);
      assert labels == [labels[0]] + labels[1..];
    }
  }

  lemma {:induction false} LabelTotalEmpty(labels: seq<string>)
    ensures LabelTotal(map[], labels) == 0
  {
    if labels != [] {
      LabelTotalEmpty(labels[1..]);
    }
  }

  /** When every status occurs once in `labels` the counts of the labels add
      up to the number of invoices. */
  lemma {:induction false} HistogramAddsUp(s: seq<Invoice>, labels: seq<string>)
    requires forall inv :: inv in s ==> multiset(labels)[inv.status] == 1
    ensures LabelTotal(Histogram(s), labels) == |s|
  {
    if s != [] {
      assert forall inv :: inv in s[1..] ==> inv in s;
      HistogramAddsUp(s[1..], labels);
      var rest := Histogram(s[1..]);
      assert s[0] in s;
      var key := s[0].status;
      assert Histogram(s) == rest[key := CountOf(rest, key) + 1];
      assert multiset(labels)[key] == 1;
      LabelTotalBump(rest, key, labels);
      assert LabelTotal(Histogram(s), labels) == LabelTotal(rest, labels) + 1;
    } else {
      LabelTotalEmpty(labels);
    }
  }

  /** Each of the six labels occurs once in the list of labels. */
  lemma LabelsOnce(key: string)
    requires IsStatusLabel(key)
    ensures multiset(StatusLabels)[key] == 1
  {
  }

  /** The dashboard's histogram has a key for exactly the statuses of the
      user's invoices, counts each status correctly, and its counts add up to
      how many invoices the user has. */
  lemma StatusCountsSpec(t: Tables, user: UserId)
    requires forall inv :: inv in t.invoices ==> StatusConsistent(inv)
    ensures var s := OwnerInvoices(t, user);
      var h := Histogram(s);
      && (forall k :: k in h <==> exists inv :: inv in s && inv.status == k)
      && (forall k :: CountOf(h, k) == |Seqs.Filter(s, HasStatus(k))|)
      && LabelTotal(h, StatusLabels) == |s|
  {
    var s := OwnerInvoices(t, user);
    var h := Histogram(s);
    forall k
      ensures CountOf(h, k) == |Seqs.Filter(s, HasStatus(k))|
      ensures k in h <==> exists inv :: inv in s && inv.status == k
    {
      HistogramCounts(s, k);
      if k in h {
        var inv := Seqs.Filter(s, HasStatus(k))[0];
        assert inv in Seqs.Filter(s, HasStatus(k));
      }
      if exists inv :: inv in s && inv.status == k {
        var inv :| inv in s && inv.status == k;
        assert inv in Seqs.Filter(s, HasStatus(k));
      }
    }
    forall inv | inv in s
      ensures multiset(StatusLabels)[inv.status] == 1
    {
      LabelsOnce(inv.status);
    }
    HistogramAddsUp(s, StatusLabels);
  }

  // ---------------------------------------------------------------- recent invoices

  /** The ten most recently created of the user's invoices, newest first. */
  function RecentInvoices(t: Tables, user: UserId): (r: seq<Invoice>)
    ensures |r| <= 10
  {
    Seqs.Take(Seqs.SortBy(OwnerInvoices(t, user), CreatedDesc()), 10)
  }

  /** The recent list is newest first, holds only the user's invoices, holds
      ten of them or all of them when there are fewer, and no invoice left out
      is newer than one shown. */
  lemma RecentInvoicesSpec(t: Tables, user: UserId)
    ensures var r := RecentInvoices(t, user);
      var owned := OwnerInvoices(t, user);
      && Seqs.SortedBy(r, CreatedDesc())
      && (forall inv :: inv in r ==> inv in t.invoices && OwnsInvoice(t, user, inv))
      && |r| == (if |owned| < 10 then |owned| else 10)
      && (forall x, y :: x in multiset(owned) - multiset(r) && y in r ==> x.createdAt <= y.createdAt)
  {
    var owned := OwnerInvoices(t, user);
    var sorted := Seqs.SortBy(owned, CreatedDesc());
    OrdersArePreorders();
    Seqs.SortBySorted(owned, CreatedDesc());
    Seqs.TakeOfSortedIsTop(sorted, CreatedDesc(), 10);
    var r := RecentInvoices(t, user);
    forall inv | inv in r
      ensures inv in owned
    {
      assert inv in sorted;
      assert inv in multiset(sorted);
    }
    forall x: Invoice, y: Invoice | x in multiset(owned) - multiset(r) && y in r
      ensures x.createdAt <= y.createdAt
    {
      assert CreatedDesc()(y, x);
    }
  }

  // ---------------------------------------------------------------- overdue

  /** Sent, viewed or overdue (not paid, cancelled or draft) and due before today. */
  predicate IsOverdue(inv: Invoice, today: Day)
  {
    inv.status != "paid" && inv.status != "cancelled" && inv.status != "draft" && inv.dueDate < today
  }

  function Overdue(today: Day): Invoice -> bool
  {
    (inv: Invoice) => IsOverdue(inv, today)
  }

  function OverdueInvoices(t: Tables, user: UserId, today: Day): (r: seq<Invoice>)
    ensures forall inv :: inv in r <==> (inv in t.invoices && OwnsInvoice(t, user, inv) && IsOverdue(inv, today))
  {
    Seqs.Filter(OwnerInvoices(t, user), Overdue(today))
  }

  /** An overdue invoice shown with how many days it is past due. */
  datatype OverdueRow = OverdueRow(invoice: Invoice, daysOverdue: int)

  /** The loop that stamps each overdue invoice with today minus its due date;
      every one of them is at least one day late. */
  method AnnotateOverdue(invoices: seq<Invoice>, today: Day) returns (rows: seq<OverdueRow>)
    requires forall inv :: inv in invoices ==> IsOverdue(inv, today)
    ensures |rows| == |invoices|
    ensures forall i :: 0 <= i < |rows| ==> rows[i] == OverdueRow(invoices[i], today - invoices[i].dueDate)
                                             && rows[i].daysOverdue >= 1
  {
    rows := [];
    for i := 0 to |invoices|
      invariant |rows| == i
      invariant forall j :: 0 <= j < i ==> rows[j] == OverdueRow(invoices[j], today - invoices[j].dueDate)
                                           && rows[j].daysOverdue >= 1
    {
      var inv := invoices[i];
      assert inv in invoices;
      rows := rows + [OverdueRow(inv, today - inv.dueDate)];
    }
  }

  // ---------------------------------------------------------------- monthly chart

  /** One month of the chart. */
  datatype ChartPoint = ChartPoint(year: int, month: int, start: Day, end: Day, revenue: real, expenses: real)

  function PaidBetween(start: Day, end: Day): Invoice -> bool
  {
    (inv: Invoice) => inv.status == "paid" && inv.paidDate.Some? && start <= inv.paidDate.value <= end
  }

  function DatedBetween(start: Day, end: Day): Expense -> bool
  {
    (e: Expense) => start <= e.date <= end
  }

  /** The day point `i` is taken from: `i` steps of 30 days back from today. */
  function Anchor(today: Day, i: nat): Ymd
    requires 30 * i < today
  {
    FromOrdinal(today - 30 * i)
  }

  /** The point for "today minus 30 x i days": the calendar month that day
      falls in, the paid invoices paid within it and the expenses dated in it. */
  function Point(t: Tables, user: UserId, today: Day, i: nat): ChartPoint
    requires i <= 5 && today > 150
  {
    var d := Anchor(today, i);
    var start := MonthStart(d.year, d.month);
    var end := MonthEnd(d.year, d.month);
    ChartPoint(d.year, d.month, start, end,
               Seqs.SumBy(Seqs.Filter(OwnerInvoices(t, user), PaidBetween(start, end)), TotalOf),
               Seqs.SumBy(Seqs.Filter(OwnerExpenses(t, user), DatedBetween(start, end)), AmountOf))
  }

  /** One pass of the chart loop: the month of today minus 30 x i days, and
      its two sums. */
  method MonthPoint(t: Tables, user: UserId, today: Day, i: nat) returns (p: ChartPoint)
    requires i <= 5 && today > 150
    ensures p == Point(t, user, today, i)
  {
    var monthDate := Anchor(today, i);
    var mStart := MonthStart(monthDate.year, monthDate.month);
    var mEnd := MonthEnd(monthDate.year, monthDate.month);
    var revenue := Seqs.SumBy(Seqs.Filter(OwnerInvoices(t, user), PaidBetween(mStart, mEnd)), TotalOf);
    var expenses := Seqs.SumBy(Seqs.Filter(OwnerExpenses(t, user), DatedBetween(mStart, mEnd)), AmountOf);
    p := ChartPoint(monthDate.year, monthDate.month, mStart, mEnd, revenue, expenses);
  }

  /** The first `k` points the chart loop appends: i = 5, 4, ..., 6 - k. */
  function Chart(t: Tables, user: UserId, today: Day, k: nat): (r: seq<ChartPoint>)
    requires k <= 6 && today > 150
    ensures |r| == k
  {
    if k == 0 then [] else Chart(t, user, today, k - 1) + [Point(t, user, today, 6 - k)]
  }

  /** The chart loop: i = 5 down to 0, oldest point first. */
  method ChartData(db: Db, user: UserId, today: Day) returns (points: seq<ChartPoint>)
    requires today > 150
    ensures points == Chart(db.Snapshot(), user, today, 6)
  {
    var t := db.Snapshot();
    points := [];
    var i := 5;
    while i >= 0
      invariant -1 <= i <= 5
      invariant points == Chart(t, user, today, 5 - i)
    {
      var p := MonthPoint(t, user, today, i);
      points := points + [p];
      i := i - 1;
    }
  }

  /** Each point spans one whole calendar month, from its first to its last
      day, the month of the day it is taken from; a day lies between its
      bounds exactly when it falls in that month (so its sums count that
      month, `PointSums`); the newest point is the current month. */
  lemma PointSpec(t: Tables, user: UserId, today: Day, i: nat)
    requires i <= 5 && today > 150
    ensures var p := Point(t, user, today, i);
      && p.year == Anchor(today, i).year && p.month == Anchor(today, i).month
      && FromOrdinal(p.start) == Ymd(p.year, p.month, 1)
      && FromOrdinal(p.end) == Ymd(p.year, p.month, DaysInMonth(p.year, p.month))
      && p.start <= today - 30 * i <= p.end
      && (forall x: Day :: p.start <= x <= p.end <==> FromOrdinal(x).year == p.year && FromOrdinal(x).month == p.month)
      && (i == 0 ==> p.start == FirstOfMonth(today))
  {
    var d := FromOrdinal(today - 30 * i);
    MonthEndIsLastDay(d.year, d.month);
    forall x: Day
      ensures MonthStart(d.year, d.month) <= x <= MonthEnd(d.year, d.month)
              <==> FromOrdinal(x).year == d.year && FromOrdinal(x).month == d.month
    {
      InMonthIff(d.year, d.month, x);
    }
  }

  /** Paid, with a paid date in month `m` of year `y`. */
  function PaidIn(y: int, m: int): Invoice -> bool
  {
    (inv: Invoice) => inv.status == "paid" && inv.paidDate.Some?
                      && FromOrdinal(inv.paidDate.value).year == y && FromOrdinal(inv.paidDate.value).month == m
  }

  /** Dated in month `m` of year `y`. */
  function DatedIn(y: int, m: int): Expense -> bool
  {
    (e: Expense) => FromOrdinal(e.date).year == y && FromOrdinal(e.date).month == m
  }

  /** Bounding the dates by the month start and the month end selects exactly
      the rows of that calendar month. */
  lemma MonthFilters(invoices: seq<Invoice>, expenses: seq<Expense>, y: int, m: int)
    requires 1 <= y && 1 <= m <= 12
    ensures Seqs.Filter(invoices, PaidBetween(MonthStart(y, m), MonthEnd(y, m))) == Seqs.Filter(invoices, PaidIn(y, m))
    ensures Seqs.Filter(expenses, DatedBetween(MonthStart(y, m), MonthEnd(y, m))) == Seqs.Filter(expenses, DatedIn(y, m))
  {
    var start, end := MonthStart(y, m), MonthEnd(y, m);
    forall inv | inv in invoices
      ensures PaidBetween(start, end)(inv) == PaidIn(y, m)(inv)
    {
      if inv.paidDate.Some? {
        InMonthIff(y, m, inv.paidDate.value);
      }
    }
    forall e | e in expenses
      ensures DatedBetween(start, end)(e) == DatedIn(y, m)(e)
    {
      InMonthIff(y, m, e.date);
    }
    Seqs.FilterSame(invoices, PaidBetween(start, end), PaidIn(y, m));
    Seqs.FilterSame(expenses, DatedBetween(start, end), DatedIn(y, m));
  }

  /** A point's revenue is the total of the user's invoices paid in its
      calendar month, and its expenses the total of the user's expenses dated
      in that month. */
  lemma PointSums(t: Tables, user: UserId, today: Day, i: nat)
    requires i <= 5 && today > 150
    ensures var p := Point(t, user, today, i);
      && p.revenue == Seqs.SumBy(Seqs.Filter(OwnerInvoices(t, user), PaidIn(p.year, p.month)), TotalOf)
      && p.expenses == Seqs.SumBy(Seqs.Filter(OwnerExpenses(t, user), DatedIn(p.year, p.month)), AmountOf)
  {
    var d := Anchor(today, i);
    MonthFilters(OwnerInvoices(t, user), OwnerExpenses(t, user), d.year, d.month);
  }

  /** Later days fall in the same or a later month. */
  lemma FirstOfMonthMonotone(a: Day, b: Day)
    requires a <= b
    ensures FirstOfMonth(a) <= FirstOfMonth(b)
  {
    var da, db := FromOrdinal(a), FromOrdinal(b);
    var fa, fb := Ymd(da.year, da.month, 1), Ymd(db.year, db.month, 1);
    if db.year < da.year || (db.year == da.year && db.month < da.month) {
      var last := Ymd(db.year, db.month, DaysInMonth(db.year, db.month));
      MonthEndIsLastDay(db.year, db.month);
      InMonthIff(db.year, db.month, b);
      InMonthIff(da.year, da.month, a);
      OrdinalMonotone(last, fa);
      assert false;
    } else if fa != fb {
      OrdinalMonotone(fa, fb);
    }
  }

  /** The points run oldest first: their month starts never decrease (two
      neighbouring points can fall in the same month, and a month can be
      skipped, since the steps are 30 days and not calendar months). */
  lemma ChartOldestFirst(t: Tables, user: UserId, today: Day, i: nat)
    requires 1 <= i <= 5 && today > 150
    ensures Point(t, user, today, i).start <= Point(t, user, today, i - 1).start
  {
    AnchorMonthsOrdered(today, i);
    PointStart(t, user, today, i);
    PointStart(t, user, today, i - 1);
  }

  /** The month of the day 30 x i days back never comes after the month of the
      day 30 x (i - 1) days back. */
  lemma AnchorMonthsOrdered(today: Day, i: nat)
    requires 1 <= i <= 5 && today > 150
    ensures FirstOfMonth(today - 30 * i) <= FirstOfMonth(today - 30 * (i - 1))
  {
    var newer := today - 30 * (i - 1);
    FirstOfMonthMonotone(newer - 30, newer);
    assert today - 30 * i == newer - 30;
  }

  /** Point `i` starts on the first of the month of today minus 30 x i days. */
  lemma PointStart(t: Tables, user: UserId, today: Day, i: nat)
    requires i <= 5 && today > 150
    ensures Point(t, user, today, i).start == FirstOfMonth(today - 30 * i)
  {
  }

  /** Stepping back `k` days within a month keeps the year and the month. */
  lemma StepBackInMonth(y: int, m: int, d: int, k: nat)
    requires Valid(Ymd(y, m, d)) && k < d
    ensures ToOrdinal(Ymd(y, m, d)) - k == ToOrdinal(Ymd(y, m, d - k))
    ensures FromOrdinal(ToOrdinal(Ymd(y, m, d)) - k) == Ymd(y, m, d - k)
  {
    FromToOrdinal(Ymd(y, m, d - k));
  }

  /** In a common year, sixty days before March 31 is January 30, and March
      31 is late enough for the chart. */
  lemma SixtyDaysBeforeMarch31(y: int)
    requires 2 <= y && !IsLeap(y)
    ensures ToOrdinal(Ymd(y, 3, 31)) > 150
    ensures FromOrdinal(ToOrdinal(Ymd(y, 3, 31)) - 60) == Ymd(y, 1, 30)
  {
    DaysBeforeYearMono(1, y);
    assert ToOrdinal(Ymd(y, 3, 31)) - 60 == ToOrdinal(Ymd(y, 1, 30));
    FromToOrdinal(Ymd(y, 1, 30));
  }

  /** On March 31 of a common year (2026, say) the point 30 days back is
      still March, the month of the newest point: 30 days back is March 1. */
  lemma ChartRepeatsMarch(y: int, today: Day)
    requires 2 <= y && !IsLeap(y) && today == ToOrdinal(Ymd(y, 3, 31))
    ensures FromOrdinal(today) == Ymd(y, 3, 31)
    ensures Anchor(today, 1) == Ymd(y, 3, 1)
  {
    FromToOrdinal(Ymd(y, 3, 31));
    StepBackInMonth(y, 3, 31, 30);
  }

  /** On the same day February gets no point: 60 days back is January 30. */
  lemma ChartSkipsFebruary(y: int, today: Day)
    requires 2 <= y && !IsLeap(y) && today == ToOrdinal(Ymd(y, 3, 31))
    ensures today > 150
    ensures Anchor(today, 2).month == 1
  {
    SixtyDaysBeforeMarch31(y);
  }

  // ---------------------------------------------------------------- scaling

  /** A chart point with its bars as percentages of the largest value. */
  datatype ScaledPoint = ScaledPoint(point: ChartPoint, revenuePct: real, expensesPct: real)

  function Max(a: real, b: real): real
  {
    if a >= b then a else b
  }

  /** The largest revenue or expense figure, and zero if none is larger. */
  function Peak(points: seq<ChartPoint>): (m: real)
    ensures m >= 0.0
    ensures forall p :: p in points ==> p.revenue <= m && p.expenses <= m
    ensures m == 0.0 || exists p :: p in points && (p.revenue == m || p.expenses == m)
  {
    if points == [] then 0.0
    else
      assert points == [points[0]] + points[1..];
      Max(Peak(points[1..]), Max(points[0].revenue, points[0].expenses))
  }

  /** The divisor: the peak, or 100 when the peak is zero. */
  function Divisor(points: seq<ChartPoint>): (d: real)
    ensures d > 0.0
  {
    if Peak(points) == 0.0 then 100.0 else Peak(points)
  }

  /** A bar's height: the value as a percentage of the divisor. */
  function Percent(value: real, divisor: real): real
    requires divisor > 0.0
  {
    value / divisor * 100.0
  }

  /** The two scaling loops: the running maximum, then the percentages. */
  method Scale(points: seq<ChartPoint>) returns (scaled: seq<ScaledPoint>, maxVal: real)
    ensures maxVal == Divisor(points) && maxVal > 0.0
    ensures |scaled| == |points|
    ensures forall i :: 0 <= i < |scaled| ==>
              scaled[i] == ScaledPoint(points[i], Percent(points[i].revenue, maxVal),
                                       Percent(points[i].expenses, maxVal))
  {
    maxVal := 0.0;
    for i := 0 to |points|
      invariant maxVal == Peak(points[..i])
    {
      PeakSnoc(points[..i], points[i]);
      assert points[..i + 1] == points[..i] + [points[i]];
      maxVal := Max(maxVal, Max(points[i].revenue, points[i].expenses));
    }
    assert points[..|points|] == points;
    if maxVal == 0.0 {
      maxVal := 100.0;
    }
    scaled := [];
    for i := 0 to |points|
      invariant |scaled| == i
      invariant forall j :: 0 <= j < i ==>
                  scaled[j] == ScaledPoint(points[j], Percent(points[j].revenue, maxVal),
                                           Percent(points[j].expenses, maxVal))
    {
      scaled := scaled + [ScaledPoint(points[i], Percent(points[i].revenue, maxVal),
                                      Percent(points[i].expenses, maxVal))];
    }
  }

  /** The peak after one more point. */
  lemma {:induction false} PeakSnoc(points: seq<ChartPoint>, p: ChartPoint)
    ensures Peak(points + [p]) == Max(Peak(points), Max(p.revenue, p.expenses))
  {
    if points != [] {
      assert (points + [p])[1..] == points[1..] + [p];
      PeakSnoc(points[1..], p);
    } else {
      assert ([p])[1..] == [];
    }
  }

  /** A value no larger than the divisor is drawn at most 100 high, a
      non-negative one at least 0 high, and the divisor itself exactly 100. */
  lemma PercentBounds(value: real, divisor: real)
    requires divisor > 0.0 && value <= divisor
    ensures Percent(value, divisor) <= 100.0
    ensures value >= 0.0 ==> Percent(value, divisor) >= 0.0
    ensures value == divisor ==> Percent(value, divisor) == 100.0
  {
    var q := value / divisor;
    assert value == q * divisor;
    assert (1.0 - q) * divisor == divisor - value;
    NonnegativeFactor(1.0 - q, divisor);
    NonnegativeFactor(q, divisor);
  }

  /** A product with a positive factor is non-negative only when the other
      factor is. */
  lemma NonnegativeFactor(a: real, b: real)
    requires b > 0.0
    ensures a * b >= 0.0 ==> a >= 0.0
  {
    if a < 0.0 {
      assert a * b < 0.0;
    }
  }

  /** Every bar is at most 100 high, at least 0 high when the figures are not
      negative, and the largest positive figure is drawn at exactly 100. */
  lemma ScaleBounds(points: seq<ChartPoint>, p: ChartPoint)
    requires p in points
    ensures Percent(p.revenue, Divisor(points)) <= 100.0
    ensures Percent(p.expenses, Divisor(points)) <= 100.0
    ensures p.revenue >= 0.0 ==> Percent(p.revenue, Divisor(points)) >= 0.0
    ensures p.expenses >= 0.0 ==> Percent(p.expenses, Divisor(points)) >= 0.0
    ensures p.revenue > 0.0 && p.revenue == Peak(points) ==> Percent(p.revenue, Divisor(points)) == 100.0
  {
    PercentBounds(p.revenue, Divisor(points));
    PercentBounds(p.expenses, Divisor(points));
  }

  /** The points behind the bars. */
  function Bars(chart: seq<ScaledPoint>): (r: seq<ChartPoint>)
    ensures |r| == |chart|
    ensures forall i :: 0 <= i < |r| ==> r[i] == chart[i].point
  {
    if chart == [] then [] else [chart[0].point] + Bars(chart[1..])
  }

  lemma BarsOfScaled(points: seq<ChartPoint>, scaled: seq<ScaledPoint>)
    requires |scaled| == |points|
    requires forall i :: 0 <= i < |scaled| ==> scaled[i].point == points[i]
    ensures Bars(scaled) == points
  {
  }

  // ---------------------------------------------------------------- the page

  /** Everything the dashboard shows. */
  datatype DashboardView = DashboardView(
    totalInvoicedMonth: real,
    totalPaidMonth: real,
    totalOutstanding: real,
    statusCounts: map<string, nat>,
    recentInvoices: seq<Invoice>,
    totalClients: nat,
    invoiceCountMonth: nat,
    revenueYtd: real,
    expensesYtd: real,
    overdueInvoices: seq<OverdueRow>,
    chart: seq<ScaledPoint>)

  /** The period sums, counts and lists at the top of the dashboard, each
      the function above. */
  predicate ShowsFigures(v: DashboardView, t: Tables, user: UserId, today: Day)
  {
    && v.totalInvoicedMonth == TotalInvoicedMonth(t, user, today)
    && v.totalPaidMonth == TotalPaidMonth(t, user, today)
    && v.totalOutstanding == TotalOutstanding(t, user)
    && v.statusCounts == Histogram(OwnerInvoices(t, user))
    && v.recentInvoices == RecentInvoices(t, user)
    && v.totalClients == |OwnerClients(t, user)|
    && v.invoiceCountMonth == |InvoicesThisMonth(t, user, today)|
    && v.revenueYtd == RevenueYtd(t, user, today)
    && v.expensesYtd == ExpensesYtd(t, user, today)
  }

  /** The overdue rows stamp exactly the user's overdue invoices, in order. */
  predicate ShowsOverdue(v: DashboardView, t: Tables, user: UserId, today: Day)
  {
    var overdue := OverdueInvoices(t, user, today);
    && |v.overdueInvoices| == |overdue|
    && forall i :: 0 <= i < |v.overdueInvoices| ==>
         v.overdueInvoices[i] == OverdueRow(overdue[i], today - overdue[i].dueDate)
         && v.overdueInvoices[i].daysOverdue >= 1
  }

  /** The chart is the six points, oldest first (`Chart`), each bar drawn as a
      percentage of the divisor. */
  predicate ShowsChart(v: DashboardView, t: Tables, user: UserId, today: Day)
    requires today > 150
  {
    && Bars(v.chart) == Chart(t, user, today, 6)
    && var divisor := Divisor(Bars(v.chart));
    && forall j :: 0 <= j < 6 ==>
         && v.chart[j].revenuePct == Percent(v.chart[j].point.revenue, divisor)
         && v.chart[j].expensesPct == Percent(v.chart[j].point.expenses, divisor)
  }

  /** What the dashboard shows for the rows `t`. */
  predicate Shows(v: DashboardView, t: Tables, user: UserId, today: Day)
    requires today > 150
  {
    ShowsFigures(v, t, user, today) && ShowsOverdue(v, t, user, today) && ShowsChart(v, t, user, today)
  }

  /** Builds the dashboard from the stored rows. */
  method BuildDashboard(db: Db, user: UserId, today: Day) returns (v: DashboardView)
    requires today > 150
    ensures Shows(v, db.Snapshot(), user, today)
  {
    var t := db.Snapshot();
    var month := InvoicesThisMonth(t, user, today);
    var overdue := OverdueInvoices(t, user, today);
    var rows := AnnotateOverdue(overdue, today);
    var points := ChartData(db, user, today);
    var scaled, _ := Scale(points);
    BarsOfScaled(points, scaled);
    v := DashboardView(
      Seqs.SumBy(month, TotalOf),
      Seqs.SumBy(Seqs.Filter(month, Paid()), TotalOf),
      TotalOutstanding(t, user),
      Histogram(OwnerInvoices(t, user)),
      RecentInvoices(t, user),
      |OwnerClients(t, user)|,
      |month|,
      RevenueYtd(t, user, today),
      ExpensesYtd(t, user, today),
      rows,
      scaled);
  }

  /** The dashboard route: the demo fixture is written first when the user
      has no clients yet; a rejected seed is the page's error, otherwise the
      page shows the rows as they stand after seeding. */
  method DashboardPage(db: Db, user: UserId, today: Day, now: Instant) returns (r: Result<DashboardView>)
    requires db.Valid() && today > 150
    modifies db
    ensures var o := Seed.SeedIn(old(db.Current()), Seed.Demo, user, now);
      && db.Current() == o.state
      && (o.result.Err? ==> r == Err(o.result.error))
      && (o.result.Ok? ==> r.Ok? && Shows(r.value, db.Snapshot(), user, today))
    ensures db.Valid()
  {
    var seeded := Seed.SeedData(db, user, now);
    if seeded.Err? {
      return Err(seeded.error);
    }
    var v := BuildDashboard(db, user, today);
    r := Ok(v);
  }
}
