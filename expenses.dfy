/** The expense routes: the list with an optional category filter and its
    total, the forms, and the create, edit and delete handlers, all scoped to
    the expenses the user logged. */
module Expenses {
  import opened Wrappers
  import opened Models
  import Seqs
  import Calendar
  import opened Store

  /** The fields the expense form posts; an absent category is None. */
  datatype ExpenseForm = ExpenseForm(
    description: string,
    amount: real,
    date: Calendar.Day,
    category: Option<string>,
    vendor: Option<string>,
    taxDeductible: bool)

  /** The category stored for a submitted form: "other" when none was posted
      or the posted value is empty, since the form layer treats an empty
      field as a missing one and falls back to the default. */
  function CategoryOf(form: ExpenseForm): (c: string)
    ensures form.category.Some? && form.category.value != "" ==> c == form.category.value
    ensures form.category.None? || form.category.value == "" ==> c == "other"
    ensures c != ""
  {
    match form.category
    case Some(c) => if c == "" then "other" else c
    case None => "other"
  }

  /** `e` with the posted fields written over it; id, owner, currency, receipt
      reference and creation time are kept. */
  function WithForm(e: Expense, form: ExpenseForm): (r: Expense)
    ensures r.id == e.id && r.userId == e.userId && r.currency == e.currency
    ensures r.receiptRef == e.receiptRef && r.createdAt == e.createdAt
    ensures r.description == form.description && r.amount == form.amount && r.date == form.date
    ensures r.category == Some(CategoryOf(form)) && r.vendor == form.vendor && r.taxDeductible == form.taxDeductible
  {
    e.(description := form.description, amount := form.amount, date := form.date,
       category := Some(CategoryOf(form)), vendor := form.vendor, taxDeductible := form.taxDeductible)
  }

  // ---------------------------------------------------------------- list

  /** The category filter is applied only for a non-empty category. */
  predicate Filters(category: Option<string>)
  {
    category.Some? && category.value != ""
  }

  function InCategory(c: string): Expense -> bool
  {
    (e: Expense) => e.category == Some(c)
  }

  /** The user's expenses that pass the filter, in table order. */
  function Selected(t: Tables, user: UserId, category: Option<string>): (r: seq<Expense>)
    ensures forall e :: e in r <==> (e in t.expenses && e.userId == user
                                    && (Filters(category) ==> e.category == category))
  {
    if Filters(category) then Seqs.Filter(OwnerExpenses(t, user), InCategory(category.value))
    else OwnerExpenses(t, user)
  }

  /** What the list page shows. */
  datatype ExpenseList = ExpenseList(expenses: seq<Expense>, totalAmount: real, selectedCategory: Option<string>)

  /** GET /expenses: the selected expenses, latest date first, and their total. */
  function ListExpenses(t: Tables, user: UserId, category: Option<string>): (r: ExpenseList)
    ensures multiset(r.expenses) == multiset(Selected(t, user, category))
    ensures r.selectedCategory == category
  {
    var expenses := Seqs.SortBy(Selected(t, user, category), DateDesc());
    ExpenseList(expenses, Seqs.SumBy(expenses, AmountOf), category)
  }

  /** The list holds exactly the selected expenses, latest date first, and its
      total is their amounts added up. */
  lemma ListExpensesSpec(t: Tables, user: UserId, category: Option<string>)
    ensures var r := ListExpenses(t, user, category);
      && Seqs.SortedBy(r.expenses, DateDesc())
      && (forall e :: e in r.expenses <==> e in Selected(t, user, category))
      && r.totalAmount == Seqs.SumBy(Selected(t, user, category), AmountOf)
  {
    var sel := Selected(t, user, category);
    var r := ListExpenses(t, user, category);
    OrdersArePreorders();
    Seqs.SortBySorted(sel, DateDesc());
    Seqs.SumByPermutation(r.expenses, sel, AmountOf);
    forall e
      ensures e in r.expenses <==> e in sel
    {
      assert e in r.expenses <==> e in multiset(r.expenses);
      assert e in sel <==> e in multiset(sel);
    }
  }

  /** The total for a category and the total for the rest add up to the
      unfiltered total. */
  lemma CategoryTotalsAddUp(t: Tables, user: UserId, c: string)
    requires c != ""
    ensures ListExpenses(t, user, Some(c)).totalAmount
            + Seqs.SumBy(Seqs.Filter(OwnerExpenses(t, user), Seqs.Not(InCategory(c))), AmountOf)
         == ListExpenses(t, user, None).totalAmount
  {
    ListExpensesSpec(t, user, Some(c));
    ListExpensesSpec(t, user, None);
    Seqs.SumByPartition(OwnerExpenses(t, user), InCategory(c), AmountOf);
  }

  // ---------------------------------------------------------------- lookups

  function OwnedExpenseWithId(user: UserId, id: nat): Expense -> bool
  {
    (e: Expense) => e.id == id && e.userId == user
  }

  /** The position of expense `id` when `user` logged it. */
  function FindExpense(t: Tables, user: UserId, id: nat): (r: Option<nat>)
    ensures r.Some? ==> r.value < |t.expenses| && t.expenses[r.value].id == id && t.expenses[r.value].userId == user
    ensures r.None? ==> forall e :: e in t.expenses && e.id == id ==> e.userId != user
  {
    var r := Seqs.FirstIndex(t.expenses, OwnedExpenseWithId(user, id));
    assert r.None? ==> forall i :: 0 <= i < |t.expenses| ==> !OwnedExpenseWithId(user, id)(t.expenses[i]);
    r
  }

  /** GET /expenses/{id}/edit: the expense, or NotFound. */
  function EditExpenseForm(t: Tables, user: UserId, id: nat): (r: Result<Expense>)
    ensures r.Ok? <==> exists e :: e in t.expenses && e.id == id && e.userId == user
    ensures r.Err? ==> r.error == NotFound
    ensures r.Ok? ==> r.value in t.expenses && r.value.id == id && r.value.userId == user
  {
    match FindExpense(t, user, id)
    case None => Err(NotFound)
    case Some(k) => Ok(t.expenses[k])
  }

  // ---------------------------------------------------------------- create

  /** The row a successful creation inserts. */
  function NewExpense(id: nat, user: UserId, form: ExpenseForm, now: Instant): (e: Expense)
    ensures e.id == id && e.userId == user && e.createdAt == now
    ensures e.currency == "USD" && e.receiptRef == None
  {
    WithForm(Expense(id, user, None, "", 0.0, "USD", form.date, None, None, false, now), form)
  }

  /** POST /expenses/new: the expense is inserted for `user` with the next id. */
  function CreateExpenseIn(s: State, user: UserId, form: ExpenseForm, now: Instant): (o: Outcome<nat>)
    ensures o.result == Ok(s.next.expense)
  {
    var e := NewExpense(s.next.expense, user, form, now);
    Outcome(Ok(s.next.expense), s.(tables := s.tables.(expenses := s.tables.expenses + [e]),
                                   next := s.next.(expense := s.next.expense + 1)))
  }

  /** Creating an expense keeps every integrity rule, and the new expense is
      the user's and carries the posted fields. */
  lemma CreateExpenseSound(s: State, user: UserId, form: ExpenseForm, now: Instant)
    requires Sound(s)
    ensures var o := CreateExpenseIn(s, user, form, now);
      && Sound(o.state)
      && EditExpenseForm(o.state.tables, user, s.next.expense) == Ok(NewExpense(s.next.expense, user, form, now))
  {
    var o := CreateExpenseIn(s, user, form, now);
    var t, t', id := s.tables, o.state.tables, s.next.expense;
    var e := NewExpense(id, user, form, now);
    KeysBelowAppend(t.expenses, [e], ExpenseKey, id, id + 1);
    assert e in t'.expenses;
    var k := FindExpense(t', user, id).value;
    assert t'.expenses[k] in t'.expenses;
    if t'.expenses[k] in t.expenses {
      assert false;
    }
  }

  /** The create handler on the session. */
  method CreateExpense(db: Db, user: UserId, form: ExpenseForm, now: Instant) returns (r: Result<nat>)
    requires db.Valid()
    modifies db
    ensures var o := CreateExpenseIn(old(db.Current()), user, form, now);
      r == o.result && db.Current() == o.state
    ensures db.Valid()
  {
    CreateExpenseSound(db.Current(), user, form, now);
    var id := db.next.expense;
    var category := if form.category.Some? && form.category.value != "" then form.category.value else "other";
    var e := Expense(id, user, Some(category), form.description, form.amount, "USD", form.date,
                     form.vendor, None, form.taxDeductible, now);
    db.expenses := db.expenses + [e];
    db.next := db.next.(expense := id + 1);
    r := Ok(id);
  }

  // ---------------------------------------------------------------- edit

  /** POST /expenses/{id}/edit: NotFound for a missing or foreign expense;
      otherwise the posted fields are written over it. */
  function UpdateExpenseIn(s: State, user: UserId, id: nat, form: ExpenseForm): (o: Outcome<nat>)
    ensures o.result.Err? ==> o.result.error == NotFound && o.state == s
    ensures o.result.Ok? <==> FindExpense(s.tables, user, id).Some?
    ensures o.result.Ok? ==> o.result.value == id
  {
    match FindExpense(s.tables, user, id)
    case None => Outcome(Err(NotFound), s)
    case Some(k) =>
      Outcome(Ok(id), s.(tables := s.tables.(expenses := s.tables.expenses[k := WithForm(s.tables.expenses[k], form)])))
  }

  /** Editing an expense keeps every integrity rule and the expense's owner,
      and changes no other table. */
  lemma UpdateExpenseSound(s: State, user: UserId, id: nat, form: ExpenseForm)
    requires Sound(s)
    ensures var o := UpdateExpenseIn(s, user, id, form);
      && Sound(o.state)
      && o.state.tables == s.tables.(expenses := o.state.tables.expenses)
      && o.state.next == s.next
      && |o.state.tables.expenses| == |s.tables.expenses|
      && (forall i :: 0 <= i < |s.tables.expenses| && s.tables.expenses[i].id != id ==>
            o.state.tables.expenses[i] == s.tables.expenses[i])
      && (o.result.Ok? ==> EditExpenseForm(o.state.tables, user, id) == Ok(WithForm(EditExpenseForm(s.tables, user, id).value, form)))
  {
    var o := UpdateExpenseIn(s, user, id, form);
    if o.result.Ok? {
      var t, t', k := s.tables, o.state.tables, FindExpense(s.tables, user, id).value;
      var e := WithForm(t.expenses[k], form);
      KeysBelowReplace(t.expenses, k, e, ExpenseKey, s.next.expense);
      assert t'.expenses[k] == e;
      assert e in t'.expenses && e.id == id && e.userId == user;
      var k' := FindExpense(t', user, id).value;
      assert t'.expenses[k'] in t'.expenses;
      SameKeySameRow(t'.expenses, ExpenseKey, t'.expenses[k'], e);
      assert t.expenses[k] in t.expenses;
    }
  }

  /** The edit handler on the session. */
  method UpdateExpense(db: Db, user: UserId, id: nat, form: ExpenseForm) returns (r: Result<nat>)
    requires db.Valid()
    modifies db
    ensures var o := UpdateExpenseIn(old(db.Current()), user, id, form);
      r == o.result && db.Current() == o.state
    ensures db.Valid()
  {
    UpdateExpenseSound(db.Current(), user, id, form);
    var found := FindExpense(db.Snapshot(), user, id);
    if found.None? {
      return Err(NotFound);
    }
    var k := found.value;
    var category := if form.category.Some? && form.category.value != "" then form.category.value else "other";
    var e := db.expenses[k].(description := form.description, amount := form.amount, date := form.date,
                             category := Some(category), vendor := form.vendor, taxDeductible := form.taxDeductible);
    db.expenses := db.expenses[k := e];
    r := Ok(id);
  }

  // ---------------------------------------------------------------- delete

  /** POST /expenses/{id}/delete: NotFound for a missing or foreign expense;
      otherwise the row goes. */
  function DeleteExpenseIn(s: State, user: UserId, id: nat): (o: Outcome<nat>)
    ensures o.result.Err? ==> o.result.error == NotFound && o.state == s
    ensures o.result.Ok? <==> FindExpense(s.tables, user, id).Some?
    ensures o.result.Ok? ==> o.result.value == id
  {
    match FindExpense(s.tables, user, id)
    case None => Outcome(Err(NotFound), s)
    case Some(k) =>
      Outcome(Ok(id), s.(tables := s.tables.(expenses := Seqs.RemoveAt(s.tables.expenses, k))))
  }

  /** Deleting an expense keeps every integrity rule, removes exactly the row
      with that id and changes no other table. */
  lemma DeleteExpenseSound(s: State, user: UserId, id: nat)
    requires Sound(s)
    ensures var o := DeleteExpenseIn(s, user, id);
      var t, t' := s.tables, o.state.tables;
      && Sound(o.state)
      && t' == t.(expenses := t'.expenses)
      && (o.result.Ok? ==>
            && (forall e :: e in t'.expenses <==> e in t.expenses && e.id != id)
            && EditExpenseForm(t', user, id) == Err(NotFound))
  {
    var o := DeleteExpenseIn(s, user, id);
    if o.result.Ok? {
      var t, k := s.tables, FindExpense(s.tables, user, id).value;
      KeysBelowRemoveAt(t.expenses, k, ExpenseKey, s.next.expense);
    }
  }

  /** The delete handler on the session. */
  method DeleteExpense(db: Db, user: UserId, id: nat) returns (r: Result<nat>)
    requires db.Valid()
    modifies db
    ensures var o := DeleteExpenseIn(old(db.Current()), user, id);
      r == o.result && db.Current() == o.state
    ensures db.Valid()
  {
    DeleteExpenseSound(db.Current(), user, id);
    var found := FindExpense(db.Snapshot(), user, id);
    if found.None? {
      return Err(NotFound);
    }
    db.expenses := Seqs.RemoveAt(db.expenses, found.value);
    r := Ok(id);
  }
}
