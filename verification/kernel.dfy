/** The ledger kernel: monthly income, expenses per (category, date) and
    limits per category, all in integer cents, with the three validating
    mutators, the read-only queries of `BudgetTracker1L`, and the getters the
    kernel interface promises, defined from those queries.
 */
module Kernel {
  import opened Outcome
  import opened Text
  import opened Sums

  /** Sentinel reported for a category that has no limit; never a valid limit. */
  const NO_LIMIT: int := -1

  /** The representation: `expenses[c][d]` is the accumulated amount spent in
      category `c` on date `d`; `limits[c]` is the limit of `c`. */
  datatype Tracker = Tracker(
    income: int,
    expenses: map<string, map<string, int>>,
    limits: map<string, int>)

  /** The representation invariant ("convention") of the ledger. */
  predicate Valid(t: Tracker) {
    && t.income >= 0
    && (forall c :: c in t.expenses ==> !IsBlank(c))
    && (forall c, d :: c in t.expenses && d in t.expenses[c] ==> IsIsoDate(d))
    && (forall c, d :: c in t.expenses && d in t.expenses[c] ==> t.expenses[c][d] >= 0)
    && (forall c :: c in t.limits ==> !IsBlank(c) && (t.limits[c] >= 0 || t.limits[c] == NO_LIMIT))
  }

  /** The amount stored under key `k`, or 0 when there is none. */
  function Lookup(m: map<string, int>, k: string): int {
    if k in m then m[k] else 0
  }

  /** Abstraction function: the dates recorded for `c`. */
  function DatesOf(t: Tracker, c: string): set<string> {
    if c in t.expenses then t.expenses[c].Keys else {}
  }

  /** Abstraction function: the amount recorded for (`c`, `d`), 0 if none. */
  function Expense(t: Tracker, c: string, d: string): int {
    if c in t.expenses then Lookup(t.expenses[c], d) else 0
  }

  /** Abstraction function: the limit of `c`, `NO_LIMIT` if none. */
  function LimitOf(t: Tracker, c: string): int {
    if c in t.limits then t.limits[c] else NO_LIMIT
  }

  /** Sum of the amounts of one date map. */
  ghost function DateMapTotal(m: map<string, int>): int {
    SumSet(m.Keys, d => Lookup(m, d))
  }

  /** Abstraction function: the sum of every leaf amount over all categories and dates. */
  ghost function LeafTotal(t: Tracker): int {
    SumSet(t.expenses.Keys, c => if c in t.expenses then DateMapTotal(t.expenses[c]) else 0)
  }

  /** A valid ledger's amounts add up to a non-negative total. */
  lemma LeafTotalNonNegative(t: Tracker)
    requires Valid(t)
    ensures LeafTotal(t) >= 0
  {
    forall c | c in t.expenses
      ensures DateMapTotal(t.expenses[c]) >= 0
    {
      var m := t.expenses[c];
      forall d | d in m.Keys
        ensures Lookup(m, d) >= 0
      {
        assert d in t.expenses[c];
      }
      SumSetNonNegative(m.Keys, d => Lookup(m, d));
    }
    SumSetNonNegative(t.expenses.Keys, c => if c in t.expenses then DateMapTotal(t.expenses[c]) else 0);
  }

  // ---------------------------------------------------------------- constructor

  /** The constructor: an empty, valid tracker. */
  function Empty(): (t: Tracker)
    ensures Valid(t)
    ensures t.income == 0 && LeafTotal(t) == 0
    ensures forall c :: DatesOf(t, c) == {} && LimitOf(t, c) == NO_LIMIT
    ensures CategorySet(t) == {}
  {
    Tracker(0, map[], map[])
  }

  // ---------------------------------------------------------------- mutators

  /** `setMonthlyIncome`: replaces the income; a negative income is rejected. */
  function SetMonthlyIncome(t: Tracker, income: int): (r: Result<Tracker>)
    ensures r.Err? <==> income < 0
    ensures r.Err? ==> r.error == NegativeIncome
    ensures r.Ok? ==> r.value.income == income
    ensures r.Ok? ==> r.value.expenses == t.expenses && r.value.limits == t.limits
    ensures r.Ok? && Valid(t) ==> Valid(r.value)
  {
    if income < 0 then Err(NegativeIncome)
    else Ok(t.(income := income))
  }

  /** The checks `addExpense` makes, in the order it makes them; `None` when all pass. */
  function ExpenseArgumentError(category: Option<string>, date: Option<string>, amount: int): (e: Option<Error>)
    ensures e.None? <==>
      category.Some? && !IsBlank(category.value) && date.Some? && IsIsoDate(date.value) && amount >= 0
  {
    if category.None? || IsBlank(category.value) then Some(BlankCategory)
    else if date.None? then Some(NullDate)
    else if |date.value| != DATE_LENGTH then Some(BadDateLength)
    else if date.value[DATE_DASH_POS_1] != '-' || date.value[DATE_DASH_POS_2] != '-' then Some(MissingDashes)
    else if amount < 0 then Some(NegativeAmount)
    else None
  }

  /** `addExpense`: validates its arguments before touching the state, then
      adds `amount` to the (category, date) entry, creating it at 0 if absent. */
  function AddExpense(t: Tracker, category: Option<string>, date: Option<string>, amount: int): (r: Result<Tracker>)
    ensures category.None? || IsBlank(category.value) ==> r == Err(BlankCategory)
    ensures category.Some? && !IsBlank(category.value) && date.None? ==> r == Err(NullDate)
    ensures category.Some? && !IsBlank(category.value) && date.Some? && |date.value| != DATE_LENGTH ==>
      r == Err(BadDateLength)
    ensures (category.Some? && !IsBlank(category.value) && date.Some? && |date.value| == DATE_LENGTH
             && !IsIsoDate(date.value)) ==> r == Err(MissingDashes)
    ensures (category.Some? && !IsBlank(category.value) && date.Some? && IsIsoDate(date.value)
             && amount < 0) ==> r == Err(NegativeAmount)
    ensures r.Ok? <==>
      category.Some? && !IsBlank(category.value) && date.Some? && IsIsoDate(date.value) && amount >= 0
    ensures r.Ok? ==>
      Expense(r.value, category.value, date.value) == Expense(t, category.value, date.value) + amount
    ensures r.Ok? ==> forall c, d :: (c != category.value || d != date.value) ==>
      Expense(r.value, c, d) == Expense(t, c, d)
    ensures r.Ok? ==> forall c :: DatesOf(r.value, c) ==
                                 (if c == category.value then DatesOf(t, c) + {date.value} else DatesOf(t, c))
    ensures r.Ok? ==> r.value.expenses.Keys == t.expenses.Keys + {category.value}
    ensures r.Ok? ==> r.value.income == t.income && r.value.limits == t.limits
    ensures r.Ok? && Valid(t) ==> Valid(r.value)
  {
    match ExpenseArgumentError(category, date, amount)
    case Some(e) => Err(e)
    case None =>
      var c := category.value;
      var d := date.value;
      var byDate := if c in t.expenses then t.expenses[c] else map[];
      var newAmount := if d in byDate then byDate[d] + amount else amount;
      Ok(t.(expenses := t.expenses[c := byDate[d := newAmount]]))
  }

  /** `setBudgetLimit`: inserts or replaces the limit of a non-blank category;
      every negative limit, `NO_LIMIT` included, is rejected. */
  function SetBudgetLimit(t: Tracker, category: Option<string>, limit: int): (r: Result<Tracker>)
    ensures category.None? || IsBlank(category.value) ==> r == Err(BlankCategory)
    ensures category.Some? && !IsBlank(category.value) && limit < 0 ==> r == Err(NegativeLimit)
    ensures r.Ok? <==> category.Some? && !IsBlank(category.value) && limit >= 0
    ensures r.Ok? ==> LimitOf(r.value, category.value) == limit
    ensures r.Ok? ==> forall c :: c != category.value ==> LimitOf(r.value, c) == LimitOf(t, c)
    ensures r.Ok? ==> r.value.limits.Keys == t.limits.Keys + {category.value}
    ensures r.Ok? ==> r.value.income == t.income && r.value.expenses == t.expenses
    ensures r.Ok? && Valid(t) ==> Valid(r.value)
  {
    if category.None? || IsBlank(category.value) then Err(BlankCategory)
    else if limit < 0 then Err(NegativeLimit)
    else Ok(t.(limits := t.limits[category.value := limit]))
  }

  // ---------------------------------------------------------------- queries

  /** `income()`. */
  function Income(t: Tracker): (r: int)
    requires Valid(t)
    ensures r == t.income && r >= 0
  {
    t.income
  }

  /** `totalExpenses()`: drains a copy of the ledger, adding every leaf amount. */
  method TotalExpenses(t: Tracker) returns (sum: int)
    ensures sum == LeafTotal(t)
    ensures Valid(t) ==> sum >= 0
  {
    var outer := t.expenses.Keys;
    sum := 0;
    ghost var f := c => if c in t.expenses then DateMapTotal(t.expenses[c]) else 0;
    while outer != {}
      invariant outer <= t.expenses.Keys
      invariant sum + SumSet(outer, f) == LeafTotal(t)
      decreases outer
    {
      var c :| c in outer;
      SumSetRemove(outer, f, c);
      outer := outer - {c};
      var byDate := t.expenses[c];
      var dates := byDate.Keys;
      ghost var g := d => Lookup(byDate, d);
      ghost var start := sum;
      while dates != {}
        invariant dates <= byDate.Keys
        invariant sum + SumSet(dates, g) == start + DateMapTotal(byDate)
        decreases dates
      {
        var d :| d in dates;
        SumSetRemove(dates, g, d);
        dates := dates - {d};
        sum := sum + byDate[d];
      }
    }
    if Valid(t) {
      LeafTotalNonNegative(t);
    }
  }

  /** `budgetLimit(category)`: the stored limit, or `NO_LIMIT` when none is set;
      a null or blank category is rejected. */
  function BudgetLimit(t: Tracker, category: Option<string>): (r: Result<int>)
    ensures r.Err? <==> category.None? || IsBlank(category.value)
    ensures r.Err? ==> r.error == BlankCategory
    ensures r.Ok? && category.value in t.limits ==> r.value == t.limits[category.value]
    ensures r.Ok? && category.value !in t.limits ==> r.value == NO_LIMIT
    ensures r.Ok? && Valid(t) ==> r.value >= 0 || r.value == NO_LIMIT
  {
    if category.None? || IsBlank(category.value) then Err(BlankCategory)
    else Ok(LimitOf(t, category.value))
  }

  /** `dateToAmount(category)`: a copy of the category's date-to-amount map,
      empty for an unknown category; a null or blank category is rejected. */
  function DateToAmount(t: Tracker, category: Option<string>): (r: Result<map<string, int>>)
    ensures r.Err? <==> category.None? || IsBlank(category.value)
    ensures r.Err? ==> r.error == BlankCategory
    ensures r.Ok? ==> r.value.Keys == DatesOf(t, category.value)
    ensures r.Ok? ==> forall d :: d in r.value ==> r.value[d] == Expense(t, category.value, d)
    ensures r.Ok? && Valid(t) ==> forall d :: d in r.value ==> IsIsoDate(d) && r.value[d] >= 0
  {
    if category.None? || IsBlank(category.value) then Err(BlankCategory)
    else if category.value in t.expenses then Ok(t.expenses[category.value])
    else Ok(map[])
  }

  /** `categorySet()`: every category that has expenses or a limit. */
  function CategorySet(t: Tracker): (r: set<string>)
    ensures forall c :: c in r <==> c in t.expenses || c in t.limits
    ensures Valid(t) ==> forall c :: c in r ==> !IsBlank(c)
  {
    t.expenses.Keys + t.limits.Keys
  }

  // ---------------------------------------------------------------- kernel getters

  /** `getMonthlyIncome()`, answered by `income()`. */
  function GetMonthlyIncome(t: Tracker): (r: int)
    requires Valid(t)
    ensures r >= 0 && r == t.income
  {
    Income(t)
  }

  /** `getCategories()`, answered by `categorySet()`. */
  function GetCategories(t: Tracker): (r: set<string>)
    ensures forall c :: c in r <==> c in t.expenses || c in t.limits
  {
    CategorySet(t)
  }

  /** `getExpenseDates(category)`: the key set of `dateToAmount(category)`. */
  function GetExpenseDates(t: Tracker, category: string): (r: set<string>)
    requires !IsBlank(category)
    ensures forall d :: d in r <==> category in t.expenses && d in t.expenses[category]
    ensures Valid(t) ==> forall d :: d in r ==> IsIsoDate(d)
  {
    DateToAmount(t, Some(category)).value.Keys
  }

  /** `getExpenseAmount(category, date)`: the `dateToAmount(category)` entry for
      `date`, or 0 when there is none. */
  function GetExpenseAmount(t: Tracker, category: string, date: string): (r: int)
    requires !IsBlank(category) && IsIsoDate(date)
    ensures date !in GetExpenseDates(t, category) ==> r == 0
    ensures date in GetExpenseDates(t, category) ==> r == t.expenses[category][date]
    ensures Valid(t) ==> r >= 0
  {
    Lookup(DateToAmount(t, Some(category)).value, date)
  }

  /** `getBudgetLimit(category)`, answered by `budgetLimit(category)`. */
  function GetBudgetLimit(t: Tracker, category: string): (r: int)
    requires !IsBlank(category)
    ensures category in t.limits ==> r == t.limits[category]
    ensures category !in t.limits ==> r == NO_LIMIT
    ensures Valid(t) ==> r >= 0 || r == NO_LIMIT
  {
    BudgetLimit(t, Some(category)).value
  }

  // ---------------------------------------------------------------- properties

  /** The sentinel lies outside the range of limits `setBudgetLimit` accepts,
      so it can never be stored by it. */
  lemma NoLimitIsNeverAccepted(t: Tracker, category: Option<string>)
    ensures SetBudgetLimit(t, category, NO_LIMIT).Err?
  {
  }

  /** Two successive expenses on the same (category, date) accumulate. */
  lemma AddExpenseTwice(t: Tracker, c: string, d: string, a: int, b: int)
    requires !IsBlank(c) && IsIsoDate(d) && a >= 0 && b >= 0
    ensures AddExpense(t, Some(c), Some(d), a).Ok?
    ensures var t1 := AddExpense(t, Some(c), Some(d), a).value;
      AddExpense(t1, Some(c), Some(d), b).Ok? &&
      Expense(AddExpense(t1, Some(c), Some(d), b).value, c, d) == Expense(t, c, d) + a + b
  {
  }

  /** Raising one date's amount raises the total of a date map by as much. */
  lemma DateMapTotalUpdate(m: map<string, int>, d: string, amount: int)
    ensures DateMapTotal(m[d := Lookup(m, d) + amount]) == DateMapTotal(m) + amount
  {
    var m' := m[d := Lookup(m, d) + amount];
    var g := x => Lookup(m', x);
    var g0 := x => Lookup(m, x);
    if d in m {
      assert m'.Keys == m.Keys;
      SumSetUpdate(m.Keys, g0, g, d, amount);
    } else {
      assert m'.Keys == m.Keys + {d};
      SumSetInsert(m.Keys, g, d);
      SumSetExtensional(m.Keys, g0, g);
    }
  }

  /** Replacing one category's date map by one whose total is `amount` higher
      raises the total of all expenses by as much. */
  lemma LeafTotalUpdate(t: Tracker, t': Tracker, c: string, m: map<string, int>, amount: int)
    requires t'.expenses == t.expenses[c := m]
    requires DateMapTotal(m) == (if c in t.expenses then DateMapTotal(t.expenses[c]) else 0) + amount
    ensures LeafTotal(t') == LeafTotal(t) + amount
  {
    var f := x => if x in t.expenses then DateMapTotal(t.expenses[x]) else 0;
    var f' := x => if x in t'.expenses then DateMapTotal(t'.expenses[x]) else 0;
    if c in t.expenses {
      assert t'.expenses.Keys == t.expenses.Keys;
      SumSetUpdate(t.expenses.Keys, f, f', c, amount);
    } else {
      assert t'.expenses.Keys == t.expenses.Keys + {c};
      SumSetInsert(t.expenses.Keys, f', c);
      SumSetExtensional(t.expenses.Keys, f, f');
    }
  }

  /** Recording an expense raises the total of all expenses by exactly its amount. */
  lemma AddExpenseRaisesTotal(t: Tracker, c: string, d: string, amount: int)
    requires AddExpense(t, Some(c), Some(d), amount).Ok?
    ensures LeafTotal(AddExpense(t, Some(c), Some(d), amount).value) == LeafTotal(t) + amount
  {
    var t' := AddExpense(t, Some(c), Some(d), amount).value;
    var before := if c in t.expenses then t.expenses[c] else map[];
    assert DateMapTotal(before) == (if c in t.expenses then DateMapTotal(t.expenses[c]) else 0) by {
      if c !in t.expenses {
        assert before.Keys == {};
      }
    }
    DateMapTotalUpdate(before, d, amount);
    LeafTotalUpdate(t, t', c, before[d := Lookup(before, d) + amount], amount);
  }
}
