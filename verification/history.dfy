/** Sequences of mutator calls on one ledger. A call the kernel rejects throws
    before touching the state, so a run continues from the state it had. These
    properties hold of every ledger a client can build from `new BudgetTracker1L()`.
 */
module History {
  import opened Outcome
  import opened Text
  import opened Sums
  import opened Kernel
  import opened Secondary

  /** A mutator call with its arguments; `None` stands for a null reference. */
  datatype Op =
    | SetIncome(income: int)
    | Spend(category: Option<string>, date: Option<string>, amount: int)
    | Limit(category: Option<string>, limit: int)

  /** The outcome of one call: the new state, or the exception it throws. */
  function Step(t: Tracker, op: Op): (r: Result<Tracker>)
    ensures r.Ok? && Valid(t) ==> Valid(r.value)
    ensures r.Err? <==> match op
      case SetIncome(income) => income < 0
      case Spend(c, d, amount) => ExpenseArgumentError(c, d, amount).Some?
      case Limit(c, limit) => c.None? || IsBlank(c.value) || limit < 0
  {
    match op
    case SetIncome(income) => SetMonthlyIncome(t, income)
    case Spend(c, d, amount) => AddExpense(t, c, d, amount)
    case Limit(c, limit) => SetBudgetLimit(t, c, limit)
  }

  /** The state after one call: unchanged when the call throws. */
  function Apply(t: Tracker, op: Op): (r: Tracker)
    ensures Valid(t) ==> Valid(r)
    ensures Step(t, op).Err? ==> r == t
  {
    match Step(t, op)
    case Ok(u) => u
    case Err(_) => t
  }

  function Run(t: Tracker, ops: seq<Op>): Tracker
    decreases |ops|
  {
    if ops == [] then t else Run(Apply(t, ops[0]), ops[1..])
  }

  /** The representation invariant holds after every run. */
  lemma {:induction false} RunPreservesValid(t: Tracker, ops: seq<Op>)
    requires Valid(t)
    ensures Valid(Run(t, ops))
    decreases |ops|
  {
    if ops != [] {
      RunPreservesValid(Apply(t, ops[0]), ops[1..]);
    }
  }

  // ---------------------------------------------------------------- what a run never undoes

  /** The part of the state no call removes: categories, the dates of each
      category, and the presence of a limit. */
  ghost predicate Grows(t: Tracker, u: Tracker) {
    && CategorySet(t) <= CategorySet(u)
    && (forall c :: DatesOf(t, c) <= DatesOf(u, c))
    && (forall c :: LimitOf(t, c) != NO_LIMIT ==> LimitOf(u, c) != NO_LIMIT)
  }

  lemma ApplyGrows(t: Tracker, op: Op)
    requires Valid(t)
    ensures Grows(t, Apply(t, op))
  {
    var u := Apply(t, op);
    forall c | LimitOf(t, c) != NO_LIMIT
      ensures LimitOf(u, c) != NO_LIMIT
    {
      if op.Limit? && Step(t, op).Ok? && c == op.category.value {
        assert LimitOf(u, c) == op.limit;
      }
    }
  }

  /** No sequence of calls removes a category, a date or a limit: there is no
      operation that deletes, and `NO_LIMIT` cannot be stored. */
  lemma {:induction false} RunGrows(t: Tracker, ops: seq<Op>)
    requires Valid(t)
    ensures Grows(t, Run(t, ops))
    decreases |ops|
  {
    if ops != [] {
      var u := Apply(t, ops[0]);
      ApplyGrows(t, ops[0]);
      RunGrows(u, ops[1..]);
    }
  }

  // ---------------------------------------------------------------- canonical states

  /** The states the mutators reach: no category with an empty date map and no
      stored `NO_LIMIT`. */
  ghost predicate Canonical(t: Tracker) {
    && Valid(t)
    && (forall c :: c in t.expenses ==> t.expenses[c] != map[])
    && (forall c :: c in t.limits ==> t.limits[c] != NO_LIMIT)
  }

  lemma EmptyIsCanonical()
    ensures Canonical(Empty())
  {
  }

  lemma ApplyPreservesCanonical(t: Tracker, op: Op)
    requires Canonical(t)
    ensures Canonical(Apply(t, op))
  {
    var u := Apply(t, op);
    if op.Spend? && Step(t, op).Ok? {
      forall c | c in u.expenses
        ensures u.expenses[c] != map[]
      {
        if c == op.category.value {
          assert op.date.value in DatesOf(u, c);
        } else {
          assert DatesOf(u, c) == DatesOf(t, c);
        }
      }
    }
  }

  lemma {:induction false} RunPreservesCanonical(t: Tracker, ops: seq<Op>)
    requires Canonical(t)
    ensures Canonical(Run(t, ops))
    decreases |ops|
  {
    if ops != [] {
      ApplyPreservesCanonical(t, ops[0]);
      RunPreservesCanonical(Apply(t, ops[0]), ops[1..]);
    }
  }

  /** In a reachable state a category is listed exactly when it has an expense
      or a limit. */
  lemma CanonicalCategories(t: Tracker, c: string)
    requires Canonical(t)
    ensures c in GetCategories(t) <==> DatesOf(t, c) != {} || LimitOf(t, c) != NO_LIMIT
  {
    if c in t.expenses {
      var d :| d in t.expenses[c];
      assert d in DatesOf(t, c);
    }
  }

  /** In reachable states whose getters agree, a category stored by the first
      is stored by the second with the same date map. */
  lemma CanonicalDateMap(t1: Tracker, t2: Tracker, c: string)
    requires Canonical(t1) && Canonical(t2) && SameObservations(t1, t2)
    requires c in t1.expenses
    ensures c in t2.expenses && t1.expenses[c] == t2.expenses[c]
  {
    assert c in CategorySet(t1);
    assert SameCategory(t1, t2, c);
    var d :| d in t1.expenses[c];
    assert d in DatesOf(t2, c);
    forall x | x in t1.expenses[c]
      ensures t1.expenses[c][x] == t2.expenses[c][x]
    {
      assert Expense(t1, c, x) == Expense(t2, c, x);
    }
  }

  /** Reachable states whose getters agree store the same expenses. */
  lemma CanonicalExpenses(t1: Tracker, t2: Tracker)
    requires Canonical(t1) && Canonical(t2) && SameObservations(t1, t2)
    ensures t1.expenses == t2.expenses
  {
    forall c | c in t1.expenses
      ensures c in t2.expenses && t1.expenses[c] == t2.expenses[c]
    {
      CanonicalDateMap(t1, t2, c);
    }
    forall c | c in t2.expenses
      ensures c in t1.expenses
    {
      assert c in CategorySet(t2);
      assert SameCategory(t1, t2, c);
      var d :| d in t2.expenses[c];
      assert d in DatesOf(t1, c);
    }
  }

  /** Reachable states whose getters agree store the same limits. */
  lemma CanonicalLimits(t1: Tracker, t2: Tracker)
    requires Canonical(t1) && Canonical(t2) && SameObservations(t1, t2)
    ensures t1.limits == t2.limits
  {
    forall c | c in t1.limits
      ensures c in t2.limits && t1.limits[c] == t2.limits[c]
    {
      assert SameCategory(t1, t2, c);
    }
    forall c | c in t2.limits
      ensures c in t1.limits
    {
      assert SameCategory(t1, t2, c);
    }
  }

  /** Two reachable states are equal exactly when every getter reports the
      same, so `equals` is equality of the abstract value. */
  lemma CanonicalObservations(t1: Tracker, t2: Tracker)
    requires Canonical(t1) && Canonical(t2)
    ensures SameObservations(t1, t2) <==> t1 == t2
  {
    if SameObservations(t1, t2) {
      CanonicalExpenses(t1, t2);
      CanonicalLimits(t1, t2);
    }
  }

  // ---------------------------------------------------------------- totals along a run

  /** The amount a call adds to the ledger: its amount if it is an accepted
      expense, nothing otherwise. */
  function Added(t: Tracker, op: Op): int {
    if op.Spend? && Step(t, op).Ok? then op.amount else 0
  }

  /** Each call raises the total of all expenses by what it adds. */
  lemma ApplyTotal(t: Tracker, op: Op)
    ensures LeafTotal(Apply(t, op)) == LeafTotal(t) + Added(t, op)
  {
    if op.Spend? && Step(t, op).Ok? {
      AddExpenseRaisesTotal(t, op.category.value, op.date.value, op.amount);
    }
  }

  /** Recording an expense raises its category's sum by its amount and leaves
      every other category's sum alone. */
  lemma AddExpenseRaisesCategoryExpense(t: Tracker, c: string, d: string, amount: int, other: string)
    requires AddExpense(t, Some(c), Some(d), amount).Ok?
    ensures var u := AddExpense(t, Some(c), Some(d), amount).value;
            CategoryExpense(u, other) == CategoryExpense(t, other) + (if other == c then amount else 0)
  {
    var u := AddExpense(t, Some(c), Some(d), amount).value;
    var f := x => Expense(t, other, x);
    var g := x => Expense(u, other, x);
    if other == c {
      if d in DatesOf(t, c) {
        assert DatesOf(u, c) == DatesOf(t, c);
        SumSetUpdate(DatesOf(t, c), f, g, d, amount);
      } else {
        SumSetInsert(DatesOf(t, c), g, d);
        SumSetExtensional(DatesOf(t, c), f, g);
        assert DatesOf(u, c) == DatesOf(t, c) + {d};
      }
    } else {
      SumSetExtensional(DatesOf(t, other), f, g);
    }
  }

}
