/** The documented usage scenarios, stated of the model: each builds a ledger
    by the calls a client makes and states what the reports then compute.
 */
module Scenarios {
  import opened Outcome
  import opened Text
  import opened Kernel
  import opened Secondary
  import opened History

  const FOOD := "Food"
  const UTILITIES := "Utilities"
  const NOV_05 := "2025-11-05"
  const NOV_10 := "2025-11-10"
  /** A date on which nothing is recorded. */
  const NOV_99 := "2025-11-99"

  lemma NamesAreNotBlank()
    ensures !IsBlank(FOOD) && !IsBlank(UTILITIES)
  {
    assert FOOD[0] == 'F';
    assert UTILITIES[0] == 'U';
  }

  lemma UtilityDates()
    ensures IsIsoDate(NOV_05) && IsIsoDate(NOV_10)
    ensures NOV_05 != NOV_10 && NOV_99 != NOV_05 && NOV_99 != NOV_10
  {
    assert NOV_05[9] != NOV_10[9];
    assert NOV_99[8] != NOV_05[8] && NOV_99[8] != NOV_10[8];
  }

  /** An accepted expense call adds its amount to the total and keeps the income. */
  lemma SpendAdds(t: Tracker, c: string, d: string, amount: int)
    requires !IsBlank(c) && IsIsoDate(d) && amount >= 0
    ensures var u := Apply(t, Spend(Some(c), Some(d), amount));
            u.income == t.income && LeafTotal(u) == LeafTotal(t) + amount
  {
    ApplyTotal(t, Spend(Some(c), Some(d), amount));
  }

  /** An accepted income call on a new ledger sets the income; nothing is spent yet. */
  lemma IncomeOnEmpty(income: int)
    requires income >= 0
    ensures var u := Apply(Empty(), SetIncome(income));
            u.income == income && LeafTotal(u) == 0
  {
    ApplyTotal(Empty(), SetIncome(income));
  }

  /** Setting an income and then spending twice leaves the income minus both
      amounts to budget, or nothing once the spending passes the income. */
  lemma IncomeThenTwoExpenses(income: int, c: string, d1: string, d2: string, a: int, b: int)
    requires income >= 0 && !IsBlank(c) && IsIsoDate(d1) && IsIsoDate(d2) && a >= 0 && b >= 0
    ensures var t1 := Apply(Empty(), SetIncome(income));
            var t2 := Apply(t1, Spend(Some(c), Some(d1), a));
            var t3 := Apply(t2, Spend(Some(c), Some(d2), b));
            && t3.income == income && LeafTotal(t3) == a + b
            && Headroom(t3) == (if a + b > income then 0 else income - a - b)
  {
    IncomeOnEmpty(income);
    var t1 := Apply(Empty(), SetIncome(income));
    SpendAdds(t1, c, d1, a);
    SpendAdds(Apply(t1, Spend(Some(c), Some(d1), a)), c, d2, b);
  }

  /** Spending 800.00 and 300.00 against an income of 1000.00 leaves nothing
      to budget rather than a negative amount. */
  lemma OverspendingLeavesZero()
    ensures var t1 := Apply(Empty(), SetIncome(1_000_00));
            var t2 := Apply(t1, Spend(Some(FOOD), Some("2025-11-01"), 800_00));
            var t3 := Apply(t2, Spend(Some(FOOD), Some("2025-11-02"), 300_00));
            t3.income == 1_000_00 && LeafTotal(t3) == 1_100_00 && Headroom(t3) == 0
  {
    NamesAreNotBlank();
    IncomeThenTwoExpenses(1_000_00, FOOD, "2025-11-01", "2025-11-02", 800_00, 300_00);
  }

  /** An accepted expense call raises its category's sum by its amount and
      sets its date's amount. */
  lemma SpendInCategory(t: Tracker, c: string, d: string, amount: int)
    requires !IsBlank(c) && IsIsoDate(d) && amount >= 0
    ensures var u := Apply(t, Spend(Some(c), Some(d), amount));
            && CategoryExpense(u, c) == CategoryExpense(t, c) + amount
            && Expense(u, c, d) == Expense(t, c, d) + amount
            && forall x :: x != d ==> Expense(u, c, x) == Expense(t, c, x)
  {
    AddExpenseRaisesCategoryExpense(t, c, d, amount, c);
  }

  /** Two expenses on distinct dates of one category of a new ledger: the
      category sums to both, each date reads its own amount, any other date 0. */
  lemma TwoDatesOneCategory(c: string, d1: string, d2: string, a: int, b: int)
    requires !IsBlank(c) && IsIsoDate(d1) && IsIsoDate(d2) && d1 != d2 && a >= 0 && b >= 0
    ensures var t1 := Apply(Empty(), Spend(Some(c), Some(d1), a));
            var t2 := Apply(t1, Spend(Some(c), Some(d2), b));
            && CategoryExpense(t2, c) == a + b
            && Expense(t2, c, d1) == a && Expense(t2, c, d2) == b
            && forall x :: x != d1 && x != d2 ==> Expense(t2, c, x) == 0
  {
    assert CategoryExpense(Empty(), c) == 0 by {
      assert DatesOf(Empty(), c) == {};
    }
    SpendInCategory(Empty(), c, d1, a);
    SpendInCategory(Apply(Empty(), Spend(Some(c), Some(d1), a)), c, d2, b);
  }

  /** Bills of 180.00 and 50.00 for utilities sum to 230.00, and a date with
      no bill reads as 0. */
  lemma UtilitiesSum()
    ensures var t1 := Apply(Empty(), Spend(Some(UTILITIES), Some(NOV_05), 180_00));
            var t2 := Apply(t1, Spend(Some(UTILITIES), Some(NOV_10), 50_00));
            && CategoryExpense(t2, UTILITIES) == 230_00
            && Expense(t2, UTILITIES, NOV_05) == 180_00
            && Expense(t2, UTILITIES, NOV_10) == 50_00
            && Expense(t2, UTILITIES, NOV_99) == 0
  {
    NamesAreNotBlank();
    UtilityDates();
    TwoDatesOneCategory(UTILITIES, NOV_05, NOV_10, 180_00, 50_00);
  }
}
