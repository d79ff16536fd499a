/** The reporting layer: every operation here reads the ledger only through
    the kernel getters, drains the sets they return in an arbitrary order (the
    `removeAny` loops of the Java code), and is proved equal to a reference
    definition that does not depend on that order.
 */
module Secondary {
  import opened Text
  import opened Ordering
  import opened Sums
  import opened Kernel
  import opened Money
  import opened Outcome

  // ---------------------------------------------------------------- sorting helpers

  /** `insertAscending`: walks past every entry that compares below `word`
      and inserts `word` there, so it lands before any equal entries. */
  method InsertAscending(s: seq<string>, word: string) returns (r: seq<string>, ghost index: nat)
    ensures index <= |s| && r == s[..index] + [word] + s[index..]
    ensures forall k :: 0 <= k < index ==> Less(s[k], word)
    ensures index < |s| ==> !Less(s[index], word)
    ensures multiset(r) == multiset(s) + multiset{word}
    ensures forall x :: x in r <==> x in s || x == word
    ensures Ordered(Ascending, s) ==> Ordered(Ascending, r)
    ensures Sorted(Ascending, s) && word !in s ==> Sorted(Ascending, r)
  {
    var i := 0;
    while i < |s| && Less(s[i], word)
      invariant 0 <= i <= |s|
      invariant forall k :: 0 <= k < i ==> Less(s[k], word)
    {
      i := i + 1;
    }
    r := s[..i] + [word] + s[i..];
    index := i;
    assert s == s[..i] + s[i..];
    PlaceAscending(s, word, i);
  }

  /** The date prefixes of rendered lines, the keys `insertByDateDesc` compares. */
  function DatePrefixes(lines: seq<string>): (keys: seq<string>)
    requires forall k :: 0 <= k < |lines| ==> |lines[k]| >= DATE_LENGTH
    ensures |keys| == |lines|
    ensures forall k :: 0 <= k < |lines| ==> keys[k] == lines[k][..DATE_LENGTH]
  {
    seq(|lines|, k requires 0 <= k < |lines| => lines[k][..DATE_LENGTH])
  }

  /** `insertByDateDesc`: walks past every line whose date prefix does not
      compare below `date` and inserts `line` there, so it lands after any line
      of the same date. The prefix of a shorter line cannot be taken. */
  method InsertByDateDesc(s: seq<string>, line: string, date: string) returns (r: seq<string>, ghost index: nat)
    requires forall k :: 0 <= k < |s| ==> |s[k]| >= DATE_LENGTH
    ensures index <= |s| && r == s[..index] + [line] + s[index..]
    ensures forall k :: 0 <= k < index ==> !Less(s[k][..DATE_LENGTH], date)
    ensures index < |s| ==> Less(s[index][..DATE_LENGTH], date)
    ensures multiset(r) == multiset(s) + multiset{line}
    ensures Ordered(Descending, DatePrefixes(s)) ==>
              forall k :: index <= k < |s| ==> s[k][..DATE_LENGTH] != date
    ensures (|line| >= DATE_LENGTH && line[..DATE_LENGTH] == date && Ordered(Descending, DatePrefixes(s))) ==>
              Ordered(Descending, DatePrefixes(r))
    ensures (|line| >= DATE_LENGTH && line[..DATE_LENGTH] == date && Sorted(Descending, DatePrefixes(s))
             && date !in DatePrefixes(s)) ==> Sorted(Descending, DatePrefixes(r))
  {
    var i := 0;
    var shouldInsert := false;
    while !shouldInsert && i < |s|
      invariant 0 <= i <= |s|
      invariant forall k :: 0 <= k < i ==> !Less(s[k][..DATE_LENGTH], date)
      invariant shouldInsert ==> i < |s| && Less(s[i][..DATE_LENGTH], date)
      decreases |s| - i, if shouldInsert then 0 else 1
    {
      var existingDate := s[i][..DATE_LENGTH];
      if Less(existingDate, date) {
        shouldInsert := true;
      } else {
        i := i + 1;
      }
    }
    r := s[..i] + [line] + s[i..];
    index := i;
    assert s == s[..i] + s[i..];
    var keys := DatePrefixes(s);
    PlaceDescending(keys, date, i);
    if |line| >= DATE_LENGTH {
      PrefixesOfInsert(s, line, i);
    }
  }

  lemma PrefixesOfInsert(s: seq<string>, line: string, i: nat)
    requires forall k :: 0 <= k < |s| ==> |s[k]| >= DATE_LENGTH
    requires |line| >= DATE_LENGTH && i <= |s|
    ensures forall k :: 0 <= k < |s[..i] + [line] + s[i..]| ==> |(s[..i] + [line] + s[i..])[k]| >= DATE_LENGTH
    ensures DatePrefixes(s[..i] + [line] + s[i..]) == DatePrefixes(s)[..i] + [line[..DATE_LENGTH]] + DatePrefixes(s)[i..]
  {
    var r := s[..i] + [line] + s[i..];
    forall k | 0 <= k < |r|
      ensures |r[k]| >= DATE_LENGTH
    {
      if k < i {
        assert r[k] == s[k];
      } else if k > i {
        assert r[k] == s[k - 1];
      }
    }
  }

  // ---------------------------------------------------------------- reference definitions

  /** Header line of the expenses report. */
  const ALL_EXPENSES_HEADER: string := "All Expenses (categories A\U{2013}Z; dates newest\U{2192}oldest)\n"

  /** What the reports sum for a category: its amounts over its dates. */
  ghost function CategoryExpense(t: Tracker, c: string): int {
    SumSet(DatesOf(t, c), d => Expense(t, c, d))
  }

  /** Remaining budget: income less total expenses, floored at 0. */
  ghost function Headroom(t: Tracker): (r: int)
    ensures r >= 0
    ensures r == t.income - LeafTotal(t) || (r == 0 && t.income < LeafTotal(t))
  {
    if t.income - LeafTotal(t) < 0 then 0 else t.income - LeafTotal(t)
  }

  /** One line of the expenses report, before indentation. */
  function ExpenseLine(date: string, amount: int): string {
    date + ": " + FormatDollars(amount)
  }

  /** The expense lines of a category, newest date first. */
  ghost function DateLines(t: Tracker, c: string): (lines: seq<string>)
  {
    var ds := Enumerate(Descending, DatesOf(t, c));
    seq(|ds|, k requires 0 <= k < |ds| => ExpenseLine(ds[k], Expense(t, c, ds[k])))
  }

  /** Each line indented by three spaces and ended by a newline. */
  function Indented(lines: seq<string>): string {
    if lines == [] then "" else Indented(lines[..|lines| - 1]) + "   " + lines[|lines| - 1] + "\n"
  }

  ghost function ExpenseBlock(t: Tracker, c: string): string
  {
    c + ":\n" + Indented(DateLines(t, c))
  }

  ghost function ExpenseBlocks(t: Tracker, cats: seq<string>): string
  {
    if cats == [] then "" else ExpenseBlocks(t, cats[..|cats| - 1]) + ExpenseBlock(t, cats[|cats| - 1])
  }

  /** The expenses report: categories A to Z, each followed by its dates newest first. */
  ghost function AllExpensesText(t: Tracker): string
  {
    ALL_EXPENSES_HEADER + ExpenseBlocks(t, Enumerate(Ascending, CategorySet(t)))
  }

  /** One per-category line of the budget report. The remaining amount of an
      overspent category is negative and is still rendered by `FormatDollars`,
      which garbles it (see `Money.FormatDollarsOfNegative`). */
  function BudgetLine(c: string, limit: int, spent: int): string {
    " - " + c + ": " + LimitText(limit, spent) + "\n"
  }

  /** The limit, spending and remaining-budget part of a budget line. */
  function LimitText(limit: int, spent: int): string {
    if limit == NO_LIMIT then
      "limit = (no limit), spent = " + FormatDollars(spent) + ", remaining = (unbounded)"
    else
      "limit = " + FormatDollars(limit) + SpentAndRemaining(limit, spent)
  }

  /** What follows a limit: the spent amount, the remaining amount, and the
      overspent marker when the remaining amount is negative. */
  function SpentAndRemaining(limit: int, spent: int): string {
    ", spent = " + FormatDollars(spent) + RemainingText(limit - spent)
  }

  /** The remaining amount, flagged " [OVERSPENT]" when it is negative. */
  function RemainingText(remaining: int): string {
    ", remaining = " + FormatDollars(remaining) + (if remaining < 0 then " [OVERSPENT]" else "")
  }

  /** The first `n` of `lines`, joined. */
  function Concat(lines: seq<string>, n: nat): string
    requires n <= |lines|
  {
    if n == 0 then "" else Concat(lines, n - 1) + lines[n - 1]
  }

  /** The budget line of each of `cats`, rendered from its limit and its spent amount. */
  function RenderBudgetLines(cats: seq<string>, limits: seq<int>, spent: seq<int>): (r: seq<string>)
    requires |limits| == |cats| && |spent| == |cats|
    ensures |r| == |cats|
  {
    seq(|cats|, k requires 0 <= k < |cats| => BudgetLine(cats[k], limits[k], spent[k]))
  }

  /** The limits of `cats`, in order. */
  ghost function LimitsOf(t: Tracker, cats: seq<string>): (r: seq<int>)
    ensures |r| == |cats|
  {
    seq(|cats|, k requires 0 <= k < |cats| => LimitOf(t, cats[k]))
  }

  /** The per-category sums of `cats`, in order. */
  ghost function SpentOf(t: Tracker, cats: seq<string>): (r: seq<int>)
    ensures |r| == |cats|
  {
    seq(|cats|, k requires 0 <= k < |cats| => CategoryExpense(t, cats[k]))
  }

  /** The budget lines of `cats`: each with its limit and its sum. */
  ghost function BudgetLines(t: Tracker, cats: seq<string>): string {
    Concat(RenderBudgetLines(cats, LimitsOf(t, cats), SpentOf(t, cats)), |cats|)
  }

  /** The header of the budget report: income, expenses and remaining budget. */
  function BudgetHeader(income: int, expenses: int, remaining: int): string {
    "Budget Summary\n"
    + "Income: " + FormatDollars(income) + "\n"
    + "Expenses: " + FormatDollars(expenses) + "\n"
    + "Remaining Budget: " + FormatDollars(remaining) + "\n"
  }

  /** The budget report: the header, then one line per category A to Z. */
  ghost function BudgetSummaryText(t: Tracker): string {
    var cats := Enumerate(Ascending, CategorySet(t));
    BudgetHeader(t.income, LeafTotal(t), Headroom(t)) + BudgetLines(t, cats)
  }

  /** Everything the kernel getters report about one category agrees: limit,
      dates, and the amount on each date. */
  ghost predicate SameCategory(t1: Tracker, t2: Tracker, c: string) {
    && LimitOf(t1, c) == LimitOf(t2, c)
    && DatesOf(t1, c) == DatesOf(t2, c)
    && forall d :: d in DatesOf(t1, c) ==> Expense(t1, c, d) == Expense(t2, c, d)
  }

  /** Everything the kernel getters report agrees: income, categories, and
      each category. */
  ghost predicate SameObservations(t1: Tracker, t2: Tracker) {
    && t1.income == t2.income
    && CategorySet(t1) == CategorySet(t2)
    && forall c :: c in CategorySet(t1) ==> SameCategory(t1, t2, c)
  }

  // ---------------------------------------------------------------- totals

  /** The per-category sum of the budget report. */
  method GetCategoryExpense(t: Tracker, category: string) returns (catTotal: int)
    requires Valid(t) && !IsBlank(category)
    ensures catTotal == CategoryExpense(t, category)
    ensures catTotal >= 0
    ensures GetExpenseDates(t, category) == {} ==> catTotal == 0
  {
    catTotal := 0;
    var dates := GetExpenseDates(t, category);
    ghost var f := d => Expense(t, category, d);
    while dates != {}
      invariant dates <= DatesOf(t, category)
      invariant catTotal + SumSet(dates, f) == CategoryExpense(t, category)
      invariant catTotal >= 0
      decreases dates
    {
      var date :| date in dates;
      SumSetRemove(dates, f, date);
      dates := dates - {date};
      catTotal := catTotal + GetExpenseAmount(t, category, date);
    }
  }

  /** Reports that sum per category over all categories agree with the sum of
      all leaf amounts: categories that only have a limit contribute nothing. */
  lemma CategorySumsMatchLeafTotal(t: Tracker)
    requires Valid(t)
    ensures SumSet(GetCategories(t), c => CategoryExpense(t, c)) == LeafTotal(t)
  {
    var f := c => CategoryExpense(t, c);
    var g := c => if c in t.expenses then DateMapTotal(t.expenses[c]) else 0;
    forall c | c in t.expenses
      ensures f(c) == g(c)
    {
      var m := t.expenses[c];
      SumSetExtensional(m.Keys, d => Expense(t, c, d), d => Lookup(m, d));
    }
    SumSetExtensional(t.expenses.Keys, f, g);
    SumSetZeros(t.expenses.Keys, GetCategories(t), f);
  }

  /** The secondary `totalExpenses`: the category sums over every category. */
  method TotalExpenses(t: Tracker) returns (total: int)
    requires Valid(t)
    ensures total == LeafTotal(t)
    ensures total >= 0
  {
    total := 0;
    var categories := GetCategories(t);
    ghost var f := c => CategoryExpense(t, c);
    CategorySumsMatchLeafTotal(t);
    while categories != {}
      invariant categories <= GetCategories(t)
      invariant total + SumSet(categories, f) == LeafTotal(t)
      invariant total >= 0
      decreases categories
    {
      var cat :| cat in categories;
      SumSetRemove(categories, f, cat);
      categories := categories - {cat};
      var catTotal := GetCategoryExpense(t, cat);
      total := total + catTotal;
    }
  }

  /** `leftToBudget`: income less total expenses, floored at 0. */
  method LeftToBudget(t: Tracker) returns (remaining: int)
    requires Valid(t)
    ensures remaining >= 0
    ensures remaining == t.income - LeafTotal(t) || (remaining == 0 && t.income < LeafTotal(t))
    ensures remaining == Headroom(t)
  {
    var income := GetMonthlyIncome(t);
    var expenses := TotalExpenses(t);
    remaining := income - expenses;
    if remaining < 0 {
      remaining := 0;
    }
  }

  // ---------------------------------------------------------------- reports

  /** The categories drained from `getCategories` into ascending order. */
  method SortedCategories(t: Tracker) returns (cats: seq<string>)
    requires Valid(t)
    ensures cats == Enumerate(Ascending, GetCategories(t))
  {
    cats := [];
    var categories := GetCategories(t);
    while categories != {}
      invariant categories <= GetCategories(t)
      invariant Sorted(Ascending, cats)
      invariant forall x :: x in cats <==> x in GetCategories(t) && x !in categories
      decreases categories
    {
      var c :| c in categories;
      categories := categories - {c};
      ghost var index;
      cats, index := InsertAscending(cats, c);
    }
    SortedIsEnumeration(Ascending, cats, GetCategories(t));
  }

  /** The amounts of one category gathered date by date into a map. */
  method AmountsByDate(t: Tracker, cat: string) returns (byDate: map<string, int>)
    requires Valid(t) && !IsBlank(cat)
    ensures byDate.Keys == DatesOf(t, cat)
    ensures forall d :: d in byDate ==> byDate[d] == Expense(t, cat, d)
  {
    byDate := map[];
    var dates := GetExpenseDates(t, cat);
    while dates != {}
      invariant dates <= DatesOf(t, cat)
      invariant byDate.Keys == DatesOf(t, cat) - dates
      invariant forall d :: d in byDate ==> byDate[d] == Expense(t, cat, d)
      decreases dates
    {
      var date :| date in dates;
      dates := dates - {date};
      var amount := GetExpenseAmount(t, cat, date);
      byDate := byDate[date := amount];
    }
  }

  /** Every line is the rendering of the amount under its own date prefix. */
  ghost predicate RenderedLines(t: Tracker, cat: string, lines: seq<string>) {
    && (forall k :: 0 <= k < |lines| ==> |lines[k]| >= DATE_LENGTH)
    && (forall k :: 0 <= k < |lines| ==>
          lines[k] == ExpenseLine(lines[k][..DATE_LENGTH], Expense(t, cat, lines[k][..DATE_LENGTH])))
  }

  /** Inserting the rendering of a date keeps the lines rendered and inserts
      the date into their prefixes at the same place. */
  lemma InsertRenderedLine(t: Tracker, cat: string, before: seq<string>, date: string, index: nat, after: seq<string>)
    requires RenderedLines(t, cat, before) && IsIsoDate(date)
    requires index <= |before|
    requires after == before[..index] + [ExpenseLine(date, Expense(t, cat, date))] + before[index..]
    ensures RenderedLines(t, cat, after)
    ensures DatePrefixes(after) == DatePrefixes(before)[..index] + [date] + DatePrefixes(before)[index..]
  {
    var line := ExpenseLine(date, Expense(t, cat, date));
    assert line[..DATE_LENGTH] == date;
    forall k | 0 <= k < |after|
      ensures |after[k]| >= DATE_LENGTH
      ensures after[k] == ExpenseLine(after[k][..DATE_LENGTH], Expense(t, cat, after[k][..DATE_LENGTH]))
    {
      if k < index {
        assert after[k] == before[k];
      } else if k > index {
        assert after[k] == before[k - 1];
      }
    }
  }

  /** Rendered lines whose dates are exactly the category's, newest first,
      are the category's reference lines. */
  lemma RenderedLinesAreDateLines(t: Tracker, cat: string, lines: seq<string>)
    requires Valid(t) && RenderedLines(t, cat, lines)
    requires Sorted(Descending, DatePrefixes(lines))
    requires forall d :: d in DatePrefixes(lines) <==> d in DatesOf(t, cat)
    ensures lines == DateLines(t, cat)
  {
    var keys := DatePrefixes(lines);
    SortedIsEnumeration(Descending, keys, DatesOf(t, cat));
    var expected := DateLines(t, cat);
    assert |expected| == |lines|;
    forall k | 0 <= k < |lines|
      ensures lines[k] == expected[k]
    {
      assert keys[k] == lines[k][..DATE_LENGTH];
    }
  }

  /** One step of the drain: the rendered line of a new date goes into place. */
  method InsertDateLine(ghost t: Tracker, ghost cat: string, lines: seq<string>, line: string, date: string)
    returns (r: seq<string>)
    requires RenderedLines(t, cat, lines) && Sorted(Descending, DatePrefixes(lines))
    requires IsIsoDate(date) && date !in DatePrefixes(lines)
    requires line == ExpenseLine(date, Expense(t, cat, date))
    ensures RenderedLines(t, cat, r) && Sorted(Descending, DatePrefixes(r))
    ensures forall d :: d in DatePrefixes(r) <==> d in DatePrefixes(lines) || d == date
  {
    ghost var index;
    assert |line| >= DATE_LENGTH && line[..DATE_LENGTH] == date;
    r, index := InsertByDateDesc(lines, line, date);
    InsertRenderedLine(t, cat, lines, date, index, r);
  }

  /** The lines of one category, gathered into a map and drained into
      descending date order. */
  method CategoryLines(t: Tracker, cat: string) returns (lines: seq<string>)
    requires Valid(t) && !IsBlank(cat)
    ensures lines == DateLines(t, cat)
  {
    var byDate := AmountsByDate(t, cat);
    lines := [];
    while byDate != map[]
      invariant byDate.Keys <= DatesOf(t, cat)
      invariant forall d :: d in byDate ==> byDate[d] == Expense(t, cat, d)
      invariant RenderedLines(t, cat, lines)
      invariant Sorted(Descending, DatePrefixes(lines))
      invariant forall d :: d in DatePrefixes(lines) <==> d in DatesOf(t, cat) && d !in byDate
      decreases |byDate|
    {
      var date :| date in byDate;
      var line := ExpenseLine(date, byDate[date]);
      assert IsIsoDate(date);
      byDate := byDate - {date};
      lines := InsertDateLine(t, cat, lines, line, date);
    }
    RenderedLinesAreDateLines(t, cat, lines);
  }

  /** The lines of a category, each indented and ended by a newline. */
  method IndentLines(lines: seq<string>) returns (s: string)
    ensures s == Indented(lines)
  {
    s := "";
    var j := 0;
    while j < |lines|
      invariant 0 <= j <= |lines|
      invariant s == Indented(lines[..j])
    {
      s := s + "   " + lines[j] + "\n";
      assert lines[..j + 1][..j] == lines[..j];
      j := j + 1;
    }
    assert lines[..j] == lines;
  }

  /** One category of the expenses report: its name, then its lines indented. */
  method CategoryBlock(t: Tracker, cat: string) returns (block: string)
    requires Valid(t) && !IsBlank(cat)
    ensures block == ExpenseBlock(t, cat)
  {
    var lines := CategoryLines(t, cat);
    var indented := IndentLines(lines);
    block := cat + ":\n" + indented;
  }

  /** The blocks of the expenses report for `cats`, in that order. */
  method ExpenseBlocksOf(t: Tracker, cats: seq<string>) returns (s: string)
    requires Valid(t)
    requires forall k :: 0 <= k < |cats| ==> !IsBlank(cats[k])
    ensures s == ExpenseBlocks(t, cats)
  {
    s := "";
    var i := 0;
    while i < |cats|
      invariant 0 <= i <= |cats|
      invariant s == ExpenseBlocks(t, cats[..i])
    {
      var block := CategoryBlock(t, cats[i]);
      s := s + block;
      assert cats[..i + 1][..i] == cats[..i];
      i := i + 1;
    }
    assert cats[..i] == cats;
  }

  /** `getAllExpensesSummary`. */
  method GetAllExpensesSummary(t: Tracker) returns (s: string)
    requires Valid(t)
    ensures s == AllExpensesText(t)
  {
    var cats := SortedCategories(t);
    var blocks := ExpenseBlocksOf(t, cats);
    s := ALL_EXPENSES_HEADER + blocks;
  }

  /** The limit and the sum of every category in `cats`, as the getters report them. */
  method LimitsAndSpent(t: Tracker, cats: seq<string>) returns (limits: seq<int>, spent: seq<int>)
    requires Valid(t)
    requires forall k :: 0 <= k < |cats| ==> !IsBlank(cats[k])
    ensures limits == LimitsOf(t, cats) && spent == SpentOf(t, cats)
  {
    limits := [];
    spent := [];
    var i := 0;
    while i < |cats|
      invariant 0 <= i <= |cats|
      invariant limits == LimitsOf(t, cats[..i]) && spent == SpentOf(t, cats[..i])
    {
      var limit := GetBudgetLimit(t, cats[i]);
      var catTotal := GetCategoryExpense(t, cats[i]);
      limits := limits + [limit];
      spent := spent + [catTotal];
      i := i + 1;
    }
    assert cats[..i] == cats;
  }

  /** `lines` appended one after the other. */
  method ConcatLines(lines: seq<string>) returns (s: string)
    ensures s == Concat(lines, |lines|)
  {
    s := "";
    var i := 0;
    while i < |lines|
      invariant 0 <= i <= |lines|
      invariant s == Concat(lines, i)
    {
      s := s + lines[i];
      i := i + 1;
    }
  }

  /** The per-category lines of the budget report for `cats`, in that order:
      the getters are read, then each line is appended. */
  method BudgetLinesOf(t: Tracker, cats: seq<string>) returns (s: string)
    requires Valid(t)
    requires forall k :: 0 <= k < |cats| ==> !IsBlank(cats[k])
    ensures s == BudgetLines(t, cats)
  {
    var limits, spent := LimitsAndSpent(t, cats);
    s := ConcatLines(RenderBudgetLines(cats, limits, spent));
  }

  /** The header of the budget report, as the getters report income and expenses. */
  method BudgetHeaderOf(t: Tracker) returns (s: string)
    requires Valid(t)
    ensures s == BudgetHeader(t.income, LeafTotal(t), Headroom(t))
  {
    var income := GetMonthlyIncome(t);
    var expenses := TotalExpenses(t);
    var remaining := income - expenses;
    if remaining < 0 {
      remaining := 0;
    }
    assert remaining == Headroom(t);
    s := BudgetHeader(income, expenses, remaining);
  }

  /** `getBudgetSummary`. */
  method GetBudgetSummary(t: Tracker) returns (s: string)
    requires Valid(t)
    ensures s == BudgetSummaryText(t)
  {
    var header := BudgetHeaderOf(t);
    var cats := SortedCategories(t);
    var lines := BudgetLinesOf(t, cats);
    s := header + lines;
  }

  /** `toString`: income, expenses and remaining budget, and the number of categories. */
  method ToString(t: Tracker) returns (s: string)
    requires Valid(t)
    ensures s == "BudgetTracker{income=" + FormatDollars(t.income)
                 + ", expenses=" + FormatDollars(LeafTotal(t))
                 + ", leftToBudget=" + FormatDollars(Headroom(t))
                 + ", categories=" + NatToDecimal(|CategorySet(t)|) + "}"
  {
    var expenses := TotalExpenses(t);
    var left := LeftToBudget(t);
    assert LongToString(|GetCategories(t)|) == NatToDecimal(|GetCategories(t)|);
    s := "BudgetTracker{income=" + FormatDollars(GetMonthlyIncome(t))
         + ", expenses=" + FormatDollars(expenses)
         + ", leftToBudget=" + FormatDollars(left)
         + ", categories=" + LongToString(|GetCategories(t)|) + "}";
  }

  // ---------------------------------------------------------------- equality

  /** Two finite sets of the same size, one inside the other, are equal. */
  lemma SubsetOfSameSize<T>(a: set<T>, b: set<T>)
    requires a <= b && |a| == |b|
    ensures a == b
  {
    var rest := b - a;
    assert a * rest == {};
    assert b == a + rest;
    assert |b| == |a| + |rest|;
    assert rest == {};
  }

  /** The inner loop of `equals`: every date of `c` in `t` is a date of `c`
      in `other`, with the same amount. */
  method SameAmounts(t: Tracker, other: Tracker, c: string) returns (equal: bool)
    requires Valid(t) && !IsBlank(c)
    ensures equal <==> forall d :: d in DatesOf(t, c) ==> d in DatesOf(other, c) && Expense(t, c, d) == Expense(other, c, d)
  {
    var dates := GetExpenseDates(t, c);
    var otherDates := GetExpenseDates(other, c);
    equal := true;
    while equal && dates != {}
      invariant dates <= DatesOf(t, c)
      invariant equal ==> forall d :: d in DatesOf(t, c) && d !in dates ==>
                  d in DatesOf(other, c) && Expense(t, c, d) == Expense(other, c, d)
      invariant !equal ==> exists d :: (d in DatesOf(t, c) &&
                  (d !in DatesOf(other, c) || Expense(t, c, d) != Expense(other, c, d)))
      decreases dates
    {
      var date :| date in dates;
      dates := dates - {date};
      if date !in otherDates {
        equal := false;
      } else if GetExpenseAmount(t, c, date) != GetExpenseAmount(other, c, date) {
        equal := false;
      }
    }
  }

  /** The body of the category loop of `equals`: limit, dates and amounts of `c` agree. */
  method SameCategoryCheck(t: Tracker, other: Tracker, c: string) returns (equal: bool)
    requires Valid(t) && !IsBlank(c)
    ensures equal <==> SameCategory(t, other, c)
  {
    equal := true;
    if GetBudgetLimit(t, c) != GetBudgetLimit(other, c) {
      equal := false;
    } else {
      var dates := GetExpenseDates(t, c);
      var otherDates := GetExpenseDates(other, c);
      if |dates| != |otherDates| {
        equal := false;
      } else {
        equal := SameAmounts(t, other, c);
        if equal {
          SubsetOfSameSize(dates, otherDates);
        }
      }
    }
  }

  /** Every category of `t` is a category of `other` that agrees with it. */
  ghost predicate CategoriesAgree(t: Tracker, other: Tracker) {
    forall c :: c in CategorySet(t) ==> c in CategorySet(other) && SameCategory(t, other, c)
  }

  /** The category loop of `equals`, run while nothing has differed yet. */
  method CheckCategories(t: Tracker, other: Tracker) returns (equal: bool)
    requires Valid(t)
    ensures equal <==> CategoriesAgree(t, other)
  {
    var categories := GetCategories(t);
    var otherCategories := GetCategories(other);
    equal := true;
    while equal && categories != {}
      invariant categories <= CategorySet(t)
      invariant equal ==> forall c :: c in CategorySet(t) && c !in categories ==>
                  c in CategorySet(other) && SameCategory(t, other, c)
      invariant !equal ==> exists c :: (c in CategorySet(t) &&
                  (c !in CategorySet(other) || !SameCategory(t, other, c)))
      decreases categories
    {
      var c :| c in categories;
      categories := categories - {c};
      if c !in otherCategories {
        equal := false;
      } else {
        equal := SameCategoryCheck(t, other, c);
      }
    }
  }

  /** The checks of `equals` together amount to agreement of every getter. */
  lemma SameObservationsByParts(t: Tracker, other: Tracker)
    ensures SameObservations(t, other) <==>
              t.income == other.income && |CategorySet(t)| == |CategorySet(other)| && CategoriesAgree(t, other)
  {
    if t.income == other.income && |CategorySet(t)| == |CategorySet(other)| && CategoriesAgree(t, other) {
      SubsetOfSameSize(CategorySet(t), CategorySet(other));
    }
  }

  /** `equals`: null is unequal; otherwise the two ledgers are equal exactly
      when every getter reports the same. */
  method Equals(t: Tracker, obj: Option<Tracker>) returns (equal: bool)
    requires Valid(t) && (obj.Some? ==> Valid(obj.value))
    ensures equal <==> obj.Some? && SameObservations(t, obj.value)
  {
    if obj.None? {
      return false;
    }
    var other := obj.value;
    SameObservationsByParts(t, other);
    equal := GetMonthlyIncome(t) == GetMonthlyIncome(other);
    if equal && |GetCategories(t)| != |GetCategories(other)| {
      equal := false;
    }
    if equal {
      equal := CheckCategories(t, other);
    }
  }

  // ---------------------------------------------------------------- properties

  /** The per-category sum depends only on what the getters report. */
  lemma SameCategoryExpense(t1: Tracker, t2: Tracker, c: string)
    requires SameCategory(t1, t2, c)
    ensures CategoryExpense(t1, c) == CategoryExpense(t2, c)
  {
    SumSetExtensional(DatesOf(t1, c), d => Expense(t1, c, d), d => Expense(t2, c, d));
  }

  /** So do the total and the remaining budget. */
  lemma SameTotals(t1: Tracker, t2: Tracker)
    requires Valid(t1) && Valid(t2) && SameObservations(t1, t2)
    ensures LeafTotal(t1) == LeafTotal(t2)
    ensures Headroom(t1) == Headroom(t2)
  {
    forall c | c in CategorySet(t1)
      ensures CategoryExpense(t1, c) == CategoryExpense(t2, c)
    {
      SameCategoryExpense(t1, t2, c);
    }
    CategorySumsMatchLeafTotal(t1);
    CategorySumsMatchLeafTotal(t2);
    SumSetExtensional(CategorySet(t1), c => CategoryExpense(t1, c), c => CategoryExpense(t2, c));
  }

  /** One category's block depends only on what the getters report about it. */
  lemma SameExpenseBlock(t1: Tracker, t2: Tracker, c: string)
    requires SameCategory(t1, t2, c)
    ensures ExpenseBlock(t1, c) == ExpenseBlock(t2, c)
  {
    var ds := Enumerate(Descending, DatesOf(t1, c));
    var lines1 := DateLines(t1, c);
    var lines2 := DateLines(t2, c);
    assert |lines1| == |lines2|;
    forall k | 0 <= k < |ds|
      ensures lines1[k] == lines2[k]
    {
      assert ds[k] in DatesOf(t1, c);
    }
    assert lines1 == lines2;
  }

  lemma {:induction false} SameExpenseBlocks(t1: Tracker, t2: Tracker, cats: seq<string>)
    requires forall k :: 0 <= k < |cats| ==> SameCategory(t1, t2, cats[k])
    ensures ExpenseBlocks(t1, cats) == ExpenseBlocks(t2, cats)
    decreases |cats|
  {
    if cats != [] {
      SameExpenseBlocks(t1, t2, cats[..|cats| - 1]);
      SameExpenseBlock(t1, t2, cats[|cats| - 1]);
    }
  }

  lemma SameBudgetLines(t1: Tracker, t2: Tracker, cats: seq<string>)
    requires forall k :: 0 <= k < |cats| ==> SameCategory(t1, t2, cats[k])
    ensures BudgetLines(t1, cats) == BudgetLines(t2, cats)
  {
    forall k | 0 <= k < |cats|
      ensures CategoryExpense(t1, cats[k]) == CategoryExpense(t2, cats[k])
    {
      SameCategoryExpense(t1, t2, cats[k]);
    }
    assert LimitsOf(t1, cats) == LimitsOf(t2, cats);
    assert SpentOf(t1, cats) == SpentOf(t2, cats);
  }

  /** Ledgers whose getters agree list the same categories, and agree on each. */
  lemma SameCategoriesListed(t1: Tracker, t2: Tracker)
    requires SameObservations(t1, t2)
    ensures CategorySet(t1) == CategorySet(t2)
    ensures var cats := Enumerate(Ascending, CategorySet(t1));
            forall k :: 0 <= k < |cats| ==> SameCategory(t1, t2, cats[k])
  {
  }

  /** Ledgers that agree on their categories and on each category's block
      print the same expenses report. */
  lemma AllExpensesCongruence(t1: Tracker, t2: Tracker)
    requires CategorySet(t1) == CategorySet(t2)
    requires ExpenseBlocks(t1, Enumerate(Ascending, CategorySet(t1))) ==
             ExpenseBlocks(t2, Enumerate(Ascending, CategorySet(t1)))
    ensures AllExpensesText(t1) == AllExpensesText(t2)
  {
  }

  /** Ledgers whose getters agree print the same expenses report: it depends
      neither on the representation nor on the order sets are drained in. */
  lemma AllExpensesDependOnlyOnObservations(t1: Tracker, t2: Tracker)
    requires SameObservations(t1, t2)
    ensures AllExpensesText(t1) == AllExpensesText(t2)
  {
    SameCategoriesListed(t1, t2);
    SameExpenseBlocks(t1, t2, Enumerate(Ascending, CategorySet(t1)));
    AllExpensesCongruence(t1, t2);
  }

  /** Ledgers that agree on income, totals, categories and each category's
      line print the same budget report. */
  lemma BudgetSummaryCongruence(t1: Tracker, t2: Tracker)
    requires t1.income == t2.income && LeafTotal(t1) == LeafTotal(t2) && Headroom(t1) == Headroom(t2)
    requires CategorySet(t1) == CategorySet(t2)
    requires BudgetLines(t1, Enumerate(Ascending, CategorySet(t1))) ==
             BudgetLines(t2, Enumerate(Ascending, CategorySet(t1)))
    ensures BudgetSummaryText(t1) == BudgetSummaryText(t2)
  {
  }

  /** Ledgers whose getters agree agree on every input of the budget report. */
  lemma SameBudgetInputs(t1: Tracker, t2: Tracker)
    requires Valid(t1) && Valid(t2) && SameObservations(t1, t2)
    ensures t1.income == t2.income && LeafTotal(t1) == LeafTotal(t2) && Headroom(t1) == Headroom(t2)
    ensures CategorySet(t1) == CategorySet(t2)
    ensures BudgetLines(t1, Enumerate(Ascending, CategorySet(t1))) ==
            BudgetLines(t2, Enumerate(Ascending, CategorySet(t1)))
  {
    SameCategoriesListed(t1, t2);
    SameBudgetLines(t1, t2, Enumerate(Ascending, CategorySet(t1)));
    SameTotals(t1, t2);
  }

  /** The same for the budget report. */
  lemma BudgetSummaryDependsOnlyOnObservations(t1: Tracker, t2: Tracker)
    requires Valid(t1) && Valid(t2) && SameObservations(t1, t2)
    ensures BudgetSummaryText(t1) == BudgetSummaryText(t2)
  {
    SameBudgetInputs(t1, t2);
    BudgetSummaryCongruence(t1, t2);
  }

  predicate EndsWith(s: string, suffix: string) {
    |s| >= |suffix| && s[|s| - |suffix|..] == suffix
  }

  /** A rendered amount ends with a digit, never with "]". */
  lemma FormatDollarsEndsWithDigit(cents: int)
    requires cents >= 0
    ensures |FormatDollars(cents)| > 0 && IsDigit(FormatDollars(cents)[|FormatDollars(cents)| - 1])
  {
    FormatDollarsShape(cents);
  }

  /** The limit part ends with " [OVERSPENT]" exactly when the category has
      a limit and has spent more than it. */
  lemma LimitTextMarker(limit: int, spent: int)
    requires limit >= 0 || limit == NO_LIMIT
    requires spent >= 0
    ensures |LimitText(limit, spent)| >= |" [OVERSPENT]"|
    ensures EndsWith(LimitText(limit, spent), " [OVERSPENT]") <==> limit != NO_LIMIT && spent > limit
  {
    var text := LimitText(limit, spent);
    var marker := " [OVERSPENT]";
    if limit == NO_LIMIT {
      LastOfConcat("limit = (no limit), spent = " + FormatDollars(spent), ", remaining = (unbounded)");
      LastDiffers(text, marker);
    } else {
      var amount := FormatDollars(limit - spent);
      var spentPart := ", spent = " + FormatDollars(spent);
      var remaining := RemainingText(limit - spent);
      if spent <= limit {
        FormatDollarsEndsWithDigit(limit - spent);
        UnflaggedRemaining(limit - spent);
        LastOfConcat(", remaining = ", amount);
        LastOfConcat(spentPart, remaining);
        LastOfConcat("limit = " + FormatDollars(limit), spentPart + remaining);
        LastDiffers(text, marker);
      } else {
        EndsWithItself(", remaining = " + amount, " [OVERSPENT]");
        EndsWithPrefixed(spentPart, remaining, " [OVERSPENT]");
        EndsWithPrefixed("limit = " + FormatDollars(limit), spentPart + remaining, " [OVERSPENT]");
      }
    }
  }

  /** A remaining amount that is not negative carries no flag. */
  lemma UnflaggedRemaining(remaining: int)
    requires remaining >= 0
    ensures RemainingText(remaining) == ", remaining = " + FormatDollars(remaining)
  {
    var s := ", remaining = " + FormatDollars(remaining);
    assert s + "" == s;
  }

  /** A string does not end with a suffix whose last character differs from its own. */
  lemma LastDiffers(s: string, suffix: string)
    requires |s| > 0 && |suffix| > 0 && s[|s| - 1] != suffix[|suffix| - 1]
    ensures !EndsWith(s, suffix)
  {
  }

  /** The last character of a concatenation with a non-empty tail is the tail's. */
  lemma LastOfConcat(head: string, tail: string)
    requires |tail| > 0
    ensures (head + tail)[|head + tail| - 1] == tail[|tail| - 1]
  {
  }

  /** Appending the same final character keeps or breaks a suffix alike. */
  lemma EndsWithAppend(x: string, suffix: string, last: char)
    ensures EndsWith(x + [last], suffix + [last]) <==> EndsWith(x, suffix)
  {
    var y := x + [last];
    if |x| >= |suffix| {
      assert y[|y| - |suffix| - 1..] == x[|x| - |suffix|..] + [last];
      if y[|y| - |suffix| - 1..] == suffix + [last] {
        assert x[|x| - |suffix|..] == (suffix + [last])[..|suffix|];
      }
    }
  }

  /** A suffix no longer than the tail is unaffected by what comes before. */
  lemma EndsWithPrefixed(head: string, x: string, suffix: string)
    requires |x| >= |suffix|
    ensures EndsWith(head + x, suffix) <==> EndsWith(x, suffix)
  {
    var y := head + x;
    assert y[|y| - |suffix|..] == x[|x| - |suffix|..];
  }

  /** A budget line is flagged " [OVERSPENT]" exactly when the category has a
      limit and has spent more than it. */
  lemma OverspentMarker(c: string, limit: int, spent: int)
    requires limit >= 0 || limit == NO_LIMIT
    requires spent >= 0
    ensures EndsWith(BudgetLine(c, limit, spent), " [OVERSPENT]\n") <==> limit != NO_LIMIT && spent > limit
  {
    var text := LimitText(limit, spent);
    var head := " - " + c + ": ";
    var marker := " [OVERSPENT]";
    LimitTextMarker(limit, spent);
    EndsWithPrefixed(head, text, marker);
    EndsWithAppend(head + text, marker, '\n');
    assert BudgetLine(c, limit, spent) == head + text + ['\n'];
    assert marker + ['\n'] == " [OVERSPENT]\n";
  }

  /** As written, an overspent category's line reports its remaining budget
      as `FormatDollars` of the negative difference, which for limit 0 and 50
      cents spent is "$0.0-50" (`Money.FormatDollarsOfNegative`). */
  lemma OverspentRemainingAsWritten(limit: int, spent: int)
    requires limit >= 0 && spent > limit
    ensures EndsWith(LimitText(limit, spent), ", remaining = " + FormatDollars(limit - spent) + " [OVERSPENT]")
  {
    var tail := RemainingText(limit - spent);
    var spentPart := ", spent = " + FormatDollars(spent);
    EndsWithItself(spentPart, tail);
    EndsWithPrefixed("limit = " + FormatDollars(limit), spentPart + tail, tail);
  }

  /** Any string ends with itself, whatever precedes it. */
  lemma EndsWithItself(head: string, tail: string)
    ensures EndsWith(head + tail, tail)
  {
    var s := head + tail;
    assert s[|s| - |tail|..] == tail;
  }

  /** Without a limit, the limit part opens with "limit = (no limit)". */
  lemma NoLimitOpening(spent: int)
    ensures |LimitText(NO_LIMIT, spent)| > 18
    ensures LimitText(NO_LIMIT, spent)[..18] == "limit = (no limit)"
  {
  }

  /** A caption followed by a rendered amount opens with the caption and "$". */
  lemma LabelledAmount(caption: string, amount: string, rest: string)
    requires |amount| >= 4 && amount[0] == '$'
    ensures |caption + amount + rest| >= |caption| + 4
    ensures (caption + amount + rest)[..|caption| + 1] == caption + "$"
  {
    var s := caption + amount + rest;
    assert s[..|caption| + 1] == caption + [amount[0]];
  }

  /** With a limit, the limit part opens with "limit = $". */
  lemma LimitOpening(limit: int, spent: int)
    requires limit != NO_LIMIT
    ensures |LimitText(limit, spent)| > 18
    ensures LimitText(limit, spent)[..9] == "limit = $"
  {
    FormatDollarsOpens(limit);
    LabelledAmount("limit = ", FormatDollars(limit), SpentAndRemaining(limit, spent));
  }

  /** The limit part opens with "limit = (no limit)" exactly when there is no
      limit, and with "limit = $" otherwise. */
  lemma LimitTextOpening(limit: int, spent: int)
    ensures |LimitText(limit, spent)| > 18
    ensures LimitText(limit, spent)[..18] == "limit = (no limit)" <==> limit == NO_LIMIT
    ensures limit != NO_LIMIT ==> LimitText(limit, spent)[..9] == "limit = $"
  {
    var text := LimitText(limit, spent);
    if limit == NO_LIMIT {
      NoLimitOpening(spent);
    } else {
      LimitOpening(limit, spent);
      assert text[8] == text[..9][8] == '$';
      assert text[..18][8] != "limit = (no limit)"[8];
    }
  }

  /** A budget line reads "(no limit)" where the limit goes exactly when the
      category has no limit, and a dollar amount otherwise. */
  lemma NoLimitMarker(c: string, limit: int, spent: int)
    ensures var head := " - " + c + ": ";
            var line := BudgetLine(c, limit, spent);
            && |line| > |head| + 18
            && (line[|head|..|head| + 18] == "limit = (no limit)" <==> limit == NO_LIMIT)
            && (limit != NO_LIMIT ==> line[|head|..|head| + 9] == "limit = $")
  {
    LimitTextOpening(limit, spent);
    Infix(" - " + c + ": ", LimitText(limit, spent), "\n");
  }

  /** The slices of a string framed by a head and a tail are its own opening slices. */
  lemma Infix(head: string, middle: string, tail: string)
    ensures forall n {:trigger middle[..n]} :: 0 <= n <= |middle| ==>
      (head + middle + tail)[|head|..|head| + n] == middle[..n]
  {
    var s := head + middle + tail;
    forall n | 0 <= n <= |middle|
      ensures s[|head|..|head| + n] == middle[..n]
    {
      assert forall k :: 0 <= k < n ==> s[|head|..|head| + n][k] == middle[k];
    }
  }
}
