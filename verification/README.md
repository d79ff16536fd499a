# Budget tracker ledger, modelled in Dafny

This project models the `budgettracker` component, a monthly budget ledger. It records:
- a monthly income;
- expenses, accumulated per (category, ISO date);
- an optional spending limit per category.

All amounts are integer cents.

The component has two layers:
- **Kernel.** `BudgetTracker1L` holds the representation, the validating mutators and the read-only queries.
- **Reporting.** `BudgetTrackerSecondary` reads the ledger only through the kernel getters. It drains the sets they return in an arbitrary order and renders two text reports: the expenses report and the budget report. It also renders `toString` and decides `equals`.

## Modules

| file | module | contents |
|---|---|---|
| `outcome.dfy` | `Outcome` | `Option` (Java `null` is `None`), `Result`, and one `Error` per exception message |
| `text.dfy` | `Text` | blank test (`trim().length() == 0`), ISO-date test, `String.compareTo` as `Less` |
| `sums.dfy` | `Sums` | order-independent sum over a finite set, the meaning of every drain-and-add loop |
| `kernel.dfy` | `Kernel` | representation, invariant, abstraction functions, mutators, queries, kernel getters |
| `money.dfy` | `Money` | `formatDollars` with Java's truncating `/` and `%`, and a parser that inverts it |
| `ordering.dfy` | `Ordering` | ascending and descending order on strings, the unique sorted enumeration of a set |
| `secondary.dfy` | `Secondary` | the reporting layer as methods mirroring the Java loops, each proved equal to a reference text |
| `history.dfy` | `History` | runs of mutator calls, what they preserve, and what `equals` means on reachable states |
| `scenarios.dfy` | `Scenarios` | the documented usage scenarios, stated of the model |

## How the model maps to the code

**Mutators.** The ledger is an immutable `Tracker`. A mutator is a pure function returning `Result<Tracker>`:
- an `IllegalArgumentException` becomes `Err(e)`, and the state is untouched;
- otherwise the result is `Ok` of the new state.

**Abstraction functions.** These follow the class's correspondence comment: `DatesOf`, `Expense`, `LimitOf`, `CategorySet` and `LeafTotal`.

**Set iteration.** `removeAny` on a set becomes Dafny's `:|` choice, so every order is covered. Each reporting method is proved equal to a ghost reference definition. The reference definitions use the unique sorted enumeration of the set, so the report does not depend on the order.

**Kernel getters.** `BudgetTracker1L` does not define the kernel-interface getters that the reporting layer calls. They are modelled from the queries that answer them:
- `getMonthlyIncome` from `income`;
- `getCategories` from `categorySet`;
- `getExpenseDates` and `getExpenseAmount` from `dateToAmount`;
- `getBudgetLimit` from `budgetLimit`.

**Where the code and its documentation disagree, the model follows the code:**
- `addExpense` accepts an amount of 0. It rejects only `amount < 0`, although the kernel interface asks for `amount > 0`.
- `setBudgetLimit` rejects every negative limit, including `NO_LIMIT`. So a stored limit cannot be cleared back to `NO_LIMIT`, although the kernel interface describes doing so.
- The budget report's third header line reads `Remaining Budget: `, not `Left to Budget: `.

## Model

| member | source | states |
|---|---|---|
| `Kernel.Empty` | src/components/budgettracker/BudgetTracker1L.java:100-119 | a new ledger satisfies the convention, has income 0, total 0, no dates, no limits and no categories |
| `Kernel.LeafTotalNonNegative` | src/components/budgettracker/BudgetTracker1L.java:12-28 | under the convention, the sum of all leaf amounts is non-negative |
| `Kernel.SetMonthlyIncome` | src/components/budgettracker/BudgetTracker1L.java:138-143 | rejects exactly a negative income; otherwise replaces the income, keeps expenses and limits, and preserves the convention |
| `Kernel.ExpenseArgumentError` | src/components/budgettracker/BudgetTracker1L.java:171-188 | no check fails exactly when the category is non-blank, the date is a 10-character string with dashes at 4 and 7, and the amount is non-negative |
| `Kernel.AddExpense` | src/components/budgettracker/BudgetTracker1L.java:170-207 | each rejection in the source's order (blank category, null date, wrong length, missing dash, negative amount) and success exactly when all pass; on success the (category, date) amount rises by `amount`, every other amount is unchanged, the date joins the category, income and limits are kept, and the convention is preserved |
| `Kernel.SetBudgetLimit` | src/components/budgettracker/BudgetTracker1L.java:227-240 | rejects a blank category, then a negative limit; on success the category's limit is `limit`, every other limit is unchanged, and income and expenses are kept |
| `Kernel.Income` | src/components/budgettracker/BudgetTracker1L.java:252-255 | the stored monthly income, which the abstraction function takes as the ledger's income; non-negative under the convention |
| `Kernel.TotalExpenses` | src/components/budgettracker/BudgetTracker1L.java:264-280 | the nested drain loop returns the sum of every leaf amount, whatever order it takes them in, and this is non-negative under the convention |
| `Kernel.BudgetLimit` | src/components/budgettracker/BudgetTracker1L.java:291-301 | rejects exactly a null or blank category; otherwise the stored limit, or `NO_LIMIT` when none is stored, and so `>= 0` or `NO_LIMIT` |
| `Kernel.DateToAmount` | src/components/budgettracker/BudgetTracker1L.java:313-326 | rejects exactly a null or blank category; otherwise the category's dates with their amounts, empty for an unknown category, all ISO dates with non-negative amounts |
| `Kernel.CategorySet` | src/components/budgettracker/BudgetTracker1L.java:335-352 | a category is listed exactly when it has expenses or a limit; none is blank |
| `Kernel.GetMonthlyIncome` | src/components/budgettracker/BudgetTrackerKernel.java:44-50 | the income, non-negative |
| `Kernel.GetCategories` | src/components/budgettracker/BudgetTrackerKernel.java:99-105 | exactly the categories with expenses or a limit |
| `Kernel.GetExpenseDates` | src/components/budgettracker/BudgetTrackerKernel.java:107-116 | exactly the dates recorded for the category, all ISO dates |
| `Kernel.GetExpenseAmount` | src/components/budgettracker/BudgetTrackerKernel.java:118-131 | the recorded amount of a listed date, 0 for a date that is not listed, never negative |
| `Kernel.GetBudgetLimit` | src/components/budgettracker/BudgetTrackerKernel.java:68-77 | the stored limit, or `NO_LIMIT` when none is stored |
| `Kernel.NoLimitIsNeverAccepted` | src/components/budgettracker/BudgetTracker1L.java:231-233 | `setBudgetLimit(c, NO_LIMIT)` always throws, so the sentinel cannot be stored |
| `Kernel.AddExpenseTwice` | src/components/budgettracker/BudgetTracker1L.java:198-206 | two expenses on the same (category, date) accumulate to the sum of both |
| `Kernel.DateMapTotalUpdate` | src/components/budgettracker/BudgetTracker1L.java:198-206 | adding to one date's entry, or creating it, raises that date map's total by the amount added |
| `Kernel.LeafTotalUpdate` | src/components/budgettracker/BudgetTracker1L.java:190-196 | replacing or creating one category's date map raises the overall total by the change in that map's total |
| `Kernel.AddExpenseRaisesTotal` | src/components/budgettracker/BudgetTracker1L.java:167-207 | an accepted expense raises `totalExpenses` by exactly its amount |
| `Money.JavaDiv` | src/components/budgettracker/BudgetTrackerSecondary.java:89-90 | Java's truncating `/` and `%` rebuild the dividend, `(a / b) * b + a % b == a`, for negative `a` too, and the quotient takes the dividend's sign |
| `Money.DecimalRoundTrip` | src/components/budgettracker/BudgetTrackerSecondary.java:92 | reading back the decimal digits `Long.toString` writes gives the number |
| `Money.FormatDollarsShape` | src/components/budgettracker/BudgetTrackerSecondary.java:88-99 | for `cents >= 0` the rendering is "$", the whole dollars, "." and exactly two cent digits |
| `Money.FormatDollarsRoundTrip` | src/components/budgettracker/BudgetTrackerSecondary.java:80-99 | every non-negative amount renders to "$d.cc" text that reads back as itself, so distinct amounts render distinctly |
| `Money.FormatDollarsParses` | src/components/budgettracker/BudgetTrackerSecondary.java:80-99 | the same through the signed reader |
| `Money.FormatDollarsExamples` | src/components/budgettracker/BudgetTrackerSecondary.java:80-99 | 1299 cents render as "$12.99" and 5 cents as "$0.05" |
| `Money.FormatDollarsOfNegative` | src/components/budgettracker/BudgetTrackerSecondary.java:214-217 | as written, a remaining budget of -50 cents renders as "$0.0-50", which reads back as no amount |
| `Money.FormatSignedDollars` | src/components/budgettracker/BudgetTrackerSecondary.java:214-217 | the corrected rendering reads back as the amount for every amount, negative ones included |
| `Ordering.SortedUnique` | src/components/budgettracker/BudgetTrackerSecondary.java:129-134 | two strictly sorted sequences with the same members are equal, so the sorted listing of a set is unique |
| `Ordering.SortedIsEnumeration` | src/components/budgettracker/BudgetTrackerSecondary.java:129-134 | any strictly sorted listing of a set is its canonical enumeration |
| `Secondary.InsertAscending` | src/components/budgettracker/BudgetTrackerSecondary.java:40-46 | inserts `word` after every entry below it and before the first that is not; the multiset gains `word`; sortedness is kept, and so is strict sortedness when `word` is new |
| `Secondary.InsertByDateDesc` | src/components/budgettracker/BudgetTrackerSecondary.java:62-77 | inserts `line` before the first line whose date prefix is below `date`, so after any line of the same date; the multiset gains `line`; the descending date order is kept, strictly when the date is new |
| `Secondary.GetCategoryExpense` | src/components/budgettracker/BudgetTrackerSecondary.java:201-206 | the per-category loop returns the sum over the category's dates, whatever the drain order; it is non-negative, and 0 for a category with no dates |
| `Secondary.CategorySumsMatchLeafTotal` | src/components/budgettracker/BudgetTrackerSecondary.java:107-119 | summing per category over every category, limit-only ones included, gives the kernel's total of all leaf amounts |
| `Secondary.TotalExpenses` | src/components/budgettracker/BudgetTrackerSecondary.java:107-119 | the getter-based total equals the kernel's total, and is non-negative |
| `Secondary.LeftToBudget` | src/components/budgettracker/BudgetTrackerSecondary.java:231-239 | income minus expenses when that is non-negative, 0 otherwise |
| `Secondary.SortedCategories` | src/components/budgettracker/BudgetTrackerSecondary.java:129-134 | draining the categories through `insertAscending` yields every category exactly once, A to Z, whatever the drain order |
| `Secondary.AmountsByDate` | src/components/budgettracker/BudgetTrackerSecondary.java:142-148 | the gathered map has exactly the category's dates, each with its recorded amount |
| `Secondary.InsertRenderedLine` | src/components/budgettracker/BudgetTrackerSecondary.java:150-156 | inserting a date's rendered line keeps every line the rendering of its own date, and puts the date among the line prefixes at the same place |
| `Secondary.RenderedLinesAreDateLines` | src/components/budgettracker/BudgetTrackerSecondary.java:150-156 | rendered lines whose dates are exactly the category's, strictly newest first, are the category's reference lines |
| `Secondary.InsertDateLine` | src/components/budgettracker/BudgetTrackerSecondary.java:151-155 | one drain step keeps the lines rendered and strictly newest first, and adds exactly the new date |
| `Secondary.CategoryLines` | src/components/budgettracker/BudgetTrackerSecondary.java:141-156 | the lines of a category are "date: $d.cc" for each of its dates, newest first, whatever the drain order |
| `Secondary.IndentLines` | src/components/budgettracker/BudgetTrackerSecondary.java:158-162 | each line is written indented by three spaces and ended by a newline, in order |
| `Secondary.CategoryBlock` | src/components/budgettracker/BudgetTrackerSecondary.java:137-164 | one category's block: its name and a colon, then its indented lines newest first |
| `Secondary.ExpenseBlocksOf` | src/components/budgettracker/BudgetTrackerSecondary.java:136-165 | the blocks of the given categories in order |
| `Secondary.GetAllExpensesSummary` | src/components/budgettracker/BudgetTrackerSecondary.java:124-169 | the expenses report is the header, then every category A to Z, each with its dates newest first |
| `Secondary.LimitsAndSpent` | src/components/budgettracker/BudgetTrackerSecondary.java:196-206 | collects each category's limit from the getter and its sum from the per-category loop, in order |
| `Secondary.ConcatLines` | src/components/budgettracker/BudgetTrackerSecondary.java:208-223 | the lines are appended in order |
| `Secondary.BudgetLinesOf` | src/components/budgettracker/BudgetTrackerSecondary.java:195-224 | the per-category lines of the budget report, each rendered from that category's limit and sum |
| `Secondary.BudgetHeaderOf` | src/components/budgettracker/BudgetTrackerSecondary.java:174-185 | the header shows the income, the total of all expenses and the remaining budget floored at 0 |
| `Secondary.GetBudgetSummary` | src/components/budgettracker/BudgetTrackerSecondary.java:172-228 | the budget report is the header, then one line per category A to Z with its limit, its sum and its remaining budget |
| `Secondary.ToString` | src/components/budgettracker/BudgetTrackerSecondary.java:244-251 | shows the income, total expenses, remaining budget and the number of categories |
| `Secondary.SubsetOfSameSize` | src/components/budgettracker/BudgetTrackerSecondary.java:272-315 | a set inside another of the same size equals it, which is why comparing sizes and then inclusion decides set equality |
| `Secondary.SameAmounts` | src/components/budgettracker/BudgetTrackerSecondary.java:295-306 | the date loop finds no difference exactly when every date of the first ledger is a date of the second, with the same amount |
| `Secondary.SameCategoryCheck` | src/components/budgettracker/BudgetTrackerSecondary.java:281-309 | one category compares equal exactly when its limit, its set of dates, and each date's amount agree |
| `Secondary.CheckCategories` | src/components/budgettracker/BudgetTrackerSecondary.java:276-310 | the category loop finds no difference exactly when every category of the first ledger is a category of the second and agrees with it |
| `Secondary.SameObservationsByParts` | src/components/budgettracker/BudgetTrackerSecondary.java:264-315 | equal incomes, equal category counts and per-category agreement together amount to every getter reporting the same |
| `Secondary.Equals` | src/components/budgettracker/BudgetTrackerSecondary.java:254-319 | `equals(null)` is false; otherwise true exactly when income, categories, and every category's limit, dates and amounts agree |
| `Secondary.SameCategoryExpense` | src/components/budgettracker/BudgetTrackerSecondary.java:201-206 | a category's sum depends only on what the getters report about it |
| `Secondary.SameTotals` | src/components/budgettracker/BudgetTrackerSecondary.java:107-119 | ledgers that compare equal have the same total and the same remaining budget |
| `Secondary.SameExpenseBlock` | src/components/budgettracker/BudgetTrackerSecondary.java:137-164 | a category's block depends only on what the getters report about it |
| `Secondary.SameExpenseBlocks` | src/components/budgettracker/BudgetTrackerSecondary.java:136-165 | so do the blocks of any list of categories |
| `Secondary.SameBudgetLines` | src/components/budgettracker/BudgetTrackerSecondary.java:195-224 | so do the budget lines of any list of categories |
| `Secondary.AllExpensesDependOnlyOnObservations` | src/components/budgettracker/BudgetTrackerSecondary.java:124-169 | ledgers that compare equal print the same expenses report |
| `Secondary.SameBudgetInputs` | src/components/budgettracker/BudgetTrackerSecondary.java:172-228 | ledgers that compare equal agree on income, total, remaining budget, categories and every budget line |
| `Secondary.BudgetSummaryDependsOnlyOnObservations` | src/components/budgettracker/BudgetTrackerSecondary.java:172-228 | ledgers that compare equal print the same budget report |
| `Secondary.FormatDollarsEndsWithDigit` | src/components/budgettracker/BudgetTrackerSecondary.java:88-99 | a non-negative amount's rendering ends with a digit |
| `Secondary.LimitTextMarker` | src/components/budgettracker/BudgetTrackerSecondary.java:209-218 | the limit part of a line ends with " [OVERSPENT]" exactly when the category has a limit and has spent more than it |
| `Secondary.OverspentMarker` | src/components/budgettracker/BudgetTrackerSecondary.java:208-222 | a budget line ends with " [OVERSPENT]" and a newline exactly when the category has a limit and has spent more than it |
| `Secondary.OverspentRemainingAsWritten` | src/components/budgettracker/BudgetTrackerSecondary.java:213-218 | an overspent category's line ends with ", remaining = ", then `formatDollars` of the negative difference, then " [OVERSPENT]", as the program writes it |
| `Secondary.NoLimitOpening` | src/components/budgettracker/BudgetTrackerSecondary.java:209-212 | without a limit, the limit part opens with "limit = (no limit)" |
| `Secondary.LimitOpening` | src/components/budgettracker/BudgetTrackerSecondary.java:213-217 | with a limit, the limit part opens with "limit = $" |
| `Secondary.LimitTextOpening` | src/components/budgettracker/BudgetTrackerSecondary.java:209-217 | the limit part opens with "limit = (no limit)" exactly when the category has no limit, and with "limit = $" otherwise |
| `Secondary.NoLimitMarker` | src/components/budgettracker/BudgetTrackerSecondary.java:208-217 | right after " - category: ", a budget line reads "limit = (no limit)" exactly when the category has no limit, and "limit = $" otherwise |
| `History.Step` | src/components/budgettracker/BudgetTrackerKernel.java:33-97 | a mutator call throws exactly when its arguments fail the kernel's checks, and an accepted call preserves the convention |
| `History.Apply` | src/components/budgettracker/BudgetTracker1L.java:170-188 | a call that throws leaves the state as it was, and the convention survives every call |
| `History.RunPreservesValid` | src/components/budgettracker/BudgetTracker1L.java:12-21 | the convention holds after every sequence of mutator calls |
| `History.ApplyGrows` | src/components/budgettracker/BudgetTracker1L.java:170-240 | no call removes a category or a date, or turns a stored limit back into `NO_LIMIT` |
| `History.RunGrows` | src/components/budgettracker/BudgetTracker1L.java:170-240 | the same holds for every sequence of calls |
| `History.ApplyPreservesCanonical` | src/components/budgettracker/BudgetTracker1L.java:190-206 | after any call there is still no category with an empty date map and no stored `NO_LIMIT` |
| `History.RunPreservesCanonical` | src/components/budgettracker/BudgetTracker1L.java:100-119 | every ledger built from a new one by mutator calls has no empty date map and no stored `NO_LIMIT` |
| `History.CanonicalCategories` | src/components/budgettracker/BudgetTracker1L.java:335-352 | in such a ledger a category is listed exactly when it has an expense or a limit |
| `History.CanonicalDateMap` | src/components/budgettracker/BudgetTrackerSecondary.java:288-306 | in such ledgers that compare equal, a category's stored date map is the same in both |
| `History.CanonicalExpenses` | src/components/budgettracker/BudgetTrackerSecondary.java:277-310 | such ledgers that compare equal store the same expenses |
| `History.CanonicalLimits` | src/components/budgettracker/BudgetTrackerSecondary.java:284-287 | such ledgers that compare equal store the same limits |
| `History.CanonicalObservations` | src/components/budgettracker/BudgetTrackerSecondary.java:254-319 | such ledgers compare equal exactly when their representations are equal |
| `History.ApplyTotal` | src/components/budgettracker/BudgetTracker1L.java:264-280 | every call raises the total by the amount it records, which is 0 unless it is an accepted expense |
| `History.AddExpenseRaisesCategoryExpense` | src/components/budgettracker/BudgetTrackerSecondary.java:201-206 | an accepted expense raises its category's sum by its amount and leaves every other category's sum alone |
| `Scenarios.IncomeThenTwoExpenses` | src/components/budgettracker/BudgetTracker.java:37-43 | income then two expenses leave income minus both to budget, or 0 once spending passes the income |
| `Scenarios.OverspendingLeavesZero` | test/components/budgettracker/BudgetTrackerSecondaryTest.java:42-50 | 800.00 and 300.00 spent against an income of 1000.00 leave 0 to budget |
| `Scenarios.TwoDatesOneCategory` | src/components/budgettracker/BudgetTrackerKernel.java:118-131 | two expenses on distinct dates of one category sum to both; each date reads its own amount, and any other date reads 0 |
| `Scenarios.UtilitiesSum` | test/components/budgettracker/BudgetTrackerSecondaryTest.java:106-122 | utility bills of 180.00 and 50.00 sum to 230.00, and a date with no bill reads 0 |

## Left out

- **The representation's mechanics.** The copy-on-read helpers of `BudgetTracker1L` and the drain-and-restore of `Map1L` and `Set1L` are not modelled. They only keep the representation private, and a pure model has nothing to expose.
- **`hashCode`.** It folds `31 * h + ...` over the categories and dates in the order `removeAny` yields them, with `String.hashCode`, `Long.hashCode` and 32-bit wrap-around. The result depends on that drain order and on overflow, so it is not a function of what the getters report. Whether it agrees with `equals` is not modelled.
- **Equality shortcuts in `equals`.** The `this == obj` shortcut and the `instanceof` test are left out. An `Option<Tracker>` models only the null case, and object identity implies equal observations.
- **`equals`' final size check.** The check `cats2.size() != seen.size()` is left out. Once the category loop has run to completion, `seen` is the first ledger's category set, whose size has already been compared.
- **Long arithmetic.** Amounts are unbounded integers. The model does not wrap the `long` sums or `Long.MIN_VALUE` in `formatDollars`, because the source assumes totals stay in range.
- **String comparison.** `Less` compares strings character by character. Java's `compareTo` compares UTF-16 code units, and the two differ only for characters outside the Basic Multilingual Plane.
- Kernel.ExpenseArgumentError: the date checks count Unicode scalar values, not UTF-16 code units. Java's `length()` and `charAt` count code units, so a date with a character outside the Basic Multilingual Plane (such as "2025-1\U{1F600}-01", 10 characters but 11 code units) is accepted by the model where the program throws "date must be in ISO format". Dates stay sequences of characters because the reports take date prefixes by character.
- Kernel.AddExpense: inherits the same difference in its date-length and dash checks.
- Kernel.GetExpenseAmount: requires a non-blank category and an ISO date. The null-category and null-date `IllegalArgumentException`s that the defensive tests expect (BudgetTrackerSecondaryTest.java, lines 136-152) are outside the getter, because a Dafny string cannot be null. The rejection of a null or blank category is modelled by `Kernel.DateToAmount`; the null-date throw is not modelled.
- Kernel.GetBudgetLimit: requires a non-blank category. The null-category `IllegalArgumentException` is modelled by `Kernel.BudgetLimit`, which returns an error for a missing or blank category.
- **Whitespace.** `IsBlank` treats every character at or below U+0020 as blank, which is `String.trim`'s rule. Other Unicode whitespace is not special.
- **`UNBOUNDED_REMAINING` and `DOLLAR_SYMBOL`.** These constants of `BudgetTracker1L` are not used by the modelled code, so they are left out.
- Secondary.InsertByDateDesc: requires every line to be at least 10 characters long. The Java `substring(0, DATE_LENGTH)` throws on a shorter line, and the report only inserts lines that begin with a 10-character date.
- **Other copies of the component.** The separate `src/BudgetTracker*.java`, `Archive` and `Budget Tracker` copies are earlier versions and are not part of this model.

## Findings

| source | as written | input that shows it | evidently intended | confidence | as-written member | corrected member |
|---|---|---|---|---|---|---|
| src/components/budgettracker/BudgetTrackerSecondary.java:214-217 | the remaining budget `limit - catTotal` of an overspent category is negative, yet it is passed to `formatDollars`, which requires `cents >= 0` and pads a negative remainder | limit 0, spent 50 cents: `formatDollars(-50)` yields "$0.0-50" | a readable negative amount such as "-$0.50", which reads back as the amount | not executed | `Money.FormatDollarsOfNegative` | `Money.FormatSignedDollars` |

The budget report is modelled as written: `Secondary.LimitText` renders the remaining budget with `Money.FormatDollars`, and `Secondary.OverspentRemainingAsWritten` states that an overspent line carries the garbled amount. The corrected rendering `Money.FormatSignedDollars` is `formatDollars` on a non-negative amount and a "-" before the amount's magnitude otherwise; its contract states that it reads back as the amount for every amount.
