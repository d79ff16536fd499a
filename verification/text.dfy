/** Character-level predicates the tracker applies to categories and dates,
    and Java's `String.compareTo` order on strings.
 */
module Text {

  /** Expected length of an ISO date "YYYY-MM-DD". */
  const DATE_LENGTH: nat := 10
  /** Index of the first dash in an ISO date. */
  const DATE_DASH_POS_1: nat := 4
  /** Index of the second dash in an ISO date. */
  const DATE_DASH_POS_2: nat := 7

  /** Java's `s.trim().length() == 0`: `trim` strips every char at or below
      U+0020 from both ends, so the result is empty exactly when every char is. */
  predicate IsBlank(s: string) {
    forall i :: 0 <= i < |s| ==> s[i] <= ' '
  }

  /** The shape the ledger accepts for a date: ten chars, dashes at 4 and 7.
      Nothing else (digits, month or day range) is checked. */
  predicate IsIsoDate(d: string) {
    |d| == DATE_LENGTH && d[DATE_DASH_POS_1] == '-' && d[DATE_DASH_POS_2] == '-'
  }

  /** `a.compareTo(b) < 0`: the first differing char decides; when one string
      is a prefix of the other, the shorter one comes first. */
  predicate Less(a: string, b: string)
    decreases |a|
  {
    if |a| == 0 then |b| > 0
    else if |b| == 0 then false
    else if a[0] != b[0] then a[0] < b[0]
    else Less(a[1..], b[1..])
  }

  lemma {:induction false} LessIrreflexive(a: string)
    ensures !Less(a, a)
    decreases |a|
  {
    if |a| > 0 {
      LessIrreflexive(a[1..]);
    }
  }

  lemma {:induction false} LessAsymmetric(a: string, b: string)
    ensures Less(a, b) ==> !Less(b, a)
    decreases |a|
  {
    if |a| > 0 && |b| > 0 && a[0] == b[0] {
      LessAsymmetric(a[1..], b[1..]);
    }
  }

  lemma {:induction false} LessTransitive(a: string, b: string, c: string)
    requires Less(a, b) && Less(b, c)
    ensures Less(a, c)
    decreases |a|
  {
    if |a| > 0 && a[0] == b[0] && b[0] == c[0] {
      LessTransitive(a[1..], b[1..], c[1..]);
    }
  }

  /** compareTo is a total order: distinct strings are comparable. */
  lemma {:induction false} LessTotal(a: string, b: string)
    ensures a == b || Less(a, b) || Less(b, a)
    decreases |a|
  {
    if |a| > 0 && |b| > 0 && a[0] == b[0] {
      LessTotal(a[1..], b[1..]);
      if a[1..] == b[1..] {
        assert a == [a[0]] + a[1..] && b == [b[0]] + b[1..];
      }
    }
  }
}
