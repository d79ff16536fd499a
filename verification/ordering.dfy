/** Sorted sequences of strings under `Text.Less`, in either direction, and
    the canonical sorted enumeration of a finite set of strings.
 */
module Ordering {
  import opened Text

  datatype Direction = Ascending | Descending

  /** `a` must come strictly before `b` when listed in direction `dir`. */
  predicate Before(dir: Direction, a: string, b: string) {
    match dir
    case Ascending => Less(a, b)
    case Descending => Less(b, a)
  }

  /** Strictly sorted: no duplicates, every earlier element before every later one. */
  predicate Sorted(dir: Direction, s: seq<string>) {
    forall i, j :: 0 <= i < j < |s| ==> Before(dir, s[i], s[j])
  }

  /** Sorted allowing equal neighbours: no later element comes strictly before an earlier one. */
  predicate Ordered(dir: Direction, s: seq<string>) {
    forall i, j :: 0 <= i < j < |s| ==> !Before(dir, s[j], s[i])
  }

  /** `m` comes before every other member of `s`. */
  ghost predicate IsFirst(dir: Direction, m: string, s: set<string>) {
    m in s && forall x :: x in s && x != m ==> Before(dir, m, x)
  }

  lemma BeforeIrreflexive(dir: Direction, a: string)
    ensures !Before(dir, a, a)
  {
    LessIrreflexive(a);
  }

  lemma BeforeAsymmetric(dir: Direction, a: string, b: string)
    ensures Before(dir, a, b) ==> !Before(dir, b, a)
  {
    LessAsymmetric(a, b);
    LessAsymmetric(b, a);
  }

  lemma BeforeTransitive(dir: Direction, a: string, b: string, c: string)
    requires Before(dir, a, b) && Before(dir, b, c)
    ensures Before(dir, a, c)
  {
    match dir
    case Ascending => LessTransitive(a, b, c);
    case Descending => LessTransitive(c, b, a);
  }

  lemma BeforeTotal(dir: Direction, a: string, b: string)
    ensures a == b || Before(dir, a, b) || Before(dir, b, a)
  {
    LessTotal(a, b);
  }

  /** Every non-empty finite set of strings has a first element. */
  lemma {:induction false} FirstExists(dir: Direction, s: set<string>)
    requires s != {}
    ensures exists m :: IsFirst(dir, m, s)
    decreases |s|
  {
    var y :| y in s;
    var rest := s - {y};
    if rest == {} {
      forall x | x in s
        ensures x == y
      {
        assert x !in rest;
      }
      assert IsFirst(dir, y, s);
    } else {
      FirstExists(dir, rest);
      var m :| IsFirst(dir, m, rest);
      BeforeTotal(dir, m, y);
      if Before(dir, m, y) {
        assert IsFirst(dir, m, s);
      } else {
        forall x | x in s && x != y
          ensures Before(dir, y, x)
        {
          if x != m {
            BeforeTransitive(dir, y, m, x);
          }
        }
        assert IsFirst(dir, y, s);
      }
    }
  }

  /** The elements of `s` listed in direction `dir`: the reference order the
      reports promise. */
  ghost function Enumerate(dir: Direction, s: set<string>): (r: seq<string>)
    ensures Sorted(dir, r)
    ensures forall x :: x in r <==> x in s
    ensures |r| == |s|
    decreases |s|
  {
    if s == {} then []
    else
      FirstExists(dir, s);
      var m :| IsFirst(dir, m, s);
      var tail := Enumerate(dir, s - {m});
      assert forall j :: 0 <= j < |tail| ==> tail[j] in s - {m};
      [m] + tail
  }

  /** A strictly sorted sequence is determined by its elements: whatever order
      the elements are inserted in, the sorted result is the same. */
  lemma {:induction false} SortedUnique(dir: Direction, a: seq<string>, b: seq<string>)
    requires Sorted(dir, a) && Sorted(dir, b)
    requires forall x :: x in a <==> x in b
    ensures a == b
    decreases |a| + |b|, if a == [] then 1 else 0
  {
    if a == [] {
      if b != [] {
        SortedUnique(dir, b, a);
      }
    } else {
      assert a[0] in b;
      assert b != [];
      if a[0] != b[0] {
        assert b[0] in a;
        var i :| 0 <= i < |a| && a[i] == b[0];
        var j :| 0 <= j < |b| && b[j] == a[0];
        assert Before(dir, a[0], a[i]);
        assert Before(dir, b[0], b[j]);
        BeforeAsymmetric(dir, a[0], b[0]);
        assert false;
      }
      forall x
        ensures x in a[1..] <==> x in b[1..]
      {
        if x in a[1..] {
          var i :| 1 <= i < |a| && a[i] == x;
          assert Before(dir, a[0], x);
          BeforeIrreflexive(dir, x);
          assert x != b[0];
          assert x in b;
        }
        if x in b[1..] {
          var j :| 1 <= j < |b| && b[j] == x;
          assert Before(dir, b[0], x);
          BeforeIrreflexive(dir, x);
          assert x != a[0];
          assert x in a;
        }
      }
      SortedUnique(dir, a[1..], b[1..]);
      assert a == [a[0]] + a[1..] && b == [b[0]] + b[1..];
    }
  }

  /** The one sorted listing of a set is its enumeration. */
  lemma SortedIsEnumeration(dir: Direction, a: seq<string>, s: set<string>)
    requires Sorted(dir, a)
    requires forall x :: x in a <==> x in s
    ensures a == Enumerate(dir, s)
  {
    SortedUnique(dir, a, Enumerate(dir, s));
  }

  /** Inserting a new element where everything before it precedes it and the
      element at the position follows it keeps a strictly sorted sequence sorted. */
  lemma InsertKeepsSorted(dir: Direction, s: seq<string>, x: string, i: nat)
    requires Sorted(dir, s) && i <= |s|
    requires forall k :: 0 <= k < i ==> Before(dir, s[k], x)
    requires i < |s| ==> Before(dir, x, s[i])
    ensures Sorted(dir, s[..i] + [x] + s[i..])
  {
    var r := s[..i] + [x] + s[i..];
    forall p, q | 0 <= p < q < |r|
      ensures Before(dir, r[p], r[q])
    {
      if q < i {
        assert r[p] == s[p] && r[q] == s[q];
      } else if q == i {
        assert r[p] == s[p];
      } else if p == i {
        assert r[q] == s[q - 1];
        if q - 1 > i {
          BeforeTransitive(dir, x, s[i], s[q - 1]);
        }
      } else if p < i {
        assert r[p] == s[p] && r[q] == s[q - 1];
      } else {
        assert r[p] == s[p - 1] && r[q] == s[q - 1];
      }
    }
  }

  /** The same for non-strict order: equal neighbours are allowed on both sides. */
  lemma InsertKeepsOrdered(dir: Direction, s: seq<string>, x: string, i: nat)
    requires Ordered(dir, s) && i <= |s|
    requires forall k :: 0 <= k < i ==> !Before(dir, x, s[k])
    requires i < |s| ==> !Before(dir, s[i], x)
    ensures Ordered(dir, s[..i] + [x] + s[i..])
  {
    var r := s[..i] + [x] + s[i..];
    forall p, q | 0 <= p < q < |r|
      ensures !Before(dir, r[q], r[p])
    {
      if q < i {
        assert r[p] == s[p] && r[q] == s[q];
      } else if q == i {
        assert r[p] == s[p];
      } else if p == i {
        assert r[q] == s[q - 1];
        if q - 1 > i && Before(dir, s[q - 1], x) {
          BeforeTotal(dir, s[i], s[q - 1]);
          if s[i] != s[q - 1] {
            BeforeTransitive(dir, s[i], s[q - 1], x);
          }
        }
      } else if p < i {
        assert r[p] == s[p] && r[q] == s[q - 1];
      } else {
        assert r[p] == s[p - 1] && r[q] == s[q - 1];
      }
    }
  }

  /** The position `insertByDateDesc` finds: past every key that does not
      compare below `x`, at the first that does. Equal keys stay in front. */
  lemma PlaceDescending(keys: seq<string>, x: string, i: nat)
    requires i <= |keys|
    requires forall k :: 0 <= k < i ==> !Less(keys[k], x)
    requires i < |keys| ==> Less(keys[i], x)
    ensures Ordered(Descending, keys) ==> forall k :: i <= k < |keys| ==> keys[k] != x
    ensures Ordered(Descending, keys) ==> Ordered(Descending, keys[..i] + [x] + keys[i..])
    ensures Sorted(Descending, keys) && x !in keys ==> Sorted(Descending, keys[..i] + [x] + keys[i..])
  {
    if Ordered(Descending, keys) {
      forall k | i <= k < |keys|
        ensures keys[k] != x
      {
        LessIrreflexive(x);
        if k > i {
          assert !Before(Descending, keys[k], keys[i]);
        }
      }
      if i < |keys| {
        LessAsymmetric(keys[i], x);
      }
      InsertKeepsOrdered(Descending, keys, x, i);
    }
    if Sorted(Descending, keys) && x !in keys {
      forall k | 0 <= k < i
        ensures Before(Descending, keys[k], x)
      {
        LessTotal(keys[k], x);
      }
      InsertKeepsSorted(Descending, keys, x, i);
    }
  }

  /** The position `insertAscending` finds: past every element below `x`, at
      the first that is not. `x` goes in front of equal elements. */
  lemma PlaceAscending(s: seq<string>, x: string, i: nat)
    requires i <= |s|
    requires forall k :: 0 <= k < i ==> Less(s[k], x)
    requires i < |s| ==> !Less(s[i], x)
    ensures Ordered(Ascending, s) ==> Ordered(Ascending, s[..i] + [x] + s[i..])
    ensures Sorted(Ascending, s) && x !in s ==> Sorted(Ascending, s[..i] + [x] + s[i..])
  {
    if Ordered(Ascending, s) {
      forall k | 0 <= k < i
        ensures !Before(Ascending, x, s[k])
      {
        LessAsymmetric(s[k], x);
      }
      InsertKeepsOrdered(Ascending, s, x, i);
    }
    if Sorted(Ascending, s) && x !in s {
      if i < |s| {
        LessTotal(s[i], x);
      }
      InsertKeepsSorted(Ascending, s, x, i);
    }
  }
}
