/** Order-independent sums over finite sets: the meaning of the drain-and-add
    loops that total expenses by category and date.
 */
module Sums {

  /** The sum of `f(k)` over the members of `s`, taken in an arbitrary order. */
  ghost function SumSet<K>(s: set<K>, f: K -> int): int
    decreases s
  {
    if s == {} then 0 else var k :| k in s; f(k) + SumSet(s - {k}, f)
  }

  /** Any member can be taken out first: the order of a drain loop does not matter. */
  lemma {:induction false} SumSetRemove<K>(s: set<K>, f: K -> int, k: K)
    requires k in s
    ensures SumSet(s, f) == f(k) + SumSet(s - {k}, f)
    decreases s
  {
    var j :| j in s && SumSet(s, f) == f(j) + SumSet(s - {j}, f);
    if j != k {
      SumSetRemove(s - {j}, f, k);
      SumSetRemove(s - {k}, f, j);
      assert s - {j} - {k} == s - {k} - {j};
    }
  }

  lemma SumSetInsert<K>(s: set<K>, f: K -> int, k: K)
    requires k !in s
    ensures SumSet(s + {k}, f) == f(k) + SumSet(s, f)
  {
    SumSetRemove(s + {k}, f, k);
    assert s + {k} - {k} == s;
  }

  lemma {:induction false} SumSetNonNegative<K>(s: set<K>, f: K -> int)
    requires forall k :: k in s ==> f(k) >= 0
    ensures SumSet(s, f) >= 0
    decreases s
  {
    if s != {} {
      var k :| k in s;
      SumSetRemove(s, f, k);
      SumSetNonNegative(s - {k}, f);
    }
  }

  /** Summing two functions that agree on `s` gives the same total. */
  lemma {:induction false} SumSetExtensional<K>(s: set<K>, f: K -> int, g: K -> int)
    requires forall k :: k in s ==> f(k) == g(k)
    ensures SumSet(s, f) == SumSet(s, g)
    decreases s
  {
    if s != {} {
      var k :| k in s;
      SumSetRemove(s, f, k);
      SumSetRemove(s, g, k);
      SumSetExtensional(s - {k}, f, g);
    }
  }

  /** Members that contribute zero can be added without changing the sum. */
  lemma {:induction false} SumSetZeros<K>(s: set<K>, t: set<K>, f: K -> int)
    requires s <= t
    requires forall k :: k in t && k !in s ==> f(k) == 0
    ensures SumSet(t, f) == SumSet(s, f)
    decreases t
  {
    if t != s {
      var k :| k in t && k !in s;
      SumSetRemove(t, f, k);
      SumSetZeros(s, t - {k}, f);
    }
  }

  /** Changing one summand by `delta` changes the sum by `delta`. */
  lemma SumSetUpdate<K>(s: set<K>, f: K -> int, g: K -> int, k: K, delta: int)
    requires k in s
    requires g(k) == f(k) + delta
    requires forall j :: j in s && j != k ==> f(j) == g(j)
    ensures SumSet(s, g) == SumSet(s, f) + delta
  {
    SumSetRemove(s, f, k);
    SumSetRemove(s, g, k);
    SumSetExtensional(s - {k}, f, g);
  }
}
