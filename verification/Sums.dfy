/** Sums over finite maps, and finite sets of consecutive numbers: taking a key out, putting one in,
    adding pieces laid out in order, and how many numbers an interval holds. Buffers and windows are
    accounted for with them. */
module Sums {

  /** The sum of all values of `m`. */
  ghost function Sum(m: map<nat, nat>): nat {
    if m == map[] then 0
    else
      var k :| k in m;
      m[k] + Sum(m - {k})
  }

  /** Taking out any one entry takes out exactly its value. */
  lemma {:induction false} SumRemove(m: map<nat, nat>, k: nat)
    requires k in m
    ensures Sum(m) == m[k] + Sum(m - {k})
    decreases |m|
  {
    var c :| c in m && Sum(m) == m[c] + Sum(m - {c});
    if c != k {
      SumRemove(m - {c}, k);
      SumRemove(m - {k}, c);
      assert (m - {c}) - {k} == (m - {k}) - {c};
    }
  }

  lemma SumInsert(m: map<nat, nat>, k: nat, v: nat)
    requires k !in m
    ensures Sum(m[k := v]) == Sum(m) + v
  {
    SumRemove(m[k := v], k);
    assert m[k := v] - {k} == m;
  }

  function Below(m: map<nat, nat>, bound: nat): map<nat, nat> {
    map k | k in m && k < bound :: m[k]
  }

  function NotBelow(m: map<nat, nat>, bound: nat): map<nat, nat> {
    map k | k in m && k >= bound :: m[k]
  }

  /** Splitting a map by a bound splits its sum. */
  lemma {:induction false} SumSplit(m: map<nat, nat>, bound: nat)
    ensures Sum(m) == Sum(Below(m, bound)) + Sum(NotBelow(m, bound))
    decreases |m|
  {
    if m == map[] {
      assert Below(m, bound) == map[] && NotBelow(m, bound) == map[];
    } else {
      var k :| k in m;
      SumRemove(m, k);
      SumSplit(m - {k}, bound);
      if k < bound {
        SumRemove(Below(m, bound), k);
        assert Below(m, bound) - {k} == Below(m - {k}, bound);
        assert NotBelow(m, bound) == NotBelow(m - {k}, bound);
      } else {
        SumRemove(NotBelow(m, bound), k);
        assert NotBelow(m, bound) - {k} == NotBelow(m - {k}, bound);
        assert Below(m, bound) == Below(m - {k}, bound);
      }
    }
  }

  /** A set of `n` numbers below `n` is all of them. */
  lemma {:induction false} FullInterval(s: set<nat>, n: nat)
    requires (forall i <- s :: i < n) && |s| == n
    ensures forall i: nat :: i < n ==> i in s
  {
    if n > 0 {
      var t := s - {n - 1};
      IntervalBound(t, n - 1);
      assert n - 1 in s;
      FullInterval(t, n - 1);
    }
  }

  /** A set of numbers below `n` has at most `n` elements. */
  lemma {:induction false} IntervalBound(s: set<nat>, n: nat)
    requires forall i <- s :: i < n
    ensures |s| <= n
  {
    if n == 0 {
      assert s == {};
    } else {
      IntervalBound(s - {n - 1}, n - 1);
    }
  }

  ghost predicate IsMax(s: set<nat>, m: nat) {
    m in s && forall k <- s :: k <= m
  }

  lemma {:induction false} MaxExists(s: set<nat>)
    requires s != {}
    ensures exists m :: IsMax(s, m)
    decreases |s|
  {
    var k :| k in s;
    if s == {k} {
      assert IsMax(s, k);
    } else {
      var rest := s - {k};
      MaxExists(rest);
      var r :| IsMax(rest, r);
      assert s == rest + {k};
      assert IsMax(s, if k > r then k else r);
    }
  }
}
