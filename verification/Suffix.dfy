/** Numbered names: `x_2`, `x_3`, … and the search for one not in use. */
module Suffix {
  import opened Text

  const ZERO: Unit := 48
  const UNDERSCORE: Unit := 95
  const SPACE: Unit := 32

  /** What may stand in front of a number without running into it. */
  type NonDigit = u: Unit | !(48 <= u <= 57) witness 95

  function Decimal(n: nat): (t: Text)
    ensures t != [] && forall k :: 0 <= k < |t| ==> 48 <= t[k] <= 57
  {
    if n < 10 then [ZERO + n] else Decimal(n / 10) + [ZERO + n % 10]
  }

  lemma {:induction false} DecimalInjective(a: nat, b: nat)
    requires Decimal(a) == Decimal(b)
    ensures a == b
  {
    var s, t := Decimal(a), Decimal(b);
    assert s[|s| - 1] == ZERO + a % 10 && t[|t| - 1] == ZERO + b % 10;
    if a >= 10 && b >= 10 {
      assert s[..|s| - 1] == Decimal(a / 10) && t[..|t| - 1] == Decimal(b / 10);
      DecimalInjective(a / 10, b / 10);
    }
  }

  function Numbered(x: Text, mark: Unit, n: nat): (t: Text)
    ensures t != []
  {
    x + [mark] + Decimal(n)
  }

  /** Behind the mark there are only digits. */
  lemma MarkIsLast(x: Text, mark: Unit, m: nat, k: nat)
    ensures |x| < k < |Numbered(x, mark, m)| ==> 48 <= Numbered(x, mark, m)[k] <= 57
  {
    if |x| < k < |Numbered(x, mark, m)| {
      assert Numbered(x, mark, m)[k] == Decimal(m)[k - |x| - 1];
    }
  }

  /** The mark is no digit, so the name and the number can be read back from the end. */
  lemma NumberedInjective(x: Text, m: nat, y: Text, n: nat, mark: Unit)
    requires Numbered(x, mark, m) == Numbered(y, mark, n) && !(48 <= mark <= 57)
    ensures x == y && m == n
  {
    var s, u, a, b := Numbered(x, mark, m), Numbered(y, mark, n), Decimal(m), Decimal(n);
    assert s[|x|] == mark && u[|y|] == mark;
    MarkIsLast(x, mark, m, |y|);
    MarkIsLast(y, mark, n, |x|);
    assert s[..|x|] == x && u[..|y|] == y && s[|x| + 1..] == a && u[|y| + 1..] == b;
    DecimalInjective(m, n);
  }

  /** The names with numbers `lo` to `hi - 1`. */
  function Names(x: Text, mark: NonDigit, lo: nat, hi: nat): (s: set<Text>)
    requires lo <= hi
    decreases hi
  {
    if lo == hi then {} else Names(x, mark, lo, hi - 1) + {Numbered(x, mark, hi - 1)}
  }

  lemma {:induction false} NamesAre(x: Text, mark: NonDigit, lo: nat, hi: nat)
    requires lo <= hi
    ensures forall t <- Names(x, mark, lo, hi) :: exists n: nat :: lo <= n < hi && t == Numbered(x, mark, n)
    decreases hi
  {
    hide Numbered;
    if lo < hi {
      NamesAre(x, mark, lo, hi - 1);
    }
  }

  lemma {:induction false} NamesCount(x: Text, mark: NonDigit, lo: nat, hi: nat)
    requires lo <= hi
    ensures |Names(x, mark, lo, hi)| == hi - lo
    decreases hi
  {
    hide Numbered;
    if lo < hi {
      NamesCount(x, mark, lo, hi - 1);
      NamesAre(x, mark, lo, hi - 1);
      var last := Numbered(x, mark, hi - 1);
      if last in Names(x, mark, lo, hi - 1) {
        var n: nat :| lo <= n < hi - 1 && last == Numbered(x, mark, n);
        NumberedInjective(x, hi - 1, x, n, mark);
      }
    }
  }

  /** Names already tried are all in use, so the search cannot go on for ever. */
  lemma TriedAreUsed(used: set<Text>, x: Text, mark: NonDigit, lo: nat, hi: nat)
    requires lo <= hi && forall n: nat :: lo <= n < hi ==> Numbered(x, mark, n) in used
    ensures hi - lo <= |used|
  {
    NamesCount(x, mark, lo, hi);
    NamesAre(x, mark, lo, hi);
    SubsetSize(Names(x, mark, lo, hi), used);
  }

  lemma {:induction false} SubsetSize(a: set<Text>, b: set<Text>)
    requires a <= b
    ensures |a| <= |b|
  {
    if a != {} {
      var t :| t in a;
      SubsetSize(a - {t}, b - {t});
    }
  }

  /** `n` is the first number from `start` on whose name is free. */
  predicate FirstFree(used: set<Text>, x: Text, mark: NonDigit, start: nat, n: nat) {
    && start <= n && Numbered(x, mark, n) !in used
    && forall m: nat :: start <= m < n ==> Numbered(x, mark, m) in used
  }

  function FreeFrom(used: set<Text>, x: Text, mark: NonDigit, start: nat, n: nat): (r: nat)
    requires start <= n && forall m: nat :: start <= m < n ==> Numbered(x, mark, m) in used
    ensures FirstFree(used, x, mark, start, r)
    decreases |used| + 1 - (n - start)
  {
    TriedAreUsed(used, x, mark, start, n);
    if Numbered(x, mark, n) !in used then n
    else
      TriedAreUsed(used, x, mark, start, n + 1);
      FreeFrom(used, x, mark, start, n + 1)
  }

  /** The first free name of `x` with a number of `start` or more. */
  function FreeName(used: set<Text>, x: Text, mark: NonDigit, start: nat): (t: Text)
    ensures t !in used && t != []
  {
    Numbered(x, mark, FreeFrom(used, x, mark, start, start))
  }

  method FindFreeName(used: set<Text>, x: Text, mark: NonDigit, start: nat) returns (t: Text)
    ensures t == FreeName(used, x, mark, start)
  {
    var n := start;
    t := Numbered(x, mark, n);
    while t in used
      invariant start <= n && t == Numbered(x, mark, n)
      invariant forall m: nat :: start <= m < n ==> Numbered(x, mark, m) in used
      invariant FreeFrom(used, x, mark, start, start) == FreeFrom(used, x, mark, start, n)
      decreases |used| + 1 - (n - start)
    {
      TriedAreUsed(used, x, mark, start, n + 1);
      n := n + 1;
      t := Numbered(x, mark, n);
    }
  }
}
