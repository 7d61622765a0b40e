/** Every block of the translated stream belongs to one item, and an item's events are those of its blocks. */
module BlockOwners {
  import opened Text
  import opened Translate
  import opened TranslateItems
  import opened OwnerSteps

  // ---- Read off the stream ----

  /** The owners of the blocks of a stream. */
  function Owners(out: seq<Emission>): seq<int> {
    OwnersAfter([], out)
  }

  /** What an event says about a block, without its number. */
  function MarkIn(e: Out): seq<Mark> {
    match e
    case BlockStart(_, start) => [Opens(start)]
    case BlockDelta(_, piece) => [Says(piece)]
    case BlockStop(_) => [Closes]
    case _ => []
  }

  /** What a reader is told of block `n`. */
  function MarksAt(outs: seq<Out>, n: int): seq<Mark> {
    if outs == [] then []
    else (if BlockOf(outs[0]) == Some(n) then MarkIn(outs[0]) else []) + MarksAt(outs[1..], n)
  }

  /** What a reader is told in the blocks that belong to item `k`. */
  function MarksBy(outs: seq<Out>, ow: seq<int>, k: int): seq<Mark> {
    if outs == [] then []
    else (if In(outs[0], ow, k) then MarkIn(outs[0]) else []) + MarksBy(outs[1..], ow, k)
  }

  predicate In(e: Out, ow: seq<int>, k: int) {
    BlockOf(e).Some? && 0 <= BlockOf(e).value < |ow| && ow[BlockOf(e).value] == k
  }

  /** The item an event is about is the owner of its block. */
  predicate Rightly(e: Emission, ow: seq<int>) {
    match BlockOf(e.event)
    case None => e.owner.None?
    case Some(i) => 0 <= i < |ow| && e.owner == Some(ow[i])
  }

  /** Block `n`, and no other, belongs to item `k`. */
  predicate IsOnly(ow: seq<int>, k: int, n: int) {
    0 <= n < |ow| && ow[n] == k && forall i :: 0 <= i < |ow| && ow[i] == k ==> i == n
  }

  lemma {:induction false} OwnersGrow(ow: seq<int>, out: seq<Emission>)
    ensures ow <= OwnersAfter(ow, out)
    decreases |out|
  {
    if out != [] {
      OwnersGrow(Grown(ow, out[0]), out[1..]);
    }
  }

  lemma FitIsRight(ow: seq<int>, e: Emission, later: seq<int>)
    requires Fitting(ow, e) && Grown(ow, e) <= later
    ensures Rightly(e, later)
  {
  }

  lemma {:induction false} FitMeans(ow: seq<int>, out: seq<Emission>)
    requires AllFit(ow, out)
    ensures forall e <- out :: Rightly(e, OwnersAfter(ow, out))
    decreases |out|
  {
    hide Fitting, Grown, Rightly;
    if out != [] {
      var ow2 := Grown(ow, out[0]);
      FitMeans(ow2, out[1..]);
      OwnersGrow(ow2, out[1..]);
      FitIsRight(ow, out[0], OwnersAfter(ow, out));
      assert out == [out[0]] + out[1..];
    }
  }

  lemma {:induction false} ByOwner(out: seq<Emission>, ow: seq<int>, k: int)
    requires forall e <- out :: Rightly(e, ow)
    ensures MarksBy(Outs(out), ow, k) == Marks(out, k)
  {
    if out != [] {
      assert forall e <- out[1..] :: e in out;
      ByOwner(out[1..], ow, k);
      assert Rightly(out[0], ow) && Outs(out)[1..] == Outs(out[1..]);
    }
  }

  lemma {:induction false} AtOnly(out: seq<Emission>, ow: seq<int>, k: int, n: int)
    requires (forall e <- out :: Rightly(e, ow)) && IsOnly(ow, k, n)
    ensures MarksAt(Outs(out), n) == Marks(out, k)
  {
    if out != [] {
      assert forall e <- out[1..] :: e in out;
      AtOnly(out[1..], ow, k, n);
      assert Rightly(out[0], ow) && Outs(out)[1..] == Outs(out[1..]);
    }
  }

  // ---- How many blocks an item has ----

  function Starts(ms: seq<Mark>): nat {
    if ms == [] then 0 else (if ms[0].Opens? then 1 else 0) + Starts(ms[1..])
  }

  lemma {:induction false} StartsAppend(a: seq<Mark>, b: seq<Mark>)
    ensures Starts(a + b) == Starts(a) + Starts(b)
  {
    if a == [] {
      assert a + b == b;
    } else {
      assert (a + b)[0] == a[0] && (a + b)[1..] == a[1..] + b;
      StartsAppend(a[1..], b);
    }
  }

  lemma GrownCount(ow: seq<int>, e: Emission, k: int)
    requires Fitting(ow, e)
    ensures multiset(Grown(ow, e))[k] == multiset(ow)[k] + Starts(MarkOf(e, k))
  {
    var ms := MarkOf(e, k);
    assert ms == [] || (|ms| == 1 && ms[1..] == []);
  }

  lemma {:induction false} CountStarts(ow: seq<int>, out: seq<Emission>, k: int)
    requires AllFit(ow, out)
    ensures multiset(OwnersAfter(ow, out))[k] == multiset(ow)[k] + Starts(Marks(out, k))
    decreases |out|
  {
    hide Fitting, Grown, MarkOf;
    if out != [] {
      GrownCount(ow, out[0], k);
      CountStarts(Grown(ow, out[0]), out[1..], k);
      StartsAppend(MarkOf(out[0], k), Marks(out[1..], k));
    }
  }

  lemma OnlyOne(ow: seq<int>, k: int) returns (n: int)
    requires multiset(ow)[k] == 1
    ensures IsOnly(ow, k, n)
  {
    assert k in multiset(ow);
    n :| 0 <= n < |ow| && ow[n] == k;
    forall i | 0 <= i < |ow| && ow[i] == k ensures i == n {
      if i < n {
        Twice(ow, i, n, k);
      } else if n < i {
        Twice(ow, n, i, k);
      }
    }
  }

  lemma Twice(ow: seq<int>, i: int, j: int, k: int)
    requires 0 <= i < j < |ow| && ow[i] == ow[j] == k
    ensures multiset(ow)[k] >= 2
  {
    assert ow == ow[..j] + ow[j..] && k in ow[..j] && k in ow[j..];
    assert multiset(ow) == multiset(ow[..j]) + multiset(ow[j..]);
    assert k in multiset(ow[..j]) && k in multiset(ow[j..]);
  }

  /** Whatever arrives: every event about a block is about the one item that owns the block, and there is
      no event about an item outside its blocks. */
  lemma OneOwnerPerBlock(cfg: Config, model: Text, es: seq<Upstream>)
    ensures var out := PushAll(cfg, Fresh(model), es).out;
      AllFit([], out) && forall e <- out :: Rightly(e, Owners(out))
  {
    hide PushAll, AllFit, OwnersAfter, Rightly;
    var t := Fresh(model);
    PushAllTells(cfg, t, [], es);
    FitMeans([], PushAll(cfg, t, es).out);
  }

  /** An item of which one block was begun: that block, and it alone, says what is said of the item. */
  lemma OneBlock(cfg: Config, model: Text, es: seq<Upstream>, k: int) returns (n: int)
    requires Starts(Marks(PushAll(cfg, Fresh(model), es).out, k)) == 1
    ensures var out := PushAll(cfg, Fresh(model), es).out;
      IsOnly(Owners(out), k, n) && MarksAt(Outs(out), n) == Marks(out, k)
  {
    hide PushAll, AllFit, OwnersAfter, Rightly, IsOnly, Marks, Starts, Outs, MarksAt;
    var out := PushAll(cfg, Fresh(model), es).out;
    OneOwnerPerBlock(cfg, model, es);
    CountStarts([], out, k);
    n := OnlyOne(Owners(out), k);
    AtOnly(out, Owners(out), k, n);
  }

  lemma NoBlock(cfg: Config, model: Text, es: seq<Upstream>, k: int)
    requires Starts(Marks(PushAll(cfg, Fresh(model), es).out, k)) == 0
    ensures k !in Owners(PushAll(cfg, Fresh(model), es).out)
  {
    hide PushAll, AllFit, OwnersAfter, Rightly, Marks, Starts;
    var out := PushAll(cfg, Fresh(model), es).out;
    OneOwnerPerBlock(cfg, model, es);
    CountStarts([], out, k);
    assert multiset(Owners(out))[k] == 0;
  }

  /** For every interleaving: what a reader is told in the blocks of a reasoning item or a call is what that
      item's events, as far as they could be handled yet, would say if they were the whole stream. */
  lemma BlocksSpeakForTheirItem(cfg: Config, model: Text, es: seq<Upstream>, k: int) returns (handled: seq<Body>)
    requires Usual(es) && NeverMessage(es, k)
    ensures var r := PushAll(cfg, Fresh(model), es);
      && handled + Of(r.t.deferred, k) == Of(es, k)
      && MarksBy(Outs(r.out), Owners(r.out), k) == Solo(cfg, Unknown, handled)
  {
    hide PushAll, AllFit, OwnersAfter, Rightly, Usual, NeverMessage, Of, Solo;
    handled := ItemsSpeakForThemselves(cfg, model, es, k);
    OneOwnerPerBlock(cfg, model, es);
    var out := PushAll(cfg, Fresh(model), es).out;
    ByOwner(out, Owners(out), k);
  }
}
