/** The repair as the proxy runs it: collect the results, pair by position, relay within stretches,
    drop what is left, and assemble. Every pass is a loop over places in the history that keeps sets of
    taken and dropped results and a plan of insertions; what each has when it ends is what
    `ExchangePasses` says it should have. */
module ExchangeRepair {
  import opened Text
  import opened History
  import opened Exchange
  import opened ExchangeConserves
  import opened Structure
  import opened ExchangePasses

  // ---- Collecting ----

  method CollectCallIds(ms: seq<Message>) returns (ids: set<Id>)
    ensures forall x: Id :: x in ids <==> exists c: Pos :: IsCall(ms, c.0, c.1) && CallBlocks(ms[c.0])[c.1].id == x
  {
    hide CalledBy, CallsTo, CallsBefore;
    NobodyCalled(ms);
    ids := {};
    var i := 0;
    while i < |ms|
      invariant i <= |ms|
      invariant CalledBy(ms, CallsBefore(ms, i), ids)
    {
      MessageDone(ms, i);
      var bs, cb := CallBlocks(ms[i]), 0;
      while cb < |bs|
        invariant cb <= |bs|
        invariant CalledBy(ms, CallsTo(ms, i, cb), ids)
      {
        if bs[cb].Call? {
          CalledMore(ms, CallsTo(ms, i, cb), (i, cb), ids);
          ids := ids + {bs[cb].id};
        }
        CallsToStep(ms, i, cb);
        cb := cb + 1;
      }
      i := i + 1;
    }
    AllCalled(ms, ids);
  }

  lemma NobodyCalled(ms: seq<Message>)
    ensures CalledBy(ms, CallsBefore(ms, 0), {})
  {
  }

  lemma AllCalled(ms: seq<Message>, ids: set<Id>)
    requires CalledBy(ms, CallsBefore(ms, |ms|), ids)
    ensures forall x: Id :: x in ids <==> exists c: Pos :: IsCall(ms, c.0, c.1) && CallBlocks(ms[c.0])[c.1].id == x
  {
    AllCallsAre(ms);
  }

  ghost predicate CalledBy(ms: seq<Message>, cs: seq<Pos>, ids: set<Id>) {
    AreCalls(ms, cs) && forall x: Id :: x in ids <==> exists c :: c in cs && CallBlocks(ms[c.0])[c.1].id == x
  }

  lemma CallsToStep(ms: seq<Message>, i: nat, cb: nat)
    requires i < |ms| && cb < |CallBlocks(ms[i])|
    ensures CallsTo(ms, i, cb + 1)
      == if CallBlocks(ms[i])[cb].Call? then CallsTo(ms, i, cb) + [(i, cb)] else CallsTo(ms, i, cb)
  {
  }

  lemma CalledMore(ms: seq<Message>, cs: seq<Pos>, c: Pos, ids: set<Id>)
    requires CalledBy(ms, cs, ids)
    ensures IsCall(ms, c.0, c.1) ==> CalledBy(ms, cs + [c], ids + {CallBlocks(ms[c.0])[c.1].id})
  {
    if IsCall(ms, c.0, c.1) {
      var y := CallBlocks(ms[c.0])[c.1].id;
      assert forall d :: d in cs + [c] <==> d in cs || d == c;
      forall x: Id ensures x in ids + {y} <==> exists d :: d in cs + [c] && CallBlocks(ms[d.0])[d.1].id == x {
        if x == y {
          assert c in cs + [c];
        } else if x in ids {
          var d :| d in cs && CallBlocks(ms[d.0])[d.1].id == x;
          assert d in cs + [c];
        }
      }
    }
  }

  function Pooled(pool: map<Id, seq<Pos>>, x: Id): seq<Pos> {
    if x in pool then pool[x] else []
  }

  ghost predicate PoolTo(ms: seq<Message>, ids: set<Id>, j: nat, b: nat, pool: map<Id, seq<Pos>>)
    requires j < |ms| && b <= |ReplyBlocks(ms[j])|
  {
    forall x: Id ::
      Pooled(pool, x) == if x in ids then RepliesTo(ms, j, x) + RepliesIn(ReplyBlocks(ms[j])[..b], j, x) else []
  }

  ghost predicate OrphansTo(ms: seq<Message>, ids: set<Id>, j: nat, b: nat, orphans: set<Pos>) {
    forall p: Pos :: p in orphans <==> Orphan(ms, ids, p) && Less(p, (j, b))
  }

  /** Results up to block `b` of message `j`: in the pool under their id, or orphans. */
  ghost predicate Collected(ms: seq<Message>, ids: set<Id>, j: nat, b: nat, pool: map<Id, seq<Pos>>, orphans: set<Pos>)
    requires j < |ms| && b <= |ReplyBlocks(ms[j])|
  {
    PoolTo(ms, ids, j, b, pool) && OrphansTo(ms, ids, j, b, orphans)
  }

  predicate Orphan(ms: seq<Message>, ids: set<Id>, p: Pos) {
    IsReply(ms, p.0, p.1) && ReplyBlocks(ms[p.0])[p.1].id !in ids
  }

  ghost predicate AllCollected(ms: seq<Message>, ids: set<Id>, j: nat, pool: map<Id, seq<Pos>>, orphans: set<Pos>)
    requires j <= |ms|
  {
    && (forall x: Id :: Pooled(pool, x) == if x in ids then RepliesTo(ms, j, x) else [])
    && (forall p: Pos :: p in orphans <==> Orphan(ms, ids, p) && p.0 < j)
  }

  lemma CollectStarts(ms: seq<Message>, ids: set<Id>, j: nat, pool: map<Id, seq<Pos>>, orphans: set<Pos>)
    requires j < |ms| && AllCollected(ms, ids, j, pool, orphans)
    ensures Collected(ms, ids, j, 0, pool, orphans)
  {
    hide RepliesTo;
    assert ReplyBlocks(ms[j])[..0] == [];
    forall x: Id ensures RepliesTo(ms, j, x) + RepliesIn([], j, x) == RepliesTo(ms, j, x) {
    }
  }

  lemma CollectEnds(ms: seq<Message>, ids: set<Id>, j: nat, pool: map<Id, seq<Pos>>, orphans: set<Pos>)
    requires j < |ms| && Collected(ms, ids, j, |ReplyBlocks(ms[j])|, pool, orphans)
    ensures AllCollected(ms, ids, j + 1, pool, orphans)
  {
    hide RepliesIn;
    var bs := ReplyBlocks(ms[j]);
    assert bs[..|bs|] == bs;
  }

  lemma RepliesInStep(bs: seq<Block>, j: nat, b: nat, x: Id)
    requires b < |bs|
    ensures RepliesIn(bs[..b + 1], j, x) == RepliesIn(bs[..b], j, x) + if IsResultOf(bs, b, x) then [(j, b)] else []
  {
    assert bs[..b + 1][..b] == bs[..b];
  }

  lemma PoolStep(ms: seq<Message>, ids: set<Id>, j: nat, b: nat, pool: map<Id, seq<Pos>>)
    requires j < |ms| && b < |ReplyBlocks(ms[j])| && PoolTo(ms, ids, j, b, pool)
    ensures var r := ReplyBlocks(ms[j])[b];
      PoolTo(ms, ids, j, b + 1,
             if r.Result? && r.id in ids then pool[r.id := Pooled(pool, r.id) + [(j, b)]] else pool)
  {
    hide RepliesTo, RepliesIn;
    var bs := ReplyBlocks(ms[j]);
    var r := bs[b];
    var next := if r.Result? && r.id in ids then pool[r.id := Pooled(pool, r.id) + [(j, b)]] else pool;
    forall x: Id
      ensures Pooled(next, x) == if x in ids then RepliesTo(ms, j, x) + RepliesIn(bs[..b + 1], j, x) else []
    {
      RepliesInStep(bs, j, b, x);
      assert RepliesTo(ms, j, x) + (RepliesIn(bs[..b], j, x) + [(j, b)])
          == (RepliesTo(ms, j, x) + RepliesIn(bs[..b], j, x)) + [(j, b)];
      assert RepliesIn(bs[..b], j, x) + [] == RepliesIn(bs[..b], j, x);
      assert Pooled(pool, x) == if x in ids then RepliesTo(ms, j, x) + RepliesIn(bs[..b], j, x) else [];
    }
  }

  lemma OrphanStep(ms: seq<Message>, ids: set<Id>, j: nat, b: nat, orphans: set<Pos>)
    requires j < |ms| && b < |ReplyBlocks(ms[j])| && OrphansTo(ms, ids, j, b, orphans)
    ensures var r := ReplyBlocks(ms[j])[b];
      OrphansTo(ms, ids, j, b + 1, if r.Result? && r.id !in ids then orphans + {(j, b)} else orphans)
  {
  }

  lemma CollectStep(ms: seq<Message>, ids: set<Id>, j: nat, b: nat, pool: map<Id, seq<Pos>>, orphans: set<Pos>)
    requires j < |ms| && b < |ReplyBlocks(ms[j])| && Collected(ms, ids, j, b, pool, orphans)
    ensures var r := ReplyBlocks(ms[j])[b];
      if !r.Result? then Collected(ms, ids, j, b + 1, pool, orphans)
      else if r.id !in ids then Collected(ms, ids, j, b + 1, pool, orphans + {(j, b)})
      else Collected(ms, ids, j, b + 1, pool[r.id := Pooled(pool, r.id) + [(j, b)]], orphans)
  {
    hide PoolTo, OrphansTo;
    PoolStep(ms, ids, j, b, pool);
    OrphanStep(ms, ids, j, b, orphans);
  }

  /** One pass over the history: the results of called ids, in order, and the orphans. */
  method CollectResults(ms: seq<Message>, ids: set<Id>) returns (pool: map<Id, seq<Pos>>, orphans: set<Pos>)
    ensures AllCollected(ms, ids, |ms|, pool, orphans)
  {
    hide Collected, AllCollected;
    pool, orphans := map[], {};
    NothingCollected(ms, ids);
    var j := 0;
    while j < |ms|
      invariant j <= |ms| && AllCollected(ms, ids, j, pool, orphans)
    {
      CollectStarts(ms, ids, j, pool, orphans);
      var bs, b := ReplyBlocks(ms[j]), 0;
      while b < |bs|
        invariant b <= |bs| && Collected(ms, ids, j, b, pool, orphans)
      {
        CollectStep(ms, ids, j, b, pool, orphans);
        if bs[b].Result? {
          if bs[b].id !in ids {
            orphans := orphans + {(j, b)};
          } else {
            pool := pool[bs[b].id := (if bs[b].id in pool then pool[bs[b].id] else []) + [(j, b)]];
          }
        }
        b := b + 1;
      }
      CollectEnds(ms, ids, j, pool, orphans);
      j := j + 1;
    }
  }

  lemma NothingCollected(ms: seq<Message>, ids: set<Id>)
    ensures AllCollected(ms, ids, 0, map[], {})
  {
  }

  // ---- Pairing by position ----

  /** What has been recorded when the calls `cs` have been gone through. */
  ghost predicate Paired1(ms: seq<Message>, w: Wording, cs: seq<Pos>, taken: set<Pos>, drops: set<Pos>,
                          plans: map<Pos, Block>, missing: seq<Pos>) {
    && AreCalls(ms, cs) && taken == Taken(ms, cs, true) && drops == Moved(ms, cs, true)
    && plans == Plans(ms, w, cs, true) && missing == Missing(ms, cs)
  }

  method FindFree(ms: seq<Message>, j: nat, x: Id, taken: set<Pos>) returns (hit: Option<nat>)
    ensures hit.Some? ==>
      FreeReply(ms, j, hit.value, x, taken) && forall c: nat :: c < hit.value ==> !FreeReply(ms, j, c, x, taken)
    ensures hit.None? ==> forall c: nat :: !FreeReply(ms, j, c, x, taken)
  {
    if j >= |ms| {
      return None;
    }
    var bs, b := ReplyBlocks(ms[j]), 0;
    while b < |bs|
      invariant b <= |bs| && forall c: nat :: c < b ==> !FreeReply(ms, j, c, x, taken)
    {
      if bs[b].Result? && bs[b].id == x && (j, b) !in taken {
        return Some(b);
      }
      b := b + 1;
    }
    return None;
  }

  lemma RecordStep(ms: seq<Message>, w: Wording, cs: seq<Pos>, c: Pos, near: bool)
    requires AreCalls(ms, cs + [c])
    ensures AreCalls(ms, cs) && IsCall(ms, c.0, c.1)
    ensures Taken(ms, cs + [c], near) == Taken(ms, cs, near) + TakenBy(ms, c, near)
    ensures Moved(ms, cs + [c], near) == Moved(ms, cs, near) + MovedBy(ms, c, near)
    ensures Plans(ms, w, cs + [c], near)
         == if (near ==> Near(ms, c)) && c.0 < LastMove(ms) && !InPlaceFor(ms, c) then
              Plans(ms, w, cs, near)[c := Given(ms, w, c.0, c.1)]
            else Plans(ms, w, cs, near)
    ensures Missing(ms, cs + [c]) == Missing(ms, cs) + if Near(ms, c) then [] else [c]
  {
    hide Near, InPlaceFor, Given, TakenBy, MovedBy;
    assert c in cs + [c];
    assert forall d :: d in cs ==> d in cs + [c];
    assert (cs + [c])[..|cs|] == cs;
  }

  ghost predicate Found(ms: seq<Message>, i: nat, cb: nat, taken: set<Pos>, hit: Option<nat>)
    requires IsCall(ms, i, cb)
  {
    var j, x := i + 1, CallBlocks(ms[i])[cb].id;
    && (hit.Some? ==>
          FreeReply(ms, j, hit.value, x, taken) && forall c: nat :: c < hit.value ==> !FreeReply(ms, j, c, x, taken))
    && (hit.None? ==> forall c: nat :: !FreeReply(ms, j, c, x, taken))
  }

  /** The search by position finds the answer if it is in the next message. */
  lemma FoundIs(ms: seq<Message>, w: Wording, i: nat, cb: nat, hit: Option<nat>, taken: set<Pos>, drops: set<Pos>,
                plans: map<Pos, Block>, missing: seq<Pos>)
    requires IsCall(ms, i, cb) && Paired1(ms, w, CallsTo(ms, i, cb), taken, drops, plans, missing)
    requires Found(ms, i, cb, taken, hit)
    ensures hit.Some? ==> Answer(ms, i, cb) == Some((i + 1, hit.value)) && IsReply(ms, i + 1, hit.value)
    ensures hit.None? ==> !Near(ms, (i, cb))
  {
    hide Answer, CallsTo, Taken, Moved, Plans, Missing;
    if hit.Some? {
      NearHit(ms, i, cb, i + 1, CallBlocks(ms[i])[cb].id, hit.value);
    } else {
      hide FreeReply;
      NearMiss(ms, i, cb, i + 1, CallBlocks(ms[i])[cb].id);
    }
  }

  lemma PairStep(ms: seq<Message>, w: Wording, i: nat, cb: nat, hit: Option<nat>, taken: set<Pos>, drops: set<Pos>,
                 plans: map<Pos, Block>, missing: seq<Pos>)
    requires IsCall(ms, i, cb) && Paired1(ms, w, CallsTo(ms, i, cb), taken, drops, plans, missing)
    requires Found(ms, i, cb, taken, hit)
    ensures var next := CallsTo(ms, i, cb + 1);
      if hit.None? then Paired1(ms, w, next, taken, drops, plans, missing + [(i, cb)])
      else
        && IsReply(ms, i + 1, hit.value)
        && if i >= LastMove(ms) || hit.value < Lead(ReplyBlocks(ms[i + 1])) then
             Paired1(ms, w, next, taken + {(i + 1, hit.value)}, drops, plans, missing)
           else
             Paired1(ms, w, next, taken + {(i + 1, hit.value)}, drops + {(i + 1, hit.value)},
                     plans[(i, cb) := ReplyBlocks(ms[i + 1])[hit.value]], missing)
  {
    hide Answer, CallsTo, Taken, Moved, Plans, Missing, LastMove, Lead, Found;
    FoundIs(ms, w, i, cb, hit, taken, drops, plans, missing);
    CallsToAre(ms, i, cb + 1);
    CallsToStep(ms, i, cb);
    RecordStep(ms, w, CallsTo(ms, i, cb), (i, cb), true);
  }

  lemma OtherStep(ms: seq<Message>, i: nat, cb: nat)
    requires i < |ms| && cb < |CallBlocks(ms[i])| && !CallBlocks(ms[i])[cb].Call?
    ensures CallsTo(ms, i, cb + 1) == CallsTo(ms, i, cb)
  {
  }

  lemma MessageDone(ms: seq<Message>, i: nat)
    requires i < |ms|
    ensures CallsTo(ms, i, 0) == CallsBefore(ms, i) && CallsTo(ms, i, |CallBlocks(ms[i])|) == CallsBefore(ms, i + 1)
  {
  }

  lemma {:induction false} NoCallsLate(ms: seq<Message>, i: nat)
    requires LastMove(ms) < i <= |ms|
    ensures CallsBefore(ms, i) == CallsBefore(ms, LastMove(ms) + 1)
    decreases i
  {
    if i > LastMove(ms) + 1 {
      NoCallsLate(ms, i - 1);
      assert !Moves(ms[i - 1]) && CallBlocks(ms[i - 1]) == [];
    }
  }

  /** Each call takes the first free result of its id in the very next message, if there is one. */
  method PairByPosition(ms: seq<Message>, w: Wording)
    returns (taken: set<Pos>, drops: set<Pos>, plans: map<Pos, Block>, missing: seq<Pos>)
    ensures Paired1(ms, w, AllCallsOf(ms), taken, drops, plans, missing)
  {
    hide Paired1, CallsTo, CallsBefore, Lead, FreeReply;
    var last := FindLastMove(ms);
    taken, drops, plans, missing := {}, {}, map[], [];
    NothingPaired(ms, w);
    var i := 0;
    while i <= last
      invariant i <= last + 1
      invariant Paired1(ms, w, CallsBefore(ms, i), taken, drops, plans, missing)
    {
      MessageDone(ms, i);
      var bs, cb := CallBlocks(ms[i]), 0;
      while cb < |bs|
        invariant cb <= |bs|
        invariant Paired1(ms, w, CallsTo(ms, i, cb), taken, drops, plans, missing)
      {
        if bs[cb].Call? {
          var hit := FindFree(ms, i + 1, bs[cb].id, taken);
          PairStep(ms, w, i, cb, hit, taken, drops, plans, missing);
          if hit.Some? {
            var b := hit.value;
            var lead := CountLeading(ReplyBlocks(ms[i + 1]));
            taken := taken + {(i + 1, b)};
            if i < last && b >= lead {
              drops := drops + {(i + 1, b)};
              plans := plans[(i, cb) := ReplyBlocks(ms[i + 1])[b]];
            }
          } else {
            missing := missing + [(i, cb)];
          }
        } else {
          OtherStep(ms, i, cb);
        }
        cb := cb + 1;
      }
      i := i + 1;
    }
    NoCallsLate(ms, |ms|);
  }

  lemma NothingPaired(ms: seq<Message>, w: Wording)
    ensures Paired1(ms, w, CallsBefore(ms, 0), {}, {}, map[], [])
  {
  }

  // ---- Relaying ----

  /** Where the stretch of a call of `x` in message `i` ends. */
  method NextCaller(ms: seq<Message>, i: nat, x: Id) returns (stop: nat)
    requires i < |ms|
    ensures Stretch(ms, i, stop, x)
  {
    stop := i + 1;
    while stop < |ms|
      invariant i < stop <= |ms|
      invariant forall k :: i < k < stop ==> Calls(CallBlocks(ms[k]), x) == 0
    {
      var calls := MakesCall(CallBlocks(ms[stop]), x);
      if calls {
        return;
      }
      stop := stop + 1;
    }
  }

  method MakesCall(bs: seq<Block>, x: Id) returns (r: bool)
    ensures r <==> Calls(bs, x) > 0
  {
    var b := 0;
    while b < |bs|
      invariant b <= |bs| && Calls(bs[..b], x) == 0
    {
      CallsStep(bs, b, x);
      if bs[b].Call? && bs[b].id == x {
        CallsMono(bs, b + 1, |bs|, x);
        return true;
      }
      b := b + 1;
    }
    assert bs[..|bs|] == bs;
    return false;
  }

  ghost predicate FirstEligible(pool: seq<Pos>, i: nat, stop: nat, taken: set<Pos>, p: Pos) {
    exists t :: 0 <= t < |pool| && pool[t] == p && Eligible(pool[t], i, stop, taken)
                && (forall s :: 0 <= s < t ==> !Eligible(pool[s], i, stop, taken))
  }

  method FindEligible(pool: seq<Pos>, i: nat, stop: nat, taken: set<Pos>) returns (hit: Option<Pos>)
    ensures if hit.Some? then FirstEligible(pool, i, stop, taken, hit.value)
            else forall p <- pool :: !Eligible(p, i, stop, taken)
  {
    var t := 0;
    while t < |pool|
      invariant t <= |pool| && forall s :: 0 <= s < t ==> !Eligible(pool[s], i, stop, taken)
    {
      if pool[t] !in taken && i < pool[t].0 < stop {
        return Some(pool[t]);
      }
      t := t + 1;
    }
    return None;
  }

  /** What has been recorded when the first `m` missing calls have had their turn. */
  ghost predicate Relayed(ms: seq<Message>, w: Wording, missing: seq<Pos>, m: nat, taken: set<Pos>, drops: set<Pos>,
                          plans: map<Pos, Block>)
    requires m <= |missing|
  {
    && AreCalls(ms, AllCallsOf(ms)) && missing == Missing(ms, AllCallsOf(ms))
    && taken == TakenThen(ms, AllCallsOf(ms), m)
    && drops == Moved(ms, AllCallsOf(ms), true) + Moved(ms, missing[..m], false)
    && plans == Plans(ms, w, AllCallsOf(ms), true) + Plans(ms, w, missing[..m], false)
  }

  lemma RelayStep(ms: seq<Message>, w: Wording, missing: seq<Pos>, m: nat, taken: set<Pos>, drops: set<Pos>,
                  plans: map<Pos, Block>)
    requires m < |missing| && Relayed(ms, w, missing, m, taken, drops, plans)
    ensures var c: Pos := missing[m];
      && IsCall(ms, c.0, c.1) && !Near(ms, c)
      && match Answer(ms, c.0, c.1)
         case Some(p) =>
           if c.0 < LastMove(ms) then
             Relayed(ms, w, missing, m + 1, taken + {p}, drops + {p}, plans[c := ReplyBlocks(ms[p.0])[p.1]])
           else Relayed(ms, w, missing, m + 1, taken + {p}, drops, plans)
         case None =>
           Relayed(ms, w, missing, m + 1, taken, drops,
                   if c.0 < LastMove(ms) then plans[c := Synthetic(w, CallBlocks(ms[c.0])[c.1].id)] else plans)
  {
    hide Answer, Taken, Moved, Plans, Missing, LastMove, Lead, AllCallsOf;
    var c: Pos := missing[m];
    assert c in missing;
    assert missing[..m + 1] == missing[..m] + [c];
    assert AreCalls(ms, missing[..m] + [c]);
    RecordStep(ms, w, missing[..m], c, false);
    PlansMore(Plans(ms, w, AllCallsOf(ms), true), Plans(ms, w, missing[..m], false), c, Given(ms, w, c.0, c.1));
  }

  lemma PlansMore(a: map<Pos, Block>, b: map<Pos, Block>, c: Pos, v: Block)
    ensures a + b[c := v] == (a + b)[c := v]
  {
  }

  /** Everything called is a known id, and the pool holds the results of known ids. */
  ghost predicate Known(ms: seq<Message>, ids: set<Id>, pool: map<Id, seq<Pos>>, orphans: set<Pos>) {
    && AllCollected(ms, ids, |ms|, pool, orphans)
    && forall c: Pos :: IsCall(ms, c.0, c.1) ==> CallBlocks(ms[c.0])[c.1].id in ids
  }

  /** One missing call looks through its stretch of the pool. */
  method Seek(ms: seq<Message>, w: Wording, ghost ids: set<Id>, pool: map<Id, seq<Pos>>, ghost orphans: set<Pos>,
              missing: seq<Pos>, m: nat, taken: set<Pos>, ghost drops: set<Pos>, ghost plans: map<Pos, Block>)
    returns (hit: Option<Pos>)
    requires Known(ms, ids, pool, orphans) && m < |missing| && Relayed(ms, w, missing, m, taken, drops, plans)
    requires IsCall(ms, missing[m].0, missing[m].1)
    ensures Answer(ms, missing[m].0, missing[m].1) == hit
    ensures hit.Some? ==> IsReply(ms, hit.value.0, hit.value.1)
  {
    hide Relayed, AllCollected, Answer, Stretch, Eligible, FirstEligible;
    var c: Pos := missing[m];
    var x := CallBlocks(ms[c.0])[c.1].id;
    var stop := NextCaller(ms, c.0, x);
    hit := FindEligible(if x in pool then pool[x] else [], c.0, stop, taken);
    RelayFinds(ms, w, ids, pool, orphans, missing, m, taken, drops, plans, stop, hit);
    AnswerIsReply(ms, c.0, c.1);
  }

  /** Calls that position left without a result take the first free one of their stretch; where
      there is none a result is made up, except for the last exchange. */
  method Relay(ms: seq<Message>, w: Wording, ghost ids: set<Id>, pool: map<Id, seq<Pos>>, ghost orphans: set<Pos>,
               missing: seq<Pos>, taken0: set<Pos>, drops0: set<Pos>, plans0: map<Pos, Block>)
    returns (taken: set<Pos>, drops: set<Pos>, plans: map<Pos, Block>)
    requires Paired1(ms, w, AllCallsOf(ms), taken0, drops0, plans0, missing) && Known(ms, ids, pool, orphans)
    ensures taken == TakenInAll(ms) && drops == MovedInAll(ms) && plans == PlannedInAll(ms, w)
  {
    hide Paired1, Relayed, AllCallsOf, Answer, Known, LastMove, Near;
    var last := FindLastMove(ms);
    taken, drops, plans := taken0, drops0, plans0;
    RelayStarts(ms, w, missing, taken, drops, plans);
    var m := 0;
    while m < |missing|
      invariant m <= |missing| && Relayed(ms, w, missing, m, taken, drops, plans)
    {
      RelayStep(ms, w, missing, m, taken, drops, plans);
      var c: Pos := missing[m];
      var hit := Seek(ms, w, ids, pool, orphans, missing, m, taken, drops, plans);
      if hit.Some? {
        var p := hit.value;
        taken := taken + {p};
        if c.0 < last {
          drops := drops + {p};
          plans := plans[c := ReplyBlocks(ms[p.0])[p.1]];
        }
      } else if c.0 < last {
        plans := plans[c := Synthetic(w, CallBlocks(ms[c.0])[c.1].id)];
      }
      m := m + 1;
    }
    RelayEnds(ms, w, missing, taken, drops, plans);
  }

  lemma RelayStarts(ms: seq<Message>, w: Wording, missing: seq<Pos>, taken: set<Pos>, drops: set<Pos>,
                    plans: map<Pos, Block>)
    requires Paired1(ms, w, AllCallsOf(ms), taken, drops, plans, missing)
    ensures Relayed(ms, w, missing, 0, taken, drops, plans)
  {
  }

  lemma RelayEnds(ms: seq<Message>, w: Wording, missing: seq<Pos>, taken: set<Pos>, drops: set<Pos>,
                  plans: map<Pos, Block>)
    requires Relayed(ms, w, missing, |missing|, taken, drops, plans)
    ensures taken == TakenInAll(ms) && drops == MovedInAll(ms) && plans == PlannedInAll(ms, w)
  {
    hide Taken, Moved, Plans, Missing, AllCallsOf;
    assert missing[..|missing|] == missing;
  }

  /** The search of the pool finds the answer, or shows that there is none. */
  lemma RelayFinds(ms: seq<Message>, w: Wording, ids: set<Id>, pool: map<Id, seq<Pos>>, orphans: set<Pos>,
                   missing: seq<Pos>, m: nat, taken: set<Pos>, drops: set<Pos>, plans: map<Pos, Block>,
                   stop: nat, hit: Option<Pos>)
    requires m < |missing| && Relayed(ms, w, missing, m, taken, drops, plans)
    requires Known(ms, ids, pool, orphans)
    requires IsCall(ms, missing[m].0, missing[m].1)
    requires var x := CallBlocks(ms[missing[m].0])[missing[m].1].id;
      && Stretch(ms, missing[m].0, stop, x)
      && if hit.Some? then FirstEligible(Pooled(pool, x), missing[m].0, stop, taken, hit.value)
         else forall p <- Pooled(pool, x) :: !Eligible(p, missing[m].0, stop, taken)
    ensures Answer(ms, missing[m].0, missing[m].1) == hit
  {
    hide Answer, Taken, Moved, Plans, Missing, TakenThen, AllCallsOf, RepliesTo, Stretch, Eligible;
    AllCallsAre(ms);
    var c: Pos := missing[m];
    var x := CallBlocks(ms[c.0])[c.1].id;
    assert Pooled(pool, x) == RepliesTo(ms, |ms|, x);
    assert MissingAt(ms, AllCallsOf(ms), m, c, stop);
    if hit.Some? {
      var results := Pooled(pool, x);
      var t :| 0 <= t < |results| && results[t] == hit.value && Eligible(results[t], c.0, stop, taken)
               && (forall s :: 0 <= s < t ==> !Eligible(results[s], c.0, stop, taken));
      FarHit(ms, AllCallsOf(ms), m, c, stop, results, t);
    } else {
      FarMiss(ms, AllCallsOf(ms), m, c, stop, Pooled(pool, x));
    }
  }

  // ---- What is left in the pool ----

  /** Pooled results that nobody took. */
  method Leftovers(pool: map<Id, seq<Pos>>, taken: set<Pos>) returns (left: set<Pos>)
    ensures forall p: Pos :: p in left <==> p !in taken && exists x: Id :: p in Pooled(pool, x)
  {
    left := {};
    var keys := pool.Keys;
    while keys != {}
      invariant keys <= pool.Keys
      invariant forall p: Pos :: p in left <==> p !in taken && exists x: Id :: x !in keys && p in Pooled(pool, x)
      decreases |keys|
    {
      var x: Id :| x in keys;
      ghost var before, was := keys, left;
      left := left + (set p | p in pool[x] && p !in taken);
      keys := keys - {x};
      LeftMore(pool, taken, before, was, x, left);
    }
  }

  lemma LeftMore(pool: map<Id, seq<Pos>>, taken: set<Pos>, keys: set<Id>, left: set<Pos>, x: Id, more: set<Pos>)
    requires x in keys && keys <= pool.Keys && more == left + (set p | p in pool[x] && p !in taken)
    requires forall p: Pos :: p in left <==> p !in taken && exists y: Id :: y !in keys && p in Pooled(pool, y)
    ensures forall p: Pos :: p in more <==> p !in taken && exists y: Id :: y !in keys - {x} && p in Pooled(pool, y)
  {
    forall p: Pos ensures p in more <==> p !in taken && exists y: Id :: y !in keys - {x} && p in Pooled(pool, y) {
      if p !in taken && p in pool[x] {
        assert x !in keys - {x} && p in Pooled(pool, x);
      }
      if p in left {
        var y: Id :| y !in keys && p in Pooled(pool, y);
        assert y !in keys - {x};
      }
    }
  }

  ghost predicate AllDropped(ms: seq<Message>, drops: set<Pos>) {
    forall p: Pos :: p in drops <==> p.0 < |ms| && p.1 in Dropped(ms, p.0)
  }

  /** Moved answers, orphans and leftovers are what is dropped. */
  lemma DropsAddUp(ms: seq<Message>, ids: set<Id>, pool: map<Id, seq<Pos>>, orphans: set<Pos>, left: set<Pos>)
    requires Known(ms, ids, pool, orphans)
    requires forall p: Pos :: p in left <==> p !in TakenInAll(ms) && exists x: Id :: p in Pooled(pool, x)
    ensures AllDropped(ms, orphans + MovedInAll(ms) + left)
  {
    hide Dropped, TakenInAll, MovedInAll, RepliesTo;
    forall p: Pos ensures p in orphans + MovedInAll(ms) + left <==> p.0 < |ms| && p.1 in Dropped(ms, p.0) {
      PoolHolds(ms, ids, pool, orphans, p);
      OrphansFree(ms, ids, p);
      MovedIsReply(ms, p);
      assert p.0 < |ms| && p.1 in Dropped(ms, p.0) ==> IsReply(ms, p.0, p.1) by { DroppedIsReply(ms, p); }
      if IsReply(ms, p.0, p.1) {
        DroppedAre(ms, p.0, p.1);
      }
    }
  }

  lemma DroppedIsReply(ms: seq<Message>, p: Pos)
    ensures p.0 < |ms| && p.1 in Dropped(ms, p.0) ==> IsReply(ms, p.0, p.1)
  {
  }

  lemma PoolHolds(ms: seq<Message>, ids: set<Id>, pool: map<Id, seq<Pos>>, orphans: set<Pos>, p: Pos)
    requires AllCollected(ms, ids, |ms|, pool, orphans)
    ensures (exists x: Id :: p in Pooled(pool, x)) <==> IsReply(ms, p.0, p.1) && ReplyBlocks(ms[p.0])[p.1].id in ids
  {
    hide RepliesTo;
    if x: Id :| p in Pooled(pool, x) {
      RepliesToAre(ms, |ms|, x);
    }
    if IsReply(ms, p.0, p.1) && ReplyBlocks(ms[p.0])[p.1].id in ids {
      var x := ReplyBlocks(ms[p.0])[p.1].id;
      RepliesToAre(ms, |ms|, x);
      assert IsReplyTo(ms, p, x) && p in Pooled(pool, x);
    }
  }

  lemma OrphansFree(ms: seq<Message>, ids: set<Id>, p: Pos)
    requires forall c: Pos :: IsCall(ms, c.0, c.1) ==> CallBlocks(ms[c.0])[c.1].id in ids
    ensures Orphan(ms, ids, p) ==> p !in TakenInAll(ms)
  {
    hide Answer, TakenInAll;
    TakenInAllAre(ms, p);
    if c: Pos :| Answers(ms, c, p) {
      AnswerIsReply(ms, c.0, c.1);
    }
  }

  lemma MovedIsReply(ms: seq<Message>, p: Pos)
    ensures p in MovedInAll(ms) ==> IsReply(ms, p.0, p.1)
  {
    hide Answer, MovedInAll, InPlaceFor;
    MovedInAllAre(ms, p);
    if p in MovedInAll(ms) {
      var c: Pos :| Answers(ms, c, p) && c.0 < LastMove(ms) && !InPlaceFor(ms, c);
      AnswerIsReply(ms, c.0, c.1);
    }
  }

  // ---- Assembly ----

  function InsertedSoFar(ms: seq<Message>, w: Wording, i: nat, cb: nat): seq<Block>
    requires i < |ms| && cb <= |CallBlocks(ms[i])|
  {
    if i < LastMove(ms) then Fills(ms, w, i, cb) else []
  }

  lemma InsertedStep(ms: seq<Message>, w: Wording, i: nat, cb: nat)
    requires i < |ms| && cb < |CallBlocks(ms[i])|
    ensures InsertedSoFar(ms, w, i, cb + 1)
         == InsertedSoFar(ms, w, i, cb) + if (i, cb) in PlannedInAll(ms, w) then [PlannedInAll(ms, w)[(i, cb)]] else []
  {
    hide PlannedInAll, Fill, LastMove, InPlaceFor;
    if i < LastMove(ms) {
      PlannedFills(ms, w, i, cb);
    } else {
      PlannedInAllAre(ms, w, (i, cb));
    }
  }

  /** The blocks planned for message `i`, in the order of the calls. */
  method PlannedBlocks(ms: seq<Message>, w: Wording, plans: map<Pos, Block>, i: nat) returns (r: seq<Block>)
    requires i < |ms| && plans == PlannedInAll(ms, w)
    ensures r == Inserts(ms, w, i)
  {
    hide PlannedInAll, Fills, LastMove, InsertedSoFar;
    r := [];
    assert InsertedSoFar(ms, w, i, 0) == [] by { NothingInsertedYet(ms, w, i); }
    var bs, cb := CallBlocks(ms[i]), 0;
    while cb < |bs|
      invariant cb <= |bs| && r == InsertedSoFar(ms, w, i, cb)
    {
      var c: Pos := (i, cb);
      InsertedStep(ms, w, i, cb);
      if c in plans {
        r := r + [plans[c]];
      }
      cb := cb + 1;
    }
    InsertedAll(ms, w, i);
  }

  lemma NothingInsertedYet(ms: seq<Message>, w: Wording, i: nat)
    requires i < |ms|
    ensures InsertedSoFar(ms, w, i, 0) == []
  {
  }

  lemma InsertedAll(ms: seq<Message>, w: Wording, i: nat)
    requires i < |ms|
    ensures InsertedSoFar(ms, w, i, |CallBlocks(ms[i])|) == Inserts(ms, w, i)
  {
  }

  method FilterBlocks(bs: seq<Block>, drop: set<nat>) returns (r: seq<Block>)
    ensures r == Without(bs, drop)
  {
    r := [];
    var b := 0;
    while b < |bs|
      invariant b <= |bs| && r == Without(bs[..b], drop)
    {
      assert bs[..b + 1][..b] == bs[..b];
      if b !in drop {
        r := r + [bs[b]];
      }
      b := b + 1;
    }
    assert bs[..|bs|] == bs;
  }

  /** A message without its dropped results and with what is put in front; None if nothing is left. */
  method MendMessage(m: Message, w: Wording, drop: set<nat>, pre: seq<Block>) returns (r: seq<Message>)
    ensures r == Mended(m, w, drop, pre)
  {
    if !m.role.User? {
      return [m];
    }
    match m.content
    case Blocks(bs) =>
      if drop == {} && pre == [] {
        return [m];
      }
      var filtered := FilterBlocks(bs, drop);
      var k := CountLeading(filtered);
      var content := filtered[..k] + pre + filtered[k..];
      if content == [] {
        return [];
      }
      return [m.(content := Blocks(content))];
    case Str(t) =>
      if pre == [] {
        return [m];
      }
      return [m.(content := Blocks(pre + TextBlocks(w, t)))];
  }

  method Assemble(ms: seq<Message>, w: Wording, drops: set<Pos>, plans: map<Pos, Block>) returns (out: seq<Message>)
    requires AllDropped(ms, drops) && plans == PlannedInAll(ms, w)
    ensures out == Rebuilt(ms, w, 0)
  {
    hide PlannedInAll, Inserts, Mended, Dropped, Front, Piece, AllDropped;
    out := [];
    var pre: seq<Block> := [];
    FrontIs(ms, w, 0);
    var i := 0;
    while i < |ms|
      invariant i <= |ms|
      invariant out + Rebuilt(ms, w, i) == Rebuilt(ms, w, 0)
      invariant i < |ms| ==> pre == Front(ms, w, i)
    {
      var here := set b: nat | b < |ReplyBlocks(ms[i])| && (i, b) in drops;
      DropsHere(ms, drops, i, here);
      var mended := MendMessage(ms[i], w, here, pre);
      var inserts := PlannedBlocks(ms, w, plans, i);
      ghost var before := out;
      out := out + mended;
      pre := [];
      if inserts != [] {
        if i + 1 < |ms| && ms[i + 1].role.User? {
          pre := inserts;
        } else {
          out := out + [Message(User, Blocks(inserts), [])];
        }
      }
      PieceIs(ms, w, i);
      assert out == before + Piece(ms, w, i);
      assert before + (Piece(ms, w, i) + Rebuilt(ms, w, i + 1)) == out + Rebuilt(ms, w, i + 1);
      i := i + 1;
    }
  }

  lemma PieceIs(ms: seq<Message>, w: Wording, i: nat)
    requires i < |ms|
    ensures Piece(ms, w, i) == Mended(ms[i], w, Dropped(ms, i), Front(ms, w, i))
      + if Inserts(ms, w, i) != [] && !TakesFront(ms, i + 1) then [Message(User, Blocks(Inserts(ms, w, i)), [])] else []
    ensures i + 1 < |ms| ==> Front(ms, w, i + 1) == if TakesFront(ms, i + 1) then Inserts(ms, w, i) else []
  {
  }

  lemma FrontIs(ms: seq<Message>, w: Wording, i: nat)
    ensures 0 < |ms| ==> Front(ms, w, 0) == []
  {
  }

  lemma DropsHere(ms: seq<Message>, drops: set<Pos>, i: nat, here: set<nat>)
    requires i < |ms| && AllDropped(ms, drops) && here == set b: nat | b < |ReplyBlocks(ms[i])| && (i, b) in drops
    ensures here == Dropped(ms, i)
  {
    forall b: nat ensures b in here <==> b in Dropped(ms, i) {
      var p: Pos := (i, b);
      assert p in drops <==> b in Dropped(ms, i);
    }
  }

  // ---- The whole ----

  lemma NothingPlanned(ms: seq<Message>, w: Wording, drops: set<Pos>, plans: map<Pos, Block>)
    requires AllDropped(ms, drops) && plans == PlannedInAll(ms, w)
    ensures drops == {} && plans == map[] <==> !Broken(ms, w)
  {
    hide PlannedInAll, Dropped, Inserts;
    if drops == {} && plans == map[] {
      forall i, b: nat | 0 <= i < |ms| ensures b !in Dropped(ms, i) {
        var p: Pos := (i, b);
        assert p !in drops;
      }
      forall i | 0 <= i < |ms| ensures Dropped(ms, i) == {} && Inserts(ms, w, i) == [] {
        if i < LastMove(ms) {
          NothingFilledIn(ms, w, i, |CallBlocks(ms[i])|);
        }
        InsertsAre(ms, w, i);
      }
    }
    if !Broken(ms, w) {
      forall p: Pos ensures p !in drops {
        assert p.0 < |ms| ==> Dropped(ms, p.0) == {};
      }
      forall c: Pos ensures c !in plans {
        PlannedInAllAre(ms, w, c);
        if c in plans {
          PlannedInserts(ms, w, c);
        }
      }
    }
  }

  lemma InsertsAre(ms: seq<Message>, w: Wording, i: nat)
    requires i < |ms|
    ensures Inserts(ms, w, i) == if i < LastMove(ms) then Fills(ms, w, i, |CallBlocks(ms[i])|) else []
  {
  }

  lemma {:induction false} NothingFilledIn(ms: seq<Message>, w: Wording, i: nat, cb: nat)
    requires PlannedInAll(ms, w) == map[] && i < |ms| && cb <= |CallBlocks(ms[i])| && i < LastMove(ms)
    ensures Fills(ms, w, i, cb) == []
    decreases cb
  {
    hide PlannedInAll, Fill;
    if cb > 0 {
      NothingFilledIn(ms, w, i, cb - 1);
      PlannedFills(ms, w, i, cb - 1);
    }
  }

  lemma {:induction false} FillsHave(ms: seq<Message>, w: Wording, i: nat, cb: nat, k: nat)
    requires i < |ms| && k < cb <= |CallBlocks(ms[i])| && Fill(ms, w, i, k) != []
    ensures Fills(ms, w, i, cb) != []
    decreases cb
  {
    hide Fill;
    if k < cb - 1 {
      FillsHave(ms, w, i, cb - 1, k);
    }
  }

  lemma PlannedInserts(ms: seq<Message>, w: Wording, c: Pos)
    requires c in PlannedInAll(ms, w)
    ensures c.0 < |ms| && Inserts(ms, w, c.0) != []
  {
    hide PlannedInAll, Fill, Fills, InPlaceFor;
    PlannedInAllAre(ms, w, c);
    PlannedFills(ms, w, c.0, c.1);
    FillsHave(ms, w, c.0, |CallBlocks(ms[c.0])|, c.1);
  }

  /** The program computes the repair: the passes over positions, pools and plans find exactly the
      answers, and leave alone exactly the histories, that the definition says. */
  method RepairAdjacency(ms: seq<Message>, w: Wording) returns (r: Option<seq<Message>>)
    ensures r == Exchange.Repair(ms, w)
  {
    hide AllCollected, Paired1, Broken, TakenInAll, MovedInAll, PlannedInAll, AllDropped, Rebuilt, AllCallsOf;
    var ids := CollectCallIds(ms);
    var pool, orphans := CollectResults(ms, ids);
    var taken, drops, plans, missing := PairByPosition(ms, w);
    taken, drops, plans := Relay(ms, w, ids, pool, orphans, missing, taken, drops, plans);
    var left := Leftovers(pool, taken);
    DropsAddUp(ms, ids, pool, orphans, left);
    drops := orphans + drops + left;
    NothingPlanned(ms, w, drops, plans);
    if drops == {} && plans == map[] {
      return None;
    }
    var out := Assemble(ms, w, drops, plans);
    return Some(out);
  }
}
