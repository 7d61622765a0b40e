/** Renaming as the proxy runs it: count the calls, give later calls free names, and rewrite calls
    and results by their turn. The maps of the passes are followed step by step against the names that
    `Dedupe` allots to the calls in their order, and the history that comes out is the renamed one of
    `Structure`. */
module DedupeRename {
  import opened Text
  import opened Suffix
  import opened History
  import opened Exchange
  import opened Dedupe
  import opened Structure

  function Count(m: map<Id, nat>, x: Id): nat {
    if x in m then m[x] else 0
  }

  /** The ids called before block `cb` of message `i`. */
  function Line(ms: seq<Message>, i: nat, cb: nat): seq<Id>
    requires i < |ms| && cb <= |CallBlocks(ms[i])|
  {
    AllCalls(ms[..i]) + IdsOf(CallBlocks(ms[i])[..cb])
  }

  lemma LineStarts(ms: seq<Message>, i: nat)
    requires i < |ms|
    ensures Line(ms, i, 0) == AllCalls(ms[..i])
  {
  }

  lemma LineEnds(ms: seq<Message>, i: nat)
    requires i < |ms|
    ensures Line(ms, i, |CallBlocks(ms[i])|) == AllCalls(ms[..i + 1])
  {
    AllCallsStep(ms, i);
    assert CallBlocks(ms[i])[..|CallBlocks(ms[i])|] == CallBlocks(ms[i]);
  }

  lemma LineStep(ms: seq<Message>, i: nat, cb: nat)
    requires i < |ms| && cb < |CallBlocks(ms[i])|
    ensures Line(ms, i, cb + 1) 
      == Line(ms, i, cb) + if CallBlocks(ms[i])[cb].Call? then [CallBlocks(ms[i])[cb].id] else []
  {
    IdsStep(CallBlocks(ms[i]), cb);
  }

  lemma LinePrefix(ms: seq<Message>, i: nat, cb: nat)
    requires i < |ms| && cb <= |CallBlocks(ms[i])|
    ensures Line(ms, i, cb) <= AllCalls(ms)
  {
    hide AllCalls, IdsOf;
    var bs := CallBlocks(ms[i]);
    IdsPrefix(bs, cb, |bs|);
    assert bs[..|bs|] == bs;
    AllCallsStep(ms, i);
    CallsPrefix(ms, i + 1, |ms|);
    assert ms[..|ms|] == ms;
    assert Line(ms, i, cb) <= AllCalls(ms[..i + 1]);
  }

  /** Counters agree with the ids gone through. */
  ghost predicate Counted(m: map<Id, nat>, ids: seq<Id>) {
    (forall x: Id :: Count(m, x) == Occurs(ids, x)) && forall x <- m :: m[x] > 0
  }

  lemma CountMore(m: map<Id, nat>, ids: seq<Id>, x: Id)
    requires Counted(m, ids)
    ensures Counted(m[x := Count(m, x) + 1], ids + [x])
  {
    forall y: Id ensures Occurs(ids + [x], y) == Occurs(ids, y) + if x == y then 1 else 0 {
      OccursAppend(ids, [x], y);
      OccursOne([x], y);
    }
  }

  lemma NothingCounted()
    ensures Counted(map[], [])
  {
  }

  method CountCalls(ms: seq<Message>) returns (counts: map<Id, nat>)
    ensures Counted(counts, AllCalls(ms))
  {
    hide Counted, AllCalls, IdsOf, Line;
    counts := map[];
    NothingCounted();
    NoCallsAtAll(ms);
    var i := 0;
    while i < |ms|
      invariant i <= |ms| && Counted(counts, AllCalls(ms[..i]))
    {
      LineStarts(ms, i);
      var bs, cb := CallBlocks(ms[i]), 0;
      while cb < |bs|
        invariant cb <= |bs| && Counted(counts, Line(ms, i, cb))
      {
        LineStep(ms, i, cb);
        if bs[cb].Call? {
          CountMore(counts, Line(ms, i, cb), bs[cb].id);
          counts := counts[bs[cb].id := (if bs[cb].id in counts then counts[bs[cb].id] else 0) + 1];
        } else {
          assert Line(ms, i, cb) + [] == Line(ms, i, cb);
        }
        cb := cb + 1;
      }
      LineEnds(ms, i);
      i := i + 1;
    }
    assert ms[..|ms|] == ms;
  }

  lemma NoCallsAtAll(ms: seq<Message>)
    ensures AllCalls(ms[..0]) == []
  {
  }

  lemma {:induction false} OccursIff(ids: seq<Id>, x: Id)
    ensures Occurs(ids, x) > 0 <==> x in ids
  {
    if ids != [] {
      OccursIff(ids[..|ids| - 1], x);
    }
  }

  lemma CountedKeys(counts: map<Id, nat>, ids: seq<Id>)
    requires Counted(counts, ids)
    ensures counts.Keys == set x | x in ids
    ensures HasDuplicate(ids) <==> exists x <- counts :: counts[x] > 1
  {
    forall x: Id ensures x in counts <==> x in ids {
      OccursIff(ids, x);
      assert Count(counts, x) == Occurs(ids, x);
    }
    if HasDuplicate(ids) {
      var x :| Occurs(ids, x) > 1;
      assert Count(counts, x) > 1;
    }
    if x :| x in counts && counts[x] > 1 {
      assert Count(counts, x) == Occurs(ids, x);
    }
  }

  // ---- New names ----

  /** The names given to the calls gone through. */
  ghost predicate Allotted(ids: seq<Id>, line: seq<Id>, used: set<Text>, renamed: map<Text, Id>, seen: map<Id, nat>) {
    line <= ids && Names(used, renamed) == Allot(ids, |line|) && Counted(seen, line)
  }

  lemma AllotNext(ids: seq<Id>, line: seq<Id>, x: Id, used: set<Text>, renamed: map<Text, Id>, seen: map<Id, nat>)
    requires Allotted(ids, line, used, renamed, seen) && line + [x] <= ids
    ensures var n := Count(seen, x) + 1;
      Allotted(ids, line + [x],
               if n == 1 then used else used + {FreeName(used, x, UNDERSCORE, n)},
               if n == 1 then renamed else renamed[Key(x, n) := FreeName(used, x, UNDERSCORE, n)],
               seen[x := n])
  {
    hide Counted, FreeName, Key;
    CountMore(seen, line, x);
    var k := |line|;
    assert ids[k] == (line + [x])[k] && ids[..k] == line;
    assert Count(seen, x) == Occurs(line, x) by { CountIs(seen, line, x); }
  }

  lemma CountIs(m: map<Id, nat>, ids: seq<Id>, x: Id)
    requires Counted(m, ids)
    ensures Count(m, x) == Occurs(ids, x)
  {
  }

  method AllotNames(ms: seq<Message>, counts: map<Id, nat>) returns (renamed: map<Text, Id>)
    requires Counted(counts, AllCalls(ms))
    ensures renamed == Allot(AllCalls(ms), |AllCalls(ms)|).renamed
  {
    hide Counted, AllCalls, IdsOf, Line, Allotted, FreeName, Key;
    ghost var ids := AllCalls(ms);
    CountedKeys(counts, ids);
    var used: set<Text> := counts.Keys;
    renamed := map[];
    var seen: map<Id, nat> := map[];
    NoCallsAtAll(ms);
    NothingAllotted(ids, used);
    var i := 0;
    while i < |ms|
      invariant i <= |ms| && Allotted(ids, AllCalls(ms[..i]), used, renamed, seen)
    {
      LineStarts(ms, i);
      var bs, cb := CallBlocks(ms[i]), 0;
      while cb < |bs|
        invariant cb <= |bs| && Allotted(ids, Line(ms, i, cb), used, renamed, seen)
      {
        LineStep(ms, i, cb);
        LinePrefix(ms, i, cb + 1);
        if bs[cb].Call? {
          var x := bs[cb].id;
          AllotNext(ids, Line(ms, i, cb), x, used, renamed, seen);
          var n := (if x in seen then seen[x] else 0) + 1;
          seen := seen[x := n];
          if n > 1 {
            var t := FindFreeName(used, x, UNDERSCORE, n);
            used := used + {t};
            renamed := renamed[Key(x, n) := t];
          }
        } else {
          assert Line(ms, i, cb) + [] == Line(ms, i, cb);
        }
        cb := cb + 1;
      }
      LineEnds(ms, i);
      i := i + 1;
    }
    assert ms[..|ms|] == ms;
    AllAllotted(ids, used, renamed, seen);
  }

  lemma NothingAllotted(ids: seq<Id>, used: set<Text>)
    requires used == set x | x in ids
    ensures Allotted(ids, [], used, map[], map[])
  {
  }

  lemma AllAllotted(ids: seq<Id>, used: set<Text>, renamed: map<Text, Id>, seen: map<Id, nat>)
    requires Allotted(ids, ids, used, renamed, seen)
    ensures renamed == Allot(ids, |ids|).renamed
  {
  }

  // ---- Rewriting ----

  ghost predicate MetAll(ms: seq<Message>, i: nat, calls: map<Id, nat>, results: map<Id, nat>)
    requires i <= |ms|
  {
    && (forall x: Id :: Count(calls, x) == Occurs(AllCalls(ms[..i]), x))
    && (forall x: Id :: Count(results, x) == RepliesBetween(ms, 0, i, x))
  }

  /** The two halves of a message's turn: only one of the counters moves in it. */
  ghost predicate Turned(ms: seq<Message>, i: nat, b: nat, calls: map<Id, nat>, results: map<Id, nat>)
    requires i < |ms| && ms[i].content.Blocks? && b <= |ms[i].content.blocks|
  {
    && (forall x: Id :: Count(calls, x) == Occurs(AllCalls(ms[..i]), x) + Calls(Upto(CallBlocks(ms[i]), b), x))
    && (forall x: Id :: Count(results, x) == RepliesBetween(ms, 0, i, x) + Results(Upto(ReplyBlocks(ms[i]), b), x))
  }

  function Upto(bs: seq<Block>, b: nat): seq<Block> {
    if b <= |bs| then bs[..b] else bs
  }

  lemma TurnStarts(ms: seq<Message>, i: nat, calls: map<Id, nat>, results: map<Id, nat>)
    requires i < |ms| && ms[i].content.Blocks? && MetAll(ms, i, calls, results)
    ensures Turned(ms, i, 0, calls, results)
  {
    hide Occurs, AllCalls, RepliesBetween;
    assert Upto(CallBlocks(ms[i]), 0) == [] && Upto(ReplyBlocks(ms[i]), 0) == [];
  }

  lemma MessageMet(ms: seq<Message>, i: nat, calls: map<Id, nat>, results: map<Id, nat>)
    requires i < |ms|
    requires if ms[i].content.Blocks? then Turned(ms, i, |ms[i].content.blocks|, calls, results)
      else MetAll(ms, i, calls, results)
    ensures MetAll(ms, i + 1, calls, results)
  {
    hide Occurs, AllCalls, RepliesBetween, Calls, Results;
    forall x: Id
      ensures Count(calls, x) == Occurs(AllCalls(ms[..i + 1]), x)
      ensures Count(results, x) == RepliesBetween(ms, 0, i + 1, x)
    {
      CallsTotal(ms, i, x);
      RepliesStep(ms, i, x);
      NothingThere(x);
      if ms[i].content.Blocks? {
        assert Upto(CallBlocks(ms[i]), |ms[i].content.blocks|) == CallBlocks(ms[i]);
        assert Upto(ReplyBlocks(ms[i]), |ms[i].content.blocks|) == ReplyBlocks(ms[i]);
      }
    }
  }

  lemma RepliesStep(ms: seq<Message>, i: nat, x: Id)
    requires i < |ms|
    ensures RepliesBetween(ms, 0, i + 1, x) == RepliesBetween(ms, 0, i, x) + Results(ReplyBlocks(ms[i]), x)
  {
  }

  lemma NothingThere(x: Id)
    ensures Calls([], x) == 0 && Results([], x) == 0
  {
  }

  /** A counter moves by the call, or the result, at hand. */
  lemma TurnNext(ms: seq<Message>, i: nat, b: nat, calls: map<Id, nat>, results: map<Id, nat>,
                 calls1: map<Id, nat>, results1: map<Id, nat>)
    requires i < |ms| && ms[i].content.Blocks? && b < |ms[i].content.blocks| && Turned(ms, i, b, calls, results)
    requires forall x: Id :: Count(calls1, x) == Count(calls, x) + if IsCallOf(CallBlocks(ms[i]), b, x) then 1 else 0
    requires forall x: Id :: 
      Count(results1, x) == Count(results, x) + if IsResultOf(ReplyBlocks(ms[i]), b, x) then 1 else 0
    ensures Turned(ms, i, b + 1, calls1, results1)
  {
    hide Occurs, AllCalls, RepliesBetween, Calls, Results, Upto, IsCallOf, IsResultOf, Count;
    forall x: Id
      ensures Count(calls1, x) == Occurs(AllCalls(ms[..i]), x) + Calls(Upto(CallBlocks(ms[i]), b + 1), x)
      ensures Count(results1, x) == RepliesBetween(ms, 0, i, x) + Results(Upto(ReplyBlocks(ms[i]), b + 1), x)
    {
      UptoStep(CallBlocks(ms[i]), b, x);
      UptoStep(ReplyBlocks(ms[i]), b, x);
    }
  }

  lemma CallTurn(ms: seq<Message>, i: nat, b: nat, calls: map<Id, nat>, results: map<Id, nat>)
    requires IsCall(ms, i, b) && ms[i].content.Blocks? && Turned(ms, i, b, calls, results)
    ensures var x := CallBlocks(ms[i])[b].id;
      && Count(calls, x) == Occurs(AllCalls(ms[..i]), x) + Calls(CallBlocks(ms[i])[..b], x)
      && Turned(ms, i, b + 1, calls[x := Count(calls, x) + 1], results)
  {
    hide Occurs, AllCalls, RepliesBetween, Calls, Results;
    var x := CallBlocks(ms[i])[b].id;
    assert Upto(CallBlocks(ms[i]), b) == CallBlocks(ms[i])[..b];
    TurnNext(ms, i, b, calls, results, calls[x := Count(calls, x) + 1], results);
  }

  lemma ReplyTurnOf(ms: seq<Message>, i: nat, b: nat, calls: map<Id, nat>, results: map<Id, nat>)
    requires IsReply(ms, i, b) && ms[i].content.Blocks? && Turned(ms, i, b, calls, results)
    ensures var x := ReplyBlocks(ms[i])[b].id;
      && Count(results, x) == RepliesBetween(ms, 0, i, x) + Results(ReplyBlocks(ms[i])[..b], x)
      && Turned(ms, i, b + 1, calls, results[x := Count(results, x) + 1])
  {
    hide Occurs, AllCalls, RepliesBetween, Calls, Results;
    var x := ReplyBlocks(ms[i])[b].id;
    assert Upto(ReplyBlocks(ms[i]), b) == ReplyBlocks(ms[i])[..b];
    TurnNext(ms, i, b, calls, results, calls, results[x := Count(results, x) + 1]);
  }

  /** Rewriting a block gives it the id of its turn and moves its counter. */
  lemma TurnStep(ms: seq<Message>, renamed: map<Text, Id>, i: nat, b: nat, calls: map<Id, nat>, results: map<Id, nat>)
    requires i < |ms| && ms[i].content.Blocks? && b < |ms[i].content.blocks| && Turned(ms, i, b, calls, results)
    ensures var m, r := ms[i], ms[i].content.blocks[b];
      if m.role.Assistant? && r.Call? then
        var n := Count(calls, r.id) + 1;
        && NewBlock(ms, renamed, i, b) == Call(NewId(renamed, r.id, n), r.body)
        && Turned(ms, i, b + 1, calls[r.id := n], results)
      else if m.role.User? && r.Result? then
        var n := Count(results, r.id) + 1;
        && NewBlock(ms, renamed, i, b) == Result(NewId(renamed, r.id, n), r.body)
        && Turned(ms, i, b + 1, calls, results[r.id := n])
      else NewBlock(ms, renamed, i, b) == r && Turned(ms, i, b + 1, calls, results)
  {
    hide Occurs, AllCalls, RepliesBetween, Calls, Results, NewId, Turned, Count;
    var m, r := ms[i], ms[i].content.blocks[b];
    if m.role.Assistant? && r.Call? {
      CallTurn(ms, i, b, calls, results);
    } else if m.role.User? && r.Result? {
      ReplyTurnOf(ms, i, b, calls, results);
    } else {
      TurnNext(ms, i, b, calls, results, calls, results);
    }
  }

  lemma UptoStep(bs: seq<Block>, b: nat, x: Id)
    ensures Calls(Upto(bs, b + 1), x) == Calls(Upto(bs, b), x) + (if IsCallOf(bs, b, x) then 1 else 0)
    ensures Results(Upto(bs, b + 1), x) == Results(Upto(bs, b), x) + (if IsResultOf(bs, b, x) then 1 else 0)
  {
    if b < |bs| {
      CallsStep(bs, b, x);
      ResultsStep(bs, b, x);
    } else {
      assert b == |bs| ==> bs[..b] == bs;
    }
  }

  /** Calls and results, each rewritten in its turn. */
  method Rewrite(ms: seq<Message>, renamed: map<Text, Id>) returns (out: seq<Message>)
    ensures out == NewMessages(ms, renamed, |ms|)
  {
    hide MetAll, Turned, NewBlock, Key;
    out := [];
    var calls: map<Id, nat>, results: map<Id, nat> := map[], map[];
    NothingMet(ms);
    var i := 0;
    while i < |ms|
      invariant i <= |ms| && out == NewMessages(ms, renamed, i) && MetAll(ms, i, calls, results)
    {
      var m := ms[i];
      if m.content.Blocks? {
        TurnStarts(ms, i, calls, results);
        var bs, b, written := m.content.blocks, 0, [];
        while b < |bs|
          invariant b <= |bs| && written == NewBlocks(ms, renamed, i, b) && Turned(ms, i, b, calls, results)
        {
          TurnStep(ms, renamed, i, b, calls, results);
          var r := bs[b];
          if m.role.Assistant? && r.Call? {
            var n := (if r.id in calls then calls[r.id] else 0) + 1;
            calls := calls[r.id := n];
            if Key(r.id, n) in renamed {
              r := Call(renamed[Key(r.id, n)], r.body);
            }
          } else if m.role.User? && r.Result? {
            var n := (if r.id in results then results[r.id] else 0) + 1;
            results := results[r.id := n];
            if Key(r.id, n) in renamed {
              r := Result(renamed[Key(r.id, n)], r.body);
            }
          }
          written := written + [r];
          b := b + 1;
        }
        m := m.(content := Blocks(written));
      }
      MessageMet(ms, i, calls, results);
      out := out + [m];
      i := i + 1;
    }
  }

  lemma NothingMet(ms: seq<Message>)
    ensures MetAll(ms, 0, map[], map[])
  {
  }

  /** The program renames as defined. */
  method DedupeToolUseIds(ms: seq<Message>) returns (r: Option<seq<Message>>)
    ensures r == Dedup(ms)
  {
    hide Counted, HasDuplicate, AllCalls;
    var counts := CountCalls(ms);
    CountedKeys(counts, AllCalls(ms));
    if !exists x <- counts :: counts[x] > 1 {
      return None;
    }
    var renamed := AllotNames(ms, counts);
    var out := Rewrite(ms, renamed);
    return Some(out);
  }
}
