/** Repair and renaming together: calls and results keep their places and their partners, and get
    names that no two calls share; the n-th result of an id stays with the n-th call of it through both
    passes. */
module Structure {
  import opened Text
  import opened History
  import opened Exchange
  import opened ExchangeLaws
  import opened ExchangeConserves
  import opened Dedupe

  /** The two repairs, in this order; None where neither finds anything. */
  ghost function RepairStructure(ms: seq<Message>, w: Wording): Option<seq<Message>> {
    var mended := Exchange.Repair(ms, w);
    var stage := if mended.Some? then mended.value else ms;
    var renamed := Dedup(stage);
    if mended.None? && renamed.None? then None else Some(if renamed.Some? then renamed.value else stage)
  }

  // ---- Calls in one line ----

  /** The place of a call among all calls. */
  function At(ms: seq<Message>, i: nat, cb: nat): nat
    requires i < |ms| && cb <= |CallBlocks(ms[i])|
  {
    |AllCalls(ms[..i])| + |IdsOf(CallBlocks(ms[i])[..cb])|
  }

  lemma AllCallsStep(ms: seq<Message>, i: nat)
    requires i < |ms|
    ensures AllCalls(ms[..i + 1]) == AllCalls(ms[..i]) + IdsOf(CallBlocks(ms[i]))
  {
    assert ms[..i + 1][..i] == ms[..i];
  }

  lemma IdsStep(bs: seq<Block>, k: nat)
    requires k < |bs|
    ensures IdsOf(bs[..k + 1]) == IdsOf(bs[..k]) + if bs[k].Call? then [bs[k].id] else []
  {
    assert bs[..k + 1][..k] == bs[..k];
  }

  lemma LongerPrefix<T>(a: seq<T>, b: seq<T>, c: seq<T>)
    requires a <= b
    ensures a <= b + c
  {
  }

  lemma {:induction false} IdsPrefix(bs: seq<Block>, k: nat, l: nat)
    requires k <= l <= |bs|
    ensures IdsOf(bs[..k]) <= IdsOf(bs[..l])
    decreases l
  {
    hide IdsOf;
    if k < l {
      IdsPrefix(bs, k, l - 1);
      IdsStep(bs, l - 1);
      LongerPrefix(IdsOf(bs[..k]), IdsOf(bs[..l - 1]), if bs[l - 1].Call? then [bs[l - 1].id] else []);
    }
  }

  lemma {:induction false} CallsPrefix(ms: seq<Message>, i: nat, k: nat)
    requires i <= k <= |ms|
    ensures AllCalls(ms[..i]) <= AllCalls(ms[..k])
    decreases k
  {
    hide AllCalls, IdsOf;
    if i < k {
      CallsPrefix(ms, i, k - 1);
      AllCallsStep(ms, k - 1);
      LongerPrefix(AllCalls(ms[..i]), AllCalls(ms[..k - 1]), IdsOf(CallBlocks(ms[k - 1])));
    }
  }

  lemma {:induction false} OccursIds(bs: seq<Block>, x: Id)
    ensures Occurs(IdsOf(bs), x) == Calls(bs, x)
  {
    if bs != [] {
      var k := |bs| - 1;
      OccursIds(bs[..k], x);
      OccursAppend(IdsOf(bs[..k]), if bs[k].Call? then [bs[k].id] else [], x);
      OccursOne(if bs[k].Call? then [bs[k].id] else [], x);
    }
  }

  lemma OccursOne(ids: seq<Id>, x: Id)
    requires |ids| <= 1
    ensures Occurs(ids, x) == if ids != [] && ids[0] == x then 1 else 0
  {
    if ids != [] {
      assert ids[..0] == [];
    }
  }

  /** A call stands at its place, in its turn. */
  lemma AtLaw(ms: seq<Message>, i: nat, cb: nat)
    requires IsCall(ms, i, cb)
    ensures var ids, k, x := AllCalls(ms), At(ms, i, cb), CallBlocks(ms[i])[cb].id;
      && k < |ids| && ids[k] == x
      && Turn(ids, k) == Occurs(AllCalls(ms[..i]), x) + Calls(CallBlocks(ms[i])[..cb], x) + 1
  {
    hide AllCalls, IdsOf, Occurs, Calls;
    var ids, k, bs := AllCalls(ms), At(ms, i, cb), CallBlocks(ms[i]);
    var x := bs[cb].id;
    var a, b := AllCalls(ms[..i]), IdsOf(bs[..cb]);
    CallsPrefix(ms, i + 1, |ms|);
    assert ms[..|ms|] == ms;
    AllCallsStep(ms, i);
    IdsStep(bs, cb);
    IdsPrefix(bs, cb + 1, |bs|);
    assert bs[..|bs|] == bs;
    assert a + (b + [x]) <= ids;
    assert ids[..k] == a + b by { assert (a + (b + [x]))[..k] == a + b; }
    assert ids[k] == (a + (b + [x]))[k];
    OccursAppend(a, b, x);
    OccursIds(bs[..cb], x);
  }

  lemma PrefixShorter<T>(a: seq<T>, b: seq<T>)
    requires a <= b
    ensures |a| <= |b|
  {
  }

  lemma AtNext(ms: seq<Message>, i: nat, a: nat)
    requires IsCall(ms, i, a)
    ensures At(ms, i, a) + 1 == At(ms, i, a + 1) <= |AllCalls(ms[..i + 1])|
  {
    hide IdsOf, AllCalls;
    var bs := CallBlocks(ms[i]);
    IdsStep(bs, a);
    IdsPrefix(bs, a + 1, |bs|);
    assert bs[..|bs|] == bs;
    AllCallsStep(ms, i);
  }

  lemma AtGrows(ms: seq<Message>, i: nat, a: nat, k: nat, b: nat)
    requires IsCall(ms, i, a) && IsCall(ms, k, b) && (i < k || (i == k && a < b))
    ensures At(ms, i, a) < At(ms, k, b)
  {
    hide IdsOf, AllCalls;
    AtNext(ms, i, a);
    if i == k {
      IdsPrefix(CallBlocks(ms[i]), a + 1, b);
    } else {
      CallsPrefix(ms, i + 1, k);
      PrefixShorter(AllCalls(ms[..i + 1]), AllCalls(ms[..k]));
    }
  }

  // ---- The renamed history ----

  function Renames(ms: seq<Message>): map<Text, Id> {
    Allot(AllCalls(ms), |AllCalls(ms)|).renamed
  }

  /** Blocks keep their kind and their place. */
  lemma RenamedBlocks(ms: seq<Message>, i: nat)
    requires i < |ms|
    ensures var m, n := ms[i], Deduped(ms)[i];
      && n.role == m.role && n.content.Blocks? == m.content.Blocks? && n.extra == m.extra
      && (m.content.Str? ==> n == m)
      && |CallBlocks(n)| == |CallBlocks(m)| && |ReplyBlocks(n)| == |ReplyBlocks(m)|
      && (m.content.Blocks? ==>
            && |n.content.blocks| == |m.content.blocks|
            && forall b :: 0 <= b < |m.content.blocks| ==> n.content.blocks[b] == NewBlock(ms, Renames(ms), i, b))
  {
    hide NewBlock, Allot;
  }

  predicate SameKind(a: Block, b: Block) {
    a.Call? == b.Call? && a.Result? == b.Result?
  }

  lemma NewBlockKind(ms: seq<Message>, r: map<Text, Id>, i: nat, b: nat)
    requires i < |ms| && ms[i].content.Blocks? && b < |ms[i].content.blocks|
    ensures SameKind(NewBlock(ms, r, i, b), ms[i].content.blocks[b])
  {
  }

  lemma {:induction false} SameLead(a: seq<Block>, b: seq<Block>)
    requires |a| == |b| && forall k :: 0 <= k < |a| ==> SameKind(a[k], b[k])
    ensures Lead(a) == Lead(b)
  {
    if a != [] {
      assert forall k :: 0 <= k < |a| - 1 ==> a[1..][k] == a[k + 1] && b[1..][k] == b[k + 1];
      assert SameKind(a[0], b[0]);
      SameLead(a[1..], b[1..]);
    }
  }

  lemma RenamedKinds(ms: seq<Message>, i: nat)
    requires i < |ms|
    ensures var m, n := ms[i], Deduped(ms)[i];
      && Moves(n) == Moves(m)
      && |CallBlocks(n)| == |CallBlocks(m)| && |ReplyBlocks(n)| == |ReplyBlocks(m)|
      && (forall b :: 0 <= b < |CallBlocks(m)| ==> SameKind(CallBlocks(n)[b], CallBlocks(m)[b]))
      && (forall b :: 0 <= b < |ReplyBlocks(m)| ==> SameKind(ReplyBlocks(n)[b], ReplyBlocks(m)[b]))
      && Lead(ReplyBlocks(n)) == Lead(ReplyBlocks(m))
  {
    hide NewBlock, Deduped, Lead;
    LengthKept(ms);
    RenamedBlocks(ms, i);
    var m, n := ms[i], Deduped(ms)[i];
    if m.content.Blocks? {
      forall b | 0 <= b < |m.content.blocks| ensures SameKind(n.content.blocks[b], m.content.blocks[b]) {
        NewBlockKind(ms, Renames(ms), i, b);
      }
      SameMoves(m.content.blocks, n.content.blocks);
    }
    SameLead(ReplyBlocks(n), ReplyBlocks(m));
  }

  lemma SameMoves(a: seq<Block>, b: seq<Block>)
    requires |a| == |b| && forall k :: 0 <= k < |a| ==> SameKind(b[k], a[k])
    ensures (exists x <- a :: !x.Result?) <==> (exists x <- b :: !x.Result?)
  {
    if x :| x in a && !x.Result? {
      var k :| 0 <= k < |a| && a[k] == x;
      assert !b[k].Result?;
    }
    if x :| x in b && !x.Result? {
      var k :| 0 <= k < |b| && b[k] == x;
      assert !a[k].Result?;
    }
  }

  lemma {:induction false} SameLastMove(a: seq<Message>, b: seq<Message>)
    requires |a| == |b| && forall i :: 0 <= i < |a| ==> Moves(a[i]) == Moves(b[i])
    ensures LastMove(a) == LastMove(b)
  {
    hide Moves;
    if a != [] && !Moves(a[|a| - 1]) {
      SameLastMove(a[..|a| - 1], b[..|b| - 1]);
    }
  }

  lemma RenamedLastMove(ms: seq<Message>)
    ensures LastMove(Deduped(ms)) == LastMove(ms)
  {
    hide Deduped, LastMove;
    LengthKept(ms);
    forall i | 0 <= i < |ms| ensures Moves(Deduped(ms)[i]) == Moves(ms[i]) { RenamedKinds(ms, i); }
    hide Moves;
    SameLastMove(Deduped(ms), ms);
  }

  lemma LengthKept(ms: seq<Message>)
    ensures |Deduped(ms)| == |ms|
  {
  }

  /** A call carries the name of its place. */
  lemma RenamedCall(ms: seq<Message>, i: nat, cb: nat)
    requires IsCall(ms, i, cb)
    ensures var out := Deduped(ms);
      && At(ms, i, cb) < |AllCalls(ms)|
      && IsCall(out, i, cb) && CallBlocks(out[i])[cb].id == NameOf(AllCalls(ms), At(ms, i, cb))
      && CallBlocks(out[i])[cb].body == CallBlocks(ms[i])[cb].body
  {
    hide Deduped, At, Allot, Occurs, Calls, Key, AllCalls, Turn, NewId;
    AtLaw(ms, i, cb);
    LengthKept(ms);
    RenamedBlocks(ms, i);
    NewCall(ms, i, cb);
  }

  lemma NewCall(ms: seq<Message>, i: nat, cb: nat)
    requires IsCall(ms, i, cb)
    ensures var x := CallBlocks(ms[i])[cb].id;
      NewBlock(ms, Renames(ms), i, cb)
        == Call(NewId(Renames(ms), x, Occurs(AllCalls(ms[..i]), x) + Calls(CallBlocks(ms[i])[..cb], x) + 1),
                CallBlocks(ms[i])[cb].body)
  {
    hide Allot, NewId, Occurs, Calls, AllCalls;
  }

  lemma CallBack(ms: seq<Message>, i: nat, cb: nat)
    requires IsCall(Deduped(ms), i, cb)
    ensures IsCall(ms, i, cb)
  {
    LengthKept(ms);
    hide Deduped;
    RenamedKinds(ms, i);
  }

  /** After renaming no two calls share an id. */
  lemma RenamedCallsDiffer(ms: seq<Message>, i: nat, a: nat, k: nat, b: nat)
    requires IsCall(Deduped(ms), i, a) && IsCall(Deduped(ms), k, b) && (i, a) != (k, b)
    ensures CallBlocks(Deduped(ms)[i])[a].id != CallBlocks(Deduped(ms)[k])[b].id
  {
    hide Deduped, At, NameOf;
    CallBack(ms, i, a);
    CallBack(ms, k, b);
    RenamedCall(ms, i, a);
    RenamedCall(ms, k, b);
    if i < k || (i == k && a < b) {
      AtGrows(ms, i, a, k, b);
      NamesDiffer(AllCalls(ms), At(ms, i, a), At(ms, k, b));
    } else {
      AtGrows(ms, k, b, i, a);
      NamesDiffer(AllCalls(ms), At(ms, k, b), At(ms, i, a));
    }
  }

  // ---- Results keep step with calls ----

  lemma CallsTotal(ms: seq<Message>, i: nat, x: Id)
    requires i < |ms|
    ensures Occurs(AllCalls(ms[..i + 1]), x) == Occurs(AllCalls(ms[..i]), x) + Calls(CallBlocks(ms[i]), x)
  {
    hide AllCalls, Occurs, IdsOf, Calls;
    AllCallsStep(ms, i);
    OccursAppend(AllCalls(ms[..i]), IdsOf(CallBlocks(ms[i])), x);
    OccursIds(CallBlocks(ms[i]), x);
  }

  lemma PairedCount(ms: seq<Message>, j: nat, x: Id)
    requires WellPaired(ms) && j < |ms| && j <= LastMove(ms)
    ensures Results(ReplyBlocks(ms[j]), x) == Due(ms, [], j, x)
  {
    hide LateReplies, LateDue, AllLead, LastMove;
    NoneDue(x);
    if ReplyBlocks(ms[j]) == [] {
      assert !(Due(ms, [], j, x) > 0);
    }
  }

  /** In a well-paired history every call before a message has been answered before that message. */
  lemma {:induction false} InStep(ms: seq<Message>, j: nat, x: Id)
    requires WellPaired(ms) && j <= LastMove(ms) + 1
    ensures RepliesBetween(ms, 0, j, x) == if j == 0 then 0 else Occurs(AllCalls(ms[..j - 1]), x)
    decreases j
  {
    hide WellPaired, LastMove, Occurs, AllCalls, Results, Calls;
    if j > 0 {
      InStep(ms, j - 1, x);
      PairedCount(ms, j - 1, x);
      NoneDue(x);
      if j > 1 {
        CallsTotal(ms, j - 2, x);
      } else {
        NoCallsYet(ms, x);
      }
    }
  }

  lemma NoCallsYet(ms: seq<Message>, x: Id)
    ensures Occurs(AllCalls(ms[..0]), x) == 0
  {
  }

  /** The call of `x` with `r` calls of `x` before it in its message. */
  function NthCall(bs: seq<Block>, x: Id, r: nat): (b: nat)
    requires r < Calls(bs, x)
    ensures b < |bs| && bs[b].Call? && bs[b].id == x && Calls(bs[..b], x) == r
  {
    var k := |bs| - 1;
    if bs[k].Call? && bs[k].id == x && Calls(bs[..k], x) == r then k
    else
      var b := NthCall(bs[..k], x, r);
      assert bs[..k][..b] == bs[..b];
      b
  }

  /** Which result of its id a result is, counting from the message after the one that owes it. */
  function Rank(ms: seq<Message>, j: nat, b: nat): nat
    requires IsReply(ms, j, b)
  {
    var x := ReplyBlocks(ms[j])[b].id;
    (if j <= LastMove(ms) then 0 else RepliesBetween(ms, LastMove(ms) + 1, j, x)) + Results(ReplyBlocks(ms[j])[..b], x)
  }

  /** The message that owes the results of message `j`. */
  function Debtor(ms: seq<Message>, j: nat): int {
    if j <= LastMove(ms) then j - 1 else LastMove(ms)
  }

  lemma {:induction false} RepliesJoin(ms: seq<Message>, lo: nat, mid: nat, hi: nat, x: Id)
    requires lo <= mid <= hi <= |ms|
    ensures RepliesBetween(ms, lo, hi, x) == RepliesBetween(ms, lo, mid, x) + RepliesBetween(ms, mid, hi, x)
    decreases hi
  {
    if mid < hi {
      RepliesJoin(ms, lo, mid, hi - 1, x);
    }
  }

  /** In a well-paired history each result has its call: same id, same rank. */
  lemma ReplyHasCall(ms: seq<Message>, j: nat, b: nat) returns (cb: nat)
    requires WellPaired(ms) && IsReply(ms, j, b)
    ensures var i, x := Debtor(ms, j), ReplyBlocks(ms[j])[b].id;
      && i >= 0 && IsCall(ms, i, cb) && CallBlocks(ms[i])[cb].id == x
      && Calls(CallBlocks(ms[i])[..cb], x) == Rank(ms, j, b)
  {
    hide RepliesBetween, AllLead;
    var bs := ReplyBlocks(ms[j]);
    var x := bs[b].id;
    RankBelow(bs, b);
    NoneDue(x);
    var n := LastMove(ms);
    if j <= n {
      PairedCount(ms, j, x);
      cb := NthCall(CallBlocks(ms[j - 1]), x, Rank(ms, j, b));
    } else {
      assert LateReplies(ms, x) <= LateDue(ms, [], x);
      RepliesMono(ms, n + 1, j + 1, |ms|, x);
      LateSplit(ms, n + 1, j, x);
      cb := NthCall(CallBlocks(ms[n]), x, Rank(ms, j, b));
    }
  }

  /** The turn of a result among all results of its id. */
  lemma ReplyTurn(ms: seq<Message>, j: nat, b: nat)
    requires WellPaired(ms) && IsReply(ms, j, b) && Debtor(ms, j) >= 0
    ensures var x := ReplyBlocks(ms[j])[b].id;
      RepliesBetween(ms, 0, j, x) + Results(ReplyBlocks(ms[j])[..b], x)
        == Occurs(AllCalls(ms[..Debtor(ms, j)]), x) + Rank(ms, j, b)
  {
    hide WellPaired, Occurs, AllCalls, Results, RepliesBetween;
    var x := ReplyBlocks(ms[j])[b].id;
    var n := LastMove(ms);
    if j <= n {
      InStep(ms, j, x);
    } else {
      InStep(ms, n + 1, x);
      RepliesJoin(ms, 0, n + 1, j, x);
    }
  }

  lemma NewReply(ms: seq<Message>, j: nat, b: nat)
    requires IsReply(ms, j, b)
    ensures var x := ReplyBlocks(ms[j])[b].id;
      NewBlock(ms, Renames(ms), j, b)
        == Result(NewId(Renames(ms), x, RepliesBetween(ms, 0, j, x) + Results(ReplyBlocks(ms[j])[..b], x) + 1),
                  ReplyBlocks(ms[j])[b].body)
  {
    hide Allot, NewId, RepliesBetween, Results;
  }

  /** A result and its call are given the same id. */
  lemma ReplyFollowsCall(ms: seq<Message>, j: nat, b: nat) returns (cb: nat)
    requires WellPaired(ms) && IsReply(ms, j, b)
    ensures var i, out := Debtor(ms, j), Deduped(ms);
      && i >= 0 && IsCall(ms, i, cb) && CallBlocks(ms[i])[cb].id == ReplyBlocks(ms[j])[b].id
      && Calls(CallBlocks(ms[i])[..cb], CallBlocks(ms[i])[cb].id) == Rank(ms, j, b)
      && IsReply(out, j, b) && IsCall(out, i, cb)
      && ReplyBlocks(out[j])[b].id == CallBlocks(out[i])[cb].id
      && ReplyBlocks(out[j])[b].body == ReplyBlocks(ms[j])[b].body
  {
    hide WellPaired, Deduped, Allot, Occurs, AllCalls, Results, Calls, RepliesBetween, Rank, Debtor, NewId, At;
    cb := ReplyHasCall(ms, j, b);
    var i := Debtor(ms, j);
    ReplyTurn(ms, j, b);
    NewReply(ms, j, b);
    NewCall(ms, i, cb);
    LengthKept(ms);
    RenamedBlocks(ms, i);
    RenamedBlocks(ms, j);
  }

  /** A call before the last move has its result at once. */
  lemma CallHasReply(ms: seq<Message>, i: nat, cb: nat) returns (b: nat)
    requires WellPaired(ms) && IsCall(ms, i, cb) && i < LastMove(ms)
    ensures var x := CallBlocks(ms[i])[cb].id;
      && IsReply(ms, i + 1, b) && ReplyBlocks(ms[i + 1])[b].id == x && b < Lead(ReplyBlocks(ms[i + 1]))
      && Rank(ms, i + 1, b) == Calls(CallBlocks(ms[i])[..cb], x)
  {
    hide RepliesBetween, LateReplies, LateDue;
    var bs, cs := CallBlocks(ms[i]), ReplyBlocks(ms[i + 1]);
    var x := bs[cb].id;
    CallsStep(bs, cb, x);
    CallsMono(bs, cb + 1, |bs|, x);
    PairedCount(ms, i + 1, x);
    b := Nth(cs, x, Calls(bs[..cb], x));
    assert AllLead(cs);
  }

  /** Two results of one message with the same id and rank are one. */
  lemma SameRankSameReply(ms: seq<Message>, j: nat, a: nat, b: nat)
    requires IsReply(ms, j, a) && IsReply(ms, j, b) && ReplyBlocks(ms[j])[a].id == ReplyBlocks(ms[j])[b].id
    requires Rank(ms, j, a) == Rank(ms, j, b)
    ensures a == b
  {
    hide RepliesBetween, LastMove;
    var bs := ReplyBlocks(ms[j]);
    if a < b {
      RankOrder(bs, a, b, bs[a].id);
    } else if b < a {
      RankOrder(bs, b, a, bs[a].id);
    }
  }

  lemma ReplyBack(ms: seq<Message>, j: nat, b: nat)
    requires IsReply(Deduped(ms), j, b)
    ensures IsReply(ms, j, b)
  {
    LengthKept(ms);
    hide Deduped;
    RenamedKinds(ms, j);
  }

  // ---- The result ----

  predicate Carries(out: seq<Message>, j: nat, b: nat, x: Id) {
    IsReply(out, j, b) && ReplyBlocks(out[j])[b].id == x
  }

  /** The result at `b`, among the leading ones, is the only one of `x` in message `j`. */
  ghost predicate OnlyResult(out: seq<Message>, j: nat, x: Id, b: nat) {
    Carries(out, j, b, x) && b < Lead(ReplyBlocks(out[j])) && forall c: nat :: Carries(out, j, c, x) ==> c == b
  }

  ghost predicate AnsweredOnce(out: seq<Message>, i: nat, cb: nat, b: nat)
    requires IsCall(out, i, cb)
  {
    OnlyResult(out, i + 1, CallBlocks(out[i])[cb].id, b)
  }

  /** Every call but those of the last exchange is answered exactly once, at once and first; ids are
      unique; and every result answers a call of the message before it or of the last exchange. */
  ghost predicate Clean(out: seq<Message>) {
    && (forall i: nat, a: nat, k: nat, b: nat :: IsCall(out, i, a) && IsCall(out, k, b) && (i, a) != (k, b) ==>
          CallBlocks(out[i])[a].id != CallBlocks(out[k])[b].id)
    && (forall i: nat, cb: nat :: IsCall(out, i, cb) && i < LastMove(out) ==>
        exists b: nat :: AnsweredOnce(out, i, cb, b))
    && (forall j: nat, b: nat :: IsReply(out, j, b) ==> HasCall(out, j, b))
  }

  ghost predicate HasCall(out: seq<Message>, j: nat, b: nat)
    requires IsReply(out, j, b)
  {
    Debtor(out, j) >= 0 && exists cb: nat ::
      IsCall(out, Debtor(out, j), cb) && CallBlocks(out[Debtor(out, j)])[cb].id == ReplyBlocks(out[j])[b].id
  }

  lemma RenamedAnswered(ms: seq<Message>, i: nat, cb: nat) returns (b: nat)
    requires WellPaired(ms) && IsCall(Deduped(ms), i, cb) && i < LastMove(ms)
    ensures AnsweredOnce(Deduped(ms), i, cb, b)
    ensures IsCall(ms, i, cb) && IsReply(ms, i + 1, b)
         && ReplyBlocks(ms[i + 1])[b].id == CallBlocks(ms[i])[cb].id
         && Rank(ms, i + 1, b) == Calls(CallBlocks(ms[i])[..cb], CallBlocks(ms[i])[cb].id)
  {
    hide WellPaired, Deduped, Lead, Rank, Calls;
    var out := Deduped(ms);
    CallBack(ms, i, cb);
    b := CallHasReply(ms, i, cb);
    var mine := ReplyFollowsCall(ms, i + 1, b);
    LengthKept(ms);
    RenamedKinds(ms, i + 1);
    SameCall(ms, i, cb, mine);
    var j, x := i + 1, CallBlocks(out[i])[cb].id;
    forall c: nat | Carries(out, j, c, x) ensures c == b {
      ReplyBack(ms, i + 1, c);
      var its := ReplyFollowsCall(ms, i + 1, c);
      if its != cb {
        RenamedCallsDiffer(ms, i, its, i, cb);
      }
      SameRankSameReply(ms, i + 1, b, c);
    }
  }

  lemma SameCall(ms: seq<Message>, i: nat, a: nat, b: nat)
    requires IsCall(ms, i, a) && IsCall(ms, i, b) && CallBlocks(ms[i])[a].id == CallBlocks(ms[i])[b].id
    requires Calls(CallBlocks(ms[i])[..a], CallBlocks(ms[i])[a].id)
      == Calls(CallBlocks(ms[i])[..b], CallBlocks(ms[i])[b].id)
    ensures a == b
  {
    if a != b {
      CallRanksDiffer(CallBlocks(ms[i]), a, b, CallBlocks(ms[i])[a].id);
    }
  }

  lemma RenamedClean(ms: seq<Message>)
    requires WellPaired(ms)
    ensures Clean(Deduped(ms))
  {
    hide WellPaired, Deduped, LastMove, AnsweredOnce;
    var out := Deduped(ms);
    LengthKept(ms);
    RenamedLastMove(ms);
    forall i: nat, a: nat, k: nat, b: nat | IsCall(out, i, a) && IsCall(out, k, b) && (i, a) != (k, b)
      ensures CallBlocks(out[i])[a].id != CallBlocks(out[k])[b].id
    {
      RenamedCallsDiffer(ms, i, a, k, b);
    }
    forall i: nat, cb: nat | IsCall(out, i, cb) && i < LastMove(out)
      ensures exists b: nat :: AnsweredOnce(out, i, cb, b)
    {
      var b := RenamedAnswered(ms, i, cb);
    }
    forall j: nat, b: nat | IsReply(out, j, b) ensures HasCall(out, j, b) {
      ReplyBack(ms, j, b);
      var cb := ReplyFollowsCall(ms, j, b);
      assert Debtor(out, j) == Debtor(ms, j);
    }
  }

  lemma {:induction false} TurnsAreFirst(ids: seq<Id>, k: nat)
    requires !HasDuplicate(ids) && k <= |ids|
    ensures Allot(ids, k).renamed == map[]
    decreases k
  {
    if k > 0 {
      TurnsAreFirst(ids, k - 1);
      FirstTurn(ids, k - 1);
    }
  }

  lemma FirstTurn(ids: seq<Id>, k: nat)
    requires !HasDuplicate(ids) && k < |ids|
    ensures Turn(ids, k) == 1
  {
    var x := ids[k];
    OccursAppend(ids[..k], ids[k..], x);
    assert ids[..k] + ids[k..] == ids;
    OccursAppend([x], ids[k + 1..], x);
    assert [x] + ids[k + 1..] == ids[k..];
    OccursOne([x], x);
    assert Occurs(ids, x) <= 1;
  }

  /** Where no id is called twice, renaming changes nothing. */
  lemma NothingRenamed(ms: seq<Message>)
    requires Dedup(ms).None?
    ensures Deduped(ms) == ms
  {
    TurnsAreFirst(AllCalls(ms), |AllCalls(ms)|);
    forall i | 0 <= i < |ms| ensures Deduped(ms)[i] == ms[i] {
      if ms[i].content.Blocks? {
        assert Deduped(ms)[i].content.blocks == ms[i].content.blocks;
      }
    }
  }

  // ---- Nothing more to do ----

  predicate IsResultOf(bs: seq<Block>, b: nat, y: Id) {
    b < |bs| && bs[b].Result? && bs[b].id == y
  }

  predicate IsCallOf(bs: seq<Block>, b: nat, y: Id) {
    b < |bs| && bs[b].Call? && bs[b].id == y
  }

  lemma ResultThere(bs: seq<Block>, y: Id)
    ensures Results(bs, y) > 0 <==> exists b: nat :: IsResultOf(bs, b, y)
  {
    if Results(bs, y) > 0 {
      assert IsResultOf(bs, Nth(bs, y, 0), y);
    }
    if b: nat :| IsResultOf(bs, b, y) {
      RankBelow(bs, b);
    }
  }

  lemma ResultOnce(bs: seq<Block>, y: Id)
    requires forall a: nat, b: nat :: IsResultOf(bs, a, y) && IsResultOf(bs, b, y) ==> a == b
    ensures Results(bs, y) <= 1
  {
    assert Results(bs, y) > 1 ==> IsResultOf(bs, Nth(bs, y, 0), y) && IsResultOf(bs, Nth(bs, y, 1), y);
  }

  lemma CallThere(bs: seq<Block>, y: Id)
    ensures Calls(bs, y) > 0 <==> exists b: nat :: IsCallOf(bs, b, y)
  {
    if Calls(bs, y) > 0 {
      assert IsCallOf(bs, NthCall(bs, y, 0), y);
    }
    if b: nat :| IsCallOf(bs, b, y) {
      CallsStep(bs, b, y);
      CallsMono(bs, b + 1, |bs|, y);
    }
  }

  lemma CallOnce(bs: seq<Block>, y: Id)
    requires forall a: nat, b: nat :: IsCallOf(bs, a, y) && IsCallOf(bs, b, y) ==> a == b
    ensures Calls(bs, y) <= 1
  {
    assert Calls(bs, y) > 1 ==> IsCallOf(bs, NthCall(bs, y, 0), y) && IsCallOf(bs, NthCall(bs, y, 1), y);
  }

  /** Two results with one new id are the same result, wherever they stand after the same message. */
  lemma RenamedRepliesDiffer(ms: seq<Message>, j: nat, a: nat, k: nat, b: nat)
    requires WellPaired(ms) && IsReply(Deduped(ms), j, a) && IsReply(Deduped(ms), k, b)
    requires j <= k && Debtor(ms, j) == Debtor(ms, k)
    requires ReplyBlocks(Deduped(ms)[j])[a].id == ReplyBlocks(Deduped(ms)[k])[b].id
    ensures j == k && a == b
  {
    hide WellPaired, Deduped, Lead, Rank, Calls;
    ReplyBack(ms, j, a);
    ReplyBack(ms, k, b);
    var c := ReplyFollowsCall(ms, j, a);
    var d := ReplyFollowsCall(ms, k, b);
    var i := Debtor(ms, j);
    if c != d {
      RenamedCallsDiffer(ms, i, c, i, d);
    }
    RanksApart(ms, j, a, k, b);
  }

  lemma RanksApart(ms: seq<Message>, j: nat, a: nat, k: nat, b: nat)
    requires IsReply(ms, j, a) && IsReply(ms, k, b) && j <= k && Debtor(ms, j) == Debtor(ms, k)
    requires ReplyBlocks(ms[j])[a].id == ReplyBlocks(ms[k])[b].id && Rank(ms, j, a) == Rank(ms, k, b)
    ensures j == k && a == b
  {
    hide RepliesBetween, Results;
    var x := ReplyBlocks(ms[j])[a].id;
    if j == k {
      SameRankSameReply(ms, j, a, b);
    } else {
      RankBelow(ReplyBlocks(ms[j]), a);
      LateSplit(ms, LastMove(ms) + 1, j, x);
      RepliesMono(ms, LastMove(ms) + 1, j + 1, k, x);
    }
  }

  lemma RenamedPairs(ms: seq<Message>, j: nat, y: Id)
    requires WellPaired(ms) && j < |ms| && j <= LastMove(ms)
    ensures |Deduped(ms)| == |ms|
    ensures Results(ReplyBlocks(Deduped(ms)[j]), y) == Due(Deduped(ms), [], j, y)
  {
    hide WellPaired, Deduped, Lead, Results, Calls;
    var out := Deduped(ms);
    LengthKept(ms);
    NoneDue(y);
    ResultThere(ReplyBlocks(out[j]), y);
    RepliesOnce(ms, j, y);
    RepliesAreOwed(ms, j, y);
    if j > 0 {
      RenamedCallOnce(ms, j - 1, y);
      var bs := CallBlocks(out[j - 1]);
      CallThere(bs, y);
      if cb: nat :| IsCallOf(bs, cb, y) {
        var b := RenamedAnswered(ms, j - 1, cb);
        assert IsResultOf(ReplyBlocks(out[j]), b, y);
      }
    }
  }

  lemma RepliesAreOwed(ms: seq<Message>, j: nat, y: Id)
    requires WellPaired(ms) && j < |ms|
    ensures |Deduped(ms)| == |ms|
    ensures Results(ReplyBlocks(Deduped(ms)[j]), y) > 0 ==>
      Debtor(ms, j) >= 0 && Calls(CallBlocks(Deduped(ms)[Debtor(ms, j)]), y) > 0
  {
    hide WellPaired, Deduped, Results, Calls;
    var out := Deduped(ms);
    LengthKept(ms);
    ResultThere(ReplyBlocks(out[j]), y);
    if b: nat :| IsResultOf(ReplyBlocks(out[j]), b, y) {
      ReplyBack(ms, j, b);
      var cb := ReplyFollowsCall(ms, j, b);
      assert IsCallOf(CallBlocks(out[Debtor(ms, j)]), cb, y);
      CallThere(CallBlocks(out[Debtor(ms, j)]), y);
    }
  }

  lemma RenamedCallOnce(ms: seq<Message>, i: nat, y: Id)
    requires i < |ms|
    ensures |Deduped(ms)| == |ms| && Calls(CallBlocks(Deduped(ms)[i]), y) <= 1
  {
    hide Deduped, Calls;
    var out := Deduped(ms);
    LengthKept(ms);
    var bs := CallBlocks(out[i]);
    forall a: nat, b: nat | IsCallOf(bs, a, y) && IsCallOf(bs, b, y) ensures a == b {
      if a != b {
        RenamedCallsDiffer(ms, i, a, i, b);
      }
    }
    CallOnce(bs, y);
  }

  /** After the last move too, no new id has more results than calls. */
  lemma {:induction false} RenamedLate(ms: seq<Message>, hi: nat, y: Id)
    requires WellPaired(ms) && LastMove(ms) + 1 <= hi <= |ms|
    ensures |Deduped(ms)| == |ms|
    ensures RepliesBetween(Deduped(ms), LastMove(ms) + 1, hi, y) <= 1
    ensures RepliesBetween(Deduped(ms), LastMove(ms) + 1, hi, y) > 0 ==>
      exists j :: LastMove(ms) < j < hi && Results(ReplyBlocks(Deduped(ms)[j]), y) > 0
    decreases hi
  {
    hide WellPaired, Deduped, Results;
    var out, lo := Deduped(ms), LastMove(ms) + 1;
    LengthKept(ms);
    if lo < hi {
      RenamedLate(ms, hi - 1, y);
      var k := hi - 1;
      RepliesOnce(ms, k, y);
      if j :| LastMove(ms) < j < k && Results(ReplyBlocks(out[j]), y) > 0 {
        if Results(ReplyBlocks(out[k]), y) > 0 {
          var a, b := Nth(ReplyBlocks(out[j]), y, 0), Nth(ReplyBlocks(out[k]), y, 0);
          RenamedRepliesDiffer(ms, j, a, k, b);
        }
      }
    }
  }

  lemma RepliesOnce(ms: seq<Message>, k: nat, y: Id)
    requires WellPaired(ms) && k < |ms|
    ensures |Deduped(ms)| == |ms| && Results(ReplyBlocks(Deduped(ms)[k]), y) <= 1
  {
    hide WellPaired, Deduped, Results;
    LengthKept(ms);
    var bs := ReplyBlocks(Deduped(ms)[k]);
    forall a: nat, b: nat | IsResultOf(bs, a, y) && IsResultOf(bs, b, y) ensures a == b {
      if a <= b {
        RenamedRepliesDiffer(ms, k, a, k, b);
      } else {
        RenamedRepliesDiffer(ms, k, b, k, a);
      }
    }
    ResultOnce(bs, y);
  }

  lemma RenamedLateOwed(ms: seq<Message>, y: Id)
    requires WellPaired(ms)
    ensures LateReplies(Deduped(ms), y) <= LateDue(Deduped(ms), [], y)
  {
    hide WellPaired, Deduped, Results, RepliesBetween, Calls;
    LengthKept(ms);
    RenamedLastMove(ms);
    RenamedLate(ms, |ms|, y);
    if j :| LastMove(ms) < j < |ms| && Results(ReplyBlocks(Deduped(ms)[j]), y) > 0 {
      RepliesAreOwed(ms, j, y);
    }
  }

  lemma RenamedLeads(ms: seq<Message>, j: nat)
    requires j < |ms| && AllLead(ReplyBlocks(ms[j]))
    ensures |Deduped(ms)| == |ms| && AllLead(ReplyBlocks(Deduped(ms)[j]))
  {
    hide Deduped, Lead;
    LengthKept(ms);
    RenamedKinds(ms, j);
    var bs, cs := ReplyBlocks(ms[j]), ReplyBlocks(Deduped(ms)[j]);
    forall b | 0 <= b < |cs| && cs[b].Result? ensures b < Lead(cs) {
      assert SameKind(cs[b], bs[b]);
    }
  }

  /** Renaming keeps a well-paired history well paired. */
  lemma RenamedWellPaired(ms: seq<Message>)
    requires WellPaired(ms)
    ensures WellPaired(Deduped(ms))
  {
    var out := Deduped(ms);
    assert forall j :: 0 <= j <= LastMove(ms) ==> AllLead(ReplyBlocks(ms[j]));
    hide WellPaired, Deduped, AllLead, LateReplies, LateDue, LastMove, Results, Calls;
    LengthKept(ms);
    RenamedLastMove(ms);
    forall j, x | 0 <= j <= LastMove(out)
      ensures Results(ReplyBlocks(out[j]), x) == Due(out, [], j, x)
      ensures Due(out, [], j, x) > 0 ==> ReplyBlocks(out[j]) != []
    {
      RenamedPairs(ms, j, x);
      NoneDue(x);
    }
    forall j | 0 <= j <= LastMove(out) ensures AllLead(ReplyBlocks(out[j])) { RenamedLeads(ms, j); }
    forall x ensures LateReplies(out, x) <= LateDue(out, [], x) { RenamedLateOwed(ms, x); }
    assert PairedAfter(out, []);
    IsWellPaired(out);
  }

  lemma IsWellPaired(out: seq<Message>)
    requires PairedAfter(out, [])
    ensures WellPaired(out)
  {
  }

  lemma NoDuplicateNow(ms: seq<Message>)
    ensures !HasDuplicate(AllCalls(Deduped(ms)))
  {
    hide Deduped, Occurs, AllCalls;
    var out := Deduped(ms);
    if x :| Occurs(AllCalls(out), x) > 1 {
      var a := NthOccurrence(AllCalls(out), x, 0);
      var b := NthOccurrence(AllCalls(out), x, 1);
      var i, c := CallAt(out, a);
      var k, d := CallAt(out, b);
      RenamedCallsDiffer(ms, i, c, k, d);
    }
  }

  lemma {:induction false} NthOccurrence(ids: seq<Id>, x: Id, r: nat) returns (k: nat)
    requires r < Occurs(ids, x)
    ensures k < |ids| && ids[k] == x && Occurs(ids[..k], x) == r
  {
    k := |ids| - 1;
    if !(ids[k] == x && Occurs(ids[..k], x) == r) {
      var l := NthOccurrence(ids[..k], x, r);
      assert ids[..k][..l] == ids[..l];
      k := l;
    }
  }

  /** Every place in the line is some call's. */
  lemma {:induction false} CallAt(ms: seq<Message>, k: nat) returns (i: nat, cb: nat)
    requires k < |AllCalls(ms)|
    ensures IsCall(ms, i, cb) && At(ms, i, cb) == k && CallBlocks(ms[i])[cb].id == AllCalls(ms)[k]
    decreases |ms|
  {
    var n := |ms| - 1;
    var before := AllCalls(ms[..n]);
    if k < |before| {
      i, cb := CallAt(ms[..n], k);
      assert ms[..n][..i] == ms[..i];
    } else {
      i := n;
      cb := IdAt(CallBlocks(ms[n]), k - |before|);
    }
  }

  lemma {:induction false} IdAt(bs: seq<Block>, k: nat) returns (cb: nat)
    requires k < |IdsOf(bs)|
    ensures cb < |bs| && bs[cb].Call? && bs[cb].id == IdsOf(bs)[k] && |IdsOf(bs[..cb])| == k
  {
    var n := |bs| - 1;
    if k < |IdsOf(bs[..n])| {
      cb := IdAt(bs[..n], k);
      assert bs[..n][..cb] == bs[..cb];
    } else {
      cb := n;
    }
  }
}
