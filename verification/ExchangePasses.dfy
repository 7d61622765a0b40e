/** The passes of the repair as functions of the calls gone through so far, and why together they
    find the answers: a call takes the first free result of its id, and the results taken before it
    are exactly those of smaller rank. First come the calls that position can serve, then, in their
    stretches, the others. */
module ExchangePasses {
  import opened Text
  import opened History
  import opened Exchange
  import opened ExchangeLaws
  import opened ExchangeConserves
  import opened Structure

  // ---- Calls in order ----

  function CallsIn(ms: seq<Message>, i: nat, cb: nat): seq<Pos>
    requires i < |ms| && cb <= |CallBlocks(ms[i])|
    decreases cb
  {
    if cb == 0 then []
    else CallsIn(ms, i, cb - 1) + if CallBlocks(ms[i])[cb - 1].Call? then [(i, cb - 1)] else []
  }

  function CallsBefore(ms: seq<Message>, i: nat): seq<Pos>
    requires i <= |ms|
    decreases i
  {
    if i == 0 then [] else CallsBefore(ms, i - 1) + CallsIn(ms, i - 1, |CallBlocks(ms[i - 1])|)
  }

  /** All calls before block `cb` of message `i`. */
  function CallsTo(ms: seq<Message>, i: nat, cb: nat): seq<Pos>
    requires i < |ms| && cb <= |CallBlocks(ms[i])|
  {
    CallsBefore(ms, i) + CallsIn(ms, i, cb)
  }

  predicate AreCalls(ms: seq<Message>, cs: seq<Pos>) {
    forall c <- cs :: IsCall(ms, c.0, c.1)
  }

  lemma {:induction false} CallsInAre(ms: seq<Message>, i: nat, cb: nat)
    requires i < |ms| && cb <= |CallBlocks(ms[i])|
    ensures AreCalls(ms, CallsIn(ms, i, cb))
    ensures forall c: Pos :: c in CallsIn(ms, i, cb) <==> c.0 == i && c.1 < cb && IsCall(ms, i, c.1)
    decreases cb
  {
    if cb > 0 {
      CallsInAre(ms, i, cb - 1);
    }
  }

  lemma {:induction false} CallsBeforeAre(ms: seq<Message>, i: nat)
    requires i <= |ms|
    ensures AreCalls(ms, CallsBefore(ms, i))
    ensures forall c: Pos :: c in CallsBefore(ms, i) <==> c.0 < i && IsCall(ms, c.0, c.1)
    decreases i
  {
    if i > 0 {
      CallsBeforeAre(ms, i - 1);
      CallsInAre(ms, i - 1, |CallBlocks(ms[i - 1])|);
    }
  }

  lemma CallsToAre(ms: seq<Message>, i: nat, cb: nat)
    requires i < |ms| && cb <= |CallBlocks(ms[i])|
    ensures AreCalls(ms, CallsTo(ms, i, cb))
    ensures forall c: Pos :: c in CallsTo(ms, i, cb) <==> IsCall(ms, c.0, c.1) && (c.0 < i || (c.0 == i && c.1 < cb))
  {
    CallsBeforeAre(ms, i);
    CallsInAre(ms, i, cb);
  }

  // ---- What the passes record ----

  predicate Near(ms: seq<Message>, c: Pos)
    requires IsCall(ms, c.0, c.1)
  {
    Answer(ms, c.0, c.1).Some? && Answer(ms, c.0, c.1).value.0 == c.0 + 1
  }

  /** The result call `c` takes, if any; by position only, if `near`. */
  function TakenBy(ms: seq<Message>, c: Pos, near: bool): set<Pos>
    requires IsCall(ms, c.0, c.1)
  {
    var a := Answer(ms, c.0, c.1);
    if a.Some? && (near ==> Near(ms, c)) then {a.value} else {}
  }

  function Taken(ms: seq<Message>, cs: seq<Pos>, near: bool): set<Pos>
    requires AreCalls(ms, cs)
  {
    if cs == [] then {} else Taken(ms, cs[..|cs| - 1], near) + TakenBy(ms, cs[|cs| - 1], near)
  }

  /** The calls position finds nothing for. */
  function Missing(ms: seq<Message>, cs: seq<Pos>): (r: seq<Pos>)
    requires AreCalls(ms, cs)
    ensures AreCalls(ms, r)
    ensures forall c :: c in r <==> c in cs && !Near(ms, c)
  {
    if cs == [] then []
    else Missing(ms, cs[..|cs| - 1]) + if Near(ms, cs[|cs| - 1]) then [] else [cs[|cs| - 1]]
  }

  /** The answer of a call is where it belongs. */
  predicate InPlaceFor(ms: seq<Message>, c: Pos)
    requires IsCall(ms, c.0, c.1)
  {
    Near(ms, c) && Answer(ms, c.0, c.1).value.1 < Lead(ReplyBlocks(ms[c.0 + 1]))
  }

  /** An answer moves if its call is before the last move and it is not in place. */
  function MovedBy(ms: seq<Message>, c: Pos, near: bool): set<Pos>
    requires IsCall(ms, c.0, c.1)
  {
    if c.0 < LastMove(ms) && !InPlaceFor(ms, c) then TakenBy(ms, c, near) else {}
  }

  function Moved(ms: seq<Message>, cs: seq<Pos>, near: bool): set<Pos>
    requires AreCalls(ms, cs)
  {
    if cs == [] then {} else Moved(ms, cs[..|cs| - 1], near) + MovedBy(ms, cs[|cs| - 1], near)
  }

  /** Blocks to insert, under the call each is for. */
  function Plans(ms: seq<Message>, w: Wording, cs: seq<Pos>, near: bool): map<Pos, Block>
    requires AreCalls(ms, cs)
  {
    if cs == [] then map[]
    else
      var c: Pos := cs[|cs| - 1];
      var rest := Plans(ms, w, cs[..|cs| - 1], near);
      if (near ==> Near(ms, c)) && c.0 < LastMove(ms) && !InPlaceFor(ms, c) then
        rest[c := Given(ms, w, c.0, c.1)]
      else rest
  }

  lemma {:induction false} TakenAre(ms: seq<Message>, cs: seq<Pos>, near: bool, p: Pos)
    requires AreCalls(ms, cs)
    ensures p in Taken(ms, cs, near) <==> exists c :: c in cs && p in TakenBy(ms, c, near)
  {
    hide TakenBy;
    if cs != [] {
      var n := |cs| - 1;
      TakenAre(ms, cs[..n], near, p);
      assert forall c :: c in cs <==> c in cs[..n] || c == cs[n];
    }
  }

  lemma {:induction false} MovedAre(ms: seq<Message>, cs: seq<Pos>, near: bool, p: Pos)
    requires AreCalls(ms, cs)
    ensures p in Moved(ms, cs, near) <==> exists c :: c in cs && p in MovedBy(ms, c, near)
  {
    hide MovedBy;
    if cs != [] {
      var n := |cs| - 1;
      MovedAre(ms, cs[..n], near, p);
      assert forall c :: c in cs <==> c in cs[..n] || c == cs[n];
    }
  }

  lemma {:induction false} PlansAre(ms: seq<Message>, w: Wording, cs: seq<Pos>, near: bool, c: Pos)
    requires AreCalls(ms, cs)
    ensures c in Plans(ms, w, cs, near) <==>
      c in cs && (near ==> Near(ms, c)) && c.0 < LastMove(ms) && !InPlaceFor(ms, c)
    ensures c in Plans(ms, w, cs, near) ==> Plans(ms, w, cs, near)[c] == Given(ms, w, c.0, c.1)
  {
    hide Answer, InPlaceFor, Near, Given, LastMove, IsCall;
    if cs != [] {
      var n := |cs| - 1;
      PlansAre(ms, w, cs[..n], near, c);
      assert forall d :: d in cs <==> d in cs[..n] || d == cs[n];
    }
  }

  // ---- A free result is the answer ----

  /** A result of `x` at rank `q` after message `lo`, with no call of `x` between, is found there. */
  lemma {:induction false} FindAt(ms: seq<Message>, lo: nat, j: nat, b: nat, x: Id)
    requires lo <= j < |ms| && IsReply(ms, j, b) && ReplyBlocks(ms[j])[b].id == x
    requires forall k :: lo <= k <= j ==> Calls(CallBlocks(ms[k]), x) == 0
    ensures Find(ms, lo, x, RepliesBetween(ms, lo, j, x) + Results(ReplyBlocks(ms[j])[..b], x)) == Some((j, b))
    decreases j - lo
  {
    hide Nth, Results, Calls;
    if lo == j {
      RankBelow(ReplyBlocks(ms[j]), b);
      NoReplies(ms, j, x);
    } else {
      RepliesFirst(ms, lo, j, x);
      FindAt(ms, lo + 1, j, b, x);
    }
  }

  /** A reply of smaller rank than a call is the answer of an earlier call of its message. */
  lemma EarlierAnswer(ms: seq<Message>, i: nat, cb: nat, j: nat, b: nat) returns (c: nat)
    requires IsCall(ms, i, cb) && i < j && IsReply(ms, j, b) && ReplyBlocks(ms[j])[b].id == CallBlocks(ms[i])[cb].id
    requires var x := CallBlocks(ms[i])[cb].id;
      && (forall k :: i < k <= j ==> Calls(CallBlocks(ms[k]), x) == 0)
      && RepliesBetween(ms, i + 1, j, x) + Results(ReplyBlocks(ms[j])[..b], x) < Calls(CallBlocks(ms[i])[..cb], x)
    ensures c < cb && IsCall(ms, i, c) && Answer(ms, i, c) == Some((j, b))
  {
    hide Find, Results, RepliesBetween;
    var bs, x := CallBlocks(ms[i]), CallBlocks(ms[i])[cb].id;
    var q := RepliesBetween(ms, i + 1, j, x) + Results(ReplyBlocks(ms[j])[..b], x);
    FindAt(ms, i + 1, j, b, x);
    c := NthCall(bs[..cb], x, q);
    assert bs[..cb][..c] == bs[..c];
  }

  /** The stretch in which a call of `x` in message `i` may find its result ends before `stop`. */
  predicate Stretch(ms: seq<Message>, i: nat, stop: nat, x: Id) {
    && i < stop <= |ms|
    && (forall k :: i < k < stop ==> Calls(CallBlocks(ms[k]), x) == 0)
    && (stop < |ms| ==> Calls(CallBlocks(ms[stop]), x) > 0)
  }

  /** Every result of smaller rank is taken, in position or before. */
  predicate SmallerTaken(ms: seq<Message>, i: nat, cb: nat, stop: nat, taken: set<Pos>)
    requires IsCall(ms, i, cb)
  {
    forall c: nat :: c < cb && IsCall(ms, i, c) && CallBlocks(ms[i])[c].id == CallBlocks(ms[i])[cb].id ==>
      (Answer(ms, i, c).Some? && Answer(ms, i, c).value.0 < stop ==> Answer(ms, i, c).value in taken)
  }

  /** The first free result in the stretch is the answer. */
  lemma FreeIsAnswer(ms: seq<Message>, i: nat, cb: nat, stop: nat, taken: set<Pos>, j: nat, b: nat)
    requires IsCall(ms, i, cb) && i < j < stop && IsReply(ms, j, b)
    requires ReplyBlocks(ms[j])[b].id == CallBlocks(ms[i])[cb].id && (j, b) !in taken
    requires stop <= |ms| && forall k :: i < k < stop ==> Calls(CallBlocks(ms[k]), CallBlocks(ms[i])[cb].id) == 0
    requires SmallerTaken(ms, i, cb, stop, taken)
    ensures var a := Answer(ms, i, cb);
      a.Some? && (a.value == (j, b) || a.value.0 < j || (a.value.0 == j && a.value.1 < b))
  {
    hide Find, Results, RepliesBetween, Calls;
    var x := CallBlocks(ms[i])[cb].id;
    var q := RepliesBetween(ms, i + 1, j, x) + Results(ReplyBlocks(ms[j])[..b], x);
    var r := Calls(CallBlocks(ms[i])[..cb], x);
    if q < r {
      var c := EarlierAnswer(ms, i, cb, j, b);
      assert false;
    }
    FindAt(ms, i + 1, j, b, x);
    FindSmaller(ms, i + 1, x, r, q);
  }

  /** If something is found at a rank, something is found at every smaller rank, no later. */
  lemma {:induction false} FindSmaller(ms: seq<Message>, lo: nat, x: Id, r: nat, q: nat)
    requires r <= q && Find(ms, lo, x, q).Some?
    ensures Find(ms, lo, x, r).Some?
    ensures r < q ==>
      var (j, b) := Find(ms, lo, x, q).value;
      var (k, c) := Find(ms, lo, x, r).value;
      k < j || (k == j && c < b)
    decreases |ms| - lo
  {
    hide Nth, Results, Calls;
    var d := Results(ReplyBlocks(ms[lo]), x);
    if r >= d {
      FindSmaller(ms, lo + 1, x, r - d, q - d);
    } else if q < d && r < q {
      NthGrows(ReplyBlocks(ms[lo]), x, r, q);
    }
  }

  lemma NthGrows(bs: seq<Block>, x: Id, r: nat, q: nat)
    requires r < q < Results(bs, x)
    ensures Nth(bs, x, r) < Nth(bs, x, q)
  {
    var a, b := Nth(bs, x, r), Nth(bs, x, q);
    hide Nth;
    ResultsMono(bs, if a <= b then a else b, if a <= b then b else a, x);
  }

  // ---- By position ----

  lemma TakenElsewhere(ms: seq<Message>, cs: seq<Pos>, near: bool, c: Pos)
    requires AreCalls(ms, cs) && IsCall(ms, c.0, c.1) && c !in cs
    ensures Answer(ms, c.0, c.1).Some? ==> Answer(ms, c.0, c.1).value !in Taken(ms, cs, near)
  {
    hide Answer, Taken;
    var a := Answer(ms, c.0, c.1);
    if a.Some? {
      TakenAre(ms, cs, near, a.value);
      if d :| d in cs && a.value in TakenBy(ms, d, near) {
        AnswersDiffer(ms, c.0, c.1, d.0, d.1);
      }
    }
  }

  lemma AnswerIsReply(ms: seq<Message>, i: nat, cb: nat)
    requires IsCall(ms, i, cb)
    ensures Answer(ms, i, cb).Some? ==>
      var p := Answer(ms, i, cb).value;
      && i < p.0 && IsReply(ms, p.0, p.1) && ReplyBlocks(ms[p.0])[p.1].id == CallBlocks(ms[i])[cb].id
      && forall k :: i < k <= p.0 ==> Calls(CallBlocks(ms[k]), CallBlocks(ms[i])[cb].id) == 0
  {
    hide Find;
    FindRank(ms, i + 1, CallBlocks(ms[i])[cb].id, Calls(CallBlocks(ms[i])[..cb], CallBlocks(ms[i])[cb].id));
  }

  lemma NearSmaller(ms: seq<Message>, i: nat, cb: nat)
    requires IsCall(ms, i, cb)
    ensures AreCalls(ms, CallsTo(ms, i, cb)) && (i, cb) !in CallsTo(ms, i, cb)
    ensures SmallerTaken(ms, i, cb, i + 2, Taken(ms, CallsTo(ms, i, cb), true))
  {
    hide Answer, Taken;
    CallsToAre(ms, i, cb);
    var cs := CallsTo(ms, i, cb);
    forall c: nat | c < cb && IsCall(ms, i, c) && CallBlocks(ms[i])[c].id == CallBlocks(ms[i])[cb].id
      ensures Answer(ms, i, c).Some? && Answer(ms, i, c).value.0 < i + 2 ==>
        Answer(ms, i, c).value in Taken(ms, cs, true)
    {
      var d: Pos := (i, c);
      assert d in cs;
      AnswerIsReply(ms, i, c);
      if Answer(ms, i, c).Some? {
        TakenAre(ms, cs, true, Answer(ms, i, c).value);
      }
    }
  }

  lemma RepliesCallNothing(ms: seq<Message>, j: nat, b: nat, x: Id)
    requires IsReply(ms, j, b)
    ensures Calls(CallBlocks(ms[j]), x) == 0
  {
    NoneDue(x);
  }

  predicate FreeReply(ms: seq<Message>, j: nat, b: nat, x: Id, taken: set<Pos>) {
    IsReply(ms, j, b) && ReplyBlocks(ms[j])[b].id == x && (j, b) !in taken
  }

  /** The first result of the id in the next message that is still free is the answer. */
  lemma NearHit(ms: seq<Message>, i: nat, cb: nat, j: nat, x: Id, b: nat)
    requires IsCall(ms, i, cb) && AreCalls(ms, CallsTo(ms, i, cb)) && j == i + 1 && x == CallBlocks(ms[i])[cb].id
    requires FreeReply(ms, j, b, x, Taken(ms, CallsTo(ms, i, cb), true))
    requires forall c: nat :: c < b ==> !FreeReply(ms, j, c, x, Taken(ms, CallsTo(ms, i, cb), true))
    ensures Answer(ms, i, cb) == Some((j, b))
  {
    hide Answer, Taken, CallsTo;
    NearSmaller(ms, i, cb);
    RepliesCallNothing(ms, j, b, x);
    FreeIsAnswer(ms, i, cb, i + 2, Taken(ms, CallsTo(ms, i, cb), true), j, b);
    TakenElsewhere(ms, CallsTo(ms, i, cb), true, (i, cb));
    AnswerIsReply(ms, i, cb);
    var p := Answer(ms, i, cb).value;
    assert p.0 == j ==> FreeReply(ms, j, p.1, x, Taken(ms, CallsTo(ms, i, cb), true));
  }

  lemma OwnIsFree(ms: seq<Message>, i: nat, cb: nat)
    requires IsCall(ms, i, cb) && AreCalls(ms, CallsTo(ms, i, cb))
    ensures Near(ms, (i, cb)) ==>
      FreeReply(ms, i + 1, Answer(ms, i, cb).value.1, CallBlocks(ms[i])[cb].id, Taken(ms, CallsTo(ms, i, cb), true))
  {
    hide Answer, Taken, CallsTo;
    NearSmaller(ms, i, cb);
    TakenElsewhere(ms, CallsTo(ms, i, cb), true, (i, cb));
    AnswerIsReply(ms, i, cb);
  }

  lemma NearMiss(ms: seq<Message>, i: nat, cb: nat, j: nat, x: Id)
    requires IsCall(ms, i, cb) && AreCalls(ms, CallsTo(ms, i, cb)) && j == i + 1 && x == CallBlocks(ms[i])[cb].id
    requires forall c: nat :: !FreeReply(ms, j, c, x, Taken(ms, CallsTo(ms, i, cb), true))
    ensures !Near(ms, (i, cb))
  {
    hide Answer, Taken, CallsTo, FreeReply;
    OwnIsFree(ms, i, cb);
  }

  // ---- By stretch ----

  predicate Less(a: Pos, b: Pos) {
    a.0 < b.0 || (a.0 == b.0 && a.1 < b.1)
  }

  predicate InOrder(cs: seq<Pos>) {
    forall a, b :: 0 <= a < b < |cs| ==> Less(cs[a], cs[b])
  }

  lemma {:induction false} CallsInOrder(ms: seq<Message>, i: nat, cb: nat)
    requires i < |ms| && cb <= |CallBlocks(ms[i])|
    ensures InOrder(CallsIn(ms, i, cb))
    decreases cb
  {
    if cb > 0 {
      CallsInOrder(ms, i, cb - 1);
      CallsInAre(ms, i, cb - 1);
      var cs := CallsIn(ms, i, cb - 1);
      assert forall a :: 0 <= a < |cs| ==> cs[a] in cs;
    }
  }

  lemma OrderJoined(a: seq<Pos>, b: seq<Pos>)
    requires InOrder(a) && InOrder(b) && forall c, d :: c in a && d in b ==> Less(c, d)
    ensures InOrder(a + b)
  {
    forall x, y | 0 <= x < y < |a + b| ensures Less((a + b)[x], (a + b)[y]) {
      assert x < |a| ==> (a + b)[x] in a;
      assert y >= |a| ==> (a + b)[y] in b;
    }
  }

  lemma {:induction false} CallsBeforeInOrder(ms: seq<Message>, i: nat)
    requires i <= |ms|
    ensures InOrder(CallsBefore(ms, i))
    decreases i
  {
    hide InOrder, IsCall;
    OneInOrder((0, 0));
    if i > 0 {
      CallsBeforeInOrder(ms, i - 1);
      CallsBeforeAre(ms, i - 1);
      CallsInOrder(ms, i - 1, |CallBlocks(ms[i - 1])|);
      CallsInAre(ms, i - 1, |CallBlocks(ms[i - 1])|);
      OrderJoined(CallsBefore(ms, i - 1), CallsIn(ms, i - 1, |CallBlocks(ms[i - 1])|));
    }
  }

  lemma LastIsGreatest(cs: seq<Pos>, rest: seq<Pos>, last: Pos)
    requires InOrder(cs) && cs == rest + [last]
    ensures InOrder(rest) && forall c <- rest :: Less(c, last)
  {
    assert cs[|rest|] == last && forall i :: 0 <= i < |rest| ==> cs[i] == rest[i];
  }

  lemma OneInOrder(c: Pos)
    ensures InOrder([]) && InOrder([c])
  {
  }

  lemma {:induction false} MissingInOrder(ms: seq<Message>, cs: seq<Pos>)
    requires AreCalls(ms, cs) && InOrder(cs)
    ensures InOrder(Missing(ms, cs))
  {
    hide Near, InOrder, IsCall;
    OneInOrder((0, 0));
    if cs != [] {
      var n := |cs| - 1;
      OneInOrder(cs[n]);
      LastIsGreatest(cs, cs[..n], cs[n]);
      MissingInOrder(ms, cs[..n]);
      OrderJoined(Missing(ms, cs[..n]), if Near(ms, cs[n]) then [] else [cs[n]]);
    }
  }

  /** The results of `x`, in order. */
  function RepliesIn(bs: seq<Block>, j: nat, x: Id): seq<Pos> {
    if bs == [] then []
    else RepliesIn(bs[..|bs| - 1], j, x) + if IsResultOf(bs, |bs| - 1, x) then [(j, |bs| - 1)] else []
  }

  function RepliesTo(ms: seq<Message>, j: nat, x: Id): seq<Pos>
    requires j <= |ms|
    decreases j
  {
    if j == 0 then [] else RepliesTo(ms, j - 1, x) + RepliesIn(ReplyBlocks(ms[j - 1]), j - 1, x)
  }

  lemma {:induction false} RepliesInAre(bs: seq<Block>, j: nat, x: Id)
    ensures InOrder(RepliesIn(bs, j, x))
    ensures forall p :: p in RepliesIn(bs, j, x) <==> p.0 == j && IsResultOf(bs, p.1, x)
  {
    if bs != [] {
      var n := |bs| - 1;
      RepliesInAre(bs[..n], j, x);
      assert forall b: nat :: IsResultOf(bs, b, x) <==> IsResultOf(bs[..n], b, x) || (b == n && IsResultOf(bs, n, x));
      OrderJoined(RepliesIn(bs[..n], j, x), if IsResultOf(bs, n, x) then [(j, n)] else []);
    }
  }

  predicate IsReplyTo(ms: seq<Message>, p: Pos, x: Id) {
    IsReply(ms, p.0, p.1) && ReplyBlocks(ms[p.0])[p.1].id == x
  }

  lemma {:induction false} RepliesToMembers(ms: seq<Message>, j: nat, x: Id)
    requires j <= |ms|
    ensures forall p :: p in RepliesTo(ms, j, x) <==> p.0 < j && IsReplyTo(ms, p, x)
    decreases j
  {
    hide RepliesIn, InOrder;
    if j > 0 {
      RepliesToMembers(ms, j - 1, x);
      RepliesInAre(ReplyBlocks(ms[j - 1]), j - 1, x);
    }
  }

  lemma {:induction false} RepliesToAre(ms: seq<Message>, j: nat, x: Id)
    requires j <= |ms|
    ensures InOrder(RepliesTo(ms, j, x))
    ensures forall p :: p in RepliesTo(ms, j, x) <==> p.0 < j && IsReplyTo(ms, p, x)
    decreases j
  {
    hide RepliesIn, InOrder, IsReplyTo, IsResultOf;
    RepliesToMembers(ms, j, x);
    if j > 0 {
      RepliesToAre(ms, j - 1, x);
      RepliesInAre(ReplyBlocks(ms[j - 1]), j - 1, x);
      OrderJoined(RepliesTo(ms, j - 1, x), RepliesIn(ReplyBlocks(ms[j - 1]), j - 1, x));
    } else {
      EmptyInOrder();
    }
  }

  lemma EmptyInOrder()
    ensures InOrder([])
  {
  }

  /** What is taken when the m-th missing call has its turn. */
  function TakenThen(ms: seq<Message>, all: seq<Pos>, m: nat): set<Pos>
    requires AreCalls(ms, all) && m <= |Missing(ms, all)|
  {
    Taken(ms, all, true) + Taken(ms, Missing(ms, all)[..m], false)
  }

  lemma Earlier(cs: seq<Pos>, m: nat)
    requires InOrder(cs) && m < |cs|
    ensures forall c :: c in cs && Less(c, cs[m]) ==> c in cs[..m]
    ensures cs[m] !in cs[..m]
  {
    forall c | c in cs && Less(c, cs[m]) ensures c in cs[..m] {
      var k :| 0 <= k < |cs| && cs[k] == c;
      assert k < m;
      assert cs[..m][k] == c;
    }
    forall k | 0 <= k < m ensures cs[..m][k] != cs[m] {
      assert Less(cs[k], cs[m]);
    }
  }

  /** Until its turn the answer of a missing call is free, and what smaller ranks take is taken. */
  lemma MissingTurn(ms: seq<Message>, all: seq<Pos>, m: nat, stop: nat)
    requires AreCalls(ms, all) && InOrder(all) && m < |Missing(ms, all)|
    requires forall c: Pos :: IsCall(ms, c.0, c.1) ==> c in all
    ensures var c := Missing(ms, all)[m];
      && IsCall(ms, c.0, c.1)
      && (Answer(ms, c.0, c.1).Some? ==> Answer(ms, c.0, c.1).value !in TakenThen(ms, all, m))
      && SmallerTaken(ms, c.0, c.1, stop, TakenThen(ms, all, m))
  {
    hide Answer, Taken;
    var missing := Missing(ms, all);
    var c := missing[m];
    assert c in missing;
    MissingInOrder(ms, all);
    Earlier(missing, m);
    TakenElsewhere(ms, missing[..m], false, c);
    if Answer(ms, c.0, c.1).Some? {
      NotTakenNear(ms, all, c);
    }
    forall d: nat | d < c.1 && IsCall(ms, c.0, d) && CallBlocks(ms[c.0])[d].id == CallBlocks(ms[c.0])[c.1].id
      ensures Answer(ms, c.0, d).Some? && Answer(ms, c.0, d).value.0 < stop ==>
                Answer(ms, c.0, d).value in TakenThen(ms, all, m)
    {
      var e: Pos := (c.0, d);
      if Answer(ms, c.0, d).Some? {
        var p := Answer(ms, c.0, d).value;
        TakenAre(ms, all, true, p);
        TakenAre(ms, missing[..m], false, p);
        assert e in all && (!Near(ms, e) ==> e in missing[..m]);
        assert p in TakenBy(ms, e, Near(ms, e));
      }
    }
  }

  lemma NotTakenNear(ms: seq<Message>, all: seq<Pos>, c: Pos)
    requires AreCalls(ms, all) && IsCall(ms, c.0, c.1) && !Near(ms, c) && Answer(ms, c.0, c.1).Some?
    ensures Answer(ms, c.0, c.1).value !in Taken(ms, all, true)
  {
    hide Answer, Taken;
    var p := Answer(ms, c.0, c.1).value;
    TakenAre(ms, all, true, p);
    if d :| d in all && p in TakenBy(ms, d, true) {
      if d != c {
        AnswersDiffer(ms, c.0, c.1, d.0, d.1);
      }
    }
  }

  /** An answer is in the pool of its id, inside the stretch of its call. */
  lemma AnswerInPool(ms: seq<Message>, i: nat, cb: nat, stop: nat)
    requires IsCall(ms, i, cb) && Stretch(ms, i, stop, CallBlocks(ms[i])[cb].id)
    ensures Answer(ms, i, cb).Some? ==>
      Answer(ms, i, cb).value in RepliesTo(ms, |ms|, CallBlocks(ms[i])[cb].id) && i < Answer(ms, i, cb).value.0 < stop
  {
    hide Answer, RepliesTo, Calls;
    AnswerIsReply(ms, i, cb);
    RepliesToAre(ms, |ms|, CallBlocks(ms[i])[cb].id);
  }

  lemma OrderedIndex(pool: seq<Pos>, t: nat, q: Pos) returns (s: nat)
    requires InOrder(pool) && t < |pool| && q in pool && Less(q, pool[t])
    ensures s < t && pool[s] == q
  {
    s :| 0 <= s < |pool| && pool[s] == q;
  }

  /** Entry `p` of the pool is free and inside the stretch. */
  predicate Eligible(p: Pos, i: nat, stop: nat, taken: set<Pos>) {
    i < p.0 < stop && p !in taken
  }

  ghost predicate MissingAt(ms: seq<Message>, all: seq<Pos>, m: nat, c: Pos, stop: nat) {
    && AreCalls(ms, all) && InOrder(all) && m < |Missing(ms, all)| && Missing(ms, all)[m] == c
    && (forall d: Pos :: IsCall(ms, d.0, d.1) ==> d in all)
    && IsCall(ms, c.0, c.1) && Stretch(ms, c.0, stop, CallBlocks(ms[c.0])[c.1].id)
  }

  /** The first eligible entry of the pool is the answer of the missing call. */
  lemma FarHit(ms: seq<Message>, all: seq<Pos>, m: nat, c: Pos, stop: nat, pool: seq<Pos>, t: nat)
    requires MissingAt(ms, all, m, c, stop) && pool == RepliesTo(ms, |ms|, CallBlocks(ms[c.0])[c.1].id) && t < |pool|
    requires Eligible(pool[t], c.0, stop, TakenThen(ms, all, m))
    requires forall s :: 0 <= s < t ==> !Eligible(pool[s], c.0, stop, TakenThen(ms, all, m))
    ensures Answer(ms, c.0, c.1) == Some(pool[t])
  {
    hide Answer, TakenThen, RepliesTo, Missing, SmallerTaken, InOrder;
    var x := CallBlocks(ms[c.0])[c.1].id;
    MissingTurn(ms, all, m, stop);
    RepliesToAre(ms, |ms|, x);
    var p := pool[t];
    assert p in pool;
    FreeIsAnswer(ms, c.0, c.1, stop, TakenThen(ms, all, m), p.0, p.1);
    AnswerInPool(ms, c.0, c.1, stop);
    var q := Answer(ms, c.0, c.1).value;
    if q != p {
      var s := OrderedIndex(pool, t, q);
    }
  }

  lemma FarMiss(ms: seq<Message>, all: seq<Pos>, m: nat, c: Pos, stop: nat, pool: seq<Pos>)
    requires MissingAt(ms, all, m, c, stop) && pool == RepliesTo(ms, |ms|, CallBlocks(ms[c.0])[c.1].id)
    requires forall p <- pool :: !Eligible(p, c.0, stop, TakenThen(ms, all, m))
    ensures Answer(ms, c.0, c.1) == None
  {
    hide Answer, TakenThen, RepliesTo, Missing, SmallerTaken, InOrder;
    MissingTurn(ms, all, m, stop);
    AnswerInPool(ms, c.0, c.1, stop);
  }

  // ---- What the passes add up to ----

  function AllCallsOf(ms: seq<Message>): seq<Pos> {
    CallsBefore(ms, |ms|)
  }

  lemma AllCallsAre(ms: seq<Message>)
    ensures AreCalls(ms, AllCallsOf(ms)) && InOrder(AllCallsOf(ms))
    ensures forall c: Pos :: c in AllCallsOf(ms) <==> IsCall(ms, c.0, c.1)
  {
    CallsBeforeAre(ms, |ms|);
    CallsBeforeInOrder(ms, |ms|);
  }

  /** Position first, then the stretches: every answer is taken. */
  function TakenInAll(ms: seq<Message>): set<Pos> {
    AllCallsAre(ms);
    Taken(ms, AllCallsOf(ms), true) + Taken(ms, Missing(ms, AllCallsOf(ms)), false)
  }

  function MovedInAll(ms: seq<Message>): set<Pos> {
    AllCallsAre(ms);
    Moved(ms, AllCallsOf(ms), true) + Moved(ms, Missing(ms, AllCallsOf(ms)), false)
  }

  function PlannedInAll(ms: seq<Message>, w: Wording): map<Pos, Block> {
    AllCallsAre(ms);
    Plans(ms, w, AllCallsOf(ms), true) + Plans(ms, w, Missing(ms, AllCallsOf(ms)), false)
  }

  predicate Answers(ms: seq<Message>, c: Pos, p: Pos) {
    IsCall(ms, c.0, c.1) && Answer(ms, c.0, c.1) == Some(p)
  }

  lemma TakenInAllAre(ms: seq<Message>, p: Pos)
    ensures p in TakenInAll(ms) <==> exists c: Pos :: Answers(ms, c, p)
  {
    hide Answer, Taken;
    AllCallsAre(ms);
    var all := AllCallsOf(ms);
    TakenAre(ms, all, true, p);
    TakenAre(ms, Missing(ms, all), false, p);
    if c: Pos :| Answers(ms, c, p) {
      assert c in all;
      if Near(ms, c) {
        assert p in TakenBy(ms, c, true);
        assert p in Taken(ms, all, true);
      } else {
        assert c in Missing(ms, all) && p in TakenBy(ms, c, false);
        assert p in Taken(ms, Missing(ms, all), false);
      }
    }
    if p in Taken(ms, all, true) {
      var c :| c in all && p in TakenBy(ms, c, true);
      assert Answers(ms, c, p);
    } else if p in Taken(ms, Missing(ms, all), false) {
      var c :| c in Missing(ms, all) && p in TakenBy(ms, c, false);
      assert Answers(ms, c, p);
    }
  }

  lemma MovedInAllAre(ms: seq<Message>, p: Pos)
    ensures p in MovedInAll(ms) <==> exists c: Pos :: Answers(ms, c, p) && c.0 < LastMove(ms) && !InPlaceFor(ms, c)
  {
    hide Answer, Moved, InPlaceFor;
    AllCallsAre(ms);
    var all := AllCallsOf(ms);
    MovedAre(ms, all, true, p);
    MovedAre(ms, Missing(ms, all), false, p);
    if c: Pos :| Answers(ms, c, p) && c.0 < LastMove(ms) && !InPlaceFor(ms, c) {
      assert c in all;
      assert p in MovedBy(ms, c, Near(ms, c));
    }
  }

  lemma PlannedInAllAre(ms: seq<Message>, w: Wording, c: Pos)
    ensures c in PlannedInAll(ms, w) <==> IsCall(ms, c.0, c.1) && c.0 < LastMove(ms) && !InPlaceFor(ms, c)
    ensures c in PlannedInAll(ms, w) ==> PlannedInAll(ms, w)[c] == Given(ms, w, c.0, c.1)
  {
    hide Answer, Plans, InPlaceFor, Given;
    AllCallsAre(ms);
    PlansAre(ms, w, AllCallsOf(ms), true, c);
    PlansAre(ms, w, Missing(ms, AllCallsOf(ms)), false, c);
  }

  /** The call of a given rank finds the result of that rank. */
  lemma CallOfRank(ms: seq<Message>, i: nat, j: nat, b: nat) returns (c: Pos)
    requires i < j && IsReply(ms, j, b)
    requires forall k :: i < k <= j ==> Calls(CallBlocks(ms[k]), ReplyBlocks(ms[j])[b].id) == 0
    requires var x := ReplyBlocks(ms[j])[b].id;
      RepliesBetween(ms, i + 1, j, x) + Results(ReplyBlocks(ms[j])[..b], x) < Calls(CallBlocks(ms[i]), x)
    ensures c.0 == i && Answers(ms, c, (j, b))
  {
    hide Find, Results, RepliesBetween;
    var x := ReplyBlocks(ms[j])[b].id;
    c := (i, NthCall(CallBlocks(ms[i]), x, RepliesBetween(ms, i + 1, j, x) + Results(ReplyBlocks(ms[j])[..b], x)));
    FindAt(ms, i + 1, j, b, x);
  }

  lemma KeptHasCall(ms: seq<Message>, j: nat, b: nat) returns (c: Pos)
    requires IsReply(ms, j, b) && Kept(ms, j, b)
    ensures Answers(ms, c, (j, b)) && (c.0 < LastMove(ms) ==> InPlaceFor(ms, c))
  {
    hide Answer, Results, RepliesBetween, Calls;
    var x, n := ReplyBlocks(ms[j])[b].id, LastMove(ms);
    NoReplies(ms, j, x);
    var i := if j <= n then j - 1 else n;
    forall k | i < k <= j ensures Calls(CallBlocks(ms[k]), x) == 0 { NoneDue(x); }
    c := CallOfRank(ms, i, j, b);
  }

  /** The rank of an answer is the rank of its call, below the number of calls. */
  lemma AnswerRank(ms: seq<Message>, c: Pos, j: nat, b: nat)
    requires IsReply(ms, j, b) && Answers(ms, c, (j, b))
    ensures var x := ReplyBlocks(ms[j])[b].id;
      && c.0 < j && c.0 <= LastMove(ms)
      && RepliesBetween(ms, c.0 + 1, j, x) + Results(ReplyBlocks(ms[j])[..b], x) < Calls(CallBlocks(ms[c.0]), x)
  {
    hide Find, Results, RepliesBetween, Calls;
    var x, bs := CallBlocks(ms[c.0])[c.1].id, CallBlocks(ms[c.0]);
    FindRank(ms, c.0 + 1, x, Calls(bs[..c.1], x));
    CallsStep(bs, c.1, x);
    CallsMono(bs, c.1 + 1, |bs|, x);
    AnswerIsReply(ms, c.0, c.1);
    CallsMoveOn(ms, c);
  }

  lemma CallKeeps(ms: seq<Message>, c: Pos, j: nat, b: nat)
    requires IsReply(ms, j, b) && Answers(ms, c, (j, b)) && (c.0 < LastMove(ms) ==> InPlaceFor(ms, c))
    ensures Kept(ms, j, b)
  {
    hide Answer, Results, RepliesBetween, Calls;
    AnswerRank(ms, c, j, b);
    NoReplies(ms, j, ReplyBlocks(ms[j])[b].id);
  }

  lemma CallsMoveOn(ms: seq<Message>, c: Pos)
    requires IsCall(ms, c.0, c.1)
    ensures c.0 <= LastMove(ms)
  {
    assert Moves(ms[c.0]);
  }

  /** A result is dropped if it is moved, or if it answers no call. */
  lemma DroppedAre(ms: seq<Message>, j: nat, b: nat)
    requires IsReply(ms, j, b)
    ensures b in Dropped(ms, j) <==> (j, b) in MovedInAll(ms) || (j, b) !in TakenInAll(ms)
  {
    hide Answer, Kept, InPlaceFor, MovedInAll, TakenInAll;
    var p: Pos := (j, b);
    TakenInAllAre(ms, p);
    MovedInAllAre(ms, p);
    if Kept(ms, j, b) {
      var c := KeptHasCall(ms, j, b);
      forall d: Pos | Answers(ms, d, p) ensures d == c { OneAnswers(ms, c, d, p); }
    } else if p in TakenInAll(ms) {
      var c: Pos :| Answers(ms, c, p);
      if !(c.0 < LastMove(ms) && !InPlaceFor(ms, c)) {
        CallKeeps(ms, c, j, b);
      }
    }
  }

  lemma OneAnswers(ms: seq<Message>, c: Pos, d: Pos, p: Pos)
    requires Answers(ms, c, p) && Answers(ms, d, p)
    ensures c == d
  {
    hide Answer;
    if c != d {
      AnswersDiffer(ms, c.0, c.1, d.0, d.1);
    }
  }

  lemma FillIs(ms: seq<Message>, w: Wording, i: nat, cb: nat)
    requires i < |ms| && cb < |CallBlocks(ms[i])|
    ensures Fill(ms, w, i, cb) ==
      if IsCall(ms, i, cb) && !InPlaceFor(ms, (i, cb)) then [Given(ms, w, i, cb)] else []
  {
    hide Find;
  }

  /** What the plans insert for a call is what fills it. */
  lemma PlannedFills(ms: seq<Message>, w: Wording, i: nat, cb: nat)
    requires i < |ms| && cb < |CallBlocks(ms[i])| && i < LastMove(ms)
    ensures Fill(ms, w, i, cb) == if (i, cb) in PlannedInAll(ms, w) then [PlannedInAll(ms, w)[(i, cb)]] else []
  {
    hide Answer, PlannedInAll, LastMove;
    PlannedInAllAre(ms, w, (i, cb));
    FillIs(ms, w, i, cb);
    hide Fill, Given, InPlaceFor;
  }
}
