/** The repaired history is well paired, a well-paired history loses and gains nothing, and a history
    that loses and gains nothing is well paired; ranks and counts of results carry the argument from
    one message to the next. */
module ExchangeLaws {
  import opened History
  import opened Exchange

  // ---- Counting what stays and what is inserted ----

  function Min(a: nat, b: nat): nat {
    if a <= b then a else b
  }

  /** Of the results of `x` among the first `k` blocks, those with rank below `limit` stay. */
  predicate DropsRest(bs: seq<Block>, drop: set<nat>, k: nat, x: Id, limit: nat) {
    forall b :: 0 <= b < |bs| && bs[b].Result? && bs[b].id == x ==>
      (b in drop <==> !(b < k && Results(bs[..b], x) < limit))
  }

  predicate OnlyResults(bs: seq<Block>, drop: set<nat>) {
    forall b :: 0 <= b < |bs| && b in drop ==> bs[b].Result?
  }

  lemma DropsInit(bs: seq<Block>, drop: set<nat>, k: nat, x: Id, limit: nat)
    requires bs != [] && DropsRest(bs, drop, k, x, limit)
    ensures DropsRest(bs[..|bs| - 1], drop, k, x, limit)
    ensures var b := bs[|bs| - 1];
      b.Result? && b.id == x ==>
        (|bs| - 1 in drop <==> !(|bs| - 1 < k && Results(bs[..|bs| - 1], x) < limit))
  {
    var n := |bs| - 1;
    var init := bs[..n];
    forall b | 0 <= b < n && init[b].Result? && init[b].id == x
      ensures b in drop <==> !(b < k && Results(init[..b], x) < limit)
    {
      assert init[b] == bs[b] && init[..b] == bs[..b];
    }
  }

  /** The first `k` blocks, one block later. */
  lemma FirstStep(bs: seq<Block>, k: nat, x: Id)
    requires bs != []
    ensures var n := |bs| - 1;
      var init := bs[..n];
      && Results(init[..Min(k, n)], x) <= Results(init, x)
      && (k <= n ==> bs[..Min(k, n + 1)] == init[..Min(k, n)])
      && (k > n ==> Results(init[..Min(k, n)], x) == Results(init, x)
                    && Results(bs[..Min(k, n + 1)], x) 
                       == Results(init, x) + if bs[n].Result? && bs[n].id == x then 1 else 0)
  {
    var n := |bs| - 1;
    var init := bs[..n];
    ResultsMono(init, Min(k, n), n, x);
    ResultsStep(bs, n, x);
    assert bs[..n + 1] == bs && init[..n] == init;
  }

  lemma WithoutStep(bs: seq<Block>, drop: set<nat>, x: Id)
    requires bs != []
    ensures var n := |bs| - 1;
      Results(Without(bs, drop), x) == Results(Without(bs[..n], drop), x)
        + if n !in drop && bs[n].Result? && bs[n].id == x then 1 else 0
  {
    var n := |bs| - 1;
    ResultsAppend(Without(bs[..n], drop), if n in drop then [] else [bs[n]], x);
    SingleCount(if n in drop then [] else [bs[n]], x);
  }

  lemma {:induction false} KeptCount(bs: seq<Block>, drop: set<nat>, k: nat, x: Id, limit: nat)
    requires DropsRest(bs, drop, k, x, limit)
    ensures Results(Without(bs, drop), x) == Min(Results(bs[..Min(k, |bs|)], x), limit)
  {
    hide DropsRest, Without, Results;
    if bs == [] {
      NoneKept(drop, k, x, limit);
    } else {
      DropsInit(bs, drop, k, x, limit);
      KeptCount(bs[..|bs| - 1], drop, k, x, limit);
      FirstStep(bs, k, x);
      WithoutStep(bs, drop, x);
    }
  }

  lemma NoneKept(drop: set<nat>, k: nat, x: Id, limit: nat)
    ensures Results(Without([], drop), x) == Min(Results([][..Min(k, 0)], x), limit) == 0
  {
  }

  /** Where the answers of a call of `x` in message `i` can stay: the leading results of the next. */
  function LeadReplies(ms: seq<Message>, j: nat, x: Id): nat {
    if j < |ms| then Results(ReplyBlocks(ms[j])[..Lead(ReplyBlocks(ms[j]))], x) else 0
  }

  /** A call needs no block inserted exactly if its rank is below the leading answers to its id. */
  lemma FillLaw(ms: seq<Message>, w: Wording, i: nat, cb: nat)
    requires IsCall(ms, i, cb)
    ensures var bs := CallBlocks(ms[i]);
      var x := bs[cb].id;
      && (Fill(ms, w, i, cb) == [] <==> Calls(bs[..cb], x) < LeadReplies(ms, i + 1, x))
      && (Fill(ms, w, i, cb) != [] ==> exists r :: Fill(ms, w, i, cb) == [r] && r.Result? && r.id == x)
  {
    hide Find, LeadReplies, Calls;
    InPlaceIff(ms, i + 1, CallBlocks(ms[i])[cb].id, Calls(CallBlocks(ms[i])[..cb], CallBlocks(ms[i])[cb].id));
  }

  /** An answer is among the leading results of the very next message if its rank is small enough. */
  lemma InPlaceIff(ms: seq<Message>, j: nat, x: Id, r: nat)
    ensures var f := Find(ms, j, x, r);
      (f.Some? && f.value.0 == j && f.value.1 < Lead(ReplyBlocks(ms[j]))) <==> r < LeadReplies(ms, j, x)
  {
    if j < |ms| && Calls(CallBlocks(ms[j]), x) == 0 {
      NthLeads(ReplyBlocks(ms[j]), x, r);
    }
    assert j < |ms| && Calls(CallBlocks(ms[j]), x) > 0 ==> ReplyBlocks(ms[j]) == [] by { NoneDue(x); }
  }

  lemma NthLeads(cs: seq<Block>, x: Id, r: nat)
    ensures Results(cs[..Lead(cs)], x) <= Results(cs, x)
    ensures r < Results(cs, x) ==> (Nth(cs, x, r) < Lead(cs) <==> r < Results(cs[..Lead(cs)], x))
  {
    hide Lead;
    var k := Lead(cs);
    ResultsMono(cs, k, |cs|, x);
    if r < Results(cs, x) {
      var b := Nth(cs, x, r);
      hide Nth;
      if b < k {
        RankOrder(cs, b, k, x);
      } else {
        ResultsMono(cs, k, b, x);
      }
    }
  }

  lemma {:induction false} FillsCount(ms: seq<Message>, w: Wording, i: nat, cb: nat, x: Id)
    requires i < |ms| && cb <= |CallBlocks(ms[i])|
    ensures var c := Calls(CallBlocks(ms[i])[..cb], x);
      Results(Fills(ms, w, i, cb), x) == c - Min(c, LeadReplies(ms, i + 1, x))
    ensures forall b <- Fills(ms, w, i, cb) :: b.Result?
  {
    hide Fill, LeadReplies;
    if cb > 0 {
      var bs := CallBlocks(ms[i]);
      FillsCount(ms, w, i, cb - 1, x);
      CallsStep(bs, cb - 1, x);
      ResultsAppend(Fills(ms, w, i, cb - 1), Fill(ms, w, i, cb - 1), x);
      if bs[cb - 1].Call? {
        FillLaw(ms, w, i, cb - 1);
        SingleCount(Fill(ms, w, i, cb - 1), x);
      } else {
        assert Fill(ms, w, i, cb - 1) == [] by { NoFill(ms, w, i, cb - 1); }
      }
    }
  }

  lemma NoFill(ms: seq<Message>, w: Wording, i: nat, cb: nat)
    requires i < |ms| && cb < |CallBlocks(ms[i])| && !CallBlocks(ms[i])[cb].Call?
    ensures Fill(ms, w, i, cb) == []
  {
  }

  lemma SingleCount(bs: seq<Block>, x: Id)
    requires |bs| <= 1
    ensures Results(bs, x) == if bs != [] && bs[0].Result? && bs[0].id == x then 1 else 0
  {
    if bs != [] {
      assert bs[..0] == [];
    }
  }

  /** Everything a message up to the last move owes and does not keep is inserted. */
  lemma FrontCount(ms: seq<Message>, w: Wording, i: nat, x: Id)
    requires i < |ms| && i <= LastMove(ms) && ms[i].role.User?
    ensures Results(Front(ms, w, i), x) == Due(ms, [], i, x) - Min(Due(ms, [], i, x), LeadReplies(ms, i, x))
    ensures forall b <- Front(ms, w, i) :: b.Result?
  {
    hide LeadReplies, Fills;
    if i > 0 {
      var bs := CallBlocks(ms[i - 1]);
      assert bs[..|bs|] == bs;
      FillsCount(ms, w, i - 1, |bs|, x);
    }
  }

  // ---- The shape of a mended user message ----

  lemma {:induction false} LeadOfParts(rs: seq<Block>, os: seq<Block>)
    requires (forall b <- rs :: b.Result?) && (forall b <- os :: !b.Result?)
    ensures Lead(rs + os) == |rs| && AllLead(rs + os)
  {
    if rs != [] {
      LeadOfParts(rs[1..], os);
      assert (rs + os)[1..] == rs[1..] + os;
    } else {
      assert rs + os == os;
    }
  }

  /** The first `p` blocks are results and no other block is. */
  predicate Parted(bs: seq<Block>, p: nat) {
    p <= |bs| && forall b :: 0 <= b < |bs| ==> (bs[b].Result? <==> b < p)
  }

  /** When only leading results stay, what stays is results first. */
  lemma {:induction false} WithoutParts(bs: seq<Block>, drop: set<nat>, k: nat) returns (p: nat)
    requires forall b :: 0 <= b < |bs| && b < k ==> bs[b].Result?
    requires forall b :: k <= b < |bs| && bs[b].Result? ==> b in drop
    ensures Parted(Without(bs, drop), p)
    ensures |bs| <= k ==> p == |Without(bs, drop)|
  {
    if bs == [] {
      p := 0;
    } else {
      var n := |bs| - 1;
      p := WithoutParts(bs[..n], drop, k);
      if n !in drop && n < k {
        p := p + 1;
      }
    }
  }

  lemma PlaceParts(kept: seq<Block>, p: nat, pre: seq<Block>)
    requires Parted(kept, p) && forall b <- pre :: b.Result?
    ensures AllLead(Place(kept, pre))
  {
    assert kept[..p] + kept[p..] == kept;
    LeadOfParts(kept[..p], kept[p..]);
    LeadOfParts(kept[..p] + pre, kept[p..]);
    assert Place(kept, pre) == (kept[..p] + pre) + kept[p..];
  }

  lemma PlaceCount(kept: seq<Block>, pre: seq<Block>, x: Id)
    ensures Results(Place(kept, pre), x) == Results(kept, x) + Results(pre, x)
  {
    var k := Lead(kept);
    ResultsAppend(kept[..k] + pre, kept[k..], x);
    ResultsAppend(kept[..k], pre, x);
    ResultsAppend(kept[..k], kept[k..], x);
    assert kept[..k] + kept[k..] == kept;
  }

  lemma {:induction false} WithoutNothing(bs: seq<Block>)
    ensures Without(bs, {}) == bs && Place(bs, []) == bs
  {
    if bs != [] {
      WithoutNothing(bs[..|bs| - 1]);
    }
  }

  function MendedBlocks(ms: seq<Message>, w: Wording, i: nat): seq<Block>
    requires i < |ms|
  {
    Place(Without(ReplyBlocks(ms[i]), Dropped(ms, i)), Front(ms, w, i))
  }

  /** A mended user message answers exactly what it owes, answers first. */
  lemma MendedAnswers(ms: seq<Message>, w: Wording, i: nat)
    requires i < |ms| && i <= LastMove(ms) && ms[i].role.User? && ms[i].content.Blocks?
    ensures forall x :: Results(MendedBlocks(ms, w, i), x) == Due(ms, [], i, x)
    ensures AllLead(MendedBlocks(ms, w, i))
  {
    hide Front, LeadReplies, Lead, Place;
    var bs, drop, pre := ReplyBlocks(ms[i]), Dropped(ms, i), Front(ms, w, i);
    var kept := Without(bs, drop);
    forall x ensures Results(MendedBlocks(ms, w, i), x) == Due(ms, [], i, x) {
      FrontCount(ms, w, i, x);
      KeptHere(ms, i, x);
      PlaceCount(kept, pre, x);
    }
    LeadDropped(ms, i);
    var p := WithoutParts(bs, drop, Lead(bs));
    FrontResults(ms, w, i);
    PlaceParts(kept, p, pre);
  }

  lemma FrontResults(ms: seq<Message>, w: Wording, i: nat)
    requires i < |ms| && i <= LastMove(ms) && ms[i].role.User?
    ensures forall b <- Front(ms, w, i) :: b.Result?
  {
    FrontCount(ms, w, i, [0]);
  }

  lemma LeadDropped(ms: seq<Message>, i: nat)
    requires i < |ms| && i <= LastMove(ms)
    ensures var bs := ReplyBlocks(ms[i]);
      forall b :: Lead(bs) <= b < |bs| && bs[b].Result? ==> b in Dropped(ms, i)
  {
    var bs := ReplyBlocks(ms[i]);
    forall b | Lead(bs) <= b < |bs| && bs[b].Result? ensures b in Dropped(ms, i) {
      assert IsReply(ms, i, b);
    }
  }

  lemma KeptHere(ms: seq<Message>, i: nat, x: Id)
    requires i < |ms| && i <= LastMove(ms)
    ensures Results(Without(ReplyBlocks(ms[i]), Dropped(ms, i)), x) == Min(LeadReplies(ms, i, x), Due(ms, [], i, x))
  {
    var bs := ReplyBlocks(ms[i]);
    var d := Due(ms, [], i, x);
    forall b | 0 <= b < |bs| && bs[b].Result? && bs[b].id == x
      ensures b in Dropped(ms, i) <==> !(b < Lead(bs) && Results(bs[..b], x) < d)
    {
      assert IsReply(ms, i, b);
    }
    KeptCount(bs, Dropped(ms, i), Lead(bs), x, d);
  }

  // ---- Pairing, front to back ----

  /** `PairedAfter` message by message: each answers what the one before it left due. */
  ghost predicate Paired(ms: seq<Message>, due: seq<Block>)
    decreases |ms|
  {
    if LastMove(ms) < 0 then forall x :: RepliesBetween(ms, 0, |ms|, x) <= Calls(due, x)
    else if ReplyBlocks(ms[0]) != [] then
      && (forall x :: Results(ReplyBlocks(ms[0]), x) == Calls(due, x))
      && AllLead(ReplyBlocks(ms[0]))
      && Paired(ms[1..], [])
    else
      && (forall x :: Calls(due, x) == 0)
      && Paired(ms[1..], CallBlocks(ms[0]))
  }

  predicate SameCalls(a: seq<Block>, b: seq<Block>, x: Id) {
    Calls(a, x) == Calls(b, x)
  }

  lemma PairedSame(ms: seq<Message>, due: seq<Block>, owed: seq<Block>)
    requires Paired(ms, due) && forall x :: SameCalls(due, owed, x)
    ensures Paired(ms, owed)
  {
    forall x ensures Calls(due, x) == Calls(owed, x) {
      assert SameCalls(due, owed, x);
    }
  }

  lemma {:induction false} LastMoveCons(m: Message, ms: seq<Message>)
    ensures LastMove([m] + ms) == if LastMove(ms) >= 0 then LastMove(ms) + 1 else if Moves(m) then 0 else -1
  {
    var all := [m] + ms;
    if ms == [] {
      assert all[..0] == [];
    } else {
      LastMoveCons(m, ms[..|ms| - 1]);
      assert all[..|all| - 1] == [m] + ms[..|ms| - 1];
    }
  }

  lemma {:induction false} RepliesCons(m: Message, ms: seq<Message>, lo: nat, hi: nat, x: Id)
    requires lo <= hi <= |ms|
    ensures RepliesBetween([m] + ms, lo + 1, hi + 1, x) == RepliesBetween(ms, lo, hi, x)
    decreases hi
  {
    if lo < hi {
      RepliesCons(m, ms, lo, hi - 1, x);
    }
  }

  lemma {:induction false} RepliesFirst(ms: seq<Message>, lo: nat, hi: nat, x: Id)
    requires lo < hi <= |ms|
    ensures RepliesBetween(ms, lo, hi, x) == Results(ReplyBlocks(ms[lo]), x) + RepliesBetween(ms, lo + 1, hi, x)
    decreases hi
  {
    if lo + 1 < hi {
      RepliesFirst(ms, lo, hi - 1, x);
    }
  }

  lemma RepliesOfCons(m: Message, ms: seq<Message>, x: Id)
    ensures RepliesBetween([m] + ms, 0, |ms| + 1, x) == Results(ReplyBlocks(m), x) + RepliesBetween(ms, 0, |ms|, x)
  {
    hide Results, RepliesBetween, ReplyBlocks;
    var all := [m] + ms;
    assert all[0] == m;
    RepliesFirst(all, 0, |ms| + 1, x);
    RepliesCons(m, ms, 0, |ms|, x);
  }

  /** Where no move follows, being paired says that no more answers follow than are due. */
  lemma {:induction false} LateBound(ms: seq<Message>, due: seq<Block>, x: Id)
    requires Paired(ms, due) && LastMove(ms) < 0
    ensures RepliesBetween(ms, 0, |ms|, x) <= Calls(due, x)
  {
  }

  lemma NoneDue(x: Id)
    ensures Calls([], x) == 0 && Results([], x) == 0
  {
  }

  /** In front of a paired history: a message that answers all that is due, answers first. */
  lemma PairedAnswer(m: Message, rest: seq<Message>, due: seq<Block>)
    requires ReplyBlocks(m) != [] && AllLead(ReplyBlocks(m)) && Paired(rest, [])
    requires forall x :: Results(ReplyBlocks(m), x) == Calls(due, x)
    ensures Paired([m] + rest, due)
  {
    hide AllLead;
    LastMoveCons(m, rest);
    var all := [m] + rest;
    assert all[0] == m && all[1..] == rest;
    if LastMove(all) < 0 {
      forall x ensures RepliesBetween(all, 0, |all|, x) <= Calls(due, x) {
        RepliesOfCons(m, rest, x);
        LateBound(rest, [], x);
        NoneDue(x);
      }
    }
  }

  /** Or, where nothing is due, a message without answers: what it calls is due next. */
  lemma PairedOther(m: Message, rest: seq<Message>, due: seq<Block>)
    requires ReplyBlocks(m) == [] && Paired(rest, CallBlocks(m))
    requires forall x :: Calls(due, x) == 0
    ensures Paired([m] + rest, due)
  {
    LastMoveCons(m, rest);
    var all := [m] + rest;
    assert all[0] == m && all[1..] == rest;
    if LastMove(all) < 0 {
      forall x ensures RepliesBetween(all, 0, |all|, x) <= Calls(due, x) {
        RepliesOfCons(m, rest, x);
        LateBound(rest, CallBlocks(m), x);
        NoneDue(x);
      }
    }
  }

  // ---- The repaired history is paired: after the last move ----

  /** What the last message still owes when message `j` is reached. */
  function StillOwed(ms: seq<Message>, j: nat, x: Id): nat
    requires LastMove(ms) < j <= |ms|
  {
    var c, s := LateDue(ms, [], x), RepliesBetween(ms, LastMove(ms) + 1, j, x);
    if s <= c then c - s else 0
  }

  lemma LateKept(ms: seq<Message>, j: nat, x: Id)
    requires LastMove(ms) < j < |ms|
    ensures Results(Without(ReplyBlocks(ms[j]), Dropped(ms, j)), x)
         == Min(Results(ReplyBlocks(ms[j]), x), StillOwed(ms, j, x))
  {
    var bs := ReplyBlocks(ms[j]);
    var s := RepliesBetween(ms, LastMove(ms) + 1, j, x);
    NoneDue(x);
    forall b | 0 <= b < |bs| && bs[b].Result? && bs[b].id == x
      ensures b in Dropped(ms, j) <==> !(b < |bs| && Results(bs[..b], x) < StillOwed(ms, j, x))
    {
      assert IsReply(ms, j, b);
    }
    KeptCount(bs, Dropped(ms, j), |bs|, x, StillOwed(ms, j, x));
    assert bs[..|bs|] == bs;
  }

  lemma NothingInserted(ms: seq<Message>, w: Wording, j: nat)
    requires LastMove(ms) < j < |ms|
    ensures Inserts(ms, w, j) == [] && Front(ms, w, j) == []
  {
  }

  lemma {:induction false} WithoutResults(bs: seq<Block>, drop: set<nat>)
    requires forall b <- bs :: b.Result?
    ensures forall b <- Without(bs, drop) :: b.Result?
  {
    if bs != [] {
      WithoutResults(bs[..|bs| - 1], drop);
    }
  }

  /** What stands for a message after the last move holds no move, and of the answers to `x` no
      more than were still owed. */
  lemma LatePiece(ms: seq<Message>, w: Wording, j: nat)
    requires LastMove(ms) < j < |ms|
    ensures var p := Piece(ms, w, j);
      && |p| <= 1 && (p != [] ==> !Moves(p[0]))
      && forall x :: (if p == [] then 0 else Results(ReplyBlocks(p[0]), x))
           == Min(Results(ReplyBlocks(ms[j]), x), StillOwed(ms, j, x))
  {
    hide StillOwed, Inserts, Front, Place;
    var m, drop := ms[j], Dropped(ms, j);
    NothingInserted(ms, w, j);
    assert !Moves(m);
    forall x ensures (if Piece(ms, w, j) == [] then 0 else Results(ReplyBlocks(Piece(ms, w, j)[0]), x))
        == Min(Results(ReplyBlocks(m), x), StillOwed(ms, j, x)) {
      LateKept(ms, j, x);
      NoneDue(x);
      PlaceCount(Without(ReplyBlocks(m), drop), [], x);
      WithoutNothing(ReplyBlocks(m));
    }
    if m.role.User? {
      WithoutResults(m.content.blocks, drop);
      assert Place(Without(m.content.blocks, drop), []) == Without(m.content.blocks, drop) by {
        PlaceNothing(Without(m.content.blocks, drop));
      }
    }
  }

  lemma PlaceNothing(bs: seq<Block>)
    ensures Place(bs, []) == bs
  {
  }

  lemma NothingLate(ms: seq<Message>, w: Wording, x: Id)
    ensures var out := Rebuilt(ms, w, |ms|); LastMove(out) < 0 && RepliesBetween(out, 0, |out|, x) == 0
  {
  }

  lemma {:induction false} LateRebuilt(ms: seq<Message>, w: Wording, j: nat, x: Id)
    requires LastMove(ms) < j <= |ms|
    ensures var out := Rebuilt(ms, w, j);
      LastMove(out) < 0 && RepliesBetween(out, 0, |out|, x) <= StillOwed(ms, j, x)
    decreases |ms| - j
  {
    hide Piece, Min, StillOwed, Results, ReplyBlocks, RepliesBetween, Moves, LastMove;
    if j == |ms| {
      NothingLate(ms, w, x);
    } else {
      LateRebuilt(ms, w, j + 1, x);
      LatePiece(ms, w, j);
      var p, rest := Piece(ms, w, j), Rebuilt(ms, w, j + 1);
      LessOwed(ms, j, x);
      if p == [] {
        assert p + rest == rest;
      } else {
        assert p == [p[0]];
        LastMoveCons(p[0], rest);
        RepliesOfCons(p[0], rest, x);
      }
    }
  }

  lemma LessOwed(ms: seq<Message>, j: nat, x: Id)
    requires LastMove(ms) < j < |ms|
    ensures StillOwed(ms, j + 1, x) + Min(Results(ReplyBlocks(ms[j]), x), StillOwed(ms, j, x)) == StillOwed(ms, j, x)
  {
  }

  // ---- And up to it ----

  /** What is due of the rebuilt history when message `i` is reached. */
  function Owed(ms: seq<Message>, i: nat): seq<Block>
    requires i <= |ms|
  {
    if i == 0 || (i - 1 < LastMove(ms) && !TakesFront(ms, i)) then [] else CallBlocks(ms[i - 1])
  }

  /** Where the next message holds no results, every call is filled in. */
  lemma AllInserted(ms: seq<Message>, w: Wording, i: nat)
    requires i < |ms| && i < LastMove(ms) && ReplyBlocks(ms[i + 1]) == []
    ensures forall x :: Results(Inserts(ms, w, i), x) == Calls(CallBlocks(ms[i]), x)
    ensures forall b <- Inserts(ms, w, i) :: b.Result?
  {
    hide Fills;
    var bs := CallBlocks(ms[i]);
    assert bs[..|bs|] == bs;
    forall x ensures Results(Inserts(ms, w, i), x) == Calls(bs, x) {
      FillsCount(ms, w, i, |bs|, x);
      NoneDue(x);
    }
    FillsCount(ms, w, i, |bs|, [0]);
  }

  lemma AllResultsLead(rs: seq<Block>, os: seq<Block>)
    requires (forall b <- rs :: b.Result?) && (forall b <- os :: !b.Result?)
    ensures AllLead(rs + os)
    ensures forall x :: Results(rs + os, x) == Results(rs, x)
  {
    LeadOfParts(rs, os);
    forall x ensures Results(rs + os, x) == Results(rs, x) {
      ResultsAppend(rs, os, x);
      NoResults(os, x);
    }
  }

  lemma {:induction false} NoResults(os: seq<Block>, x: Id)
    requires forall b <- os :: !b.Result?
    ensures Results(os, x) == 0
  {
    if os != [] {
      NoResults(os[..|os| - 1], x);
    }
  }

  /** A message followed by the one made up for its answers. */
  lemma RebuiltMadeUp(m: Message, ins: seq<Block>, rest: seq<Message>, due: seq<Block>)
    requires !m.role.User? && Paired(rest, []) && ins != [] && forall b <- ins :: b.Result?
    requires forall x :: Results(ins, x) == Calls(CallBlocks(m), x)
    requires forall x :: Calls(due, x) == 0
    ensures Paired([m] + ([Message(User, Blocks(ins), [])] + rest), due)
  {
    hide Paired, AllLead;
    var made := Message(User, Blocks(ins), []);
    assert ins + [] == ins;
    AllResultsLead(ins, []);
    PairedAnswer(made, rest, CallBlocks(m));
    PairedOther(m, [made] + rest, due);
  }

  /** A message that calls nothing. */
  lemma RebuiltSilent(m: Message, rest: seq<Message>, due: seq<Block>)
    requires !m.role.User? && Paired(rest, [])
    requires forall x :: Results([], x) == Calls(CallBlocks(m), x)
    requires forall x :: Calls(due, x) == 0
    ensures Paired([m] + rest, due)
  {
    hide Paired;
    forall x ensures SameCalls([], CallBlocks(m), x) { NoneDue(x); }
    PairedSame(rest, [], CallBlocks(m));
    PairedOther(m, rest, due);
  }

  lemma OtherPiece(ms: seq<Message>, w: Wording, i: nat)
    requires i < |ms| && i <= LastMove(ms) && !ms[i].role.User?
    ensures forall x :: Calls(Owed(ms, i), x) == 0
    ensures var made := [Message(User, Blocks(Inserts(ms, w, i)), [])];
      Piece(ms, w, i) == [ms[i]] + if Inserts(ms, w, i) != [] && !TakesFront(ms, i + 1) then made else []
    ensures i < LastMove(ms) && !TakesFront(ms, i + 1) ==> ReplyBlocks(ms[i + 1]) == []
    ensures i == LastMove(ms) ==> Inserts(ms, w, i) == []
  {
    hide Fills, LastMove;
    forall x ensures Calls(Owed(ms, i), x) == 0 { NoneDue(x); }
  }

  /** A message that is not a user's, with the made-up one behind it if there is one. */
  lemma RebuiltOther(ms: seq<Message>, w: Wording, i: nat)
    requires i < |ms| && i <= LastMove(ms) && !ms[i].role.User?
    requires Paired(Rebuilt(ms, w, i + 1), Owed(ms, i + 1))
    ensures Paired(Rebuilt(ms, w, i), Owed(ms, i))
  {
    hide Inserts, Paired, Piece, LastMove, Calls, Results;
    var m, rest, ins := ms[i], Rebuilt(ms, w, i + 1), Inserts(ms, w, i);
    OtherPiece(ms, w, i);
    if i < LastMove(ms) && !TakesFront(ms, i + 1) {
      AllInserted(ms, w, i);
      if ins != [] {
        RebuiltMadeUp(m, ins, rest, Owed(ms, i));
        assert Rebuilt(ms, w, i) == [m] + ([Message(User, Blocks(ins), [])] + rest);
      } else {
        RebuiltSilent(m, rest, Owed(ms, i));
        assert Rebuilt(ms, w, i) == [m] + rest;
      }
    } else {
      PairedOther(m, rest, Owed(ms, i));
      assert Rebuilt(ms, w, i) == [m] + rest;
    }
  }

  lemma NoLateInserts(ms: seq<Message>, w: Wording, i: nat)
    requires i < |ms|
    ensures i >= LastMove(ms) ==> Inserts(ms, w, i) == []
    ensures !ms[i].role.Assistant? ==> Inserts(ms, w, i) == []
  {
  }

  lemma FrontOfString(ms: seq<Message>, w: Wording, i: nat)
    requires i < |ms| && i <= LastMove(ms) && ms[i].role.User? && ms[i].content.Str?
    ensures forall x :: Results(Front(ms, w, i), x) == Calls(Owed(ms, i), x)
    ensures forall b <- Front(ms, w, i) :: b.Result?
  {
    hide Inserts, Results, Calls, LastMove;
    if i > 0 {
      AllInserted(ms, w, i - 1);
      assert Owed(ms, i) == CallBlocks(ms[i - 1]) && Front(ms, w, i) == Inserts(ms, w, i - 1);
    } else {
      forall x ensures Results([], x) == Calls([], x) { NoneDue(x); }
    }
  }

  lemma UserPiece(ms: seq<Message>, w: Wording, i: nat)
    requires i < |ms| && i <= LastMove(ms) && ms[i].role.User?
    ensures Piece(ms, w, i) == Mended(ms[i], w, Dropped(ms, i), Front(ms, w, i)) && Owed(ms, i + 1) == []
  {
    hide Mended, Front, Dropped;
    NoLateInserts(ms, w, i);
  }

  lemma RebuiltString(ms: seq<Message>, w: Wording, i: nat)
    requires i < |ms| && i <= LastMove(ms) && ms[i].role.User? && ms[i].content.Str?
    requires Paired(Rebuilt(ms, w, i + 1), Owed(ms, i + 1))
    ensures Paired(Rebuilt(ms, w, i), Owed(ms, i))
  {
    hide Inserts, Paired, AllLead, Piece, Front, Owed, Dropped;
    var m, rest, pre := ms[i], Rebuilt(ms, w, i + 1), Front(ms, w, i);
    FrontOfString(ms, w, i);
    UserPiece(ms, w, i);
    if pre == [] {
      forall x ensures Calls(Owed(ms, i), x) == 0 { NoneDue(x); }
      PairedOther(m, rest, Owed(ms, i));
    } else {
      var os := TextBlocks(w, m.content.text);
      AllResultsLead(pre, os);
      PairedAnswer(m.(content := Blocks(pre + os)), rest, Owed(ms, i));
    }
  }

  lemma MendedUser(m: Message, w: Wording, drop: set<nat>, pre: seq<Block>)
    requires m.role.User? && m.content.Blocks?
    ensures var cs, p := Place(Without(m.content.blocks, drop), pre), Mended(m, w, drop, pre);
      p == [m.(content := Blocks(cs))] || (p == [] && cs == [])
  {
    hide Place;
    WithoutNothing(m.content.blocks);
  }

  lemma RebuiltBlocks(ms: seq<Message>, w: Wording, i: nat)
    requires i < |ms| && i <= LastMove(ms) && ms[i].role.User? && ms[i].content.Blocks?
    requires Paired(Rebuilt(ms, w, i + 1), Owed(ms, i + 1))
    ensures Paired(Rebuilt(ms, w, i), Owed(ms, i))
  {
    hide Inserts, Paired, AllLead, Place, Front, Dropped, Mended, Piece, Owed, MendedBlocks;
    var m, rest, due := ms[i], Rebuilt(ms, w, i + 1), Owed(ms, i);
    var cs := MendedBlocks(ms, w, i);
    UserPiece(ms, w, i);
    MendedIs(ms, w, i);
    OwedMended(ms, w, i);
    var mended := m.(content := Blocks(cs));
    if cs != [] {
      PairedAnswer(mended, rest, due);
    } else {
      forall x ensures SameCalls([], due, x) && Calls(due, x) == 0 { NoneDue(x); }
      PairedSame(rest, [], due);
      PairedOther(mended, rest, due);
      assert [] + rest == rest;
    }
  }

  lemma MendedIs(ms: seq<Message>, w: Wording, i: nat)
    requires i < |ms| && ms[i].role.User? && ms[i].content.Blocks?
    ensures var cs, p := MendedBlocks(ms, w, i), Mended(ms[i], w, Dropped(ms, i), Front(ms, w, i));
      p == [ms[i].(content := Blocks(cs))] || (p == [] && cs == [])
  {
    hide Place, Without, Front, Dropped, Mended;
    MendedUser(ms[i], w, Dropped(ms, i), Front(ms, w, i));
  }

  lemma OwedMended(ms: seq<Message>, w: Wording, i: nat)
    requires i < |ms| && i <= LastMove(ms) && ms[i].role.User? && ms[i].content.Blocks?
    ensures forall x :: Results(MendedBlocks(ms, w, i), x) == Calls(Owed(ms, i), x)
    ensures AllLead(MendedBlocks(ms, w, i))
  {
    hide MendedBlocks, AllLead;
    MendedAnswers(ms, w, i);
    forall x ensures Results(MendedBlocks(ms, w, i), x) == Calls(Owed(ms, i), x) { NoneDue(x); }
  }

  lemma RebuiltTail(ms: seq<Message>, w: Wording)
    ensures var i := LastMove(ms) + 1; Paired(Rebuilt(ms, w, i), Owed(ms, i))
  {
    hide Rebuilt, StillOwed, LastMove, RepliesBetween, Calls;
    var i := LastMove(ms) + 1;
    var out := Rebuilt(ms, w, i);
    forall x ensures RepliesBetween(out, 0, |out|, x) <= Calls(Owed(ms, i), x) {
      LateRebuilt(ms, w, i, x);
      AllStillOwed(ms, x);
    }
    LateRebuilt(ms, w, i, [0]);
  }

  lemma AllStillOwed(ms: seq<Message>, x: Id)
    ensures var i := LastMove(ms) + 1; StillOwed(ms, i, x) == Calls(Owed(ms, i), x)
  {
    NoReplies(ms, LastMove(ms) + 1, x);
    hide RepliesBetween;
  }

  lemma NoReplies(ms: seq<Message>, j: nat, x: Id)
    requires j <= |ms|
    ensures RepliesBetween(ms, j, j, x) == 0
  {
  }

  lemma {:induction false} RebuiltPaired(ms: seq<Message>, w: Wording, i: nat)
    requires i <= LastMove(ms) + 1
    ensures Paired(Rebuilt(ms, w, i), Owed(ms, i))
    decreases |ms| - i
  {
    hide Paired, Rebuilt, Owed;
    if i == LastMove(ms) + 1 {
      RebuiltTail(ms, w);
    } else {
      RebuiltPaired(ms, w, i + 1);
      if !ms[i].role.User? {
        RebuiltOther(ms, w, i);
      } else if ms[i].content.Str? {
        RebuiltString(ms, w, i);
      } else {
        RebuiltBlocks(ms, w, i);
      }
    }
  }

  lemma {:induction false} PairedIsPairedAfter(ms: seq<Message>, due: seq<Block>)
    requires Paired(ms, due)
    ensures PairedAfter(ms, due)
    decreases |ms|
  {
    var n := LastMove(ms);
    if n < 0 {
    } else {
      var m, rest := ms[0], ms[1..];
      var next := CallBlocks(m);
      assert ms == [m] + rest;
      assert ReplyBlocks(m) != [] ==> next == [];
      PairedIsPairedAfter(rest, next);
      LastMoveCons(m, rest);
      PairedAfterCons(m, rest, due);
    }
  }

  /** What is due after the first message is due, one place on, of the whole. */
  lemma DueCons(m: Message, rest: seq<Message>, due: seq<Block>, j: nat, x: Id)
    requires j <= |rest|
    ensures Due([m] + rest, due, j + 1, x) == Due(rest, CallBlocks(m), j, x)
  {
  }

  lemma LateCons(m: Message, rest: seq<Message>, due: seq<Block>, x: Id)
    requires LastMove([m] + rest) >= 0
    ensures LateDue([m] + rest, due, x) == LateDue(rest, CallBlocks(m), x)
    ensures LateReplies([m] + rest, x) == LateReplies(rest, x)
  {
    hide LastMove, RepliesBetween, Due;
    LastMoveCons(m, rest);
    DueCons(m, rest, due, LastMove(rest) + 1, x);
    RepliesCons(m, rest, LastMove(rest) + 1, |rest|, x);
  }

  lemma PairedAfterCons(m: Message, rest: seq<Message>, due: seq<Block>)
    requires PairedAfter(rest, CallBlocks(m)) && LastMove([m] + rest) >= 0
    requires AllLead(ReplyBlocks(m))
    requires if ReplyBlocks(m) == [] then forall x :: Calls(due, x) == 0
             else forall x :: Results(ReplyBlocks(m), x) == Calls(due, x)
    ensures PairedAfter([m] + rest, due)
  {
    hide AllLead, LateDue, LateReplies, Results, Calls, ReplyBlocks, CallBlocks;
    var all := [m] + rest;
    LastMoveCons(m, rest);
    forall x ensures LateReplies(all, x) <= LateDue(all, due, x) { LateCons(m, rest, due, x); }
    forall j, x | 0 <= j <= LastMove(all) && ReplyBlocks(all[j]) != []
      ensures Results(ReplyBlocks(all[j]), x) == Due(all, due, j, x)
    {
      if j > 0 {
        DueCons(m, rest, due, j - 1, x);
        assert all[j] == rest[j - 1];
      }
    }
    forall j, x | 0 <= j <= LastMove(all) && Due(all, due, j, x) > 0 ensures ReplyBlocks(all[j]) != [] {
      if j > 0 {
        DueCons(m, rest, due, j - 1, x);
        assert all[j] == rest[j - 1];
      }
    }
    forall j | 0 <= j <= LastMove(all) ensures AllLead(ReplyBlocks(all[j])) {
      if j > 0 {
        assert all[j] == rest[j - 1];
      }
    }
  }

  /** Whatever the history, its rebuilt form is well paired. */
  lemma RebuiltWellPaired(ms: seq<Message>, w: Wording)
    ensures WellPaired(Rebuilt(ms, w, 0))
  {
    hide Rebuilt, Paired;
    RebuiltPaired(ms, w, 0);
    PairedIsPairedAfter(Rebuilt(ms, w, 0), []);
  }

  // ---- Nothing to repair ----

  lemma AllLeadCount(bs: seq<Block>, x: Id)
    requires AllLead(bs)
    ensures Results(bs[..Lead(bs)], x) == Results(bs, x)
  {
    var k := Lead(bs);
    ResultsAppend(bs[..k], bs[k..], x);
    assert bs[..k] + bs[k..] == bs;
    NoResults(bs[k..], x);
  }

  lemma {:induction false} RepliesMono(ms: seq<Message>, lo: nat, j: nat, hi: nat, x: Id)
    requires lo <= j <= hi <= |ms|
    ensures RepliesBetween(ms, lo, j, x) <= RepliesBetween(ms, lo, hi, x)
    decreases hi
  {
    if j < hi {
      RepliesMono(ms, lo, j, hi - 1, x);
    }
  }

  lemma KeptWhenPaired(ms: seq<Message>, j: nat, b: nat)
    requires WellPaired(ms) && IsReply(ms, j, b)
    ensures Kept(ms, j, b)
  {
    hide RepliesBetween;
    var bs := ReplyBlocks(ms[j]);
    var x := bs[b].id;
    RankBelow(bs, b);
    var n := LastMove(ms);
    if j <= n {
      assert Results(bs, x) == Due(ms, [], j, x);
      NoneDue(x);
    } else {
      assert LateReplies(ms, x) <= LateDue(ms, [], x);
      RepliesMono(ms, n + 1, j + 1, |ms|, x);
      LateSplit(ms, n + 1, j, x);
      NoneDue(x);
    }
  }

  lemma LateSplit(ms: seq<Message>, lo: nat, j: nat, x: Id)
    requires lo <= j < |ms|
    ensures RepliesBetween(ms, lo, j + 1, x) == RepliesBetween(ms, lo, j, x) + Results(ReplyBlocks(ms[j]), x)
  {
  }

  lemma CountsSomething(bs: seq<Block>)
    requires bs != [] && bs[0].Result?
    ensures Results(bs, bs[0].id) > 0
  {
    RankBelow(bs, 0);
  }

  lemma NoInsertsWhenPaired(ms: seq<Message>, w: Wording, i: nat)
    requires WellPaired(ms) && i < |ms|
    ensures Inserts(ms, w, i) == []
  {
    hide Fills, LateReplies, LateDue, AllLead;
    if i < LastMove(ms) {
      var bs, cs, ins := CallBlocks(ms[i]), ReplyBlocks(ms[i + 1]), Inserts(ms, w, i);
      assert bs[..|bs|] == bs;
      FillsCount(ms, w, i, |bs|, [0]);
      forall x ensures Results(ins, x) == 0 {
        FillsCount(ms, w, i, |bs|, x);
        AllLeadCount(cs, x);
        assert Due(ms, [], i + 1, x) == Calls(bs, x);
        assert cs == [] ==> !(Due(ms, [], i + 1, x) > 0);
        assert cs != [] ==> Results(cs, x) == Due(ms, [], i + 1, x);
      }
      if ins != [] {
        CountsSomething(ins);
        assert false;
      }
    }
  }

  lemma UnbrokenAt(ms: seq<Message>, w: Wording, i: nat)
    requires !Broken(ms, w) && i < |ms|
    ensures Dropped(ms, i) == {} && Inserts(ms, w, i) == []
  {
    hide Dropped, Inserts;
  }

  lemma NothingDropped(ms: seq<Message>, j: nat, x: Id)
    requires j < |ms| && j <= LastMove(ms) && Dropped(ms, j) == {}
    ensures Results(ReplyBlocks(ms[j]), x) == Min(LeadReplies(ms, j, x), Due(ms, [], j, x))
  {
    hide Dropped, LeadReplies, Due, Without;
    KeptHere(ms, j, x);
    WithoutNothing(ReplyBlocks(ms[j]));
  }

  lemma NothingFilled(ms: seq<Message>, w: Wording, i: nat, x: Id)
    requires i < |ms| && i < LastMove(ms) && Inserts(ms, w, i) == []
    ensures Calls(CallBlocks(ms[i]), x) <= LeadReplies(ms, i + 1, x)
  {
    hide Fills, LeadReplies, Results, Calls;
    var bs := CallBlocks(ms[i]);
    assert bs[..|bs|] == bs;
    FillsCount(ms, w, i, |bs|, x);
    NoneDue(x);
  }

  lemma UnbrokenAnswers(ms: seq<Message>, w: Wording, j: nat, x: Id)
    requires !Broken(ms, w) && j < |ms| && j <= LastMove(ms)
    ensures ReplyBlocks(ms[j]) != [] ==> Results(ReplyBlocks(ms[j]), x) == Due(ms, [], j, x)
    ensures Due(ms, [], j, x) > 0 ==> ReplyBlocks(ms[j]) != []
  {
    hide Dropped, Inserts, Broken, Results, Calls;
    UnbrokenAt(ms, w, j);
    NothingDropped(ms, j, x);
    NoneDue(x);
    if j > 0 {
      UnbrokenAt(ms, w, j - 1);
      NothingFilled(ms, w, j - 1, x);
    }
  }

  lemma UnbrokenLeads(ms: seq<Message>, w: Wording, j: nat)
    requires !Broken(ms, w) && j < |ms| && j <= LastMove(ms)
    ensures AllLead(ReplyBlocks(ms[j]))
  {
    LeadDropped(ms, j);
    assert Dropped(ms, j) == {};
  }

  lemma NothingDroppedLate(ms: seq<Message>, j: nat, x: Id)
    requires LastMove(ms) < j < |ms| && Dropped(ms, j) == {}
    ensures Results(ReplyBlocks(ms[j]), x) <= StillOwed(ms, j, x)
  {
    hide Dropped, Without, StillOwed;
    LateKept(ms, j, x);
    WithoutNothing(ReplyBlocks(ms[j]));
  }

  lemma {:induction false} UnbrokenLate(ms: seq<Message>, w: Wording, j: nat, x: Id)
    requires !Broken(ms, w) && LastMove(ms) < j <= |ms|
    ensures RepliesBetween(ms, LastMove(ms) + 1, j, x) <= LateDue(ms, [], x)
    decreases j
  {
    hide Dropped, Inserts, Broken, Results, LastMove, LateDue;
    if j > LastMove(ms) + 1 {
      UnbrokenLate(ms, w, j - 1, x);
      UnbrokenAt(ms, w, j - 1);
      NothingDroppedLate(ms, j - 1, x);
    }
  }
}
