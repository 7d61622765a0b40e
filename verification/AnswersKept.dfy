/** After repair every call of an earlier exchange has its own answer, in its turn, in the very next message. */
module AnswersKept {
  import opened Text
  import opened History
  import opened Exchange
  import opened ExchangeLaws
  import opened ExchangeConserves

  /** The results of `x`, in order. */
  function ResultsOf(bs: seq<Block>, x: Id): (r: seq<Block>)
    ensures |r| == Results(bs, x)
  {
    if bs == [] then []
    else
      var last := bs[|bs| - 1];
      ResultsOf(bs[..|bs| - 1], x) + if last.Result? && last.id == x then [last] else []
  }

  /** What answers the calls of `x` among the first `n` blocks of message `i`, call by call. */
  function AnswersTo(ms: seq<Message>, w: Wording, i: nat, n: nat, x: Id): (r: seq<Block>)
    requires i < |ms| && n <= |CallBlocks(ms[i])|
    decreases n
  {
    if n == 0 then []
    else
      AnswersTo(ms, w, i, n - 1, x)
      + if IsCall(ms, i, n - 1) && CallBlocks(ms[i])[n - 1].id == x then [Given(ms, w, i, n - 1)] else []
  }

  lemma {:induction false} OfAppend(a: seq<Block>, b: seq<Block>, x: Id)
    ensures ResultsOf(a + b, x) == ResultsOf(a, x) + ResultsOf(b, x)
  {
    if b == [] {
      assert a + b == a;
    } else {
      OfAppend(a, b[..|b| - 1], x);
      assert (a + b)[..|a + b| - 1] == a + b[..|b| - 1];
    }
  }

  lemma OfOne(b: Block, x: Id)
    ensures ResultsOf([b], x) == if b.Result? && b.id == x then [b] else []
  {
    assert [b][..0] == [];
  }

  lemma {:induction false} OfNth(bs: seq<Block>, x: Id, r: nat)
    requires r < Results(bs, x)
    ensures ResultsOf(bs, x)[r] == bs[Nth(bs, x, r)]
  {
    var k := |bs| - 1;
    if !(bs[k].Result? && bs[k].id == x && Results(bs[..k], x) == r) {
      OfNth(bs[..k], x, r);
    }
  }

  /** The results that lead the message behind message `i`. */
  function Leading(ms: seq<Message>, j: nat): seq<Block> {
    if j < |ms| then ReplyBlocks(ms[j])[..Lead(ReplyBlocks(ms[j]))] else []
  }

  lemma LeadingNth(ms: seq<Message>, j: nat, x: Id, r: nat)
    requires j < |ms| && r < LeadReplies(ms, j, x)
    ensures r < Results(ReplyBlocks(ms[j]), x)
    ensures ResultsOf(Leading(ms, j), x)[r] == ReplyBlocks(ms[j])[Nth(ReplyBlocks(ms[j]), x, r)]
  {
    hide Nth, ResultsOf;
    var bs := ReplyBlocks(ms[j]);
    var k := Lead(bs);
    assert bs == bs[..k] + bs[k..];
    OfAppend(bs[..k], bs[k..], x);
    ResultsMono(bs, k, |bs|, x);
    OfNth(bs, x, r);
  }

  /** Of the calls of `x`, the first find their answers in place, and the others get theirs inserted. */
  lemma {:induction false} FilledInTurn(ms: seq<Message>, w: Wording, i: nat, n: nat, x: Id)
    requires i < |ms| && n <= |CallBlocks(ms[i])|
    ensures var c := Min(Calls(CallBlocks(ms[i])[..n], x), LeadReplies(ms, i + 1, x));
      c <= |ResultsOf(Leading(ms, i + 1), x)|
      && AnswersTo(ms, w, i, n, x) == ResultsOf(Leading(ms, i + 1), x)[..c] + ResultsOf(Fills(ms, w, i, n), x)
    decreases n
  {
    hide Fill, Given, Nth, Calls, ResultsOf, LeadReplies, Leading;
    LeadingCount(ms, i + 1, x);
    if n == 0 {
      NothingFilled(ms, i, x);
    } else {
      FilledInTurn(ms, w, i, n - 1, x);
      FillStep(ms, w, i, n - 1, x);
      OfAppend(Fills(ms, w, i, n - 1), Fill(ms, w, i, n - 1), x);
      var given := if IsCall(ms, i, n - 1) && CallBlocks(ms[i])[n - 1].id == x then [Given(ms, w, i, n - 1)] else [];
      TurnTaken(ResultsOf(Leading(ms, i + 1), x), Calls(CallBlocks(ms[i])[..n - 1], x),
                ResultsOf(Fills(ms, w, i, n - 1), x), ResultsOf(Fill(ms, w, i, n - 1), x), given);
      hide IsCall, CallBlocks;
    }
  }

  /** With `r` turns taken, the next is taken from the lead or, when that is used up, filled in. */
  lemma TurnTaken(lead: seq<Block>, r: nat, filled: seq<Block>, fill: seq<Block>, given: seq<Block>)
    requires |given| <= 1 && (given == [] ==> fill == [])
    requires given != [] ==> if r < |lead| then filled == fill == [] && given[0] == lead[r] else fill == given
    ensures (lead[..Min(r, |lead|)] + filled) + given == lead[..Min(r + |given|, |lead|)] + (filled + fill)
  {
  }

  lemma LeadingCount(ms: seq<Message>, j: nat, x: Id)
    ensures |ResultsOf(Leading(ms, j), x)| == LeadReplies(ms, j, x)
  {
    NoneDue(x);
  }

  lemma NothingFilled(ms: seq<Message>, i: nat, x: Id)
    requires i < |ms|
    ensures Calls(CallBlocks(ms[i])[..0], x) == 0 && ResultsOf([], x) == []
  {
  }

  /** One more block of message `i`. */
  lemma FillStep(ms: seq<Message>, w: Wording, i: nat, n: nat, x: Id)
    requires i < |ms| && n < |CallBlocks(ms[i])|
    ensures var bs, lead := CallBlocks(ms[i]), ResultsOf(Leading(ms, i + 1), x);
      var r, limit := Calls(bs[..n], x), LeadReplies(ms, i + 1, x);
      && |lead| == limit
      && Calls(bs[..n + 1], x) == r + (if bs[n].Call? && bs[n].id == x then 1 else 0)
      && (if !(bs[n].Call? && bs[n].id == x) then ResultsOf(Fill(ms, w, i, n), x) == []
          else if r < limit then
            && ResultsOf(Fills(ms, w, i, n), x) == [] && ResultsOf(Fill(ms, w, i, n), x) == []
            && Given(ms, w, i, n) == lead[r]
          else ResultsOf(Fill(ms, w, i, n), x) == [Given(ms, w, i, n)])
  {
    hide Fill, Given, Nth, LeadReplies;
    var bs := CallBlocks(ms[i]);
    LeadingCount(ms, i + 1, x);
    CallsStep(bs, n, x);
    FillsCount(ms, w, i, n, x);
    if bs[n].Call? {
      FillTally(ms, w, i, n, Synthetic(w, x));
      OfOne(Given(ms, w, i, n), x);
      if bs[n].id == x && Calls(bs[..n], x) < LeadReplies(ms, i + 1, x) {
        LeadingNth(ms, i + 1, x, Calls(bs[..n], x));
      }
    } else {
      NoFill(ms, w, i, n);
    }
  }

  // ---- What stays in place ----

  lemma {:induction false} KeptInTurn(bs: seq<Block>, drop: set<nat>, k: nat, x: Id, limit: nat)
    requires DropsRest(bs, drop, k, x, limit)
    ensures var first := ResultsOf(bs[..Min(k, |bs|)], x);
      ResultsOf(Without(bs, drop), x) == first[..Min(|first|, limit)]
  {
    hide DropsRest, Without, Results;
    if bs == [] {
      assert Without([], drop) == [] by { NothingWithout(drop); }
    } else {
      var n := |bs| - 1;
      DropsInit(bs, drop, k, x, limit);
      KeptInTurn(bs[..n], drop, k, x, limit);
      WithoutLast(bs, drop, x);
      if k > n {
        assert bs[..Min(k, n + 1)] == bs && bs[..n][..Min(k, n)] == bs[..n];
      } else {
        assert bs[..Min(k, n + 1)] == bs[..n][..Min(k, n)];
      }
    }
  }

  lemma NothingWithout(drop: set<nat>)
    ensures Without([], drop) == []
  {
  }

  lemma WithoutLast(bs: seq<Block>, drop: set<nat>, x: Id)
    requires bs != []
    ensures var n := |bs| - 1;
      ResultsOf(Without(bs, drop), x)
      == ResultsOf(Without(bs[..n], drop), x) + if n !in drop && bs[n].Result? && bs[n].id == x then [bs[n]] else []
  {
    var n := |bs| - 1;
    OfAppend(Without(bs[..n], drop), if n in drop then [] else [bs[n]], x);
    OfOne(bs[n], x);
  }

  lemma StaysInTurn(ms: seq<Message>, j: nat, x: Id)
    requires j < |ms| && j <= LastMove(ms)
    ensures var lead := ResultsOf(Leading(ms, j), x);
      ResultsOf(Without(ReplyBlocks(ms[j]), Dropped(ms, j)), x) == lead[..Min(|lead|, Due(ms, [], j, x))]
  {
    hide ResultsOf, Without;
    var bs := ReplyBlocks(ms[j]);
    var d := Due(ms, [], j, x);
    forall b | 0 <= b < |bs| && bs[b].Result? && bs[b].id == x
      ensures b in Dropped(ms, j) <==> !(b < Lead(bs) && Results(bs[..b], x) < d)
    {
      assert IsReply(ms, j, b);
    }
    KeptInTurn(bs, Dropped(ms, j), Lead(bs), x, d);
  }

  lemma {:induction false} NoResultsOf(bs: seq<Block>, x: Id)
    requires forall b <- bs :: !b.Result?
    ensures ResultsOf(bs, x) == []
  {
    NoResults(bs, x);
  }

  lemma PlacedInTurn(kept: seq<Block>, p: nat, pre: seq<Block>, x: Id)
    requires Parted(kept, p)
    ensures ResultsOf(Place(kept, pre), x) == ResultsOf(kept, x) + ResultsOf(pre, x)
  {
    hide ResultsOf;
    assert kept == kept[..p] + kept[p..];
    LeadOfParts(kept[..p], kept[p..]);
    OfAppend(kept[..p] + pre, kept[p..], x);
    OfAppend(kept[..p], pre, x);
    OfAppend(kept[..p], kept[p..], x);
    NoResultsOf(kept[p..], x);
    assert ResultsOf(kept, x) == ResultsOf(kept[..p], x) + [] == ResultsOf(kept[..p], x);
    assert ResultsOf(Place(kept, pre), x) == ResultsOf(kept[..p] + pre, x) + [];
  }

  /** A mended user message holds the answers to the calls before it, in their turn. */
  lemma MendedInTurn(ms: seq<Message>, w: Wording, i: nat, x: Id)
    requires i + 1 < |ms| && i < LastMove(ms) && ms[i + 1].role.User?
    ensures ResultsOf(MendedBlocks(ms, w, i + 1), x) == AnswersTo(ms, w, i, |CallBlocks(ms[i])|, x)
  {
    hide ResultsOf, AnswersTo, Fills, Without, Place, Lead;
    var calls, bs, drop := CallBlocks(ms[i]), ReplyBlocks(ms[i + 1]), Dropped(ms, i + 1);
    assert calls[..|calls|] == calls;
    FilledInTurn(ms, w, i, |calls|, x);
    StaysInTurn(ms, i + 1, x);
    LeadingCount(ms, i + 1, x);
    LeadDropped(ms, i + 1);
    var p := WithoutParts(bs, drop, Lead(bs));
    PlacedInTurn(Without(bs, drop), p, Front(ms, w, i + 1), x);
  }

  // ---- Where it stands ----

  /** What stands for the messages before `i`. */
  function Before(ms: seq<Message>, w: Wording, i: nat): seq<Message>
    requires i <= |ms|
  {
    if i == 0 then [] else Before(ms, w, i - 1) + Piece(ms, w, i - 1)
  }

  lemma {:induction false} BeforeAndAfter(ms: seq<Message>, w: Wording, i: nat)
    requires i <= |ms|
    ensures Rebuilt(ms, w, 0) == Before(ms, w, i) + Rebuilt(ms, w, i)
  {
    hide Piece;
    if i > 0 {
      BeforeAndAfter(ms, w, i - 1);
      assert Before(ms, w, i - 1) + (Piece(ms, w, i - 1) + Rebuilt(ms, w, i)) == Before(ms, w, i) + Rebuilt(ms, w, i);
    }
  }

  ghost predicate InTurn(ms: seq<Message>, w: Wording, i: nat, m: Message)
    requires i < |ms|
  {
    forall x :: ResultsOf(ReplyBlocks(m), x) == AnswersTo(ms, w, i, |CallBlocks(ms[i])|, x)
  }

  lemma {:induction false} AnswersCount(ms: seq<Message>, w: Wording, i: nat, n: nat, x: Id)
    requires i < |ms| && n <= |CallBlocks(ms[i])|
    ensures |AnswersTo(ms, w, i, n, x)| == Calls(CallBlocks(ms[i])[..n], x)
    decreases n
  {
    hide Given;
    if n > 0 {
      AnswersCount(ms, w, i, n - 1, x);
      CallsStep(CallBlocks(ms[i]), n - 1, x);
    }
  }

  /** The next message takes the answers. */
  lemma NextTakes(ms: seq<Message>, w: Wording, i: nat, cb: nat)
    requires IsCall(ms, i, cb) && i < LastMove(ms) && TakesFront(ms, i + 1)
    ensures var next := Mended(ms[i + 1], w, Dropped(ms, i + 1), Front(ms, w, i + 1));
      next != [] && InTurn(ms, w, i, next[0])
  {
    hide AnswersTo, ResultsOf, Lead, Mended, MendedBlocks, Front, Dropped, Calls, LastMove;
    var n := |CallBlocks(ms[i])|;
    var next := Mended(ms[i + 1], w, Dropped(ms, i + 1), Front(ms, w, i + 1));
    var x := CallBlocks(ms[i])[cb].id;
    CallIsCounted(ms, i, cb);
    AnswersCount(ms, w, i, n, x);
    assert CallBlocks(ms[i])[..n] == CallBlocks(ms[i]);
    MendedInTurn(ms, w, i, x);
    NothingOf(x);
    NextBlocks(ms, w, i + 1);
    forall y ensures ResultsOf(ReplyBlocks(next[0]), y) == AnswersTo(ms, w, i, n, y) {
      MendedInTurn(ms, w, i, y);
      NextResults(ms, w, i + 1, y);
    }
  }

  lemma NothingOf(x: Id)
    ensures ResultsOf([], x) == []
  {
  }

  lemma NextBlocks(ms: seq<Message>, w: Wording, j: nat)
    requires j < |ms| && ms[j].role.User?
    ensures MendedBlocks(ms, w, j) != [] ==> Mended(ms[j], w, Dropped(ms, j), Front(ms, w, j)) != []
  {
    hide Front, Lead;
    WithoutNothing(ReplyBlocks(ms[j]));
    if ms[j].content.Str? {
      assert ReplyBlocks(ms[j]) == [] && Without([], Dropped(ms, j)) == [];
    }
  }

  lemma NextResults(ms: seq<Message>, w: Wording, j: nat, x: Id)
    requires j < |ms| && ms[j].role.User?
    requires Mended(ms[j], w, Dropped(ms, j), Front(ms, w, j)) != []
    ensures ResultsOf(ReplyBlocks(Mended(ms[j], w, Dropped(ms, j), Front(ms, w, j))[0]), x)
         == ResultsOf(MendedBlocks(ms, w, j), x)
  {
    hide Front, ResultsOf, Lead;
    var drop, pre := Dropped(ms, j), Front(ms, w, j);
    WithoutNothing(ReplyBlocks(ms[j]));
    match ms[j].content
    case Blocks(bs) =>
    case Str(t) =>
      NothingWithout(drop);
      NothingOf(x);
      assert Place([], pre) == pre by { PlaceInNothing(pre); }
      OfAppend(pre, TextBlocks(w, t), x);
      NoResultsOf(TextBlocks(w, t), x);
      assert ResultsOf(pre, x) + [] == ResultsOf(pre, x);
  }

  lemma PlaceInNothing(pre: seq<Block>)
    ensures Place([], pre) == pre
  {
  }

  /** Where no next message can take the answers, one is made up for them. */
  lemma MadeUpHolds(ms: seq<Message>, w: Wording, i: nat, cb: nat)
    requires IsCall(ms, i, cb) && i < LastMove(ms) && !TakesFront(ms, i + 1)
    ensures Inserts(ms, w, i) != [] && InTurn(ms, w, i, Message(User, Blocks(Inserts(ms, w, i)), []))
  {
    hide AnswersTo, ResultsOf, Fills;
    var calls := CallBlocks(ms[i]);
    assert calls[..|calls|] == calls;
    assert Leading(ms, i + 1) == [] by { NoneLead(ms, i + 1); }
    forall x ensures ResultsOf(Inserts(ms, w, i), x) == AnswersTo(ms, w, i, |calls|, x) {
      FilledInTurn(ms, w, i, |calls|, x);
      LeadingCount(ms, i + 1, x);
      NothingOf(x);
      assert [] + ResultsOf(Inserts(ms, w, i), x) == ResultsOf(Inserts(ms, w, i), x);
    }
    var x := calls[cb].id;
    CallIsCounted(ms, i, cb);
    AnswersCount(ms, w, i, |calls|, x);
    NothingOf(x);
  }

  lemma NoneLead(ms: seq<Message>, j: nat)
    requires !TakesFront(ms, j)
    ensures Leading(ms, j) == []
  {
  }

  /** The calling message itself, and right behind it the one that holds its answers. */
  lemma PieceAnswered(ms: seq<Message>, w: Wording, i: nat, cb: nat)
    requires IsCall(ms, i, cb) && i < LastMove(ms)
    ensures var both := Piece(ms, w, i) + Piece(ms, w, i + 1);
      |both| >= 2 && both[0] == ms[i] && InTurn(ms, w, i, both[1])
  {
    hide InTurn, Inserts, Front, Dropped, LastMove;
    if TakesFront(ms, i + 1) {
      NextTakes(ms, w, i, cb);
      assert Piece(ms, w, i) == [ms[i]];
    } else {
      MadeUpHolds(ms, w, i, cb);
      assert Piece(ms, w, i)[1] == Message(User, Blocks(Inserts(ms, w, i)), []);
    }
  }

  /** Every calling message before the last move stands in the repaired history, at `p`, and the very next
      message answers its calls: of each id, in the order of the calls, what answers them, wherever that
      stood before, and a made-up result where nothing does. */
  lemma AnswersFollow(ms: seq<Message>, w: Wording, i: nat, cb: nat) returns (p: nat)
    requires IsCall(ms, i, cb) && i < LastMove(ms)
    ensures var out := Rebuilt(ms, w, 0);
      && p == |Before(ms, w, i)| && p + 1 < |out| && out[p] == ms[i]
      && InTurn(ms, w, i, out[p + 1])
  {
    hide Rebuilt, Piece, InTurn, LastMove, Before, Calls;
    p := |Before(ms, w, i)|;
    BeforeAndAfter(ms, w, i);
    PieceAnswered(ms, w, i, cb);
    TwoPieces(ms, w, i);
    var both := Piece(ms, w, i) + Piece(ms, w, i + 1);
    var out, rest := Rebuilt(ms, w, 0), Rebuilt(ms, w, i + 2);
    assert out == Before(ms, w, i) + (both + rest);
    assert out[p] == (both + rest)[0] && out[p + 1] == (both + rest)[1];
  }

  lemma TwoPieces(ms: seq<Message>, w: Wording, i: nat)
    requires i + 1 < |ms|
    ensures Rebuilt(ms, w, i) == (Piece(ms, w, i) + Piece(ms, w, i + 1)) + Rebuilt(ms, w, i + 2)
  {
    hide Piece;
    assert Rebuilt(ms, w, i) == Piece(ms, w, i) + (Piece(ms, w, i + 1) + Rebuilt(ms, w, i + 2));
  }

  lemma {:induction false} AnswerAt(ms: seq<Message>, w: Wording, i: nat, n: nat, cb: nat)
    requires IsCall(ms, i, cb) && cb < n <= |CallBlocks(ms[i])|
    ensures var x := CallBlocks(ms[i])[cb].id;
      var r := Calls(CallBlocks(ms[i])[..cb], x);
      r < |AnswersTo(ms, w, i, n, x)| && AnswersTo(ms, w, i, n, x)[r] == Given(ms, w, i, cb)
    decreases n
  {
    hide Given, Calls;
    var x := CallBlocks(ms[i])[cb].id;
    AnswersCount(ms, w, i, n - 1, x);
    if cb < n - 1 {
      AnswerAt(ms, w, i, n - 1, cb);
    }
  }

  /** So the call has one and the same answer before and after, or the made-up one. */
  lemma AnswerStays(ms: seq<Message>, w: Wording, i: nat, cb: nat) returns (p: nat)
    requires IsCall(ms, i, cb) && i < LastMove(ms)
    ensures var out := Rebuilt(ms, w, 0);
      && p + 1 < |out| && out[p] == ms[i] && IsCall(out, p, cb) && Answer(out, p, cb).Some?
      && Answer(out, p, cb).value.0 == p + 1
      && ReplyBlocks(out[p + 1])[Answer(out, p, cb).value.1]
         == match Answer(ms, i, cb)
            case Some(from) => ReplyBlocks(ms[from.0])[from.1]
            case None => Result(CallBlocks(ms[i])[cb].id, w.placeholder)
  {
    hide AnswersTo, ResultsOf, Rebuilt, Nth, LastMove, Find, Calls, Results, InTurn;
    p := AnswersFollow(ms, w, i, cb);
    var out := Rebuilt(ms, w, 0);
    InTurnAt(ms, w, i, cb, out[p + 1]);
    AnsweredNext(out, w, p, cb);
  }

  lemma InTurnAt(ms: seq<Message>, w: Wording, i: nat, cb: nat, m: Message)
    requires IsCall(ms, i, cb) && InTurn(ms, w, i, m)
    ensures var x := CallBlocks(ms[i])[cb].id;
      var r := Calls(CallBlocks(ms[i])[..cb], x);
      r < Results(ReplyBlocks(m), x) && ReplyBlocks(m)[Nth(ReplyBlocks(m), x, r)] == Given(ms, w, i, cb)
  {
    hide AnswersTo, ResultsOf, Nth, Calls, Results, Given;
    var x := CallBlocks(ms[i])[cb].id;
    AnswerAt(ms, w, i, |CallBlocks(ms[i])|, cb);
    assert ResultsOf(ReplyBlocks(m), x) == AnswersTo(ms, w, i, |CallBlocks(ms[i])|, x);
    OfNth(ReplyBlocks(m), x, Calls(CallBlocks(ms[i])[..cb], x));
  }

  /** A call whose turn comes among the results of the very next message is answered there. */
  lemma AnsweredNext(out: seq<Message>, w: Wording, p: nat, cb: nat)
    requires p + 1 < |out| && IsCall(out, p, cb)
    requires var x := CallBlocks(out[p])[cb].id;
      Calls(CallBlocks(out[p])[..cb], x) < Results(ReplyBlocks(out[p + 1]), x)
    ensures var x, bs := CallBlocks(out[p])[cb].id, ReplyBlocks(out[p + 1]);
      var b := Nth(bs, x, Calls(CallBlocks(out[p])[..cb], x));
      Answer(out, p, cb) == Some((p + 1, b)) && Given(out, w, p, cb) == bs[b]
  {
    hide Nth, Results, Calls;
    RepliesCallNothing(out[p + 1], CallBlocks(out[p])[cb].id);
  }

  lemma RepliesCallNothing(m: Message, x: Id)
    requires Results(ReplyBlocks(m), x) > 0
    ensures Calls(CallBlocks(m), x) == 0
  {
  }
}
