/** What repair keeps: other messages, what users said, and every result that answers a call, each
    as often as it answers one. */
module ExchangeConserves {
  import opened Text
  import opened History
  import opened Exchange
  import opened ExchangeLaws

  // ---- Messages and words ----

  /** One line of a transcript: a message of someone other than the user, or a block a user said. */
  datatype Line = Other(message: Message) | Spoken(block: Block)

  function Said(bs: seq<Block>): seq<Block> {
    if bs == [] then []
    else Said(bs[..|bs| - 1]) + if bs[|bs| - 1].Result? then [] else [bs[|bs| - 1]]
  }

  /** What a user said: blocks that are no results; a string counts as the text block it stands for. */
  function SaidIn(m: Message, w: Wording): seq<Block> {
    if !m.role.User? then []
    else if m.content.Str? then TextBlocks(w, m.content.text)
    else Said(m.content.blocks)
  }

  function Lines(m: Message, w: Wording): seq<Line> {
    if m.role.User? then var said := SaidIn(m, w); seq(|said|, i requires 0 <= i < |said| => Spoken(said[i]))
    else [Other(m)]
  }

  /** Everything that was said, by whom, in order; results are no words. */
  function Transcript(ms: seq<Message>, w: Wording): seq<Line> {
    if ms == [] then [] else Lines(ms[0], w) + Transcript(ms[1..], w)
  }

  lemma {:induction false} SaidAppend(a: seq<Block>, b: seq<Block>)
    ensures Said(a + b) == Said(a) + Said(b)
  {
    if b == [] {
      assert a + b == a;
    } else {
      SaidAppend(a, b[..|b| - 1]);
      assert (a + b)[..|a + b| - 1] == a + b[..|b| - 1];
    }
  }

  lemma {:induction false} NothingSaid(bs: seq<Block>)
    requires forall b <- bs :: b.Result?
    ensures Said(bs) == []
  {
    if bs != [] {
      NothingSaid(bs[..|bs| - 1]);
    }
  }

  lemma {:induction false} SaidWithout(bs: seq<Block>, drop: set<nat>)
    requires OnlyResults(bs, drop)
    ensures Said(Without(bs, drop)) == Said(bs)
  {
    if bs != [] {
      var n := |bs| - 1;
      SaidWithout(bs[..n], drop);
      SaidAppend(Without(bs[..n], drop), if n in drop then [] else [bs[n]]);
      SaidOne(bs[n]);
    }
  }

  lemma SaidOne(b: Block)
    ensures Said([b]) == if b.Result? then [] else [b]
  {
    assert [b][..0] == [];
  }

  lemma SaidPlace(bs: seq<Block>, pre: seq<Block>)
    requires forall b <- pre :: b.Result?
    ensures Said(Place(bs, pre)) == Said(bs)
  {
    hide Said;
    var k := Lead(bs);
    SaidAppend(bs[..k] + pre, bs[k..]);
    SaidAppend(bs[..k], pre);
    NothingSaid(pre);
    SaidAppend(bs[..k], bs[k..]);
    assert Said(bs[..k]) + [] == Said(bs[..k]);
    assert bs[..k] + bs[k..] == bs;
  }

  lemma TranscriptCons(m: Message, rest: seq<Message>, w: Wording)
    ensures Transcript([m] + rest, w) == Lines(m, w) + Transcript(rest, w)
  {
    hide Lines;
    assert ([m] + rest)[1..] == rest;
  }

  lemma Grouped(x: seq<Line>, y: seq<Line>, z: seq<Line>)
    ensures x + (y + z) == (x + y) + z
  {
  }

  lemma {:induction false} TranscriptAppend(a: seq<Message>, b: seq<Message>, w: Wording)
    ensures Transcript(a + b, w) == Transcript(a, w) + Transcript(b, w)
  {
    hide Lines;
    if a == [] {
      assert a + b == b && [] + Transcript(b, w) == Transcript(b, w);
    } else {
      TranscriptAppend(a[1..], b, w);
      assert (a + b)[0] == a[0] && (a + b)[1..] == a[1..] + b;
      TranscriptCons(a[0], a[1..], w);
      TranscriptCons(a[0], a[1..] + b, w);
      Grouped(Lines(a[0], w), Transcript(a[1..], w), Transcript(b, w));
      assert a == [a[0]] + a[1..] && a + b == [a[0]] + (a[1..] + b);
    }
  }

  lemma FrontIsResults(ms: seq<Message>, w: Wording, i: nat)
    requires i < |ms|
    ensures forall b <- Front(ms, w, i) :: b.Result?
    ensures forall b <- Inserts(ms, w, i) :: b.Result?
  {
    hide Fills;
    if i > 0 {
      FillsCount(ms, w, i - 1, |CallBlocks(ms[i - 1])|, [0]);
    }
    FillsCount(ms, w, i, |CallBlocks(ms[i])|, [0]);
  }

  lemma TranscriptOfOne(m: Message, w: Wording)
    ensures Transcript([m], w) == Lines(m, w)
  {
    hide Lines;
    assert [m][1..] == [];
  }

  lemma TextBlocksSaid(pre: seq<Block>, w: Wording, t: Text)
    requires forall b <- pre :: b.Result?
    ensures Said(pre + TextBlocks(w, t)) == TextBlocks(w, t)
  {
    SaidAppend(pre, TextBlocks(w, t));
    NothingSaid(pre);
    SaidOne(Words(t));
  }

  lemma MendedKeeps(m: Message, w: Wording, drop: set<nat>, pre: seq<Block>)
    requires m.role.User? && m.content.Blocks? ==> OnlyResults(m.content.blocks, drop)
    requires forall b <- pre :: b.Result?
    ensures Transcript(Mended(m, w, drop, pre), w) == Transcript([m], w)
  {
    hide Place, Without, Transcript, Results;
    TranscriptOfOne(m, w);
    KeepsNothing(w);
    if m.role.User? {
      match m.content
      case Str(t) =>
        TextBlocksSaid(pre, w, t);
        TranscriptOfOne(m.(content := Blocks(pre + TextBlocks(w, t))), w);
      case Blocks(bs) =>
        SaidWithout(bs, drop);
        SaidPlace(Without(bs, drop), pre);
        TranscriptOfOne(m.(content := Blocks(Place(Without(bs, drop), pre))), w);
    }
  }

  lemma DropsResults(ms: seq<Message>, i: nat)
    requires i < |ms|
    ensures OnlyResults(ReplyBlocks(ms[i]), Dropped(ms, i))
  {
  }

  lemma PieceKeeps(ms: seq<Message>, w: Wording, i: nat)
    requires i < |ms|
    ensures Transcript(Piece(ms, w, i), w) == Transcript([ms[i]], w)
  {
    hide Mended, Dropped, Front, Inserts;
    DropsResults(ms, i);
    FrontIsResults(ms, w, i);
    MendedKeeps(ms[i], w, Dropped(ms, i), Front(ms, w, i));
    var made := Message(User, Blocks(Inserts(ms, w, i)), []);
    TranscriptOfOne(made, w);
    NothingSaid(Inserts(ms, w, i));
    TranscriptAppend(Mended(ms[i], w, Dropped(ms, i), Front(ms, w, i)), [made], w);
    assert Mended(ms[i], w, Dropped(ms, i), Front(ms, w, i)) + [] == Mended(ms[i], w, Dropped(ms, i), Front(ms, w, i));
  }

  lemma KeepsNothing(w: Wording)
    ensures Transcript([], w) == []
  {
  }

  /** Repair keeps the transcript: it changes no message that is not a user's, loses and adds nothing that
      users said, and moves none of it past anything else. */
  lemma {:induction false} RepairKeepsWords(ms: seq<Message>, w: Wording, i: nat)
    requires i <= |ms|
    ensures Transcript(Rebuilt(ms, w, i), w) == Transcript(ms[i..], w)
    decreases |ms| - i
  {
    hide Piece, Transcript;
    if i == |ms| {
      KeepsNothing(w);
    } else {
      RepairKeepsWords(ms, w, i + 1);
      PieceKeeps(ms, w, i);
      TranscriptAppend(Piece(ms, w, i), Rebuilt(ms, w, i + 1), w);
      assert ms[i..] == [ms[i]] + ms[i + 1..];
      TranscriptAppend([ms[i]], ms[i + 1..], w);
    }
  }

  // ---- Results ----

  /** How often `v` occurs. */
  function Tally(bs: seq<Block>, v: Block): nat {
    if bs == [] then 0 else Tally(bs[..|bs| - 1], v) + if bs[|bs| - 1] == v then 1 else 0
  }

  function TallyIn(ms: seq<Message>, v: Block): nat {
    if ms == [] then 0 else Tally(ReplyBlocks(ms[0]), v) + TallyIn(ms[1..], v)
  }

  /** What answers a call in the repaired history. */
  function Given(ms: seq<Message>, w: Wording, i: nat, cb: nat): Block
    requires IsCall(ms, i, cb)
  {
    match Answer(ms, i, cb)
    case None => Synthetic(w, CallBlocks(ms[i])[cb].id)
    case Some(p) => ReplyBlocks(ms[p.0])[p.1]
  }

  /** How often `v` answers one of the first `cb` blocks of message `i`. */
  function GivenTo(ms: seq<Message>, w: Wording, i: nat, cb: nat, v: Block): nat
    requires i < |ms| && cb <= |CallBlocks(ms[i])|
    decreases cb
  {
    if cb == 0 then 0
    else GivenTo(ms, w, i, cb - 1, v) + if IsCall(ms, i, cb - 1) && Given(ms, w, i, cb - 1) == v then 1 else 0
  }

  function GivenBy(ms: seq<Message>, w: Wording, i: nat, v: Block): nat
    requires i < |ms|
  {
    GivenTo(ms, w, i, |CallBlocks(ms[i])|, v)
  }

  /** How often `v` answers a call of message `i` or later, before the last move. */
  function GivenFrom(ms: seq<Message>, w: Wording, i: nat, v: Block): nat
    requires i <= |ms|
    decreases |ms| - i
  {
    if i >= LastMove(ms) then 0 else GivenBy(ms, w, i, v) + GivenFrom(ms, w, i + 1, v)
  }

  /** How often `v` stays after the last move. */
  function StaysFrom(ms: seq<Message>, j: nat, v: Block): nat
    requires j <= |ms|
    decreases |ms| - j
  {
    if j == |ms| then 0
    else
      (if j > LastMove(ms) then Tally(Without(ReplyBlocks(ms[j]), Dropped(ms, j)), v) else 0)
      + StaysFrom(ms, j + 1, v)
  }

  lemma {:induction false} TallyAppend(a: seq<Block>, b: seq<Block>, v: Block)
    ensures Tally(a + b, v) == Tally(a, v) + Tally(b, v)
  {
    if b == [] {
      assert a + b == a;
    } else {
      TallyAppend(a, b[..|b| - 1], v);
      assert (a + b)[..|a + b| - 1] == a + b[..|b| - 1];
    }
  }

  lemma TallyOne(b: Block, v: Block)
    ensures Tally([b], v) == if b == v then 1 else 0
  {
    assert [b][..0] == [];
  }

  lemma TallyPlace(bs: seq<Block>, pre: seq<Block>, v: Block)
    ensures Tally(Place(bs, pre), v) == Tally(bs, v) + Tally(pre, v)
  {
    var k := Lead(bs);
    TallyAppend(bs[..k] + pre, bs[k..], v);
    TallyAppend(bs[..k], pre, v);
    TallyAppend(bs[..k], bs[k..], v);
    assert bs[..k] + bs[k..] == bs;
  }

  /** How often `v` is among the first `n` results of its id. */
  function NthTally(bs: seq<Block>, v: Block, n: nat): nat
    requires v.Result? && n <= Results(bs, v.id)
    decreases n
  {
    if n == 0 then 0 else NthTally(bs, v, n - 1) + if bs[Nth(bs, v.id, n - 1)] == v then 1 else 0
  }

  lemma {:induction false} NthTallyInit(bs: seq<Block>, v: Block, n: nat)
    requires bs != [] && v.Result? && n <= Results(bs[..|bs| - 1], v.id)
    ensures n <= Results(bs, v.id) && NthTally(bs, v, n) == NthTally(bs[..|bs| - 1], v, n)
    decreases n
  {
    hide Nth, Results;
    ResultsMono(bs, |bs| - 1, |bs| - 1, v.id);
    if n > 0 {
      NthTallyInit(bs, v, n - 1);
      NthInit(bs, v.id, n - 1);
    }
  }

  lemma NthInit(bs: seq<Block>, x: Id, r: nat)
    requires bs != [] && r < Results(bs[..|bs| - 1], x)
    ensures r < Results(bs, x) && Nth(bs, x, r) == Nth(bs[..|bs| - 1], x, r)
  {
    var init := bs[..|bs| - 1];
    ResultsMono(bs, |bs| - 1, |bs| - 1, x);
    var a := Nth(init, x, r);
    assert init[..a] == bs[..a];
    RankBelow(bs, a);
  }

  lemma TallyLast(bs: seq<Block>, drop: set<nat>, v: Block)
    requires bs != []
    ensures Tally(Without(bs, drop), v) == Tally(Without(bs[..|bs| - 1], drop), v)
         + if |bs| - 1 !in drop && bs[|bs| - 1] == v then 1 else 0
  {
    var n := |bs| - 1;
    TallyAppend(Without(bs[..n], drop), if n in drop then [] else [bs[n]], v);
    TallyOne(bs[n], v);
  }

  /** One block more: it counts if it is `v`, early enough, and of a rank that stays. */
  lemma NthTallyStep(bs: seq<Block>, k: nat, v: Block, limit: nat)
    requires bs != [] && v.Result?
    ensures var n, x := |bs| - 1, v.id;
      var init := bs[..n];
      && Results(bs[..Min(k, n + 1)], x) <= Results(bs, x) && Results(init[..Min(k, n)], x) <= Results(init, x)
      && NthTally(bs, v, Min(Results(bs[..Min(k, n + 1)], x), limit))
           == NthTally(init, v, Min(Results(init[..Min(k, n)], x), limit))
              + if bs[n] == v && n < k && Results(init, x) < limit then 1 else 0
  {
    hide Nth;
    var n, x := |bs| - 1, v.id;
    var init := bs[..n];
    ResultsMono(bs, Min(k, n + 1), n + 1, x);
    ResultsMono(init, Min(k, n), n, x);
    ResultsStep(bs, n, x);
    assert bs[..n + 1] == bs && init[..n] == init;
    assert k <= n ==> init[..k] == bs[..k];
    NthTallyInit(bs, v, Min(Results(init[..Min(k, n)], x), limit));
    if bs[n].Result? && bs[n].id == x {
      RankBelow(bs, n);
    }
  }

  /** The results of `v`'s id that stay are the first so many of them. */
  lemma {:induction false} KeptTally(bs: seq<Block>, drop: set<nat>, k: nat, v: Block, limit: nat)
    requires v.Result? && DropsRest(bs, drop, k, v.id, limit)
    ensures Results(bs[..Min(k, |bs|)], v.id) <= Results(bs, v.id)
    ensures Tally(Without(bs, drop), v) == NthTally(bs, v, Min(Results(bs[..Min(k, |bs|)], v.id), limit))
  {
    hide DropsRest, Without, Results, NthTally, Min;
    if bs == [] {
      NothingKept(drop, k, v, limit);
    } else {
      DropsInit(bs, drop, k, v.id, limit);
      KeptTally(bs[..|bs| - 1], drop, k, v, limit);
      TallyLast(bs, drop, v);
      NthTallyStep(bs, k, v, limit);
    }
  }

  lemma NothingKept(drop: set<nat>, k: nat, v: Block, limit: nat)
    requires v.Result?
    ensures Results([][..Min(k, 0)], v.id) <= Results([], v.id)
    ensures Tally(Without([], drop), v) == NthTally([], v, Min(Results([][..Min(k, 0)], v.id), limit)) == 0
  {
  }

  /** The first `r` leading answers that stay in place, and what is inserted, are what is given. */
  lemma FillTally(ms: seq<Message>, w: Wording, i: nat, cb: nat, v: Block)
    requires IsCall(ms, i, cb) && v.Result?
    ensures var x := CallBlocks(ms[i])[cb].id;
      var r := Calls(CallBlocks(ms[i])[..cb], x);
      if r < LeadReplies(ms, i + 1, x) then
        && Fill(ms, w, i, cb) == [] && i + 1 < |ms| && r < Results(ReplyBlocks(ms[i + 1]), x)
        && Given(ms, w, i, cb) == ReplyBlocks(ms[i + 1])[Nth(ReplyBlocks(ms[i + 1]), x, r)]
      else
        Fill(ms, w, i, cb) == [Given(ms, w, i, cb)]
    ensures Given(ms, w, i, cb).Result? && Given(ms, w, i, cb).id == CallBlocks(ms[i])[cb].id
  {
    hide LeadReplies, Nth;
    var x := CallBlocks(ms[i])[cb].id;
    FillLaw(ms, w, i, cb);
    if Calls(CallBlocks(ms[i])[..cb], x) < LeadReplies(ms, i + 1, x) {
      LeadIsThere(ms, i + 1, x);
    }
  }

  lemma LeadIsThere(ms: seq<Message>, j: nat, x: Id)
    requires LeadReplies(ms, j, x) > 0
    ensures j < |ms| && ReplyBlocks(ms[j]) != [] && Calls(CallBlocks(ms[j]), x) == 0
    ensures LeadReplies(ms, j, x) <= Results(ReplyBlocks(ms[j]), x)
  {
    if j < |ms| {
      ResultsMono(ReplyBlocks(ms[j]), Lead(ReplyBlocks(ms[j])), |ReplyBlocks(ms[j])|, x);
    }
  }

  /** How many of the leading results of message `j` hold `v` with a rank below `c`. */
  function InPlace(ms: seq<Message>, j: nat, v: Block, c: nat): nat
    requires v.Result?
  {
    if LeadReplies(ms, j, v.id) == 0 then 0
    else
      LeadIsThere(ms, j, v.id);
      NthTally(ReplyBlocks(ms[j]), v, Min(c, LeadReplies(ms, j, v.id)))
  }

  lemma InPlaceStep(ms: seq<Message>, j: nat, v: Block, c: nat)
    requires v.Result?
    ensures c < LeadReplies(ms, j, v.id) ==>
      && j < |ms| && c < Results(ReplyBlocks(ms[j]), v.id)
      && InPlace(ms, j, v, c + 1) == InPlace(ms, j, v, c)
           + if ReplyBlocks(ms[j])[Nth(ReplyBlocks(ms[j]), v.id, c)] == v then 1 else 0
    ensures c >= LeadReplies(ms, j, v.id) ==> InPlace(ms, j, v, c + 1) == InPlace(ms, j, v, c)
  {
    hide LeadReplies, Nth;
    if c < LeadReplies(ms, j, v.id) {
      LeadIsThere(ms, j, v.id);
    }
  }

  lemma NothingGiven(ms: seq<Message>, w: Wording, i: nat, v: Block)
    requires i < |ms| && v.Result?
    ensures InPlace(ms, i + 1, v, Calls(CallBlocks(ms[i])[..0], v.id)) + Tally(Fills(ms, w, i, 0), v) == 0
    ensures GivenTo(ms, w, i, 0, v) == 0
  {
    hide LeadReplies;
    assert Calls(CallBlocks(ms[i])[..0], v.id) == 0;
    if LeadReplies(ms, i + 1, v.id) != 0 {
      LeadIsThere(ms, i + 1, v.id);
    }
  }

  lemma FillsTallyStep(ms: seq<Message>, w: Wording, i: nat, k: nat, v: Block)
    requires i < |ms| && k < |CallBlocks(ms[i])| && v.Result?
    ensures var bs, x := CallBlocks(ms[i]), v.id;
      InPlace(ms, i + 1, v, Calls(bs[..k + 1], x)) + Tally(Fill(ms, w, i, k), v)
        == InPlace(ms, i + 1, v, Calls(bs[..k], x)) + if IsCall(ms, i, k) && Given(ms, w, i, k) == v then 1 else 0
  {
    hide Fill, LeadReplies, Given, InPlace, Nth;
    var bs := CallBlocks(ms[i]);
    CallsStep(bs, k, v.id);
    if bs[k].Call? {
      FillTally(ms, w, i, k, v);
      TallyOne(Given(ms, w, i, k), v);
      TallyNothing(v);
      InPlaceStep(ms, i + 1, v, Calls(bs[..k], v.id));
    } else {
      NoFill(ms, w, i, k);
    }
  }

  lemma {:induction false} FillsTally(ms: seq<Message>, w: Wording, i: nat, cb: nat, v: Block)
    requires i < |ms| && cb <= |CallBlocks(ms[i])| && v.Result?
    ensures InPlace(ms, i + 1, v, Calls(CallBlocks(ms[i])[..cb], v.id)) + Tally(Fills(ms, w, i, cb), v)
         == GivenTo(ms, w, i, cb, v)
    decreases cb
  {
    hide Fill, LeadReplies, Given, InPlace, Tally, Calls;
    if cb == 0 {
      NothingGiven(ms, w, i, v);
    } else {
      FillsTally(ms, w, i, cb - 1, v);
      TallyAppend(Fills(ms, w, i, cb - 1), Fill(ms, w, i, cb - 1), v);
      FillsTallyStep(ms, w, i, cb - 1, v);
    }
  }

  lemma {:induction false} TallyInAppend(a: seq<Message>, b: seq<Message>, v: Block)
    ensures TallyIn(a + b, v) == TallyIn(a, v) + TallyIn(b, v)
  {
    if a == [] {
      assert a + b == b;
    } else {
      TallyInAppend(a[1..], b, v);
      assert (a + b)[1..] == a[1..] + b;
    }
  }

  lemma TallyInOne(m: Message, v: Block)
    ensures TallyIn([m], v) == Tally(ReplyBlocks(m), v)
  {
    assert [m][1..] == [];
  }

  /** What the message before `i` gives, where message `i` takes it. */
  function GivenInto(ms: seq<Message>, w: Wording, i: nat, v: Block): nat
    requires i <= |ms|
  {
    if i == 0 || i > LastMove(ms) || !TakesFront(ms, i) then 0 else GivenBy(ms, w, i - 1, v)
  }

  lemma InsertsTally(ms: seq<Message>, w: Wording, i: nat, v: Block)
    requires i < |ms| && i < LastMove(ms) && v.Result?
    ensures InPlace(ms, i + 1, v, Calls(CallBlocks(ms[i]), v.id)) + Tally(Inserts(ms, w, i), v) == GivenBy(ms, w, i, v)
  {
    hide InPlace, Fills, Tally;
    var bs := CallBlocks(ms[i]);
    assert bs[..|bs|] == bs;
    FillsTally(ms, w, i, |bs|, v);
  }

  lemma KeptInPlace(ms: seq<Message>, i: nat, v: Block)
    requires i < |ms| && i <= LastMove(ms) && v.Result?
    ensures Tally(Without(ReplyBlocks(ms[i]), Dropped(ms, i)), v) == InPlace(ms, i, v, Due(ms, [], i, v.id))
  {
    hide Tally, Without;
    var bs := ReplyBlocks(ms[i]);
    var d := Due(ms, [], i, v.id);
    forall b | 0 <= b < |bs| && bs[b].Result? && bs[b].id == v.id
      ensures b in Dropped(ms, i) <==> !(b < Lead(bs) && Results(bs[..b], v.id) < d)
    {
      assert IsReply(ms, i, b);
    }
    KeptTally(bs, Dropped(ms, i), Lead(bs), v, d);
  }

  lemma NoneInPlace(ms: seq<Message>, i: nat, v: Block, c: nat)
    requires v.Result?
    ensures c == 0 || i >= |ms| || ReplyBlocks(ms[i]) == [] ==> InPlace(ms, i, v, c) == 0
  {
    NoneDue(v.id);
  }

  /** The results of a user message, once mended, are what the message before gives it. */
  lemma MendedTally(ms: seq<Message>, w: Wording, i: nat, v: Block)
    requires i < |ms| && i <= LastMove(ms) && ms[i].role.User? && v.Result?
    ensures Tally(Without(ReplyBlocks(ms[i]), Dropped(ms, i)), v) + Tally(Front(ms, w, i), v) == GivenInto(ms, w, i, v)
  {
    hide InPlace, Without, Dropped, Inserts, GivenBy;
    KeptInPlace(ms, i, v);
    NoneDue(v.id);
    if i > 0 {
      InsertsTally(ms, w, i - 1, v);
    } else {
      NoneInPlace(ms, i, v, 0);
    }
  }

  lemma PieceTally(ms: seq<Message>, w: Wording, i: nat, v: Block)
    requires i < |ms| && i <= LastMove(ms) && v.Result?
    ensures TallyIn(Piece(ms, w, i), v) == GivenInto(ms, w, i, v)
          + if i < LastMove(ms) && !TakesFront(ms, i + 1) then GivenBy(ms, w, i, v) else 0
  {
    hide Mended, Dropped, Front, Inserts, GivenBy, Tally, LastMove, InPlace;
    var a, ins := Mended(ms[i], w, Dropped(ms, i), Front(ms, w, i)), Inserts(ms, w, i);
    var made := Message(User, Blocks(ins), []);
    TallyInAppend(a, [made], v);
    TallyInOne(made, v);
    assert a + [] == a;
    MendedTallyIn(ms, w, i, v);
    NoLateInserts(ms, w, i);
    if i < LastMove(ms) && !TakesFront(ms, i + 1) {
      InsertsTally(ms, w, i, v);
      NoneInPlace(ms, i + 1, v, Calls(CallBlocks(ms[i]), v.id));
      assert ReplyBlocks(ms[i + 1]) == [];
      TallyNothing(v);
    }
  }

  lemma TallyNothing(v: Block)
    ensures Tally([], v) == 0 && TallyIn([], v) == 0
  {
  }

  lemma MendedTallyIn(ms: seq<Message>, w: Wording, i: nat, v: Block)
    requires i < |ms| && i <= LastMove(ms) && v.Result?
    ensures TallyIn(Mended(ms[i], w, Dropped(ms, i), Front(ms, w, i)), v) == GivenInto(ms, w, i, v)
  {
    hide Dropped, Front, GivenBy, Place, Without;
    var m, drop, pre := ms[i], Dropped(ms, i), Front(ms, w, i);
    TallyInOne(m, v);
    TallyNothing(v);
    if m.role.User? {
      MendedTally(ms, w, i, v);
      match m.content
      case Str(t) =>
        assert Without([], drop) == [] by { WithoutNone(drop); }
        TallyAppend(pre, TextBlocks(w, t), v);
        TallyOne(Words(t), v);
        TallyInOne(m.(content := Blocks(pre + TextBlocks(w, t))), v);
      case Blocks(bs) =>
        WithoutNothing(bs);
        TallyPlace(Without(bs, drop), pre, v);
        TallyInOne(m.(content := Blocks(Place(Without(bs, drop), pre))), v);
    }
  }

  lemma WithoutNone(drop: set<nat>)
    ensures Without([], drop) == []
  {
  }

  lemma LatePieceTally(ms: seq<Message>, w: Wording, j: nat, v: Block)
    requires LastMove(ms) < j < |ms| && v.Result?
    ensures TallyIn(Piece(ms, w, j), v) == Tally(Without(ReplyBlocks(ms[j]), Dropped(ms, j)), v)
  {
    hide Dropped, Front, Place, Without, Inserts;
    var m, drop := ms[j], Dropped(ms, j);
    NothingInserted(ms, w, j);
    TallyNothing(v);
    TallyInOne(m, v);
    WithoutNone(drop);
    WithoutNothing(ReplyBlocks(m));
    if m.role.User? && m.content.Blocks? {
      TallyPlace(Without(m.content.blocks, drop), [], v);
      TallyInOne(m.(content := Blocks(Place(Without(m.content.blocks, drop), []))), v);
    }
  }

  lemma {:induction false} RebuiltTally(ms: seq<Message>, w: Wording, i: nat, v: Block)
    requires i <= |ms| && v.Result?
    ensures TallyIn(Rebuilt(ms, w, i), v) == GivenInto(ms, w, i, v) + GivenFrom(ms, w, i, v) + StaysFrom(ms, i, v)
    decreases |ms| - i
  {
    hide Piece, GivenBy, Dropped, Without, Tally, LastMove;
    if i == |ms| {
      TallyNothing(v);
      LastMoveInside(ms);
    } else {
      RebuiltTally(ms, w, i + 1, v);
      TallyInAppend(Piece(ms, w, i), Rebuilt(ms, w, i + 1), v);
      if i <= LastMove(ms) {
        PieceTally(ms, w, i, v);
      } else {
        LatePieceTally(ms, w, i, v);
      }
    }
  }

  lemma LastMoveInside(ms: seq<Message>)
    ensures -1 <= LastMove(ms) < |ms|
  {
  }

  /** The results of the repaired history are, each as often as it is given, what answers the
      calls before the last move, and what stays after it: no answer is lost, repeated or left
      behind, and nothing else is kept. */
  lemma RepairConservesResults(ms: seq<Message>, w: Wording, v: Block)
    requires v.Result?
    ensures TallyIn(Rebuilt(ms, w, 0), v) == GivenFrom(ms, w, 0, v) + StaysFrom(ms, 0, v)
  {
    RebuiltTally(ms, w, 0, v);
  }

  // ---- One answer per call, one call per answer ----

  lemma {:induction false} FindRank(ms: seq<Message>, j: nat, x: Id, r: nat)
    requires j <= |ms|
    ensures Find(ms, j, x, r).Some? ==>
      var (k, b) := Find(ms, j, x, r).value;
      && RepliesBetween(ms, j, k, x) + Results(ReplyBlocks(ms[k])[..b], x) == r
      && forall i :: j <= i <= k ==> Calls(CallBlocks(ms[i]), x) == 0
    decreases |ms| - j
  {
    hide Nth, Results, Calls;
    if j < |ms| && Calls(CallBlocks(ms[j]), x) == 0 {
      var d := Results(ReplyBlocks(ms[j]), x);
      NoReplies(ms, j, x);
      if r >= d {
        FindRank(ms, j + 1, x, r - d);
        var f := Find(ms, j + 1, x, r - d);
        if f.Some? {
          RepliesFirst(ms, j, f.value.0, x);
          hide RepliesBetween;
        }
      }
    }
  }

  /** Different calls have different answers. */
  lemma AnswersDiffer(ms: seq<Message>, i: nat, a: nat, k: nat, b: nat)
    requires IsCall(ms, i, a) && IsCall(ms, k, b) && (i, a) != (k, b)
    ensures Answer(ms, i, a).Some? ==> Answer(ms, i, a) != Answer(ms, k, b)
  {
    hide Find, Results, RepliesBetween;
    var x, y := CallBlocks(ms[i])[a].id, CallBlocks(ms[k])[b].id;
    FindRank(ms, i + 1, x, Calls(CallBlocks(ms[i])[..a], x));
    FindRank(ms, k + 1, y, Calls(CallBlocks(ms[k])[..b], y));
    CallIsCounted(ms, i, a);
    CallIsCounted(ms, k, b);
    if x == y && i == k {
      CallRanksDiffer(CallBlocks(ms[i]), a, b, x);
    }
  }

  lemma CallIsCounted(ms: seq<Message>, i: nat, cb: nat)
    requires IsCall(ms, i, cb)
    ensures Calls(CallBlocks(ms[i]), CallBlocks(ms[i])[cb].id) > 0
  {
    var bs := CallBlocks(ms[i]);
    CallsStep(bs, cb, bs[cb].id);
    CallsMono(bs, cb + 1, |bs|, bs[cb].id);
  }

  lemma CallRanksDiffer(bs: seq<Block>, a: nat, b: nat, x: Id)
    requires a < |bs| && b < |bs| && a != b && bs[a].Call? && bs[a].id == x && bs[b].Call? && bs[b].id == x
    ensures Calls(bs[..a], x) != Calls(bs[..b], x)
  {
    CallsStep(bs, a, x);
    CallsStep(bs, b, x);
    if a < b {
      CallsMono(bs, a + 1, b, x);
    } else {
      CallsMono(bs, b + 1, a, x);
    }
  }

  /** A call goes unanswered only when no result is left for it: all results of its id before the
      next message calling that id are answers to earlier calls of its own message. */
  lemma {:induction false} UnansweredIff(ms: seq<Message>, j: nat, stop: nat, x: Id, r: nat)
    requires j <= stop <= |ms|
    requires forall k :: j <= k < stop ==> Calls(CallBlocks(ms[k]), x) == 0
    requires stop < |ms| ==> Calls(CallBlocks(ms[stop]), x) > 0
    ensures Find(ms, j, x, r).None? <==> RepliesBetween(ms, j, stop, x) <= r
    decreases |ms| - j
  {
    hide Nth;
    if j < stop {
      var d := Results(ReplyBlocks(ms[j]), x);
      RepliesFirst(ms, j, stop, x);
      RepliesMono(ms, j + 1, j + 1, stop, x);
      if r >= d {
        UnansweredIff(ms, j + 1, stop, x, r - d);
      }
    }
  }
}
