/** Folding a stream that holds several blocks is folding each block by itself. What a reader is told of
    one block decides what the collector keeps of it, wherever the block's events stand in the stream.
    The block of a call, of a reasoning item and of a message are folded here one by one, and then put
    together by number. */
module CollectStream {
  import opened Text
  import opened Translate
  import opened TranslateItems
  import opened TranslateMeaning
  import opened OwnerSteps
  import opened BlockOwners
  import opened Collect
  import L = CollectLaws

  // ---- One block ----

  /** What is kept of one block: nothing yet, its content, or the stream is refused. */
  datatype Folded = Absent | Kept(block: Content) | Refused

  function FoldOn(parse: Parser, f: Folded, m: Mark): Folded {
    match f
    case Refused => Refused
    case Absent => if m.Opens? then Kept(Begin(m.start)) else Refused
    case Kept(b) =>
      match m
      case Opens(_) => Refused
      case Says(piece) => Kept(Add(b, piece))
      case Closes =>
        if !b.start.ToolUseBlock? || b.json == [] then f
        else if parse(b.json).None? then Refused
        else Kept(b.(input := parse(b.json).value))
  }

  function FoldAll(parse: Parser, f: Folded, ms: seq<Mark>): Folded
    decreases |ms|
  {
    if ms == [] then f else FoldAll(parse, FoldOn(parse, f, ms[0]), ms[1..])
  }

  lemma {:induction false} FoldAppend(parse: Parser, f: Folded, a: seq<Mark>, b: seq<Mark>)
    ensures FoldAll(parse, f, a + b) == FoldAll(parse, FoldAll(parse, f, a), b)
    decreases |a|
  {
    hide FoldOn;
    if a == [] {
      assert a + b == b;
    } else {
      assert (a + b)[0] == a[0] && (a + b)[1..] == a[1..] + b;
      FoldAppend(parse, FoldOn(parse, f, a[0]), a[1..], b);
    }
  }

  lemma FoldOne(parse: Parser, f: Folded, m: Mark)
    ensures FoldAll(parse, f, [m]) == FoldOn(parse, f, m)
  {
    hide FoldOn;
    assert [m][1..] == [];
  }

  // ---- Block by block ----

  function HeldAt(c: Collection, n: int): Folded {
    if c.failed then Refused else if n in c.blocks then Kept(c.blocks[n]) else Absent
  }

  /** An event on the way: about a block, or the beginning of the message. */
  predicate Midway(e: Out) {
    e.MessageStart? || (BlockOf(e).Some? && BlockOf(e).value >= 0)
  }

  lemma TakeAt(parse: Parser, c: Collection, e: Out, n: int)
    requires !c.failed && !c.stopped && Midway(e)
    ensures var d := Take(parse, c, e);
      && !d.stopped
      && (BlockOf(e) == Some(n) ==> HeldAt(d, n) == FoldAll(parse, HeldAt(c, n), MarkIn(e)))
      && (BlockOf(e) != Some(n) && !d.failed ==> HeldAt(d, n) == HeldAt(c, n))
  {
    if BlockOf(e) == Some(n) {
      FoldOne(parse, HeldAt(c, n), MarkIn(e)[0]);
    }
  }

  ghost predicate KeptAt(parse: Parser, c: Collection, outs: seq<Out>, d: Collection, n: int) {
    HeldAt(d, n) == FoldAll(parse, HeldAt(c, n), MarksAt(outs, n))
  }

  ghost predicate RefusedAt(parse: Parser, c: Collection, outs: seq<Out>, n: int) {
    FoldAll(parse, HeldAt(c, n), MarksAt(outs, n)) == Refused
  }

  lemma {:induction false} StaysRefused(parse: Parser, ms: seq<Mark>)
    ensures FoldAll(parse, Refused, ms) == Refused
    decreases |ms|
  {
    if ms != [] {
      StaysRefused(parse, ms[1..]);
    }
  }

  lemma MarksAtStep(outs: seq<Out>, n: int)
    requires outs != []
    ensures MarksAt(outs, n) == (if BlockOf(outs[0]) == Some(n) then MarkIn(outs[0]) else []) + MarksAt(outs[1..], n)
  {
  }

  /** The first event, seen from block `n`. */
  lemma FirstAt(parse: Parser, c: Collection, outs: seq<Out>, n: int)
    requires outs != [] && !c.failed && !c.stopped && Midway(outs[0])
    ensures var d := Take(parse, c, outs[0]);
      && !d.stopped
      && (!d.failed ==>
            FoldAll(parse, HeldAt(c, n), MarksAt(outs, n)) == FoldAll(parse, HeldAt(d, n), MarksAt(outs[1..], n)))
      && (d.failed && BlockOf(outs[0]) == Some(n) ==> RefusedAt(parse, c, outs, n))
  {
    hide Take, MarkIn, FoldAll;
    var d := Take(parse, c, outs[0]);
    TakeAt(parse, c, outs[0], n);
    MarksAtStep(outs, n);
    if BlockOf(outs[0]) == Some(n) {
      FoldAppend(parse, HeldAt(c, n), MarkIn(outs[0]), MarksAt(outs[1..], n));
      StaysRefused(parse, MarksAt(outs[1..], n));
    } else {
      assert [] + MarksAt(outs[1..], n) == MarksAt(outs[1..], n);
    }
  }

  lemma OnlyBlocksFail(parse: Parser, c: Collection, e: Out)
    requires !c.failed && !c.stopped && Midway(e)
    ensures Take(parse, c, e).failed ==> BlockOf(e).Some?
  {
  }

  /** The collector keeps of every block what that block alone would leave, and refuses the stream just
      when one of its blocks would be refused. */
  lemma {:induction false} BlocksApart(parse: Parser, c: Collection, outs: seq<Out>)
    requires !c.failed && !c.stopped && forall e <- outs :: Midway(e)
    ensures var d := TakeAll(parse, c, outs);
      if d.failed then exists n :: RefusedAt(parse, c, outs, n)
      else !d.stopped && forall n :: KeptAt(parse, c, outs, d, n)
    decreases |outs|
  {
    hide Take, HeldAt, Midway;
    if outs == [] {
    } else {
      var c1 := Take(parse, c, outs[0]);
      if c1.failed {
        OnlyBlocksFail(parse, c, outs[0]);
        FirstAt(parse, c, outs, BlockOf(outs[0]).value);
        L.StaysFailed(parse, c1, outs[1..]);
        assert RefusedAt(parse, c, outs, BlockOf(outs[0]).value);
      } else {
        FirstAt(parse, c, outs, 0);
        assert forall e <- outs[1..] :: e in outs;
        BlocksApart(parse, c1, outs[1..]);
        var d := TakeAll(parse, c1, outs[1..]);
        if d.failed {
          var n :| RefusedAt(parse, c1, outs[1..], n);
          FirstAt(parse, c, outs, n);
          assert RefusedAt(parse, c, outs, n);
        } else {
          forall n ensures KeptAt(parse, c, outs, d, n) {
            assert KeptAt(parse, c1, outs[1..], d, n);
            FirstAt(parse, c, outs, n);
          }
        }
      }
    }
  }

  // ---- What the blocks of an item fold to ----

  lemma {:induction false} JsonFolds(parse: Parser, b: Content, ms: seq<Mark>)
    requires forall i :: 0 <= i < |ms| ==> IsJson(ms[i])
    ensures FoldAll(parse, Kept(b), ms) == Kept(b.(json := b.json + JsonIn(ms)))
    decreases |ms|
  {
    if ms == [] {
      assert b.json + [] == b.json;
    } else {
      assert IsJson(ms[0]);
      JsonFolds(parse, Add(b, ms[0].piece), ms[1..]);
      assert b.json + (ms[0].piece.json + JsonIn(ms[1..])) == (b.json + ms[0].piece.json) + JsonIn(ms[1..]);
    }
  }

  lemma {:induction false} ThoughtFolds(parse: Parser, b: Content, ms: seq<Mark>)
    requires forall i :: 0 <= i < |ms| ==> IsThought(ms[i])
    ensures FoldAll(parse, Kept(b), ms) == Kept(b.(thinking := b.thinking + ThoughtIn(ms)))
    decreases |ms|
  {
    if ms == [] {
      assert b.thinking + [] == b.thinking;
    } else {
      assert IsThought(ms[0]);
      ThoughtFolds(parse, Add(b, ms[0].piece), ms[1..]);
      assert b.thinking + (ms[0].piece.thought + ThoughtIn(ms[1..]))
          == (b.thinking + ms[0].piece.thought) + ThoughtIn(ms[1..]);
    }
  }

  /** A start, pieces of one sort, and an end. */
  lemma SplitMarks(ms: seq<Mark>, sort: Mark -> bool, end: seq<Mark>) returns (said: seq<Mark>)
    requires |ms| >= 1 && AllThen(ms[1..], sort, end)
    ensures ms == [ms[0]] + (said + end) && forall i :: 0 <= i < |said| ==> sort(said[i])
  {
    var rest := ms[1..];
    said := rest[..|rest| - |end|];
    assert rest == said + end;
  }

  /** The content of a call's block, or that its arguments do not parse. */
  function CallContent(parse: Parser, start: Start, json: Text): Folded {
    if json == [] then Kept(Begin(start))
    else if parse(json).None? then Refused
    else Kept(Begin(start).(json := json, input := parse(json).value))
  }

  lemma CallFolds(parse: Parser, ms: seq<Mark>, start: Start, json: Text)
    requires OneCall(ms, start, json) && start.ToolUseBlock?
    ensures FoldAll(parse, Absent, ms) == CallContent(parse, start, json)
  {
    var said := SplitMarks(ms, IsJson, [Closes]);
    hide FoldAll, AllThen;
    FoldAppend(parse, Absent, [ms[0]], said + [Closes]);
    FoldOne(parse, Absent, ms[0]);
    FoldAppend(parse, Kept(Begin(start)), said, [Closes]);
    JsonFolds(parse, Begin(start), said);
    assert [] + JsonIn(said) == JsonIn(said);
    FoldOne(parse, Kept(Begin(start).(json := JsonIn(said))), Closes);
    JsonInside(ms[0], said);
  }

  lemma JsonInside(first: Mark, said: seq<Mark>)
    requires first.Opens?
    ensures JsonIn([first] + (said + [Closes])) == JsonIn(said)
  {
    JsonAppend([first], said + [Closes]);
    JsonAppend(said, [Closes]);
    assert [first][1..] == [] && [Closes][1..] == [];
    assert JsonIn([first]) == [] && JsonIn([Closes]) == [];
    assert JsonIn(said) + [] == JsonIn(said) && [] + JsonIn(said) == JsonIn(said);
  }

  lemma ThoughtInside(first: Mark, said: seq<Mark>, blob: Text)
    requires first.Opens?
    ensures ThoughtIn([first] + (said + Sealed(blob))) == ThoughtIn(said)
  {
    ThoughtAppend([first], said + Sealed(blob));
    ThoughtAppend(said, Sealed(blob));
    SilentMarks([first]);
    SilentMarks(Sealed(blob));
    assert ThoughtIn(said) + [] == ThoughtIn(said) && [] + ThoughtIn(said) == ThoughtIn(said);
  }

  lemma SealFolds(parse: Parser, b: Content, blob: Text)
    requires b.start.ThinkingBlock? && b.signature == []
    ensures FoldAll(parse, Kept(b), Sealed(blob)) == Kept(b.(signature := blob))
  {
    FoldOne(parse, Kept(b), Closes);
    if blob != [] {
      assert Sealed(blob) == [Says(Signature(blob))] + [Closes];
      FoldAppend(parse, Kept(b), [Says(Signature(blob))], [Closes]);
      FoldOne(parse, Kept(b), Says(Signature(blob)));
      assert [] + blob == blob;
      FoldOne(parse, Kept(b.(signature := blob)), Closes);
    }
  }

  lemma ThinkingFolds(parse: Parser, ms: seq<Mark>, summary: Text, blob: Text)
    requires OneThought(ms, summary, blob)
    ensures FoldAll(parse, Absent, ms) == Kept(Begin(ThinkingBlock).(thinking := summary, signature := blob))
  {
    var said := SplitMarks(ms, IsThought, Sealed(blob));
    hide FoldAll, AllThen, Sealed;
    var b := Begin(ThinkingBlock);
    FoldAppend(parse, Absent, [ms[0]], said + Sealed(blob));
    FoldOne(parse, Absent, ms[0]);
    FoldAppend(parse, Kept(b), said, Sealed(blob));
    ThoughtFolds(parse, b, said);
    assert [] + ThoughtIn(said) == ThoughtIn(said);
    SealFolds(parse, b.(thinking := ThoughtIn(said)), blob);
    ThoughtInside(ms[0], said, blob);
  }

  lemma RedactedFolds(parse: Parser, blob: Text)
    ensures FoldAll(parse, Absent, [Opens(RedactedBlock(blob)), Closes]) == Kept(Begin(RedactedBlock(blob)))
  {
    assert [Opens(RedactedBlock(blob)), Closes] == [Opens(RedactedBlock(blob))] + [Closes];
    FoldAppend(parse, Absent, [Opens(RedactedBlock(blob))], [Closes]);
    FoldOne(parse, Absent, Opens(RedactedBlock(blob)));
    FoldOne(parse, Kept(Begin(RedactedBlock(blob))), Closes);
  }

  lemma {:induction false} TextRestFolds(parse: Parser, b: Content, ms: seq<Mark>)
    requires b.start.TextBlock? && forall i :: 0 <= i < |ms| ==> !ms[i].Opens?
    ensures FoldAll(parse, Kept(b), ms).Kept? && FoldAll(parse, Kept(b), ms).block.start.TextBlock?
    decreases |ms|
  {
    if ms != [] {
      assert !ms[0].Opens?;
      var next := FoldOn(parse, Kept(b), ms[0]);
      assert next.Kept? && next.block.start.TextBlock?;
      TextRestFolds(parse, next.block, ms[1..]);
    }
  }

  // ---- Where blocks begin ----

  /** A block begins once, with its first event. */
  predicate Begins(ms: seq<Mark>) {
    ms != [] && ms[0].Opens? && forall i :: 1 <= i < |ms| ==> !ms[i].Opens?
  }

  predicate Goes(ms: seq<Mark>) {
    forall i :: 0 <= i < |ms| ==> !ms[i].Opens?
  }

  lemma {:induction false} BlockBegins(ow: seq<int>, out: seq<Emission>, n: int)
    requires AllFit(ow, out)
    ensures var ms := MarksAt(Outs(out), n);
      if 0 <= n < |ow| then Goes(ms)
      else if |ow| <= n < |OwnersAfter(ow, out)| then Begins(ms)
      else ms == []
    decreases |out|
  {
    if out != [] {
      BlockBegins(Grown(ow, out[0]), out[1..], n);
      OwnersGrow(Grown(ow, out[0]), out[1..]);
      assert Outs(out)[1..] == Outs(out[1..]) && Fitting(ow, out[0]);
      MarksAtStep(Outs(out), n);
      var e := Outs(out)[0];
      assert BlockOf(e) != Some(n) ==> MarksAt(Outs(out), n) == MarksAt(Outs(out[1..]), n);
      assert MarkIn(e) == [] || |MarkIn(e)| == 1;
    }
  }

  lemma {:induction false} MarksFrom(outs: seq<Out>, n: int)
    requires forall e <- outs :: BlockOf(e) == Some(n) ==> TextEvent(e)
    ensures forall m <- MarksAt(outs, n) :: m.Opens? ==> m.start.TextBlock?
  {
    if outs != [] {
      assert forall e <- outs[1..] :: e in outs;
      MarksFrom(outs[1..], n);
      MarksAtStep(outs, n);
      assert BlockOf(outs[0]) == Some(n) ==> TextEvent(outs[0]);
    }
  }

  // ---- The whole collection ----

  /** The blocks, as each of the `count` would be kept by itself. */
  ghost predicate Folds(parse: Parser, outs: seq<Out>, content: seq<Content>) {
    forall n :: 0 <= n < |content| ==> FoldAll(parse, Absent, MarksAt(outs, n)) == Kept(content[n])
  }

  lemma NeverRefused(parse: Parser, outs: seq<Out>, content: seq<Content>, n: int)
    requires Folds(parse, outs, content) && (0 <= n < |content| || MarksAt(outs, n) == [])
    ensures !RefusedAt(parse, EMPTY, outs, n)
  {
    if 0 <= n < |content| {
      assert FoldAll(parse, Absent, MarksAt(outs, n)) == Kept(content[n]);
    }
  }

  /** When no block is refused, the collection is the blocks by number. */
  lemma CollectsAll(parse: Parser, outs: seq<Out>, content: seq<Content>)
    requires (forall e <- outs :: Midway(e)) && Folds(parse, outs, content)
    requires forall n :: 0 <= n < |content| || MarksAt(outs, n) == []
    ensures var d := TakeAll(parse, EMPTY, outs);
      !d.failed && !d.stopped && d.blocks == L.Listed(content)
  {
    hide TakeAll, FoldAll, MarksAt, Midway;
    BlocksApart(parse, EMPTY, outs);
    var d := TakeAll(parse, EMPTY, outs);
    if d.failed {
      var n :| RefusedAt(parse, EMPTY, outs, n);
      NeverRefused(parse, outs, content, n);
      assert false;
    } else {
      forall n: nat ensures n in d.blocks <==> n < |content|
                    ensures n < |content| ==> d.blocks[n] == content[n] {
        assert KeptAt(parse, EMPTY, outs, d, n);
        FoldNothing(parse, Absent);
        if n < |content| {
          assert FoldAll(parse, Absent, MarksAt(outs, n)) == Kept(content[n]);
        } else {
          assert MarksAt(outs, n) == [];
        }
      }
      assert d.blocks.Keys == L.Listed(content).Keys;
    }
  }

  lemma FoldNothing(parse: Parser, f: Folded)
    ensures FoldAll(parse, f, []) == f
  {
  }

  /** One block that is refused by itself is enough. */
  lemma RefusesAll(parse: Parser, outs: seq<Out>, n: int)
    requires (forall e <- outs :: Midway(e)) && FoldAll(parse, Absent, MarksAt(outs, n)) == Refused
    ensures TakeAll(parse, EMPTY, outs).failed
  {
    hide TakeAll, FoldAll, MarksAt, Midway;
    BlocksApart(parse, EMPTY, outs);
    assert TakeAll(parse, EMPTY, outs).failed || KeptAt(parse, EMPTY, outs, TakeAll(parse, EMPTY, outs), n);
  }
}
