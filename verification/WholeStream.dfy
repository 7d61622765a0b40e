/** A translated stream that came to its end, folded by the collector. Until the end there are only the
    beginning of the message and events about blocks; the end adds the stop reason and the stop. So the
    message is whole just when no block was refused and there is one at all, and its content is the
    blocks by number. */
module WholeStream {
  import opened Text
  import opened Translate
  import opened TranslateShape
  import opened TranslateItems
  import opened TranslateJson
  import opened OwnerSteps
  import opened BlockOwners
  import opened StreamOrder
  import opened CollectStream
  import C = Collect
  import L = CollectLaws

  // ---- Only the beginning and blocks ----

  predicate Passing(out: seq<Emission>) {
    forall i :: 0 <= i < |out| ==> out[i].event.MessageStart? || BlockOf(out[i].event).Some?
  }

  lemma AddedPasses(cfg: Config, t: Translator, key: Option<int>, item: Item, r: Response)
    ensures Passing(OnAdded(cfg, t, key, item, r).out)
  {
    hide ToolId;
  }

  lemma DeltaPasses(cfg: Config, t: Translator, k: int, delta: Text)
    ensures Passing(OnText(cfg, t, k, delta).out) && Passing(OnSummary(cfg, t, k, delta).out)
      && Passing(OnArgs(t, k, delta).out)
  {
  }

  lemma DonePasses(cfg: Config, t: Translator, k: int, item: Item)
    ensures Passing(OnDone(cfg, t, k, item).out)
  {
    hide Blob, Tail;
  }

  lemma OnePasses(cfg: Config, t: Translator, e: Upstream)
    requires Plain(e)
    ensures Passing(HandleOne(cfg, t, e).out)
  {
    hide OnAdded, OnText, OnSummary, OnArgs, OnDone, Passing;
    match e
    case Begun(r) => StartPasses(cfg, t, r);
    case OfItem(key, body) =>
      var k := if key.Some? then key.value else -1;
      match body {
        case Added(item, r) => AddedPasses(cfg, t, key, item, r);
        case TextDelta(delta) => DeltaPasses(cfg, t, k, delta);
        case SummaryDelta(delta) => DeltaPasses(cfg, t, k, delta);
        case ArgsDelta(delta) => DeltaPasses(cfg, t, k, delta);
        case Done(item) => DonePasses(cfg, t, k, item);
      }
    case Ignored => NothingPasses();
  }

  lemma StartPasses(cfg: Config, t: Translator, r: Response)
    ensures Passing(EnsureStart(cfg, t, r).out)
  {
  }

  lemma NothingPasses()
    ensures Passing([])
  {
  }

  lemma {:induction false} SerialPasses(cfg: Config, t: Translator, log: seq<Upstream>)
    requires forall e <- log :: Plain(e)
    ensures Passing(Serial(cfg, t, log).out)
    decreases |log|
  {
    hide HandleOne;
    if log != [] {
      OnePasses(cfg, t, log[0]);
      SerialPasses(cfg, HandleOne(cfg, t, log[0]).t, log[1..]);
    }
  }

  /** Everything before the end is on the way. */
  lemma AllMidway(cfg: Config, model: Text, es: seq<Upstream>, log: seq<Upstream>)
    requires HandledAs(cfg, model, es, log)
    ensures forall e <- Outs(PushAll(cfg, Fresh(model), es).out) :: Midway(e)
  {
    hide PushAll, Serial, Calm, AllFit, OwnersAfter, Of;
    var out := PushAll(cfg, Fresh(model), es).out;
    SerialPasses(cfg, Fresh(model), log);
    OneOwnerPerBlock(cfg, model, es);
    forall e <- Outs(out) ensures Midway(e) {
      var i :| 0 <= i < |Outs(out)| && Outs(out)[i] == e;
      assert out[i] in out && Rightly(out[i], Owners(out));
    }
  }

  // ---- The header ----

  /** A stream that has begun has given the collector its header. */
  lemma {:induction false} HeaderTaken(parse: C.Parser, c: C.Collection, s: Shape, out: seq<Emission>)
    requires !c.failed && !c.stopped && (s.started ==> c.message.Some?) && forall e <- Outs(out) :: Midway(e)
    requires Reading(s, out).Some? && !Reading(s, out).value.ended
    ensures var d := C.TakeAll(parse, c, Outs(out));
      d.failed || (!d.stopped && (Reading(s, out).value.started ==> d.message.Some?))
    decreases |out|
  {
    if out != [] {
      var e := Outs(out)[0];
      assert e in Outs(out) && Outs(out)[1..] == Outs(out[1..]);
      assert forall f <- Outs(out[1..]) :: f in Outs(out);
      var d := C.Take(parse, c, e);
      if d.failed {
        L.StaysFailed(parse, d, Outs(out[1..]));
      } else {
        HeaderTaken(parse, d, Next(s, e).value, out[1..]);
      }
    }
  }

  lemma HeaderOf(cfg: Config, parse: C.Parser, model: Text, es: seq<Upstream>, log: seq<Upstream>)
    requires Usual(es) && (forall k :: AllDone(es, k)) && HandledAs(cfg, model, es, log)
    ensures var r := PushAll(cfg, Fresh(model), es);
      var d := C.TakeAll(parse, C.EMPTY, Outs(r.out));
      d.failed || (!d.stopped && (r.t.started ==> d.message.Some?))
  {
    hide PushAll, HandledAs, Reading, OneOpen, AllDone, Outs, C.TakeAll;
    NoneOpen(cfg, model, es, log);
    FreshOpen(model);
    PushAllLegal(cfg, Fresh(model), BLANK, es);
    AllMidway(cfg, model, es, log);
    HeaderTaken(parse, C.EMPTY, BLANK, PushAll(cfg, Fresh(model), es).out);
  }

  // ---- The end ----

  function Farewell(cfg: Config, t: Translator, r: Response): seq<Emission> {
    EnsureStart(cfg, t, r).out + [Emission(None, MessageDelta(Reason(t, r), r.usage)), Emission(None, MessageStop)]
  }

  /** With nothing open and nothing held, the end adds the header if it is missing, and the stop. */
  lemma EndAdds(cfg: Config, t: Translator, r: Response)
    requires t.open == None && t.deferred == [] && !t.finished
    ensures HoldsItems(t) && Push(cfg, t, Ended(r)).out == Farewell(cfg, t, r)
  {
    var a := EnsureStart(cfg, t, r);
    assert Drain(cfg, a.t, true) == Step(a.t, []);
    assert CloseAll(a.t) == Step(a.t, []);
    var u := a.t.(finished := true);
    assert Drain(cfg, u, false) == Step(u, []);
    assert Complete(cfg, t, r).out == Farewell(cfg, t, r);
    assert Farewell(cfg, t, r) + [] == Farewell(cfg, t, r);
  }

  lemma EndTaken(cfg: Config, parse: C.Parser, t: Translator, c: C.Collection, r: Response)
    requires !c.failed && !c.stopped && (t.started ==> c.message.Some?)
    ensures var d := C.TakeAll(parse, c, Outs(Farewell(cfg, t, r)));
      !d.failed && d.stopped && d.message.Some? && d.blocks == c.blocks
  {
    hide C.TakeAll;
    var start := EnsureStart(cfg, t, r).out;
    var e, f := MessageDelta(Reason(t, r), r.usage), MessageStop;
    OutsAppend(start, [Emission(None, e), Emission(None, f)]);
    assert Outs([Emission(None, e), Emission(None, f)]) == [e, f];
    L.TakeAppend(parse, c, Outs(start), [e, f]);
    if t.started {
      L.NothingTaken(parse, c);
      L.TakeTwo(parse, c, e, f);
    } else {
      var begun := start[0].event;
      assert Outs(start) == [begun];
      L.TakeOne(parse, c, begun);
      L.TakeTwo(parse, C.Take(parse, c, begun), e, f);
    }
  }

  lemma WithEnd(cfg: Config, model: Text, es: seq<Upstream>, log: seq<Upstream>, r: Response)
    requires Usual(es) && (forall k :: AllDone(es, k)) && HandledAs(cfg, model, es, log)
    ensures var a := PushAll(cfg, Fresh(model), es);
      Outs(PushAll(cfg, Fresh(model), es + [Ended(r)]).out) == Outs(a.out) + Outs(Farewell(cfg, a.t, r))
  {
    hide PushAll, HandledAs, AllDone, Push, Farewell;
    var a := PushAll(cfg, Fresh(model), es);
    NoneOpen(cfg, model, es, log);
    PushAllAppend(cfg, Fresh(model), es, [Ended(r)]);
    PushAllOne(cfg, a.t, Ended(r));
    EndAdds(cfg, a.t, r);
    OutsAppend(a.out, Farewell(cfg, a.t, r));
  }

  // ---- The message ----

  /** The message of a stream that ended. */
  ghost function Collected(cfg: Config, parse: C.Parser, model: Text, es: seq<Upstream>, r: Response): C.Result {
    C.Outcome(C.TakeAll(parse, C.EMPTY, Outs(PushAll(cfg, Fresh(model), es + [Ended(r)]).out)))
  }

  /** When every block folds to something, the message is whole unless there is no block. */
  lemma StreamCollects(cfg: Config, parse: C.Parser, model: Text, es: seq<Upstream>, log: seq<Upstream>, r: Response,
                       content: seq<C.Content>)
    requires Usual(es) && (forall k :: AllDone(es, k)) && HandledAs(cfg, model, es, log)
    requires var out := PushAll(cfg, Fresh(model), es).out;
      |content| == |Owners(out)| && Folds(parse, Outs(out), content)
    ensures var m := Collected(cfg, parse, model, es, r);
      (m.Whole? <==> content != []) && (m.Whole? ==> m.content == content)
  {
    hide PushAll, HandledAs, AllDone, Outs, Farewell, C.TakeAll, C.InOrder, L.Listed, MarksAt, Folds, OwnersAfter,
         AllFit, Midway;
    var a := PushAll(cfg, Fresh(model), es);
    AllMidway(cfg, model, es, log);
    OneOwnerPerBlock(cfg, model, es);
    forall n ensures 0 <= n < |content| || MarksAt(Outs(a.out), n) == [] {
      BlockBegins([], a.out, n);
    }
    CollectsAll(parse, Outs(a.out), content);
    var c := C.TakeAll(parse, C.EMPTY, Outs(a.out));
    HeaderOf(cfg, parse, model, es, log);
    EndTaken(cfg, parse, a.t, c, r);
    WithEnd(cfg, model, es, log, r);
    L.TakeAppend(parse, C.EMPTY, Outs(a.out), Outs(Farewell(cfg, a.t, r)));
    L.ListedInOrder(content);
  }

  /** One refused block is enough for there to be no message. */
  lemma StreamRefused(cfg: Config, parse: C.Parser, model: Text, es: seq<Upstream>, log: seq<Upstream>, r: Response,
                      n: int)
    requires Usual(es) && (forall k :: AllDone(es, k)) && HandledAs(cfg, model, es, log)
    requires FoldAll(parse, Absent, MarksAt(Outs(PushAll(cfg, Fresh(model), es).out), n)) == Refused
    ensures Collected(cfg, parse, model, es, r).Incomplete?
  {
    hide PushAll, HandledAs, AllDone, Outs, Farewell, C.TakeAll, C.InOrder, MarksAt, FoldAll, Midway;
    var a := PushAll(cfg, Fresh(model), es);
    AllMidway(cfg, model, es, log);
    RefusesAll(parse, Outs(a.out), n);
    WithEnd(cfg, model, es, log, r);
    L.TakeAppend(parse, C.EMPTY, Outs(a.out), Outs(Farewell(cfg, a.t, r)));
    L.StaysFailed(parse, C.TakeAll(parse, C.EMPTY, Outs(a.out)), Outs(Farewell(cfg, a.t, r)));
  }
}
