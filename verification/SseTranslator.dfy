/** The translator as an object that changes in place and returns what is to be written; each method
    does what the function of the same step in `Translate` does. The loop over held events and the one
    over all blocks are here; that the latter finds at most one open block is an invariant of the
    object. */
module SseTranslators {
  import opened Text
  import opened Translate
  import opened TranslateShape
  import opened TranslateJson

  /** The object stands where the step leads, and returned what the step emits. */
  predicate Did(r: Step, t: Translator, out: seq<Out>) {
    t == r.t && out == Outs(r.out)
  }

  class SseTranslator {
    const cfg: Config
    var messageStarted: bool
    var finished: bool
    var nextBlockIndex: nat
    var hasToolUse: bool
    var blocks: map<int, Slot>
    var openOutputIndex: Option<int>
    var deferred: seq<Upstream>
    var model: Text

    function State(): Translator
      reads this
    {
      Translator(messageStarted, finished, nextBlockIndex, hasToolUse, blocks, openOutputIndex, deferred, model)
    }

    constructor (cfg: Config, model: Text)
      ensures this.cfg == cfg && State() == Fresh(model)
    {
      this.cfg := cfg;
      messageStarted, finished, nextBlockIndex, hasToolUse := false, false, 0, false;
      blocks, openOutputIndex, deferred := map[], None, [];
      this.model := model;
    }

    method EnsureMessageStart(r: Response) returns (out: seq<Out>)
      modifies this`messageStarted, this`model
      ensures Did(EnsureStart(cfg, old(State()), r), State(), out)
    {
      if messageStarted {
        return [];
      }
      if !cfg.pinned && r.model != [] {
        model := r.model;
      }
      messageStarted := true;
      out := [MessageStart(r.id, model)];
    }

    method CloseOpenBlockForOtherItem(k: int) returns (out: seq<Out>)
      modifies this`blocks, this`openOutputIndex
      ensures Did(CloseOther(old(State()), k), State(), out)
    {
      if openOutputIndex == None || openOutputIndex == Some(k) {
        return [];
      }
      var j := openOutputIndex.value;
      out := [];
      if j in blocks && blocks[j].live {
        out := [BlockStop(blocks[j].index)];
        blocks := blocks[j := blocks[j].(live := false)];
      }
      openOutputIndex := None;
    }

    method OnItemAdded(key: Option<int>, item: Item, r: Response) returns (out: seq<Out>)
      modifies this
      ensures Did(OnAdded(cfg, old(State()), key, item, r), State(), out)
    {
      hide EnsureStart, CloseOther, ToolId;
      ghost var a := EnsureStart(cfg, State(), r);
      out := EnsureMessageStart(r);
      var k := if key.Some? then key.value else |blocks|;
      if k in blocks {
        return;
      }
      match item.kind
      case ReasoningItem => blocks := blocks[k := Slot(-1, Thinking, false, 0, [])];
      case MessageItem => blocks := blocks[k := Slot(-1, Message, false, 0, [])];
      case CallItem =>
        var opening := OpenToolBlock(k, item);
        ToolOuts(a, k, item);
        out := out + opening;
      case OtherItem =>
    }

    static lemma ToolOuts(a: Step, k: int, item: Item)
      ensures Outs(a.out + CloseOther(a.t, k).out + [ToolStart(a.t, k, item)])
           == Outs(a.out) + (Outs(CloseOther(a.t, k).out) + [ToolStart(a.t, k, item).event])
    {
      hide CloseOther, ToolStart;
      OutsAppend(a.out, CloseOther(a.t, k).out);
      OutsAppend(a.out + CloseOther(a.t, k).out, [ToolStart(a.t, k, item)]);
    }

    static function ToolStart(t: Translator, k: int, item: Item): Emission {
      var i := CloseOther(t, k).t.next;
      Emission(Some(k), BlockStart(i, ToolUseBlock(ToolId(item, i), item.name)))
    }

    /** A call's block opens at once. */
    method OpenToolBlock(k: int, item: Item) returns (out: seq<Out>)
      modifies this
      ensures var b := CloseOther(old(State()), k);
        && State() == b.t.(slots := b.t.slots[k := Slot(b.t.next, Tool, true, 0, [])], open := Some(k), hasTool := true,
                           next := b.t.next + 1)
        && out == Outs(b.out) + [ToolStart(old(State()), k, item).event]
    {
      hide CloseOther, ToolId;
      out := CloseOpenBlockForOtherItem(k);
      var i := nextBlockIndex;
      nextBlockIndex := i + 1;
      blocks := blocks[k := Slot(i, Tool, true, 0, [])];
      openOutputIndex := Some(k);
      hasToolUse := true;
      out := out + [BlockStart(i, ToolUseBlock(ToolId(item, i), item.name))];
    }

    method OpenBlock(k: int, start: Start, piece: Piece) returns (out: seq<Out>)
      requires k in blocks
      modifies this
      ensures Did(OpenWith(old(State()), k, start, piece), State(), out)
    {
      hide CloseOther;
      StillThere(State(), k);
      out := CloseOpenBlockForOtherItem(k);
      var i := nextBlockIndex;
      nextBlockIndex := i + 1;
      blocks := blocks[k := blocks[k].(index := i, live := true, pending := [])];
      openOutputIndex := Some(k);
      out := out + [BlockStart(i, start), BlockDelta(i, piece)];
    }

    static lemma StillThere(t: Translator, k: int)
      ensures k in t.slots ==> k in CloseOther(t, k).t.slots
    {
    }

    method OnTextDelta(k: int, delta: Text) returns (out: seq<Out>)
      modifies this
      ensures Did(OnText(cfg, old(State()), k, delta), State(), out)
    {
      hide OpenWith;
      if k !in blocks || blocks[k].kind != Message || delta == [] {
        return [];
      }
      if blocks[k].live {
        return [BlockDelta(blocks[k].index, Words(delta))];
      }
      var pending := blocks[k].pending + delta;
      if cfg.blank(pending) {
        blocks := blocks[k := blocks[k].(pending := pending)];
        return [];
      }
      out := OpenBlock(k, TextBlock, Words(pending));
    }

    method OnReasoningSummaryDelta(k: int, delta: Text) returns (out: seq<Out>)
      modifies this
      ensures Did(OnSummary(cfg, old(State()), k, delta), State(), out)
    {
      hide OpenWith, CloseOther;
      if k !in blocks || blocks[k].kind != Thinking {
        return [];
      }
      if blocks[k].live {
        return if delta == [] then [] else [BlockDelta(blocks[k].index, Thought(delta))];
      }
      var pending := blocks[k].pending + delta;
      if cfg.blank(pending) {
        StillThere(State(), k);
        out := CloseOpenBlockForOtherItem(k);
        openOutputIndex := Some(k);
        blocks := blocks[k := blocks[k].(pending := pending)];
        return;
      }
      out := OpenBlock(k, ThinkingBlock, Thought(pending));
    }

    method OnFunctionArgsDelta(k: int, delta: Text) returns (out: seq<Out>)
      modifies this`blocks
      ensures Did(OnArgs(old(State()), k, delta), State(), out)
    {
      if k !in blocks || blocks[k].kind != Tool || !blocks[k].live || delta == [] {
        return [];
      }
      out := [BlockDelta(blocks[k].index, Json(delta))];
      blocks := blocks[k := blocks[k].(argsSent := blocks[k].argsSent + |delta|)];
    }

    method Release(k: int)
      modifies this`openOutputIndex
      ensures State() == old(State()).(open := Released(old(State()), k))
    {
      if openOutputIndex == Some(k) {
        openOutputIndex := None;
      }
    }

    method OnItemDone(k: int, item: Item) returns (out: seq<Out>)
      modifies this
      ensures Did(OnDone(cfg, old(State()), k, item), State(), out)
    {
      hide CloseOther, Blob;
      if k !in blocks {
        return [];
      }
      var slot := blocks[k];
      out := [];
      if slot.kind == Thinking {
        var blob := Blob(cfg, Thinking, item);
        if slot.live {
          if blob != [] {
            out := [BlockDelta(slot.index, Signature(blob))];
          }
          out := out + [BlockStop(slot.index)];
          blocks := blocks[k := slot.(live := false, pending := [])];
          Release(k);
        } else if blob != [] {
          ClosedThen(State(), k);
          out := CloseOpenBlockForOtherItem(k);
          var i := nextBlockIndex;
          nextBlockIndex := i + 1;
          blocks := blocks[k := slot.(index := i, pending := [])];
          out := out + [BlockStart(i, RedactedBlock(blob)), BlockStop(i)];
          Release(k);
        } else {
          blocks := blocks[k := slot.(pending := [])];
          Release(k);
        }
      } else if slot.live {
        var sent := slot.argsSent;
        if slot.kind == Tool && |item.arguments| > sent {
          out := [BlockDelta(slot.index, Json(item.arguments[sent..]))];
          sent := |item.arguments|;
        }
        out := out + [BlockStop(slot.index)];
        blocks := blocks[k := slot.(live := false, argsSent := sent)];
        Release(k);
      }
    }

    static lemma ClosedThen(t: Translator, k: int)
      ensures CloseOther(t, k).t.open == None || CloseOther(t, k).t.open == Some(k)
    {
    }

    method HandleItemEvent(key: Option<int>, body: Body) returns (out: seq<Out>)
      modifies this
      ensures Did(HandleItem(cfg, old(State()), key, body), State(), out)
    {
      hide OnAdded, OnText, OnSummary, OnArgs, OnDone;
      var k := if key.Some? then key.value else -1;
      match body
      case Added(item, r) => out := OnItemAdded(key, item, r);
      case TextDelta(delta) => out := OnTextDelta(k, delta);
      case SummaryDelta(delta) => out := OnReasoningSummaryDelta(k, delta);
      case ArgsDelta(delta) => out := OnFunctionArgsDelta(k, delta);
      case Done(item) => out := OnItemDone(k, item);
    }

    /** What is still to replay, put behind what has been replayed, is the whole replay. */
    static ghost predicate Replaying(cfg: Config, start: Translator, force: bool, t: Translator, done: seq<Emission>)
      requires HoldsItems(start)
    {
      HoldsItems(t) && Drain(cfg, start, force) == Step(Drain(cfg, t, force).t, done + Drain(cfg, t, force).out)
    }

    static lemma ReplayStep(cfg: Config, start: Translator, force: bool, t: Translator, done: seq<Emission>)
      requires HoldsItems(start) && Replaying(cfg, start, force, t, done)
      ensures var i := if force then 0 else FirstReady(t, t.deferred);
        if i >= |t.deferred| then Drain(cfg, start, force) == Step(t, done)
        else Replaying(cfg, start, force, HandleHeld(cfg, t, i).t, done + HandleHeld(cfg, t, i).out)
    {
      hide HandleItem, FirstReady, Drain, HandleHeld;
      DrainStep(cfg, t, force);
      var i := if force then 0 else FirstReady(t, t.deferred);
      if i < |t.deferred| {
        var a := HandleHeld(cfg, t, i);
        assert done + (a.out + Drain(cfg, a.t, force).out) == (done + a.out) + Drain(cfg, a.t, force).out;
      }
    }

    static lemma DrainStep(cfg: Config, t: Translator, force: bool)
      requires HoldsItems(t)
      ensures var i := if force then 0 else FirstReady(t, t.deferred);
        if i >= |t.deferred| then Drain(cfg, t, force) == Step(t, [])
        else
          && HoldsItems(HandleHeld(cfg, t, i).t)
          && Drain(cfg, t, force) == Step(Drain(cfg, HandleHeld(cfg, t, i).t, force).t,
                                         HandleHeld(cfg, t, i).out + Drain(cfg, HandleHeld(cfg, t, i).t, force).out)
    {
      hide HandleItem, FirstReady;
    }

    static lemma ReplayStarts(cfg: Config, start: Translator, force: bool)
      requires HoldsItems(start)
      ensures Replaying(cfg, start, force, start, [])
    {
      hide Drain;
      assert [] + Drain(cfg, start, force).out == Drain(cfg, start, force).out;
    }

    /** Replay what was held back: the first event that may be handled, again and again. */
    method DrainDeferred(force: bool) returns (out: seq<Out>)
      requires HoldsItems(State())
      modifies this
      ensures Did(Drain(cfg, old(State()), force), State(), out)
    {
      hide HandleItem, Drain, Replaying, ShouldDefer;
      out := [];
      ghost var done: seq<Emission> := [];
      ReplayStarts(cfg, State(), force);
      while true
        invariant HoldsItems(State()) && out == Outs(done)
        invariant Replaying(cfg, old(State()), force, State(), done)
        decreases |deferred|
      {
        ReplayStep(cfg, old(State()), force, State(), done);
        var i := 0;
        if !force {
          i := FindReady();
        }
        if i >= |deferred| {
          return;
        }
        ghost var a := HandleHeld(cfg, State(), i);
        var e := deferred[i];
        deferred := deferred[..i] + deferred[i + 1..];
        var more := HandleItemEvent(e.k, e.body);
        OutsAppend(done, a.out);
        out, done := out + more, done + a.out;
      }
    }

    method FindReady() returns (i: nat)
      ensures i == FirstReady(State(), deferred)
    {
      hide ShouldDefer;
      i := 0;
      while i < |deferred| && ShouldDefer(State(), deferred[i])
        invariant i <= |deferred|
        invariant FirstReady(State(), deferred) == i + FirstReady(State(), deferred[i..])
      {
        assert deferred[i..][1..] == deferred[i + 1..];
        i := i + 1;
      }
    }

    /** The blocks outside `keys` have been closed, and the live one among them announced. */
    static ghost predicate Closing(t: Translator, keys: set<int>, slots: map<int, Slot>, out: seq<Out>) {
      && slots.Keys == t.slots.Keys && keys <= slots.Keys
      && (forall k <- t.slots :: slots[k] == if k in keys then t.slots[k] else t.slots[k].(live := false))
      && out == if LiveSlot(t).Some? && t.open.value !in keys then [BlockStop(LiveSlot(t).value.index)] else []
    }

    static lemma ClosingStep(t: Translator, keys: set<int>, slots: map<int, Slot>, out: seq<Out>, k: int)
      requires OneOpen(t) && Closing(t, keys, slots, out) && k in keys
      ensures k in slots
      ensures if slots[k].live && slots[k].index >= 0 then
                Closing(t, keys - {k}, slots[k := slots[k].(live := false)], out + [BlockStop(slots[k].index)])
              else Closing(t, keys - {k}, slots, out)
    {
      assert SlotOk(t, k);
    }

    static lemma ClosingStarts(t: Translator)
      requires OneOpen(t)
      ensures Closing(t, t.slots.Keys, t.slots, [])
    {
    }

    static lemma ClosingEnds(t: Translator, slots: map<int, Slot>, out: seq<Out>)
      requires OneOpen(t) && Closing(t, {}, slots, out)
      ensures slots == CloseAll(t).t.slots && out == Outs(CloseAll(t).out)
    {
      forall k <- t.slots ensures slots[k] == CloseAll(t).t.slots[k] { assert SlotOk(t, k); }
    }

    /** Every block still open is closed: there is at most one. */
    method CloseAllOpenBlocks() returns (out: seq<Out>)
      requires OneOpen(State())
      modifies this`blocks, this`openOutputIndex
      ensures Did(CloseAll(old(State())), State(), out)
    {
      hide OneOpen, Closing;
      ghost var t := State();
      out := [];
      var keys: set<int> := blocks.Keys;
      ClosingStarts(t);
      while keys != {}
        invariant Closing(t, keys, blocks, out)
        decreases |keys|
      {
        NotEmpty(keys);
        var k: int :| k in keys;
        ClosingStep(t, keys, blocks, out, k);
        if blocks[k].live && blocks[k].index >= 0 {
          out := out + [BlockStop(blocks[k].index)];
          blocks := blocks[k := blocks[k].(live := false)];
        }
        keys := keys - {k};
      }
      ClosingEnds(t, blocks, out);
      openOutputIndex := None;
    }

    static lemma NotEmpty(keys: set<int>)
      ensures keys == {} || exists k :: k in keys
    {
      if forall k :: k !in keys {
        assert keys == {};
      }
    }

    static lemma DrainedStillOpen(cfg: Config, t: Translator, force: bool)
      requires OneOpen(t)
      ensures HoldsItems(t) && OneOpen(Drain(cfg, t, force).t)
    {
      hide Drain, Reading;
      var live := LiveSlot(t);
      var s := Shape(t.started, if live.Some? then Some((live.value.index, StartFor(live.value.kind))) else None,
                     t.next, t.finished);
      DrainLegal(cfg, t, s, force);
    }

    static lemma StartedStillOpen(cfg: Config, t: Translator, r: Response)
      requires OneOpen(t)
      ensures OneOpen(EnsureStart(cfg, t, r).t)
    {
    }

    method OnCompleted(r: Response) returns (out: seq<Out>)
      requires OneOpen(State())
      modifies this
      ensures HoldsItems(old(State())) && Did(Complete(cfg, old(State()), r), State(), out)
    {
      hide EnsureStart, Drain, CloseAll, Reason, OneOpen;
      HoldsThem(State());
      if finished {
        return [];
      }
      StartedStillOpen(cfg, State(), r);
      ghost var a := EnsureStart(cfg, State(), r);
      out := EnsureMessageStart(r);
      DrainedStillOpen(cfg, State(), true);
      ghost var b := Drain(cfg, a.t, true);
      var replayed := DrainDeferred(true);
      ghost var c := CloseAll(b.t);
      var closed := CloseAllOpenBlocks();
      ghost var last := [Emission(None, MessageDelta(Reason(c.t, r), r.usage)), Emission(None, MessageStop)];
      OutsAppend(a.out, b.out);
      OutsAppend(a.out + b.out, c.out);
      OutsAppend(a.out + b.out + c.out, last);
      out := out + replayed + closed + [MessageDelta(Reason(State(), r), r.usage), MessageStop];
      finished := true;
    }

    method EmitFailure(message: Text) returns (out: seq<Out>)
      requires OneOpen(State())
      modifies this
      ensures HoldsItems(old(State())) && Did(Translate.Fail(cfg, old(State()), message), State(), out)
    {
      hide Drain, CloseAll, OneOpen;
      HoldsThem(State());
      if finished {
        return [];
      }
      DrainedStillOpen(cfg, State(), true);
      ghost var b := Drain(cfg, State(), true);
      out := DrainDeferred(true);
      ghost var c := CloseAll(b.t);
      var closed := CloseAllOpenBlocks();
      OutsAppend(b.out, c.out);
      OutsAppend(b.out + c.out, [Emission(None, Error(message))]);
      out := out + closed + [Error(message)];
      finished := true;
    }

    /** One event arrives from upstream. */
    method Push(e: Upstream) returns (out: seq<Out>)
      requires OneOpen(State())
      modifies this
      ensures HoldsItems(old(State())) && Did(Translate.Push(cfg, old(State()), e), State(), out)
      ensures OneOpen(State())
    {
      hide EnsureStart, HandleItem, Complete, Translate.Fail, Drain, OneOpen, ShouldDefer;
      HoldsThem(State());
      PushedStillOpen(cfg, State(), e);
      if ShouldDefer(State(), e) {
        deferred := deferred + [e];
        return [];
      }
      ghost var a := Handle(cfg, State(), e);
      match e {
        case Begun(r) => out := EnsureMessageStart(r);
        case OfItem(k, body) => out := HandleItemEvent(k, body);
        case Ended(r) => out := OnCompleted(r);
        case Broke(message) => out := EmitFailure(message);
        case Ignored => out := [];
      }
      ghost var b := Drain(cfg, a.t, false);
      var replayed := DrainDeferred(false);
      OutsAppend(a.out, b.out);
      out := out + replayed;
    }

    static lemma PushedStillOpen(cfg: Config, t: Translator, e: Upstream)
      requires OneOpen(t)
      ensures HoldsItems(t) && OneOpen(Translate.Push(cfg, t, e).t)
    {
      hide Translate.Push, Reading;
      var live := LiveSlot(t);
      var s := Shape(t.started, if live.Some? then Some((live.value.index, StartFor(live.value.kind))) else None,
                     t.next, t.finished);
      PushLegal(cfg, t, s, e);
    }

    /** The upstream has ended. */
    method Close() returns (out: seq<Out>)
      requires OneOpen(State())
      modifies this
      ensures HoldsItems(old(State())) && Did(Finish(cfg, old(State())), State(), out)
    {
      out := EmitFailure(TRUNCATED);
    }

    /** Push one more event of a synthetic stream. */
    method PushNext(e: Upstream, ghost start: Translator, ghost before: seq<Upstream>, sofar: seq<Out>)
        returns (out: seq<Out>)
      requires OneOpen(State()) && HoldsItems(start) && Did(PushAll(cfg, start, before), State(), sofar)
      modifies this
      ensures OneOpen(State()) && Did(PushAll(cfg, start, before + [e]), State(), out)
    {
      hide PushAll, Translate.Push, OneOpen;
      PushAllAppend(cfg, start, before, [e]);
      PushAllOne(cfg, State(), e);
      ghost var a := PushAll(cfg, start, before);
      ghost var b := Translate.Push(cfg, a.t, e);
      var more := Push(e);
      OutsAppend(a.out, b.out);
      out := sofar + more;
    }

    /** The events between an item's beginning and its end. */
    method PushMiddle(k: nat, ji: JsonItem, ghost start: Translator, ghost before: seq<Upstream>, sofar: seq<Out>)
      returns (out: seq<Out>)
      requires OneOpen(State()) && HoldsItems(start) && Did(PushAll(cfg, start, before), State(), sofar)
      modifies this
      ensures OneOpen(State()) && Did(PushAll(cfg, start, before + Middle(k, ji)), State(), out)
    {
      hide PushAll, OneOpen, Did;
      assert before + [] == before;
      match ji.item.kind
      case MessageItem => out := PushParts(k, MessageItem, ji.parts, start, before, sofar);
      case ReasoningItem => out := PushParts(k, ReasoningItem, ji.parts, start, before, sofar);
      case CallItem => out := PushNext(OfItem(Some(k), ArgsDelta(ji.item.arguments)), start, before, sofar);
      case OtherItem => out := sofar;
    }

    method PushParts(k: nat, kind: ItemKind, parts: seq<Text>, ghost start: Translator, ghost before: seq<Upstream>,
                     sofar: seq<Out>) returns (out: seq<Out>)
      requires OneOpen(State()) && HoldsItems(start) && Did(PushAll(cfg, start, before), State(), sofar)
      modifies this
      ensures OneOpen(State()) && Did(PushAll(cfg, start, before + Deltas(kind, k, parts)), State(), out)
    {
      hide PushAll, OneOpen, Did;
      out := sofar;
      var i := 0;
      ghost var pushed := before;
      assert parts[0..] == parts;
      while i < |parts|
        invariant i <= |parts| && OneOpen(State()) && Did(PushAll(cfg, start, pushed), State(), out)
        invariant pushed + Deltas(kind, k, parts[i..]) == before + Deltas(kind, k, parts)
      {
        var e := OfItem(Some(k), if kind.MessageItem? then TextDelta(parts[i]) else SummaryDelta(parts[i]));
        assert parts[i..][1..] == parts[i + 1..];
        assert pushed + ([e] + Deltas(kind, k, parts[i + 1..])) == (pushed + [e]) + Deltas(kind, k, parts[i + 1..]);
        out := PushNext(e, start, pushed, out);
        pushed := pushed + [e];
        i := i + 1;
      }
      assert pushed + [] == pushed;
    }

    /** A whole response at once: its events are pushed as if they had been streamed. */
    method PushResponse(j: JsonResponse) returns (out: seq<Out>)
      requires OneOpen(State())
      modifies this
      ensures HoldsItems(old(State())) && Did(PushJson(cfg, old(State()), j), State(), out)
    {
      hide PushAll, Translate.Fail, Translate.Push, OneOpen, Did;
      HoldsThem(State());
      match j
      case NotAnObject => out := EmitFailure(INVALID_OBJECT);
      case NotTerminal => out := EmitFailure(NOT_YET_TERMINAL);
      case Unsuccessful(message) => out := Push(Broke(message));
      case Finished(r, output) => out := PushFinished(r, output);
    }

    method PushFinished(r: Response, output: seq<JsonItem>) returns (out: seq<Out>)
      requires OneOpen(State())
      modifies this
      ensures HoldsItems(old(State())) && Did(PushAll(cfg, old(State()), Events(r, output)), State(), out)
    {
      hide PushAll, OneOpen, Did, ItemEvents;
      HoldsThem(State());
      ghost var start := State();
      NothingYet(cfg, start);
      out := PushNext(Begun(r), start, [], []);
      ghost var pushed := [Begun(r)];
      assert [] + [Begun(r)] == pushed;
      var k := 0;
      assert output[0..] == output;
      while k < |output|
        invariant k <= |output| && OneOpen(State()) && Did(PushAll(cfg, start, pushed), State(), out)
        invariant pushed + OutputEvents(k, output[k..]) == [Begun(r)] + OutputEvents(0, output)
      {
        var ji := output[k];
        ghost var before := pushed;
        out := PushNext(OfItem(Some(k), Added(ji.item, NO_RESPONSE)), start, pushed, out);
        pushed := pushed + [OfItem(Some(k), Added(ji.item, NO_RESPONSE))];
        out := PushMiddle(k, ji, start, pushed, out);
        pushed := pushed + Middle(k, ji);
        out := PushNext(OfItem(Some(k), Done(ji.item)), start, pushed, out);
        pushed := pushed + [OfItem(Some(k), Done(ji.item))];
        ItemPushed(before, k, ji, pushed);
        assert output[k..][1..] == output[k + 1..];
        assert before + (ItemEvents(k, ji) + OutputEvents(k + 1, output[k + 1..]))
            == (before + ItemEvents(k, ji)) + OutputEvents(k + 1, output[k + 1..]);
        k := k + 1;
      }
      assert pushed + [] == pushed;
      out := PushNext(Ended(r), start, pushed, out);
    }

    static lemma NothingYet(cfg: Config, t: Translator)
      requires HoldsItems(t)
      ensures Did(PushAll(cfg, t, []), t, [])
    {
    }

    static lemma ItemPushed(before: seq<Upstream>, k: nat, ji: JsonItem, after: seq<Upstream>)
      requires after == before + [OfItem(Some(k), Added(ji.item, NO_RESPONSE))] + Middle(k, ji)
        + [OfItem(Some(k), Done(ji.item))]
      ensures after == before + ItemEvents(k, ji)
    {
    }
  }
}
