/** No block of the translated stream is opened for blanks alone. */
module BlockStarts {
  import opened Text
  import opened Translate

  /** A text or thinking block begins with something to see: its first piece, right behind its start, is
      not blank. */
  predicate BeginsVisibly(cfg: Config, out: seq<Emission>, i: nat)
    requires i < |out|
  {
    var e := out[i].event;
    && (e.BlockStart? && e.start.TextBlock? ==>
          && i + 1 < |out| && out[i + 1].event.BlockDelta? && out[i + 1].event.index == e.index
          && out[i + 1].event.piece.Words? && !cfg.blank(out[i + 1].event.piece.words))
    && (e.BlockStart? && e.start.ThinkingBlock? ==>
          && i + 1 < |out| && out[i + 1].event.BlockDelta? && out[i + 1].event.index == e.index
          && out[i + 1].event.piece.Thought? && !cfg.blank(out[i + 1].event.piece.thought))
  }

  predicate AllVisible(cfg: Config, out: seq<Emission>) {
    forall i :: 0 <= i < |out| ==> BeginsVisibly(cfg, out, i)
  }

  lemma VisibleAppend(cfg: Config, a: seq<Emission>, b: seq<Emission>)
    requires AllVisible(cfg, a) && AllVisible(cfg, b)
    ensures AllVisible(cfg, a + b)
  {
    forall i | 0 <= i < |a + b| ensures BeginsVisibly(cfg, a + b, i) {
      if i < |a| {
        assert BeginsVisibly(cfg, a, i);
      } else {
        assert BeginsVisibly(cfg, b, i - |a|);
      }
    }
  }

  /** Nothing begins here but tool calls and redacted blocks. */
  predicate NoneBegin(out: seq<Emission>) {
    forall e <- out :: e.event.BlockStart? ==> e.event.start.ToolUseBlock? || e.event.start.RedactedBlock?
  }

  lemma NoneVisible(cfg: Config, out: seq<Emission>)
    requires NoneBegin(out)
    ensures AllVisible(cfg, out)
  {
    forall i | 0 <= i < |out| ensures BeginsVisibly(cfg, out, i) {
      assert out[i] in out;
    }
  }

  lemma CloseBegins(t: Translator, k: int)
    ensures NoneBegin(CloseOther(t, k).out)
  {
  }

  lemma OpenVisibly(cfg: Config, t: Translator, k: int, start: Start, piece: Piece)
    requires k in t.slots
    requires (start.TextBlock? && piece.Words? && !cfg.blank(piece.words))
      || (start.ThinkingBlock? && piece.Thought? && !cfg.blank(piece.thought))
    ensures AllVisible(cfg, OpenWith(t, k, start, piece).out)
  {
    hide CloseOther;
    CloseBegins(t, k);
    var a := CloseOther(t, k);
    NoneVisible(cfg, a.out);
    var two := [Emission(Some(k), BlockStart(a.t.next, start)), Emission(Some(k), BlockDelta(a.t.next, piece))];
    assert BeginsVisibly(cfg, two, 0) && BeginsVisibly(cfg, two, 1);
    VisibleAppend(cfg, a.out, two);
  }

  lemma DeltaVisible(cfg: Config, t: Translator, k: int, delta: Text)
    ensures AllVisible(cfg, OnText(cfg, t, k, delta).out) && AllVisible(cfg, OnSummary(cfg, t, k, delta).out)
    ensures AllVisible(cfg, OnArgs(t, k, delta).out)
  {
    hide OpenWith, CloseOther, AllVisible;
    NoneVisible(cfg, []);
    if k in t.slots {
      var i, text := t.slots[k].index, t.slots[k].pending + delta;
      NoneVisible(cfg, [Emission(Some(k), BlockDelta(i, Words(delta)))]);
      NoneVisible(cfg, [Emission(Some(k), BlockDelta(i, Thought(delta)))]);
      NoneVisible(cfg, [Emission(Some(k), BlockDelta(i, Json(delta)))]);
      CloseBegins(t, k);
      NoneVisible(cfg, CloseOther(t, k).out);
      if !cfg.blank(text) {
        OpenVisibly(cfg, t, k, TextBlock, Words(text));
        OpenVisibly(cfg, t, k, ThinkingBlock, Thought(text));
      }
    }
  }

  lemma OthersBegin(cfg: Config, t: Translator, key: Option<int>, k: int, item: Item, r: Response)
    ensures NoneBegin(OnAdded(cfg, t, key, item, r).out) && NoneBegin(OnDone(cfg, t, k, item).out)
  {
    hide CloseOther, ToolId, Blob, Tail;
    var a := EnsureStart(cfg, t, r);
    CloseBegins(a.t, if key.Some? then key.value else |a.t.slots|);
    CloseBegins(t, k);
  }

  lemma ItemVisible(cfg: Config, t: Translator, key: Option<int>, body: Body)
    ensures AllVisible(cfg, HandleItem(cfg, t, key, body).out)
  {
    hide OnAdded, OnText, OnSummary, OnArgs, OnDone, AllVisible, NoneBegin;
    var k := if key.Some? then key.value else -1;
    match body
    case Added(item, r) =>
      OthersBegin(cfg, t, key, k, item, r);
      NoneVisible(cfg, OnAdded(cfg, t, key, item, r).out);
    case TextDelta(delta) => DeltaVisible(cfg, t, k, delta);
    case SummaryDelta(delta) => DeltaVisible(cfg, t, k, delta);
    case ArgsDelta(delta) => DeltaVisible(cfg, t, k, delta);
    case Done(item) =>
      OthersBegin(cfg, t, key, k, item, Response([], [], false, []));
      NoneVisible(cfg, OnDone(cfg, t, k, item).out);
  }

  lemma {:induction false} DrainVisible(cfg: Config, t: Translator, force: bool)
    requires HoldsItems(t)
    ensures AllVisible(cfg, Drain(cfg, t, force).out)
    decreases |t.deferred|
  {
    hide HandleItem, FirstReady, AllVisible;
    var i := if force then 0 else FirstReady(t, t.deferred);
    if i >= |t.deferred| {
      NoneVisible(cfg, []);
    } else {
      var e := t.deferred[i];
      ItemVisible(cfg, t.(deferred := t.deferred[..i] + t.deferred[i + 1..]), e.k, e.body);
      DrainVisible(cfg, HandleHeld(cfg, t, i).t, force);
      VisibleAppend(cfg, HandleHeld(cfg, t, i).out, Drain(cfg, HandleHeld(cfg, t, i).t, force).out);
    }
  }

  lemma EdgesBegin(cfg: Config, t: Translator, r: Response)
    ensures NoneBegin(EnsureStart(cfg, t, r).out) && NoneBegin(CloseAll(t).out)
  {
  }

  lemma EndVisible(cfg: Config, t: Translator, e: Upstream)
    requires HoldsItems(t) && (e.Ended? || e.Broke?)
    ensures AllVisible(cfg, Handle(cfg, t, e).out)
  {
    hide Drain, EnsureStart, CloseAll, AllVisible, Reason;
    NoneVisible(cfg, []);
    if !t.finished {
      var a := if e.Ended? then EnsureStart(cfg, t, e.response) else Step(t, []);
      if e.Ended? {
        EdgesBegin(cfg, t, e.response);
      }
      NoneVisible(cfg, a.out);
      var b := Drain(cfg, a.t, true);
      DrainVisible(cfg, a.t, true);
      VisibleAppend(cfg, a.out, b.out);
      var c := CloseAll(b.t);
      EdgesBegin(cfg, b.t, Response([], [], false, []));
      NoneVisible(cfg, c.out);
      VisibleAppend(cfg, a.out + b.out, c.out);
      var last :=
        if e.Broke? then [Emission(None, Error(e.message))]
        else
          [Emission(None, MessageDelta(Reason(c.t, e.response), e.response.usage)), Emission(None, MessageStop)];
      NoneVisible(cfg, last);
      VisibleAppend(cfg, a.out + b.out + c.out, last);
      assert e.Broke? ==> [] + b.out == b.out;
    }
  }

  lemma PushVisible(cfg: Config, t: Translator, e: Upstream)
    requires HoldsItems(t)
    ensures AllVisible(cfg, Push(cfg, t, e).out)
  {
    hide Drain, HandleItem, Complete, Fail, EnsureStart, ShouldDefer, AllVisible;
    NoneVisible(cfg, []);
    if !ShouldDefer(t, e) {
      var a := Handle(cfg, t, e);
      match e {
        case Begun(r) =>
          EdgesBegin(cfg, t, r);
          NoneVisible(cfg, a.out);
        case OfItem(k, body) => ItemVisible(cfg, t, k, body);
        case Ignored =>
        case _ => EndVisible(cfg, t, e);
      }
      DrainVisible(cfg, a.t, false);
      VisibleAppend(cfg, a.out, Drain(cfg, a.t, false).out);
    }
  }

  lemma {:induction false} PushAllVisible(cfg: Config, t: Translator, es: seq<Upstream>)
    requires HoldsItems(t)
    ensures AllVisible(cfg, PushAll(cfg, t, es).out)
    decreases |es|
  {
    hide Push, AllVisible;
    if es == [] {
      NoneVisible(cfg, []);
    } else {
      PushVisible(cfg, t, es[0]);
      PushAllVisible(cfg, Push(cfg, t, es[0]).t, es[1..]);
      VisibleAppend(cfg, Push(cfg, t, es[0]).out, PushAll(cfg, Push(cfg, t, es[0]).t, es[1..]).out);
    }
  }

  /** Whatever arrives, every text and every thinking block begins with something that is not blank. */
  lemma BlocksBeginVisibly(cfg: Config, model: Text, es: seq<Upstream>)
    ensures AllVisible(cfg, PushAll(cfg, Fresh(model), es).out)
  {
    PushAllVisible(cfg, Fresh(model), es);
  }
}
