/** How a translated stream begins, and what a reader must have read for there to be a message. */
module StreamHeader {
  import opened Text
  import opened Translate
  import opened ForcedEnd
  import J = TranslateJson

  // ---- The beginning ----

  /** The event carries a response object. */
  predicate Tells(e: Upstream) {
    e.Begun? || e.Ended? || (e.OfItem? && e.body.Added?)
  }

  function Told(e: Upstream): Response
    requires Tells(e)
  {
    if e.OfItem? then e.body.response else e.response
  }

  /** Nothing has been said of the response yet, nor that there is none. */
  predicate Silent(e: Upstream) {
    !Tells(e) && !e.Broke?
  }

  predicate NoStart(out: seq<Emission>) {
    forall e <- out :: !e.event.MessageStart?
  }

  function Opening(cfg: Config, model: Text, r: Response): Emission {
    Emission(None, MessageStart(r.id, if cfg.pinned || r.model == [] then model else r.model))
  }

  lemma {:induction false} SilenceSaysNothing(cfg: Config, model: Text, es: seq<Upstream>)
    requires forall e <- es :: Silent(e)
    ensures PushAll(cfg, Fresh(model), es) == Step(Fresh(model), [])
    decreases |es|
  {
    if es != [] {
      SilentPush(cfg, model, es[0]);
      SilenceSaysNothing(cfg, model, es[1..]);
    }
  }

  lemma SilentPush(cfg: Config, model: Text, e: Upstream)
    requires Silent(e)
    ensures Push(cfg, Fresh(model), e) == Step(Fresh(model), [])
  {
    hide Blob, Tail;
  }

  lemma CloseNoStart(t: Translator, k: int)
    ensures CloseOther(t, k).t.started == t.started && NoStart(CloseOther(t, k).out)
  {
  }

  lemma DeltaNoStart(cfg: Config, t: Translator, k: int, delta: Text)
    ensures OnText(cfg, t, k, delta).t.started == t.started && NoStart(OnText(cfg, t, k, delta).out)
    ensures OnSummary(cfg, t, k, delta).t.started == t.started && NoStart(OnSummary(cfg, t, k, delta).out)
    ensures OnArgs(t, k, delta).t.started == t.started && NoStart(OnArgs(t, k, delta).out)
  {
    hide CloseOther;
    CloseNoStart(t, k);
  }

  lemma AddedNoStart(cfg: Config, t: Translator, key: Option<int>, item: Item, r: Response)
    requires t.started
    ensures OnAdded(cfg, t, key, item, r).t.started && NoStart(OnAdded(cfg, t, key, item, r).out)
  {
    hide CloseOther, ToolId;
    CloseNoStart(t, if key.Some? then key.value else |t.slots|);
  }

  lemma DoneNoStart(cfg: Config, t: Translator, k: int, item: Item)
    ensures OnDone(cfg, t, k, item).t.started == t.started && NoStart(OnDone(cfg, t, k, item).out)
  {
    hide CloseOther, Blob, Tail;
    CloseNoStart(t, k);
  }

  lemma ItemNoStart(cfg: Config, t: Translator, key: Option<int>, body: Body)
    requires t.started
    ensures HandleItem(cfg, t, key, body).t.started && NoStart(HandleItem(cfg, t, key, body).out)
  {
    hide OnAdded, OnText, OnSummary, OnArgs, OnDone;
    var k := if key.Some? then key.value else -1;
    match body
    case Added(item, r) => AddedNoStart(cfg, t, key, item, r);
    case TextDelta(delta) => DeltaNoStart(cfg, t, k, delta);
    case SummaryDelta(delta) => DeltaNoStart(cfg, t, k, delta);
    case ArgsDelta(delta) => DeltaNoStart(cfg, t, k, delta);
    case Done(item) => DoneNoStart(cfg, t, k, item);
  }

  lemma {:induction false} DrainNoStart(cfg: Config, t: Translator, force: bool)
    requires HoldsItems(t) && t.started
    ensures Drain(cfg, t, force).t.started && NoStart(Drain(cfg, t, force).out)
    decreases |t.deferred|
  {
    hide HandleItem, FirstReady;
    var i := if force then 0 else FirstReady(t, t.deferred);
    if i < |t.deferred| {
      var e := t.deferred[i];
      ItemNoStart(cfg, t.(deferred := t.deferred[..i] + t.deferred[i + 1..]), e.k, e.body);
      DrainNoStart(cfg, HandleHeld(cfg, t, i).t, force);
    }
  }

  lemma EndNoStart(cfg: Config, t: Translator, e: Upstream)
    requires HoldsItems(t) && t.started && Last(e)
    ensures Handle(cfg, t, e).t.started && NoStart(Handle(cfg, t, e).out)
  {
    hide Drain, Reason;
    DrainNoStart(cfg, t, true);
  }

  lemma PushNoStart(cfg: Config, t: Translator, e: Upstream)
    requires HoldsItems(t) && t.started
    ensures Push(cfg, t, e).t.started && NoStart(Push(cfg, t, e).out)
  {
    hide Drain, HandleItem, Complete, Fail;
    if !ShouldDefer(t, e) {
      if Last(e) {
        EndNoStart(cfg, t, e);
      } else if e.OfItem? {
        ItemNoStart(cfg, t, e.k, e.body);
      }
      DrainNoStart(cfg, Handle(cfg, t, e).t, false);
    }
  }

  lemma {:induction false} StartedOnce(cfg: Config, t: Translator, es: seq<Upstream>)
    requires HoldsItems(t) && t.started
    ensures PushAll(cfg, t, es).t.started && NoStart(PushAll(cfg, t, es).out)
    decreases |es|
  {
    hide Push;
    if es != [] {
      PushNoStart(cfg, t, es[0]);
      StartedOnce(cfg, Push(cfg, t, es[0]).t, es[1..]);
    }
  }

  /** The first event with a response, on a translator that has heard nothing. */
  lemma FirstTold(cfg: Config, model: Text, e: Upstream)
    requires Tells(e)
    ensures var r := Push(cfg, Fresh(model), e);
      r.t.started && r.out != [] && r.out[0] == Opening(cfg, model, Told(e)) && NoStart(r.out[1..])
  {
    hide ToolId, Reason;
    match e
    case Begun(r) => FirstDrain(cfg, EnsureStart(cfg, Fresh(model), r).t);
    case Ended(r) => FirstEnded(cfg, model, r);
    case OfItem(key, Added(item, r)) => FirstAdded(cfg, model, key, item, r);
  }

  lemma FirstDrain(cfg: Config, t: Translator)
    requires t.deferred == []
    ensures HoldsItems(t) && Drain(cfg, t, true) == Step(t, []) == Drain(cfg, t, false)
  {
  }

  lemma FirstEnded(cfg: Config, model: Text, r: Response)
    ensures var s := Push(cfg, Fresh(model), Ended(r));
      s.t.started && s.out != [] && s.out[0] == Opening(cfg, model, r) && NoStart(s.out[1..])
  {
    hide Reason;
    var a := EnsureStart(cfg, Fresh(model), r);
    FirstDrain(cfg, a.t);
    assert CloseAll(a.t) == Step(a.t, []);
    FirstDrain(cfg, a.t.(finished := true));
  }

  lemma FirstAdded(cfg: Config, model: Text, key: Option<int>, item: Item, r: Response)
    ensures var s := Push(cfg, Fresh(model), OfItem(key, Added(item, r)));
      s.t.started && s.out != [] && s.out[0] == Opening(cfg, model, r) && NoStart(s.out[1..])
  {
    hide ToolId;
    var a := OnAdded(cfg, Fresh(model), key, item, r);
    assert a.t.deferred == [];
    assert Drain(cfg, a.t, false) == Step(a.t, []);
    assert a.out + [] == a.out;
  }

  /** The stream begins with the first response the upstream tells of, under its id and, unless the model
      is fixed or not told, its model; and it begins only once. */
  lemma StreamBegins(cfg: Config, model: Text, before: seq<Upstream>, e: Upstream, after: seq<Upstream>)
    requires (forall f <- before :: Silent(f)) && Tells(e)
    ensures var out := PushAll(cfg, Fresh(model), before + [e] + after).out;
      out != [] && out[0] == Opening(cfg, model, Told(e)) && NoStart(out[1..])
  {
    hide PushAll, Push, Silent;
    J.PushAllAppend(cfg, Fresh(model), before + [e], after);
    J.PushAllAppend(cfg, Fresh(model), before, [e]);
    J.PushAllOne(cfg, Fresh(model), e);
    SilenceSaysNothing(cfg, model, before);
    FirstTold(cfg, model, e);
    var a := Push(cfg, Fresh(model), e);
    StartedOnce(cfg, a.t, after);
    var b := PushAll(cfg, a.t, after);
    assert PushAll(cfg, Fresh(model), before + [e]) == a by { assert [] + a.out == a.out; }
    assert (a.out + b.out)[1..] == a.out[1..] + b.out;
  }
}
