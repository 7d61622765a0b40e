/** The end of a translated stream. What is still held is then handled in the order it came in, without
    regard to what is open: the whole stream has been handled one event after the other, each item's own
    events in their order, and after the last block is closed there is only the terminal event. Nothing
    is held any more. */
module ForcedEnd {
  import opened Text
  import opened Translate
  import opened TranslateItems
  import J = TranslateJson

  /** The upstream says that the stream is over, one way or the other. */
  predicate Last(e: Upstream) {
    e.Ended? || e.Broke?
  }

  /** A completed response announces the message if nothing has. */
  function Lead(e: Upstream): (es: seq<Upstream>)
    ensures forall f <- es :: Plain(f) && Named(f)
  {
    if e.Ended? then [Begun(e.response)] else []
  }

  function Ending(e: Upstream, t: Translator): seq<Emission>
    requires Last(e)
  {
    match e
    case Ended(r) => [Emission(None, MessageDelta(Reason(t, r), r.usage)), Emission(None, MessageStop)]
    case Broke(message) => [Emission(None, Error(message))]
  }

  lemma HeldPlain(t: Translator)
    requires HoldsItems(t)
    ensures forall e <- t.deferred :: Plain(e)
  {
  }

  lemma {:induction false} ForcedDrain(cfg: Config, t: Translator)
    requires HoldsItems(t) && forall e <- t.deferred :: Plain(e)
    ensures Drain(cfg, t, true) == Serial(cfg, Bare(t), t.deferred)
    decreases |t.deferred|
  {
    hide HandleItem, FirstReady;
    if t.deferred == [] {
      assert Bare(t) == t;
    } else {
      var e, d := t.deferred[0], t.deferred[..0] + t.deferred[1..];
      assert d == t.deferred[1..];
      var a := HandleHeld(cfg, t, 0);
      HeldAside(cfg, t, d, e.k, e.body);
      ForcedDrain(cfg, a.t);
    }
  }

  lemma CloseAllBare(t: Translator)
    ensures CloseAll(Bare(t)).out == CloseAll(t).out && CloseAll(Bare(t)).t == Bare(CloseAll(t).t)
  {
  }

  lemma NothingToDrain(cfg: Config, t: Translator)
    requires t.deferred == []
    ensures HoldsItems(t) && Drain(cfg, t, false) == Step(t, [])
  {
  }

  lemma StartBare(cfg: Config, t: Translator, r: Response)
    ensures EnsureStart(cfg, Bare(t), r) == Step(Bare(EnsureStart(cfg, t, r).t), EnsureStart(cfg, t, r).out)
  {
  }

  lemma {:induction false} SerialBare(cfg: Config, t: Translator, log: seq<Upstream>)
    requires (forall e <- log :: Plain(e)) && t.deferred == []
    ensures Serial(cfg, t, log).t.deferred == [] && Serial(cfg, t, log).t.finished == t.finished
    ensures NoEnd(Serial(cfg, t, log).out)
    decreases |log|
  {
    hide HandleItem, EnsureStart, Terminal;
    if log != [] {
      SerialBare(cfg, HandleOne(cfg, t, log[0]).t, log[1..]);
    }
  }

  lemma FailIs(cfg: Config, t: Translator, message: Text)
    requires HoldsItems(t) && !t.finished && forall e <- t.deferred :: Plain(e)
    ensures var s := Serial(cfg, Bare(t), t.deferred);
      var c := CloseAll(s.t);
      Fail(cfg, t, message) == Step(c.t.(finished := true), s.out + c.out + [Emission(None, Error(message))])
  {
    hide Drain, Serial, CloseAll;
    ForcedDrain(cfg, t);
  }

  lemma CompleteIs(cfg: Config, t: Translator, r: Response)
    requires HoldsItems(t) && !t.finished && forall e <- t.deferred :: Plain(e)
    ensures var a := EnsureStart(cfg, Bare(t), r);
      var s := Serial(cfg, a.t, t.deferred);
      var c := CloseAll(s.t);
      Complete(cfg, t, r)
      == Step(c.t.(finished := true),
              a.out + s.out + c.out
              + [Emission(None, MessageDelta(Reason(c.t, r), r.usage)), Emission(None, MessageStop)])
  {
    hide Drain, Serial, CloseAll, EnsureStart;
    StartBare(cfg, t, r);
    var a := EnsureStart(cfg, t, r);
    ForcedDrain(cfg, a.t);
  }

  /** Everything still held is handled one by one, the open block is closed, and then comes the terminal
      event; nothing follows it. */
  lemma EndIs(cfg: Config, t: Translator, e: Upstream)
    requires HoldsItems(t) && !t.finished && Last(e) && forall f <- t.deferred :: Plain(f)
    ensures var s := Serial(cfg, Bare(t), Lead(e) + t.deferred);
      var c := CloseAll(s.t);
      && Push(cfg, t, e) == Step(c.t.(finished := true), s.out + c.out + Ending(e, s.t))
      && c.t.deferred == [] && NoEnd(s.out + c.out)
  {
    hide Serial, CloseAll, Drain, Complete, Fail, Terminal, EnsureStart;
    SerialBare(cfg, Bare(t), Lead(e) + t.deferred);
    var s := Serial(cfg, Bare(t), Lead(e) + t.deferred);
    var c := CloseAll(s.t);
    var u := c.t.(finished := true);
    NothingToDrain(cfg, u);
    match e
    case Ended(r) =>
      CompleteIs(cfg, t, r);
      LeadFirst(cfg, t, r);
      ReasonSame(s.t, r);
      var a := EnsureStart(cfg, Bare(t), r);
      assert Push(cfg, t, e).out == Complete(cfg, t, r).out + [];
    case Broke(message) =>
      FailIs(cfg, t, message);
      assert Lead(e) + t.deferred == t.deferred;
      assert Push(cfg, t, e).out == Fail(cfg, t, message).out + [];
  }

  lemma LeadFirst(cfg: Config, t: Translator, r: Response)
    requires forall f <- t.deferred :: Plain(f)
    ensures var a, all := EnsureStart(cfg, Bare(t), r), [Begun(r)] + t.deferred;
      var s := Serial(cfg, a.t, t.deferred);
      (forall f <- all :: Plain(f)) && Serial(cfg, Bare(t), all) == Step(s.t, a.out + s.out)
  {
    hide EnsureStart;
    var all := [Begun(r)] + t.deferred;
    assert all[0] == Begun(r) && all[1..] == t.deferred;
  }

  lemma ReasonSame(t: Translator, r: Response)
    ensures Reason(CloseAll(t).t, r) == Reason(t, r)
  {
  }

  /** A failure without an upstream event is the same as one with it. */
  lemma FinishIsBroke(cfg: Config, t: Translator)
    requires HoldsItems(t)
    ensures if t.finished then Finish(cfg, t) == Step(t, [])
            else Finish(cfg, t) == Push(cfg, t, Broke(TRUNCATED))
  {
    hide Serial, CloseAll, Drain;
    if !t.finished {
      HeldPlain(t);
      FailIs(cfg, t, TRUNCATED);
      EndIs(cfg, t, Broke(TRUNCATED));
      assert Lead(Broke(TRUNCATED)) + t.deferred == t.deferred;
    }
  }

  // ---- The whole stream ----

  lemma {:induction false} PushAllUnfinished(cfg: Config, t: Translator, es: seq<Upstream>)
    requires HoldsItems(t) && !t.finished && Usual(es)
    ensures !PushAll(cfg, t, es).t.finished
    decreases |es|
  {
    hide Drain, HandleItem, ShouldDefer, Named;
    if es != [] {
      assert es[0] in es && Plain(es[0]);
      PushAllUnfinished(cfg, Push(cfg, t, es[0]).t, es[1..]);
    }
  }

  /** With its end, a stream has been handled one event after the other in the order of `log`, which is an
      order of the stream's own events that keeps each item's, and nothing is left. What was handled `before`
      the end interrupted nothing. */
  lemma WholeLog(cfg: Config, model: Text, es: seq<Upstream>, e: Upstream)
      returns (log: seq<Upstream>, before: seq<Upstream>)
    requires Usual(es) && Last(e)
    ensures Usual(log) && forall k :: Of(log, k) == Of(es, k)
    ensures var t := PushAll(cfg, Fresh(model), es).t;
      && log == before + (Lead(e) + t.deferred)
      && Usual(before) && Calm(cfg, Fresh(model), before) && Serial(cfg, Fresh(model), before).t == Bare(t)
      && forall f <- t.deferred :: Plain(f) && f.OfItem?
    ensures var r, s := PushAll(cfg, Fresh(model), es + [e]), Serial(cfg, Fresh(model), log);
      var c := CloseAll(s.t);
      && r == Step(c.t.(finished := true), s.out + c.out + Ending(e, s.t))
      && r.t.deferred == [] && NoEnd(s.out + c.out)
  {
    hide PushAll, Push, Serial, Calm, Of, CloseAll, Terminal, Named, Ending;
    var t := Fresh(model);
    var a := PushAll(cfg, t, es);
    before := PushAllLog(cfg, t, es);
    PushAllUnfinished(cfg, t, es);
    J.PushAllAppend(cfg, t, es, [e]);
    J.PushAllOne(cfg, a.t, e);
    HeldPlain(a.t);
    EndIs(cfg, a.t, e);
    HeldUsual(cfg, t, es);
    var rest := Lead(e) + a.t.deferred;
    log := before + rest;
    SerialAppend(cfg, t, before, rest);
    forall k ensures Of(log, k) == Of(es, k) {
      assert InTurn([], es, before, a.t.deferred, k);
      OfNothing(k);
      assert [] + Of(es, k) == Of(es, k);
      LeadOf(e, k);
      OfAppend(Lead(e), a.t.deferred, k);
      OfAppend(before, rest, k);
      assert [] + Of(a.t.deferred, k) == Of(a.t.deferred, k);
    }
    var x, y := Serial(cfg, t, before), Serial(cfg, Bare(a.t), rest);
    var c := CloseAll(y.t);
    assert (x.out + y.out) + c.out + Ending(e, y.t) == x.out + (y.out + c.out + Ending(e, y.t));
    SerialBare(cfg, t, before);
    NoEndAppend(x.out, y.out + c.out);
    assert x.out + (y.out + c.out) == (x.out + y.out) + c.out;
  }

  lemma NoEndAppend(a: seq<Emission>, b: seq<Emission>)
    requires NoEnd(a) && NoEnd(b)
    ensures NoEnd(a + b)
  {
  }

  lemma LeadOf(e: Upstream, k: int)
    ensures Of(Lead(e), k) == []
  {
    NoneOf(Lead(e), k);
  }

  /** Only what arrived is held. */
  lemma {:induction false} HeldUsual(cfg: Config, t: Translator, es: seq<Upstream>)
    requires HoldsItems(t) && Drained(t) && Usual(t.deferred) && Usual(es)
    ensures Usual(PushAll(cfg, t, es).t.deferred)
    decreases |es|
  {
    hide Push, Drained, Named, LogOf, InTurn;
    if es != [] {
      var log := PushLog(cfg, t, es[0]);
      HeldUsual(cfg, Push(cfg, t, es[0]).t, es[1..]);
    }
  }
}
