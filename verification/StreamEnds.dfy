/** The translated stream is legal up to its terminal event, and a whole run has exactly one. */
module StreamEnds {
  import opened Text
  import opened Translate
  import opened TranslateShape

  /** Whatever arrives upstream, in whatever order, the stream read downstream is legal up to its
      terminal event; and once the translator was told of the end, there is a terminal event. */
  lemma StreamIsLegal(cfg: Config, model: Text, es: seq<Upstream>)
    ensures var a := PushAll(cfg, Fresh(model), es);
      && Reading(BLANK, a.out).Some?
      && Reading(BLANK, a.out + Finish(cfg, a.t).out).Some?
      && Reading(BLANK, a.out + Finish(cfg, a.t).out).value.ended
  {
    hide PushAll, Fail, OneOpen;
    assert OneOpen(Fresh(model)) by { FreshOpen(model); }
    PushAllLegal(cfg, Fresh(model), BLANK, es);
    var a := PushAll(cfg, Fresh(model), es);
    FailLegal(cfg, a.t, Reading(BLANK, a.out).value, TRUNCATED);
    Chain(BLANK, a, Finish(cfg, a.t));
    FailFinishes(cfg, a.t, TRUNCATED);
  }

  lemma FailFinishes(cfg: Config, t: Translator, message: Text)
    requires HoldsItems(t)
    ensures Fail(cfg, t, message).t.finished
  {
    hide Drain, CloseAll;
  }

  // ---- One end ----

  function Ends(out: seq<Emission>): nat {
    if out == [] then 0 else (if Terminal(out[0].event) then 1 else 0) + Ends(out[1..])
  }

  lemma {:induction false} EndsAppend(a: seq<Emission>, b: seq<Emission>)
    ensures Ends(a + b) == Ends(a) + Ends(b)
  {
    if a == [] {
      assert a + b == b;
    } else {
      assert (a + b)[0] == a[0] && (a + b)[1..] == a[1..] + b;
      EndsAppend(a[1..], b);
    }
  }

  lemma {:induction false} NoEnds(out: seq<Emission>)
    requires NoEnd(out)
    ensures Ends(out) == 0
  {
    if out != [] {
      NoEnds(out[1..]);
    }
  }

  lemma {:induction false} DrainEndsNothing(cfg: Config, t: Translator, force: bool)
    requires HoldsItems(t)
    ensures NoEnd(Drain(cfg, t, force).out)
    decreases |t.deferred|
  {
    hide HandleItem, FirstReady, Terminal;
    var i := if force then 0 else FirstReady(t, t.deferred);
    if i < |t.deferred| {
      DrainEndsNothing(cfg, HandleHeld(cfg, t, i).t, force);
    }
  }

  function One(b: bool): nat {
    if b then 1 else 0
  }

  /** A step emits its one terminal event just when it ends the stream. */
  predicate EndsOnce(t: Translator, r: Step) {
    (t.finished ==> r.t.finished) && Ends(r.out) == One(r.t.finished) - One(t.finished)
  }

  lemma FailEndsOnce(cfg: Config, t: Translator, message: Text)
    requires HoldsItems(t)
    ensures EndsOnce(t, Fail(cfg, t, message))
  {
    hide Drain;
    if !t.finished {
      var b := Drain(cfg, t, true);
      var c := CloseAll(b.t);
      DrainEndsNothing(cfg, t, true);
      NoEnds(b.out + c.out);
      EndsAppend(b.out + c.out, [Emission(None, Error(message))]);
    }
  }

  lemma EndsOfLast(reason: StopReason, usage: Text)
    ensures Ends([Emission(None, MessageDelta(reason, usage)), Emission(None, MessageStop)]) == 1
  {
    var last := [Emission(None, MessageDelta(reason, usage)), Emission(None, MessageStop)];
    assert last[1..] == [Emission(None, MessageStop)];
    assert [Emission(None, MessageStop)][1..] == [];
  }

  lemma CompleteEndsOnce(cfg: Config, t: Translator, r: Response)
    requires HoldsItems(t)
    ensures EndsOnce(t, Complete(cfg, t, r))
  {
    hide Drain, Reason;
    if !t.finished {
      var a := EnsureStart(cfg, t, r);
      var b := Drain(cfg, a.t, true);
      var c := CloseAll(b.t);
      DrainEndsNothing(cfg, a.t, true);
      NoEnds(a.out + b.out + c.out);
      var last := [Emission(None, MessageDelta(Reason(c.t, r), r.usage)), Emission(None, MessageStop)];
      EndsOfLast(Reason(c.t, r), r.usage);
      EndsAppend(a.out + b.out + c.out, last);
    }
  }

  lemma PushEndsOnce(cfg: Config, t: Translator, e: Upstream)
    requires HoldsItems(t)
    ensures EndsOnce(t, Push(cfg, t, e))
  {
    hide Drain, HandleItem, Complete, Fail, ShouldDefer;
    if !ShouldDefer(t, e) {
      var a := Handle(cfg, t, e);
      match e {
        case Begun(_) => NoEnds(a.out);
        case OfItem(_, _) => NoEnds(a.out);
        case Ended(r) => CompleteEndsOnce(cfg, t, r);
        case Broke(message) => FailEndsOnce(cfg, t, message);
        case Ignored =>
      }
      DrainEndsNothing(cfg, a.t, false);
      NoEnds(Drain(cfg, a.t, false).out);
      EndsAppend(a.out, Drain(cfg, a.t, false).out);
    }
  }

  lemma {:induction false} PushAllEndsOnce(cfg: Config, t: Translator, es: seq<Upstream>)
    requires HoldsItems(t)
    ensures EndsOnce(t, PushAll(cfg, t, es))
    decreases |es|
  {
    hide Push;
    if es != [] {
      var a := Push(cfg, t, es[0]);
      PushEndsOnce(cfg, t, es[0]);
      PushAllEndsOnce(cfg, a.t, es[1..]);
      EndsAppend(a.out, PushAll(cfg, a.t, es[1..]).out);
    }
  }

  /** Over a whole stream, with everything the upstream may send even after its end, the reader is
      told exactly once that it is over. */
  lemma ExactlyOneEnd(cfg: Config, model: Text, es: seq<Upstream>)
    ensures var a := PushAll(cfg, Fresh(model), es);
      Ends(a.out + Finish(cfg, a.t).out) == 1
  {
    hide PushAll, Fail;
    PushAllEndsOnce(cfg, Fresh(model), es);
    var a := PushAll(cfg, Fresh(model), es);
    FailEndsOnce(cfg, a.t, TRUNCATED);
    FailFinishes(cfg, a.t, TRUNCATED);
    EndsAppend(a.out, Finish(cfg, a.t).out);
  }
}
