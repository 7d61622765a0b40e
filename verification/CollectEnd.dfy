/** When a collected stream is a message, and what its header then says. */
module CollectEnd {
  import opened Text
  import opened Translate
  import opened TranslateItems
  import opened StreamTail
  import opened StreamHeader
  import C = Collect
  import L = CollectLaws

  predicate NoneEnds(es: seq<Out>) {
    forall i :: 0 <= i < |es| ==> !Terminal(es[i])
  }

  /** `es[n]` is the stop, and nothing before it is a stop or an error. */
  predicate StopsAt(es: seq<Out>, n: nat) {
    n < |es| && es[n].MessageStop? && forall i :: 0 <= i < n ==> !Terminal(es[i])
  }

  /** Id and model of the last beginning, and the stop reason and usage of the last word on them after it. */
  predicate HeaderFrom(es: seq<Out>, h: C.Header) {
    exists s :: 0 <= s < |es| && es[s] == MessageStart(h.id, h.model) && TailFrom(es, s + 1, h)
  }

  predicate TailFrom(es: seq<Out>, s: nat, h: C.Header) {
    && s <= |es|
    && (forall i :: s <= i < |es| ==> !es[i].MessageStart?)
    && if h.stopReason.None? then h.usage == [] && forall i :: s <= i < |es| ==> !es[i].MessageDelta?
       else exists d :: s <= d < |es| && es[d] == MessageDelta(h.stopReason.value, h.usage)
                        && forall i :: d < i < |es| ==> !es[i].MessageDelta?
  }

  lemma OneTaken(parse: C.Parser, es: seq<Out>, c: C.Collection, e: Out)
    requires !c.failed && !c.stopped && !Terminal(e) && !C.Take(parse, c, e).failed
    requires c.message.Some? ==> HeaderFrom(es, c.message.value)
    ensures var d := C.Take(parse, c, e);
      !d.stopped && (d.message.Some? ==> HeaderFrom(es + [e], d.message.value))
  {
    var all, d := es + [e], C.Take(parse, c, e);
    if e.MessageStart? {
      assert all[|es|] == MessageStart(d.message.value.id, d.message.value.model);
      assert TailFrom(all, |es| + 1, d.message.value);
    } else if c.message.Some? {
      var h := c.message.value;
      var s :| 0 <= s < |es| && es[s] == MessageStart(h.id, h.model) && TailFrom(es, s + 1, h);
      assert all[s] == MessageStart(h.id, h.model);
      if e.MessageDelta? {
        assert all[|es|] == e;
      } else if h.stopReason.Some? {
        var x :| s + 1 <= x < |es| && es[x] == MessageDelta(h.stopReason.value, h.usage)
                 && forall i :: x < i < |es| ==> !es[i].MessageDelta?;
        assert all[x] == es[x];
      }
      assert TailFrom(all, s + 1, d.message.value);
    }
  }

  lemma {:induction false} PrefixTaken(parse: C.Parser, es: seq<Out>)
    requires NoneEnds(es)
    ensures var c := C.TakeAll(parse, C.EMPTY, es);
      c.failed || (!c.stopped && (c.message.Some? ==> HeaderFrom(es, c.message.value)))
    decreases |es|
  {
    hide C.Take, HeaderFrom, Terminal;
    if es != [] {
      var before, e := es[..|es| - 1], es[|es| - 1];
      assert es == before + [e];
      PrefixTaken(parse, before);
      L.TakeAppend(parse, C.EMPTY, before, [e]);
      var c := C.TakeAll(parse, C.EMPTY, before);
      L.TakeOne(parse, c, e);
      if c.failed {
        L.StaysFailed(parse, c, [e]);
      } else if !C.Take(parse, c, e).failed {
        OneTaken(parse, before, c, e);
      }
    }
  }

  lemma {:induction false} StaysStopped(parse: C.Parser, c: C.Collection, es: seq<Out>)
    requires c.stopped
    ensures C.TakeAll(parse, c, es) == c
    decreases |es|
  {
    if es != [] {
      StaysStopped(parse, c, es[1..]);
    }
  }

  function FirstEnd(es: seq<Out>): (n: nat)
    ensures n <= |es| && NoneEnds(es[..n]) && (n < |es| ==> Terminal(es[n]))
  {
    if es == [] || Terminal(es[0]) then 0
    else
      var n := FirstEnd(es[1..]);
      assert forall i :: 0 < i < n + 1 ==> es[i] == es[1..][i - 1];
      n + 1
  }

  /** A message is collected only from a stream that stops before any error; its header is that of the
      stream up to there, and what comes later does not matter. An error before the stop, or no stop, or no
      beginning, means no message. */
  lemma OnlyEndedCollect(parse: C.Parser, es: seq<Out>) returns (n: nat)
    requires C.Outcome(C.TakeAll(parse, C.EMPTY, es)).Whole?
    ensures StopsAt(es, n) && HeaderFrom(es[..n], C.Outcome(C.TakeAll(parse, C.EMPTY, es)).header)
    ensures C.TakeAll(parse, C.EMPTY, es) == C.TakeAll(parse, C.EMPTY, es[..n]).(stopped := true)
  {
    hide C.Take, C.InOrder, HeaderFrom;
    n := FirstEnd(es);
    assert forall i :: 0 <= i < n ==> es[i] == es[..n][i];
    PrefixTaken(parse, es[..n]);
    var c := C.TakeAll(parse, C.EMPTY, es[..n]);
    assert es == es[..n] + es[n..];
    L.TakeAppend(parse, C.EMPTY, es[..n], es[n..]);
    if c.failed {
      L.StaysFailed(parse, c, es[n..]);
    } else if n < |es| {
      var e := es[n];
      assert es[n..][0] == e;
      EndTaken(parse, c, e);
      if e.MessageStop? {
        StaysStopped(parse, C.Take(parse, c, e), es[n..][1..]);
      } else {
        L.StaysFailed(parse, C.Take(parse, c, e), es[n..][1..]);
      }
    }
  }

  lemma EndTaken(parse: C.Parser, c: C.Collection, e: Out)
    requires Terminal(e) && !c.failed && !c.stopped
    ensures C.Take(parse, c, e) == if e.MessageStop? then c.(stopped := true) else C.Failed(c)
  {
  }

  /** The message collected from a translated stream has the id and model the stream began with, the usage
      the upstream ended it with, and as its reason what `TellsEnd` says. */
  lemma MessageHeader(cfg: Config, parse: C.Parser, model: Text, es: seq<Upstream>, r: Response,
                      before: seq<Upstream>, e: Upstream, after: seq<Upstream>)
      returns (n: nat)
    requires Usual(es) && es + [Ended(r)] == before + [e] + after && (forall f <- before :: Silent(f)) && Tells(e)
    ensures var out := PushAll(cfg, Fresh(model), es + [Ended(r)]).out;
      var m := C.Outcome(C.TakeAll(parse, C.EMPTY, Outs(out)));
      && EndsAt(Ended(r), out, n)
      && (m.Whole? ==>
            && MessageStart(m.header.id, m.header.model) == Opening(cfg, model, Told(e)).event
            && m.header.stopReason.Some?
            && TellsEnd(Ended(r), out[..n], [MessageDelta(m.header.stopReason.value, m.header.usage), MessageStop]))
  {
    hide PushAll, C.TakeAll, C.InOrder, Silent, TellsEnd, Opening, Usual;
    var out := PushAll(cfg, Fresh(model), es + [Ended(r)]).out;
    n := EndComesLast(cfg, model, es, Ended(r));
    StreamBegins(cfg, model, before, e, after);
    var m := C.Outcome(C.TakeAll(parse, C.EMPTY, Outs(out)));
    EndIsTwo(r, out, n);
    if m.Whole? {
      var k := OnlyEndedCollect(parse, Outs(out));
      HeaderIs(out, n, k, m.header);
    }
  }

  lemma {:induction false} EndIsTwo(r: Response, out: seq<Emission>, n: nat)
    requires EndsAt(Ended(r), out, n)
    ensures |out| == n + 2 && out[n].event.MessageDelta? && out[n + 1].event.MessageStop?
    ensures TellsEnd(Ended(r), out[..n], [out[n].event, MessageStop])
    ensures forall i :: 0 <= i < n ==> !Terminal(out[i].event)
  {
    hide Terminal;
    var last := Outs(out[n..]);
    assert |last| == |out| - n && last[0] == out[n..][0].event && last[1] == out[n..][1].event;
    assert forall i :: 0 <= i < n ==> out[..n][i] == out[i];
  }

  lemma {:induction false} HeaderIs(out: seq<Emission>, n: nat, k: nat, h: C.Header)
    requires |out| == n + 2 && out[n].event.MessageDelta? && out[n + 1].event.MessageStop? && n > 0
    requires forall i :: 0 <= i < n ==> !Terminal(out[i].event)
    requires NoStart(out[1..]) && StopsAt(Outs(out), k) && HeaderFrom(Outs(out)[..k], h)
    ensures MessageStart(h.id, h.model) == out[0].event
    ensures h.stopReason.Some? && out[n].event == MessageDelta(h.stopReason.value, h.usage)
  {
    var es := Outs(out);
    assert k == n + 1 by { StopIsLast(out, n, k); }
    var body := es[..k];
    forall i | 0 < i < |out| ensures !out[i].event.MessageStart? {
      assert out[1..][i - 1] == out[i] && out[i] in out[1..];
    }
    var s :| 0 <= s < |body| && body[s] == MessageStart(h.id, h.model) && TailFrom(body, s + 1, h);
    assert body[n] == out[n].event;
    if h.stopReason.Some? {
      var d :| s + 1 <= d < |body| && body[d] == MessageDelta(h.stopReason.value, h.usage)
               && forall i :: d < i < |body| ==> !body[i].MessageDelta?;
      assert d == n;
    }
  }

  lemma {:induction false} StopIsLast(out: seq<Emission>, n: nat, k: nat)
    requires |out| == n + 2 && out[n].event.MessageDelta? && out[n + 1].event.MessageStop?
    requires (forall i :: 0 <= i < n ==> !Terminal(out[i].event)) && StopsAt(Outs(out), k)
    ensures k == n + 1
  {
    var first := Outs(out)[if k < n + 1 then k else n + 1];
  }
}
