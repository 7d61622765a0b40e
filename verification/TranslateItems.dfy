/** What the translated stream says of each item does not depend on how the items' events were
    interleaved: holding events back is a reordering that keeps each item's own order, and an item is
    untouched by the events of others. */
module TranslateItems {
  import opened Text
  import opened Translate
  import opened TranslateShape

  predicate Plain(e: Upstream) {
    e.Begun? || e.OfItem? || e.Ignored?
  }

  /** Item events name their item, and calls carry an id. */
  predicate Named(e: Upstream) {
    e.OfItem? ==>
      e.k.Some?
      && (e.body.Added? && e.body.item.kind.CallItem? ==> e.body.item.callId.Some? || e.body.item.id.Some?)
  }

  predicate Usual(es: seq<Upstream>) {
    forall e <- es :: Plain(e) && Named(e)
  }

  /** The events of item `k`, in order. */
  function Of(es: seq<Upstream>, k: int): seq<Body> {
    if es == [] then []
    else (if es[0].OfItem? && es[0].k == Some(k) then [es[0].body] else []) + Of(es[1..], k)
  }

  lemma {:induction false} OfAppend(a: seq<Upstream>, b: seq<Upstream>, k: int)
    ensures Of(a + b, k) == Of(a, k) + Of(b, k)
  {
    if a == [] {
      assert a + b == b;
    } else {
      assert (a + b)[0] == a[0] && (a + b)[1..] == a[1..] + b;
      OfAppend(a[1..], b, k);
      var head := if a[0].OfItem? && a[0].k == Some(k) then [a[0].body] else [];
      assert head + (Of(a[1..], k) + Of(b, k)) == (head + Of(a[1..], k)) + Of(b, k);
    }
  }

  // ---- Without holding back ----

  function HandleOne(cfg: Config, t: Translator, e: Upstream): Step
    requires Plain(e)
  {
    match e
    case Begun(response) => EnsureStart(cfg, t, response)
    case OfItem(k, body) => HandleItem(cfg, t, k, body)
    case Ignored => Step(t, [])
  }

  /** Handling events one by one as they come. */
  function Serial(cfg: Config, t: Translator, log: seq<Upstream>): Step
    requires forall e <- log :: Plain(e)
    decreases |log|
  {
    if log == [] then Step(t, [])
    else
      var a := HandleOne(cfg, t, log[0]);
      var b := Serial(cfg, a.t, log[1..]);
      Step(b.t, a.out + b.out)
  }

  /** No event of the log interrupts a block that must not be interrupted. */
  predicate Calm(cfg: Config, t: Translator, log: seq<Upstream>)
    requires forall e <- log :: Plain(e)
    decreases |log|
  {
    log == [] || (!ShouldDefer(t, log[0]) && Calm(cfg, HandleOne(cfg, t, log[0]).t, log[1..]))
  }

  function Bare(t: Translator): Translator {
    t.(deferred := [])
  }

  /** Everything still held must wait. */
  predicate Drained(t: Translator) {
    forall e <- t.deferred :: e.OfItem? && ShouldDefer(t, e)
  }

  /** `log` is the order in which the events were handled. */
  ghost predicate LogOf(cfg: Config, t: Translator, log: seq<Upstream>, r: Step) {
    && Usual(log) && Calm(cfg, Bare(t), log)
    && Serial(cfg, Bare(t), log) == Step(Bare(r.t), r.out)
  }

  /** Item by item, what was handled and what is still held is what arrived. */
  predicate InTurn(held: seq<Upstream>, arrived: seq<Upstream>, log: seq<Upstream>, still: seq<Upstream>, k: int) {
    Of(log, k) + Of(still, k) == Of(held, k) + Of(arrived, k)
  }

  lemma LogCons(cfg: Config, t: Translator, e: Upstream, a: Step, log: seq<Upstream>, b: Step)
    requires Plain(e) && Named(e) && !ShouldDefer(t, e) && HandleOne(cfg, Bare(t), e) == Step(Bare(a.t), a.out)
      && LogOf(cfg, a.t, log, b)
    ensures LogOf(cfg, t, [e] + log, Step(b.t, a.out + b.out))
  {
    hide HandleOne;
    assert ([e] + log)[0] == e && ([e] + log)[1..] == log;
  }

  lemma HeldAside(cfg: Config, t: Translator, d: seq<Upstream>, key: Option<int>, body: Body)
    ensures var a := HandleItem(cfg, t.(deferred := d), key, body);
      HandleItem(cfg, Bare(t), key, body) == Step(Bare(a.t), a.out)
  {
    hide HandleItem;
    Aside(cfg, t, key, body, t.finished, d);
    Aside(cfg, t, key, body, t.finished, []);
  }

  lemma {:induction false} NoneOf(es: seq<Upstream>, k: int)
    requires forall e <- es :: e.OfItem? ==> e.k != Some(k)
    ensures Of(es, k) == []
  {
    if es != [] {
      NoneOf(es[1..], k);
    }
  }

  /** Taking the first ready event out of the queue keeps each item's order. */
  lemma TakeReady(t: Translator, i: nat, k: int)
    requires i == FirstReady(t, t.deferred) < |t.deferred| && HoldsItems(t) && t.deferred[i].k.Some?
    ensures var e, d := t.deferred[i], t.deferred[..i] + t.deferred[i + 1..];
      Of([e], k) + Of(d, k) == Of(t.deferred, k)
  {
    hide FirstReady, Of;
    var e := t.deferred[i];
    OfOne(e, k);
    if e.k == Some(k) {
      NothingBefore(t, i, k);
    }
    OfParts(t.deferred, i, k);
  }

  lemma OfParts(es: seq<Upstream>, i: nat, k: int)
    requires i < |es| && (Of(es[..i], k) == [] || Of([es[i]], k) == [])
    ensures Of([es[i]], k) + Of(es[..i] + es[i + 1..], k) == Of(es, k)
  {
    hide Of;
    var e, before, after := [es[i]], es[..i], es[i + 1..];
    assert es == before + (e + after);
    OfAppend(before, e + after, k);
    OfAppend(e, after, k);
    OfAppend(before, after, k);
    Swap(Of(e, k), Of(before, k), Of(after, k));
  }

  lemma Swap(e: seq<Body>, b: seq<Body>, a: seq<Body>)
    requires e == [] || b == []
    ensures e + (b + a) == b + (e + a)
  {
  }

  /** Before the first ready event there is none of its item. */
  lemma NothingBefore(t: Translator, i: nat, k: int)
    requires i == FirstReady(t, t.deferred) < |t.deferred| && HoldsItems(t) && t.deferred[i].k == Some(k)
    ensures Of(t.deferred[..i], k) == []
  {
    var e := t.deferred[i];
    forall f <- t.deferred[..i] ensures f.OfItem? ==> f.k != Some(k) {
      var j :| 0 <= j < i && t.deferred[j] == f;
      assert ShouldDefer(t, f) && !ShouldDefer(t, e);
    }
    NoneOf(t.deferred[..i], k);
  }

  lemma DrainTurn(t: Translator, i: nat, d: seq<Upstream>, rest: seq<Upstream>, still: seq<Upstream>)
    requires i == FirstReady(t, t.deferred) < |t.deferred| && HoldsItems(t) && t.deferred[i].k.Some?
    requires d == t.deferred[..i] + t.deferred[i + 1..] && forall k :: InTurn([], d, rest, still, k)
    ensures forall k :: InTurn([], t.deferred, [t.deferred[i]] + rest, still, k)
  {
    hide FirstReady, ShouldDefer;
    var e := t.deferred[i];
    forall k ensures InTurn([], t.deferred, [e] + rest, still, k) {
      TakeReady(t, i, k);
      OfAppend([e], rest, k);
      assert InTurn([], d, rest, still, k);
      assert Of([e], k) + (Of(rest, k) + Of(still, k)) == Of([e] + rest, k) + Of(still, k);
    }
  }

  lemma NothingReady(cfg: Config, t: Translator)
    requires HoldsItems(t) && FirstReady(t, t.deferred) >= |t.deferred|
    ensures Drained(t) && LogOf(cfg, t, [], Step(t, [])) && forall k :: InTurn([], t.deferred, [], t.deferred, k)
  {
  }

  lemma {:induction false} DrainLog(cfg: Config, t: Translator) returns (log: seq<Upstream>)
    requires HoldsItems(t) && Usual(t.deferred)
    ensures LogOf(cfg, t, log, Drain(cfg, t, false))
    ensures Drained(Drain(cfg, t, false).t) && Usual(Drain(cfg, t, false).t.deferred)
    ensures forall k :: InTurn([], t.deferred, log, Drain(cfg, t, false).t.deferred, k)
    decreases |t.deferred|
  {
    hide HandleItem, FirstReady, ShouldDefer, LogOf, InTurn, Drained, Of, Named;
    var i := FirstReady(t, t.deferred);
    if i >= |t.deferred| {
      log := [];
      NothingReady(cfg, t);
    } else {
      var e, d := t.deferred[i], t.deferred[..i] + t.deferred[i + 1..];
      var a := HandleHeld(cfg, t, i);
      HeldAside(cfg, t, d, e.k, e.body);
      var rest := DrainLog(cfg, a.t);
      log := [e] + rest;
      assert e in t.deferred && e.k.Some? by { UsualHas(t.deferred, e); }
      LogCons(cfg, t, e, a, rest, Drain(cfg, a.t, false));
      DrainTurn(t, i, d, rest, Drain(cfg, a.t, false).t.deferred);
    }
  }

  lemma UsualHas(es: seq<Upstream>, e: Upstream)
    requires Usual(es) && e in es && e.OfItem?
    ensures e.k.Some?
  {
  }

  lemma StartKeepsHeld(cfg: Config, t: Translator, r: Response)
    ensures var a := EnsureStart(cfg, t, r);
      && a.t.slots == t.slots && a.t.open == t.open
      && EnsureStart(cfg, Bare(t), r) == Step(Bare(a.t), a.out)
  {
  }

  lemma HandledAside(cfg: Config, t: Translator, e: Upstream)
    requires Plain(e) && HoldsItems(t)
    ensures Handle(cfg, t, e) == HandleOne(cfg, t, e)
    ensures HandleOne(cfg, Bare(t), e) == Step(Bare(Handle(cfg, t, e).t), Handle(cfg, t, e).out)
    ensures Handle(cfg, t, e).t.deferred == t.deferred
  {
    hide HandleItem, EnsureStart;
    match e
    case Begun(r) => StartKeepsHeld(cfg, t, r);
    case OfItem(k, body) => HeldAside(cfg, t, t.deferred, k, body);
    case Ignored =>
  }

  /** An event that is handled at once does not overtake held events of its own item. */
  lemma NotOvertaken(t: Translator, e: Upstream, k: int)
    requires Drained(t) && !ShouldDefer(t, e)
    ensures e.OfItem? && e.k == Some(k) ==> Of(t.deferred, k) == []
  {
    if e.OfItem? && e.k == Some(k) {
      NoneOf(t.deferred, k);
    }
  }

  lemma OfOne(e: Upstream, k: int)
    ensures Of([e], k) == if e.OfItem? && e.k == Some(k) then [e.body] else []
  {
    assert [e][1..] == [];
  }

  lemma PushTurn(t: Translator, e: Upstream, rest: seq<Upstream>, still: seq<Upstream>)
    requires Drained(t) && !ShouldDefer(t, e) && forall k :: InTurn([], t.deferred, rest, still, k)
    ensures forall k :: InTurn(t.deferred, [e], [e] + rest, still, k)
  {
    hide ShouldDefer, Drained;
    forall k ensures InTurn(t.deferred, [e], [e] + rest, still, k) {
      NotOvertaken(t, e, k);
      OfAppend([e], rest, k);
      OfOne(e, k);
      assert InTurn([], t.deferred, rest, still, k);
      assert Of([e], k) + (Of(rest, k) + Of(still, k)) == Of([e] + rest, k) + Of(still, k);
    }
  }

  lemma HeldTurn(held: seq<Upstream>, e: Upstream)
    ensures forall k :: InTurn(held, [e], [], held + [e], k)
  {
    forall k ensures InTurn(held, [e], [], held + [e], k) { OfAppend(held, [e], k); }
  }

  lemma PushLog(cfg: Config, t: Translator, e: Upstream) returns (log: seq<Upstream>)
    requires HoldsItems(t) && Drained(t) && Usual(t.deferred) && Plain(e) && Named(e)
    ensures LogOf(cfg, t, log, Push(cfg, t, e))
    ensures Drained(Push(cfg, t, e).t) && Usual(Push(cfg, t, e).t.deferred)
    ensures forall k :: InTurn(t.deferred, [e], log, Push(cfg, t, e).t.deferred, k)
  {
    if ShouldDefer(t, e) {
      log := [];
      HeldTurn(t.deferred, e);
    } else {
      hide Handle, HandleOne, Drained, LogOf, InTurn, Of, Drain;
      var a := Handle(cfg, t, e);
      HandledAside(cfg, t, e);
      var rest := DrainLog(cfg, a.t);
      log := [e] + rest;
      LogCons(cfg, t, e, a, rest, Drain(cfg, a.t, false));
      PushTurn(t, e, rest, Drain(cfg, a.t, false).t.deferred);
    }
  }

  lemma {:induction false} SerialAppend(cfg: Config, t: Translator, a: seq<Upstream>, b: seq<Upstream>)
    requires (forall e <- a :: Plain(e)) && (forall e <- b :: Plain(e)) && forall e <- a + b :: Plain(e)
    ensures var x := Serial(cfg, t, a);
      var y := Serial(cfg, x.t, b);
      && Serial(cfg, t, a + b) == Step(y.t, x.out + y.out)
      && (Calm(cfg, t, a) && Calm(cfg, x.t, b) ==> Calm(cfg, t, a + b))
    decreases |a|
  {
    hide HandleOne, ShouldDefer;
    if a == [] {
      assert a + b == b;
    } else {
      assert (a + b)[0] == a[0] && (a + b)[1..] == a[1..] + b;
      var h := HandleOne(cfg, t, a[0]);
      SerialAppend(cfg, h.t, a[1..], b);
      var x := Serial(cfg, h.t, a[1..]);
      var y := Serial(cfg, x.t, b);
      assert h.out + (x.out + y.out) == (h.out + x.out) + y.out;
    }
  }

  lemma LogAppend(cfg: Config, t: Translator, a: seq<Upstream>, x: Step, b: seq<Upstream>, y: Step)
    requires LogOf(cfg, t, a, x) && LogOf(cfg, x.t, b, y)
    ensures LogOf(cfg, t, a + b, Step(y.t, x.out + y.out))
  {
    hide Serial, Calm;
    SerialAppend(cfg, Bare(t), a, b);
  }

  lemma Rejoin(h: seq<Body>, a: seq<Body>, x: seq<Body>, m: seq<Body>, b: seq<Body>, y: seq<Body>, s: seq<Body>)
    requires x + m == h + a && y + s == m + b
    ensures (x + y) + s == h + (a + b)
  {
    assert (x + y) + s == x + (y + s);
    assert x + (m + b) == (x + m) + b;
    assert (h + a) + b == h + (a + b);
  }

  lemma TurnAppend(held: seq<Upstream>, a: seq<Upstream>, x: seq<Upstream>, mid: seq<Upstream>,
                   b: seq<Upstream>, y: seq<Upstream>, still: seq<Upstream>)
    requires (forall k :: InTurn(held, a, x, mid, k)) && (forall k :: InTurn(mid, b, y, still, k))
    ensures forall k :: InTurn(held, a + b, x + y, still, k)
  {
    hide Of;
    forall k ensures InTurn(held, a + b, x + y, still, k) {
      OfAppend(a, b, k);
      OfAppend(x, y, k);
      assert InTurn(held, a, x, mid, k) && InTurn(mid, b, y, still, k);
      Rejoin(Of(held, k), Of(a, k), Of(x, k), Of(mid, k), Of(b, k), Of(y, k), Of(still, k));
    }
  }

  /** The translator is a plain one-by-one handler run on a reordering of its input that keeps each
      item's own order and never interrupts a tool call or a thinking block. */
  lemma {:induction false} PushAllLog(cfg: Config, t: Translator, es: seq<Upstream>) returns (log: seq<Upstream>)
    requires HoldsItems(t) && Drained(t) && Usual(t.deferred) && Usual(es)
    ensures LogOf(cfg, t, log, PushAll(cfg, t, es))
    ensures Drained(PushAll(cfg, t, es).t)
    ensures forall k :: InTurn(t.deferred, es, log, PushAll(cfg, t, es).t.deferred, k)
    decreases |es|
  {
    hide Push, LogOf, InTurn, Drained;
    if es == [] {
      log := [];
      NothingPushed(cfg, t);
    } else {
      var a := Push(cfg, t, es[0]);
      var x := PushLog(cfg, t, es[0]);
      var y := PushAllLog(cfg, a.t, es[1..]);
      log := x + y;
      var b := PushAll(cfg, a.t, es[1..]);
      LogAppend(cfg, t, x, a, y, b);
      TurnAppend(t.deferred, [es[0]], x, a.t.deferred, es[1..], y, b.t.deferred);
      assert [es[0]] + es[1..] == es;
    }
  }

  lemma NothingPushed(cfg: Config, t: Translator)
    ensures LogOf(cfg, t, [], Step(t, [])) && forall k :: InTurn(t.deferred, [], [], t.deferred, k)
  {
  }

  // ---- One item alone ----

  /** What a block says, without its number. */
  datatype Mark = Opens(start: Start) | Says(piece: Piece) | Closes

  function MarkOf(e: Emission, k: int): seq<Mark> {
    if e.owner != Some(k) then []
    else match e.event
      case BlockStart(_, start) => [Opens(start)]
      case BlockDelta(_, piece) => [Says(piece)]
      case BlockStop(_) => [Closes]
      case _ => []
  }

  /** What is said of item `k`. */
  function Marks(out: seq<Emission>, k: int): seq<Mark> {
    if out == [] then [] else MarkOf(out[0], k) + Marks(out[1..], k)
  }

  /** How far an item has come: a reasoning item or a call, on its own. */
  datatype Alone = Unknown | Mind(live: bool, pending: Text) | Calling(live: bool, sent: nat)

  function MindOn(cfg: Config, a: Alone, body: Body): (Alone, seq<Mark>)
    requires a.Mind?
  {
    match body
    case SummaryDelta(delta) =>
      if a.live then (a, if delta == [] then [] else [Says(Thought(delta))])
      else if cfg.blank(a.pending + delta) then (Mind(false, a.pending + delta), [])
      else (Mind(true, []), [Opens(ThinkingBlock), Says(Thought(a.pending + delta))])
    case Done(item) =>
      var blob := Blob(cfg, Thinking, item);
      (Mind(false, []),
       if a.live then (if blob == [] then [] else [Says(Signature(blob))]) + [Closes]
       else if blob == [] then [] else [Opens(RedactedBlock(blob)), Closes])
    case _ => (a, [])
  }

  function CallOn(a: Alone, body: Body): (Alone, seq<Mark>)
    requires a.Calling?
  {
    match body
    case ArgsDelta(delta) =>
      if !a.live || delta == [] then (a, []) else (Calling(true, a.sent + |delta|), [Says(Json(delta))])
    case Done(item) =>
      if !a.live then (a, [])
      else
        var tail := if |item.arguments| > a.sent then item.arguments[a.sent..] else [];
        (Calling(false, a.sent + |tail|), (if tail == [] then [] else [Says(Json(tail))]) + [Closes])
    case _ => (a, [])
  }

  /** One event of an item that is alone in the stream. */
  function AloneOn(cfg: Config, a: Alone, body: Body): (Alone, seq<Mark>) {
    match a
    case Mind(_, _) => MindOn(cfg, a, body)
    case Calling(_, _) => CallOn(a, body)
    case Unknown =>
      if body.Added? && body.item.kind.ReasoningItem? then (Mind(false, []), [])
      else if body.Added? && body.item.kind.CallItem? then
        (Calling(true, 0), [Opens(ToolUseBlock(ToolId(body.item, 0), body.item.name))])
      else (Unknown, [])
  }

  function Solo(cfg: Config, a: Alone, bodies: seq<Body>): seq<Mark>
    decreases |bodies|
  {
    if bodies == [] then [] else AloneOn(cfg, a, bodies[0]).1 + Solo(cfg, AloneOn(cfg, a, bodies[0]).0, bodies[1..])
  }

  function AloneOf(t: Translator, k: int): Alone {
    if k !in t.slots || t.slots[k].kind.Message? then Unknown
    else if t.slots[k].kind.Thinking? then Mind(t.slots[k].live, t.slots[k].pending)
    else Calling(t.slots[k].live, t.slots[k].argsSent)
  }

  /** `k` is no message, and this event does not make it one. */
  predicate NoMessage(t: Translator, e: Upstream, k: int) {
    && (k in t.slots ==> !t.slots[k].kind.Message?)
    && (e.OfItem? && e.k == Some(k) && e.body.Added? ==> !e.body.item.kind.MessageItem?)
  }

  lemma {:induction false} MarksAppend(a: seq<Emission>, b: seq<Emission>, k: int)
    ensures Marks(a + b, k) == Marks(a, k) + Marks(b, k)
  {
    hide MarkOf;
    if a == [] {
      assert a + b == b;
    } else {
      assert (a + b)[0] == a[0] && (a + b)[1..] == a[1..] + b;
      MarksAppend(a[1..], b, k);
      assert MarkOf(a[0], k) + (Marks(a[1..], k) + Marks(b, k)) == (MarkOf(a[0], k) + Marks(a[1..], k)) + Marks(b, k);
    }
  }

  lemma MarksOne(e: Emission, k: int)
    ensures Marks([e], k) == MarkOf(e, k)
  {
    hide MarkOf;
    assert [e][1..] == [];
  }

  lemma MarksTwo(e: Emission, f: Emission, k: int)
    ensures Marks([e, f], k) == MarkOf(e, k) + MarkOf(f, k)
  {
    hide MarkOf;
    assert [e, f] == [e] + [f];
    MarksAppend([e], [f], k);
    MarksOne(e, k);
    MarksOne(f, k);
  }

  lemma {:induction false} MarksNone(out: seq<Emission>, k: int)
    requires forall i :: 0 <= i < |out| ==> out[i].owner != Some(k)
    ensures Marks(out, k) == []
  {
    if out != [] {
      MarksNone(out[1..], k);
    }
  }

  /** This step is none of item `k`'s business. */
  predicate Untouched(t: Translator, r: Step, k: int) {
    && (k in r.t.slots <==> k in t.slots) && (k in t.slots ==> r.t.slots[k] == t.slots[k])
    && (forall i :: 0 <= i < |r.out| ==> r.out[i].owner != Some(k))
  }

  /** Closing the open block of another item touches only the item that is open. */
  lemma CloseOtherAway(t: Translator, j: int, k: int)
    requires t.open != Some(k) || j == k
    ensures Untouched(t, CloseOther(t, j), k)
  {
  }

  lemma OpenWithAway(t: Translator, j: int, start: Start, piece: Piece, k: int)
    requires j in t.slots && j != k && t.open != Some(k)
    ensures Untouched(t, OpenWith(t, j, start, piece), k)
  {
    CloseOtherAway(t, j, k);
    hide CloseOther;
  }

  /** An event of another item, while `k` is not open, leaves `k` alone. */
  lemma OtherAway(cfg: Config, t: Translator, j: int, body: Body, k: int)
    requires j != k && t.open != Some(k)
    ensures Untouched(t, HandleItem(cfg, t, Some(j), body), k)
  {
    hide OpenWith, Blob, CloseOther, OnDone, OnAdded;
    CloseOtherAway(t, j, k);
    match body
    case Added(item, r) => AddedAway(cfg, t, j, item, r, k);
    case TextDelta(delta) =>
      if j in t.slots {
        OpenWithAway(t, j, TextBlock, Words(t.slots[j].pending + delta), k);
      }
    case SummaryDelta(delta) =>
      if j in t.slots {
        OpenWithAway(t, j, ThinkingBlock, Thought(t.slots[j].pending + delta), k);
      }
    case ArgsDelta(_) =>
    case Done(item) => DoneAloof(cfg, t, j, item, k);
  }

  lemma AddedAway(cfg: Config, t: Translator, j: int, item: Item, r: Response, k: int)
    requires j != k && t.open != Some(k)
    ensures Untouched(t, OnAdded(cfg, t, Some(j), item, r), k)
  {
    hide EnsureStart, CloseOther, ToolId;
    StartKeepsHeld(cfg, t, r);
    StartAway(cfg, t, r, k);
    CloseOtherAway(EnsureStart(cfg, t, r).t, j, k);
  }

  lemma StartAway(cfg: Config, t: Translator, r: Response, k: int)
    ensures Untouched(t, EnsureStart(cfg, t, r), k)
  {
  }

  // ---- The item's own events ----

  lemma CloseOtherMarks(t: Translator, k: int)
    requires k in t.slots ==> t.open == Some(k) || !t.slots[k].live
    ensures var a := CloseOther(t, k);
      && Marks(a.out, k) == [] && (a.t.open == None || a.t.open == t.open == Some(k))
      && (k in t.slots <==> k in a.t.slots) && (k in t.slots ==> a.t.slots[k] == t.slots[k])
      && (k !in t.slots ==> k !in a.t.slots)
  {
    CloseOtherAway(t, k, k);
    MarksNone(CloseOther(t, k).out, k);
  }

  lemma OpenWithMarks(t: Translator, k: int, start: Start, piece: Piece)
    requires k in t.slots && !t.slots[k].live
    ensures var r := OpenWith(t, k, start, piece);
      && Marks(r.out, k) == [Opens(start), Says(piece)]
      && k in r.t.slots && r.t.slots[k] == t.slots[k].(index := r.t.slots[k].index, live := true, pending := [])
  {
    hide CloseOther;
    CloseOtherMarks(t, k);
    var a := CloseOther(t, k);
    var e, f := Emission(Some(k), BlockStart(a.t.next, start)), Emission(Some(k), BlockDelta(a.t.next, piece));
    MarksAppend(a.out, [e, f], k);
    MarksTwo(e, f, k);
  }

  lemma SummaryAlone(cfg: Config, t: Translator, k: int, delta: Text)
    requires Has(t, k, Thinking)
    ensures var r := OnSummary(cfg, t, k, delta);
      (AloneOf(r.t, k), Marks(r.out, k)) == MindOn(cfg, AloneOf(t, k), SummaryDelta(delta)) && !AloneOf(r.t, k).Unknown?
  {
    hide OpenWith, CloseOther, Marks;
    var slot := t.slots[k];
    NoMarks(k);
    if slot.live {
      MarksOne(Emission(Some(k), BlockDelta(slot.index, Thought(delta))), k);
    } else if cfg.blank(slot.pending + delta) {
      CloseOtherMarks(t, k);
    } else {
      OpenWithMarks(t, k, ThinkingBlock, Thought(slot.pending + delta));
    }
  }

  lemma NoMarks(k: int)
    ensures Marks([], k) == []
  {
  }

  lemma ArgsAlone(t: Translator, k: int, delta: Text)
    requires Has(t, k, Tool)
    ensures var r := OnArgs(t, k, delta);
      (AloneOf(r.t, k), Marks(r.out, k)) == CallOn(AloneOf(t, k), ArgsDelta(delta)) && !AloneOf(r.t, k).Unknown?
  {
    MarksOne(Emission(Some(k), BlockDelta(t.slots[k].index, Json(delta))), k);
  }

  lemma ThinkingDoneAlone(cfg: Config, t: Translator, k: int, item: Item)
    requires Has(t, k, Thinking)
    ensures var r := OnDone(cfg, t, k, item);
      (AloneOf(r.t, k), Marks(r.out, k)) == MindOn(cfg, AloneOf(t, k), Done(item)) && !AloneOf(r.t, k).Unknown?
  {
    hide CloseOther, Blob, Marks;
    var slot, blob := t.slots[k], Blob(cfg, Thinking, item);
    NoMarks(k);
    var stop := Emission(Some(k), BlockStop(slot.index));
    if slot.live {
      MarksOne(stop, k);
      var sign := Emission(Some(k), BlockDelta(slot.index, Signature(blob)));
      MarksOne(sign, k);
      MarksAppend(if blob == [] then [] else [sign], [stop], k);
    } else if blob != [] {
      CloseOtherMarks(t, k);
      var a := CloseOther(t, k);
      var e, f := Emission(Some(k), BlockStart(a.t.next, RedactedBlock(blob))), Emission(Some(k), BlockStop(a.t.next));
      MarksAppend(a.out, [e, f], k);
      MarksTwo(e, f, k);
      assert OnDone(cfg, t, k, item).out == a.out + [e, f];
      assert [] + (MarkOf(e, k) + MarkOf(f, k)) == [Opens(RedactedBlock(blob)), Closes];
    }
  }

  lemma CallDoneAlone(cfg: Config, t: Translator, k: int, item: Item)
    requires Has(t, k, Tool)
    ensures var r := OnDone(cfg, t, k, item);
      (AloneOf(r.t, k), Marks(r.out, k)) == CallOn(AloneOf(t, k), Done(item)) && !AloneOf(r.t, k).Unknown?
  {
    hide Marks;
    var slot := t.slots[k];
    NoMarks(k);
    if slot.live {
      var tail := Tail(slot, item);
      var last, stop := Emission(Some(k), BlockDelta(slot.index, Json(tail))), Emission(Some(k), BlockStop(slot.index));
      MarksOne(last, k);
      MarksOne(stop, k);
      MarksAppend(if tail == [] then [] else [last], [stop], k);
    }
  }

  lemma AddedAlone(cfg: Config, t: Translator, k: int, item: Item, r: Response)
    requires k !in t.slots && !item.kind.MessageItem?
    requires item.kind.CallItem? ==> item.callId.Some? || item.id.Some?
    ensures var s := OnAdded(cfg, t, Some(k), item, r);
      (AloneOf(s.t, k), Marks(s.out, k)) == AloneOn(cfg, Unknown, Added(item, r))
  {
    hide EnsureStart, CloseOther, Marks;
    StartKeepsHeld(cfg, t, r);
    StartAway(cfg, t, r, k);
    var a := EnsureStart(cfg, t, r);
    MarksNone(a.out, k);
    if item.kind.CallItem? {
      CloseOtherMarks(a.t, k);
      var b := CloseOther(a.t, k);
      var e := Emission(Some(k), BlockStart(b.t.next, ToolUseBlock(ToolId(item, b.t.next), item.name)));
      MarksOne(e, k);
      MarksAppend(a.out + b.out, [e], k);
      MarksAppend(a.out, b.out, k);
      assert [] + [] + MarkOf(e, k) == [Opens(ToolUseBlock(ToolId(item, 0), item.name))];
      assert OnAdded(cfg, t, Some(k), item, r).out == a.out + b.out + [e];
    }
  }

  lemma AddedAgain(cfg: Config, t: Translator, k: int, item: Item, r: Response)
    requires k in t.slots
    ensures var s := OnAdded(cfg, t, Some(k), item, r);
      AloneOf(s.t, k) == AloneOf(t, k) && Marks(s.out, k) == []
  {
    hide EnsureStart;
    StartKeepsHeld(cfg, t, r);
    StartAway(cfg, t, r, k);
    MarksNone(EnsureStart(cfg, t, r).out, k);
  }

  /** One of item `k`'s own events does to it what it would do to it alone. */
  lemma OwnAlone(cfg: Config, t: Translator, k: int, body: Body)
    requires OneOpen(t) && (k in t.slots ==> !t.slots[k].kind.Message?)
    requires body.Added? ==> !body.item.kind.MessageItem?
    requires body.Added? && body.item.kind.CallItem? ==> body.item.callId.Some? || body.item.id.Some?
    ensures var r := HandleItem(cfg, t, Some(k), body);
      (AloneOf(r.t, k), Marks(r.out, k)) == AloneOn(cfg, AloneOf(t, k), body)
  {
    hide OnAdded, OnText, OnSummary, OnArgs, OnDone, Blob, Marks;
    NoMarks(k);
    match body
    case Added(item, r) =>
      if k in t.slots {
        AddedAgain(cfg, t, k, item, r);
      } else {
        AddedAlone(cfg, t, k, item, r);
      }
    case TextDelta(delta) => TextElsewhere(cfg, t, k, delta);
    case SummaryDelta(delta) =>
      if Has(t, k, Thinking) {
        SummaryAlone(cfg, t, k, delta);
      } else {
        SummaryElsewhere(cfg, t, k, delta);
      }
    case ArgsDelta(delta) =>
      if Has(t, k, Tool) {
        ArgsAlone(t, k, delta);
      } else {
        ArgsElsewhere(t, k, delta);
      }
    case Done(item) =>
      if Has(t, k, Thinking) {
        ThinkingDoneAlone(cfg, t, k, item);
      } else if Has(t, k, Tool) {
        CallDoneAlone(cfg, t, k, item);
      } else {
        DoneElsewhere(cfg, t, k, item);
      }
  }

  lemma TextElsewhere(cfg: Config, t: Translator, k: int, delta: Text)
    requires !Has(t, k, Message)
    ensures OnText(cfg, t, k, delta) == Step(t, [])
  {
  }

  lemma SummaryElsewhere(cfg: Config, t: Translator, k: int, delta: Text)
    requires !Has(t, k, Thinking)
    ensures OnSummary(cfg, t, k, delta) == Step(t, [])
  {
  }

  lemma ArgsElsewhere(t: Translator, k: int, delta: Text)
    requires !Has(t, k, Tool)
    ensures OnArgs(t, k, delta) == Step(t, [])
  {
  }

  lemma DoneElsewhere(cfg: Config, t: Translator, k: int, item: Item)
    requires k !in t.slots
    ensures OnDone(cfg, t, k, item) == Step(t, [])
  {
  }

  // ---- Whole runs ----

  lemma ItemKeepsOpen(cfg: Config, t: Translator, key: Option<int>, body: Body)
    requires OneOpen(t)
    ensures OneOpen(HandleItem(cfg, t, key, body).t)
  {
    hide HandleItem, Reading;
    var live := LiveSlot(t);
    var s := Shape(t.started, if live.Some? then Some((live.value.index, StartFor(live.value.kind))) else None, t.next,
                   t.finished);
    ItemLegal(cfg, t, s, key, body);
  }

  lemma OneKeepsOpen(cfg: Config, t: Translator, e: Upstream)
    requires OneOpen(t) && Plain(e)
    ensures OneOpen(HandleOne(cfg, t, e).t)
  {
    hide HandleItem;
    match e
    case Begun(r) =>
    case OfItem(k, body) => ItemKeepsOpen(cfg, t, k, body);
    case Ignored =>
  }

  /** One event of a calm run, seen from item `k`: its own event does what it would do alone, and
      any other event does nothing. */
  lemma StepAlone(cfg: Config, t: Translator, e: Upstream, k: int)
    requires OneOpen(t) && Plain(e) && Named(e) && !ShouldDefer(t, e) && NoMessage(t, e, k)
    ensures var r := HandleOne(cfg, t, e);
      (AloneOf(r.t, k), Marks(r.out, k))
        == if e.OfItem? && e.k == Some(k) then AloneOn(cfg, AloneOf(t, k), e.body) else (AloneOf(t, k), [])
    ensures k in HandleOne(cfg, t, e).t.slots ==> !HandleOne(cfg, t, e).t.slots[k].kind.Message?
  {
    hide HandleItem, EnsureStart, AloneOn;
    match e
    case Begun(r) =>
      StartKeepsHeld(cfg, t, r);
      StartAway(cfg, t, r, k);
      MarksNone(EnsureStart(cfg, t, r).out, k);
    case OfItem(j, body) =>
      if j == Some(k) {
        OwnAlone(cfg, t, k, body);
        OwnKind(cfg, t, k, body);
      } else {
        OtherAway(cfg, t, j.value, body, k);
        MarksNone(HandleItem(cfg, t, j, body).out, k);
      }
    case Ignored =>
  }

  /** An item's kind is fixed when it is added. */
  lemma OwnKind(cfg: Config, t: Translator, k: int, body: Body)
    requires k in t.slots ==> !t.slots[k].kind.Message?
    requires body.Added? ==> !body.item.kind.MessageItem?
    ensures var u := HandleItem(cfg, t, Some(k), body).t; k in u.slots ==> !u.slots[k].kind.Message?
  {
    hide Blob, ToolId, Tail;
  }

  /** No event makes `k` a message. */
  predicate NeverMessage(es: seq<Upstream>, k: int) {
    forall e <- es :: e.OfItem? && e.k == Some(k) && e.body.Added? ==> !e.body.item.kind.MessageItem?
  }

  lemma {:induction false} SerialAlone(cfg: Config, t: Translator, log: seq<Upstream>, k: int)
    requires OneOpen(t) && Usual(log) && Calm(cfg, t, log) && NeverMessage(log, k)
    requires k in t.slots ==> !t.slots[k].kind.Message?
    ensures Marks(Serial(cfg, t, log).out, k) == Solo(cfg, AloneOf(t, k), Of(log, k))
    decreases |log|
  {
    hide HandleOne, AloneOn, AloneOf, OneOpen, ShouldDefer, Named;
    if log == [] {
      NoMarks(k);
    } else {
      var e := log[0];
      var a := HandleOne(cfg, t, e);
      StepAlone(cfg, t, e, k);
      OneKeepsOpen(cfg, t, e);
      SerialAlone(cfg, a.t, log[1..], k);
      MarksAppend(a.out, Serial(cfg, a.t, log[1..]).out, k);
      if e.OfItem? && e.k == Some(k) {
        assert Of(log, k) == [e.body] + Of(log[1..], k);
        assert Of(log, k)[1..] == Of(log[1..], k);
      } else {
        assert Of(log, k) == [] + Of(log[1..], k) == Of(log[1..], k);
        assert [] + Marks(Serial(cfg, a.t, log[1..]).out, k) == Marks(Serial(cfg, a.t, log[1..]).out, k);
      }
    }
  }

  lemma {:induction false} NeverInLog(log: seq<Upstream>, es: seq<Upstream>, still: seq<Upstream>, k: int)
    requires NeverMessage(es, k) && Of(log, k) + Of(still, k) == Of(es, k)
    ensures NeverMessage(log, k)
  {
    forall e <- log ensures e.OfItem? && e.k == Some(k) && e.body.Added? ==> !e.body.item.kind.MessageItem? {
      if e.OfItem? && e.k == Some(k) {
        OfHas(log, e, k);
        assert e.body in Of(log, k) + Of(still, k);
        OfFrom(es, e.body, k);
      }
    }
  }

  lemma {:induction false} OfHas(es: seq<Upstream>, e: Upstream, k: int)
    requires e in es && e.OfItem? && e.k == Some(k)
    ensures e.body in Of(es, k)
  {
    if es[0] != e {
      OfHas(es[1..], e, k);
    }
  }

  lemma {:induction false} OfFrom(es: seq<Upstream>, body: Body, k: int)
    requires body in Of(es, k)
    ensures OfItem(Some(k), body) in es
  {
    if !(es[0].OfItem? && es[0].k == Some(k) && es[0].body == body) {
      OfFrom(es[1..], body, k);
    }
  }

  /** For every interleaving: what the stream says of a reasoning item or a call is what it would
      say if that item's events, as far as they could be handled yet, were the whole stream. */
  lemma ItemsSpeakForThemselves(cfg: Config, model: Text, es: seq<Upstream>, k: int) returns (handled: seq<Body>)
    requires Usual(es) && NeverMessage(es, k)
    ensures var r := PushAll(cfg, Fresh(model), es);
      && handled + Of(r.t.deferred, k) == Of(es, k)
      && Marks(r.out, k) == Solo(cfg, Unknown, handled)
  {
    hide PushAll, Serial, Calm, OneOpen;
    var t := Fresh(model);
    var log := PushAllLog(cfg, t, es);
    var r := PushAll(cfg, t, es);
    handled := Of(log, k);
    assert InTurn([], es, log, r.t.deferred, k);
    assert Of([], k) + Of(es, k) == Of(es, k);
    NeverInLog(log, es, r.t.deferred, k);
    FreshOpen(model);
    SerialAlone(cfg, t, log, k);
  }

  // ---- Nothing stays behind ----

  /** Every item that began has been declared done. */
  predicate AllDone(es: seq<Upstream>, k: int) {
    var bodies := Of(es, k);
    bodies == [] || bodies[|bodies| - 1].Done?
  }

  lemma DoneReleases(cfg: Config, t: Translator, k: int, item: Item)
    requires OneOpen(t)
    ensures HandleItem(cfg, t, Some(k), Done(item)).t.open != Some(k)
  {
    hide Blob, Tail;
    if k in t.slots {
      assert SlotOk(t, k);
    }
  }

  /** Others can at most close the item's block, and never put it in the open place. */
  predicate Aloof(t: Translator, r: Step, k: int) {
    && (k in r.t.slots <==> k in t.slots)
    && (k in t.slots ==> r.t.slots[k] == t.slots[k] || r.t.slots[k] == t.slots[k].(live := false))
    && (r.t.open == Some(k) ==> t.open == Some(k))
    && forall i :: 0 <= i < |r.out| ==> r.out[i].owner == Some(k) ==> r.out[i].event.BlockStop?
  }

  lemma CloseOtherAloof(t: Translator, j: int, k: int)
    requires j != k
    ensures Aloof(t, CloseOther(t, j), k)
  {
  }

  lemma OpenWithAloof(t: Translator, j: int, start: Start, piece: Piece, k: int)
    requires j in t.slots && j != k
    ensures Aloof(t, OpenWith(t, j, start, piece), k)
  {
    hide CloseOther;
    CloseOtherAloof(t, j, k);
  }

  lemma AddedAloof(cfg: Config, t: Translator, j: int, item: Item, r: Response, k: int)
    requires j != k
    ensures Aloof(t, OnAdded(cfg, t, Some(j), item, r), k)
  {
    hide EnsureStart, CloseOther, ToolId;
    StartKeepsHeld(cfg, t, r);
    StartAway(cfg, t, r, k);
    CloseOtherAloof(EnsureStart(cfg, t, r).t, j, k);
  }

  lemma DoneAloof(cfg: Config, t: Translator, j: int, item: Item, k: int)
    requires j != k
    ensures Aloof(t, OnDone(cfg, t, j, item), k)
    ensures t.open != Some(k) ==> Untouched(t, OnDone(cfg, t, j, item), k)
  {
    hide OnThinkingDone, Tail;
    if j in t.slots {
      ThinkingDoneAloof(cfg, t, j, item, k);
    }
  }

  lemma ThinkingDoneAloof(cfg: Config, t: Translator, j: int, item: Item, k: int)
    requires j != k && j in t.slots
    ensures Aloof(t, OnThinkingDone(cfg, t, j, item), k)
    ensures t.open != Some(k) ==> Untouched(t, OnThinkingDone(cfg, t, j, item), k)
  {
    hide Blob, CloseOther;
    CloseOtherAloof(t, j, k);
    if t.open != Some(k) {
      CloseOtherAway(t, j, k);
    }
  }

  lemma OtherAloof(cfg: Config, t: Translator, j: int, body: Body, k: int)
    requires j != k
    ensures Aloof(t, HandleItem(cfg, t, Some(j), body), k)
  {
    hide OpenWith, Blob, CloseOther, OnAdded, OnDone;
    CloseOtherAloof(t, j, k);
    match body
    case Added(item, r) => AddedAloof(cfg, t, j, item, r, k);
    case TextDelta(delta) =>
      if j in t.slots {
        OpenWithAloof(t, j, TextBlock, Words(t.slots[j].pending + delta), k);
      }
    case SummaryDelta(delta) =>
      if j in t.slots {
        OpenWithAloof(t, j, ThinkingBlock, Thought(t.slots[j].pending + delta), k);
      }
    case ArgsDelta(_) =>
    case Done(item) => DoneAloof(cfg, t, j, item, k);
  }

  lemma OthersAloof(cfg: Config, t: Translator, e: Upstream, k: int)
    requires Plain(e) && Named(e) && !(e.OfItem? && e.k == Some(k))
    ensures Aloof(t, HandleOne(cfg, t, e), k)
  {
    hide HandleItem, EnsureStart;
    match e
    case Begun(r) =>
      StartKeepsHeld(cfg, t, r);
      StartAway(cfg, t, r, k);
    case OfItem(j, body) => OtherAloof(cfg, t, j.value, body, k);
    case Ignored =>
  }

  lemma {:induction false} SerialReleases(cfg: Config, t: Translator, log: seq<Upstream>, k: int)
    requires OneOpen(t) && Usual(log)
    ensures Of(log, k) == [] ==> (Serial(cfg, t, log).t.open == Some(k) ==> t.open == Some(k))
    ensures Of(log, k) != [] && Of(log, k)[|Of(log, k)| - 1].Done? ==> Serial(cfg, t, log).t.open != Some(k)
    decreases |log|
  {
    hide HandleOne, OneOpen, Named;
    if log != [] {
      var e := log[0];
      var a := HandleOne(cfg, t, e);
      OneKeepsOpen(cfg, t, e);
      SerialReleases(cfg, a.t, log[1..], k);
      if e.OfItem? && e.k == Some(k) {
        assert Of(log, k) == [e.body] + Of(log[1..], k);
        if Of(log[1..], k) == [] && e.body.Done? {
          OneReleases(cfg, t, e, k);
        }
      } else {
        assert Of(log, k) == [] + Of(log[1..], k) == Of(log[1..], k);
        OthersAloof(cfg, t, e, k);
      }
    }
  }

  lemma OneReleases(cfg: Config, t: Translator, e: Upstream, k: int)
    requires OneOpen(t) && e.OfItem? && e.k == Some(k) && e.body.Done?
    ensures HandleOne(cfg, t, e).t.open != Some(k)
  {
    hide HandleItem, OneOpen;
    DoneReleases(cfg, t, k, e.body.item);
  }

  lemma {:induction false} SerialKeepsOpen(cfg: Config, t: Translator, log: seq<Upstream>)
    requires OneOpen(t) && Usual(log)
    ensures OneOpen(Serial(cfg, t, log).t)
    decreases |log|
  {
    hide HandleOne, OneOpen, Named;
    if log != [] {
      OneKeepsOpen(cfg, t, log[0]);
      SerialKeepsOpen(cfg, HandleOne(cfg, t, log[0]).t, log[1..]);
    }
  }

  /** Once every item that began is done, nothing is held back any more. */
  lemma NothingHeldAtTheEnd(cfg: Config, model: Text, es: seq<Upstream>)
    requires Usual(es) && forall k :: AllDone(es, k)
    ensures PushAll(cfg, Fresh(model), es).t.deferred == []
  {
    hide PushAll, Serial, Calm, OneOpen, Of;
    var t := Fresh(model);
    var log := PushAllLog(cfg, t, es);
    var r := PushAll(cfg, t, es);
    FreshOpen(model);
    if r.t.deferred != [] {
      var e := r.t.deferred[0];
      assert e in r.t.deferred && ShouldDefer(r.t, e);
      var k := r.t.open.value;
      assert InTurn([], es, log, r.t.deferred, k) && AllDone(es, k);
      NoneOf(r.t.deferred, k);
      OfNothing(k);
      assert Of(log, k) + [] == Of(log, k) && [] + Of(es, k) == Of(es, k);
      SerialReleases(cfg, t, log, k);
    }
  }

  lemma OfNothing(k: int)
    ensures Of([], k) == []
  {
  }

  // ---- Messages ----

  function WordsIn(m: Mark): Text {
    if m.Says? && m.piece.Words? then m.piece.words else []
  }

  function Spoken(ms: seq<Mark>): Text {
    if ms == [] then [] else WordsIn(ms[0]) + Spoken(ms[1..])
  }

  function Received(bodies: seq<Body>): Text {
    if bodies == [] then [] else (if bodies[0].TextDelta? then bodies[0].delta else []) + Received(bodies[1..])
  }

  lemma {:induction false} SpokenAppend(a: seq<Mark>, b: seq<Mark>)
    ensures Spoken(a + b) == Spoken(a) + Spoken(b)
  {
    if a == [] {
      assert a + b == b;
    } else {
      assert (a + b)[0] == a[0] && (a + b)[1..] == a[1..] + b;
      SpokenAppend(a[1..], b);
      hide WordsIn;
      assert WordsIn(a[0]) + (Spoken(a[1..]) + Spoken(b)) == (WordsIn(a[0]) + Spoken(a[1..])) + Spoken(b);
    }
  }

  lemma {:induction false} ReceivedAppend(a: seq<Body>, b: seq<Body>)
    ensures Received(a + b) == Received(a) + Received(b)
  {
    if a == [] {
      assert a + b == b;
    } else {
      assert (a + b)[0] == a[0] && (a + b)[1..] == a[1..] + b;
      ReceivedAppend(a[1..], b);
      var head := if a[0].TextDelta? then a[0].delta else [];
      assert head + (Received(a[1..]) + Received(b)) == (head + Received(a[1..])) + Received(b);
    }
  }

  /** A message with an open block has nothing pending. */
  predicate MessageSlot(t: Translator, k: int) {
    Has(t, k, Message) && (t.slots[k].live ==> t.slots[k].pending == [])
  }

  lemma {:induction false} OnlyCloses(out: seq<Emission>, k: int)
    requires forall i :: 0 <= i < |out| ==> out[i].owner == Some(k) ==> out[i].event.BlockStop?
    ensures Spoken(Marks(out, k)) == []
  {
    if out != [] {
      OnlyCloses(out[1..], k);
      SpokenAppend(MarkOf(out[0], k), Marks(out[1..], k));
    }
  }

  lemma OwnWords(cfg: Config, t: Translator, k: int, body: Body)
    requires MessageSlot(t, k)
    ensures var r := HandleItem(cfg, t, Some(k), body);
      && MessageSlot(r.t, k)
      && Spoken(Marks(r.out, k)) + r.t.slots[k].pending
           == t.slots[k].pending + (if body.TextDelta? then body.delta else [])
  {
    hide OnAdded, OnText, OnSummary, OnArgs, OnDone, Marks;
    NoMarks(k);
    match body
    case Added(item, r) => AddedWords(cfg, t, k, item, r);
    case TextDelta(delta) => TextWords(cfg, t, k, delta);
    case SummaryDelta(delta) => SummaryElsewhere(cfg, t, k, delta);
    case ArgsDelta(delta) => ArgsElsewhere(t, k, delta);
    case Done(item) => DoneWords(cfg, t, k, item);
  }

  lemma AddedWords(cfg: Config, t: Translator, k: int, item: Item, r: Response)
    requires k in t.slots
    ensures var s := OnAdded(cfg, t, Some(k), item, r); s.t.slots == t.slots && Marks(s.out, k) == []
  {
    hide EnsureStart;
    StartKeepsHeld(cfg, t, r);
    StartAway(cfg, t, r, k);
    MarksNone(EnsureStart(cfg, t, r).out, k);
  }

  lemma TextWords(cfg: Config, t: Translator, k: int, delta: Text)
    requires MessageSlot(t, k)
    ensures var r := OnText(cfg, t, k, delta);
      && MessageSlot(r.t, k) && Spoken(Marks(r.out, k)) + r.t.slots[k].pending == t.slots[k].pending + delta
  {
    hide OpenWith, Marks;
    NoMarks(k);
    var slot := t.slots[k];
    if delta == [] {
    } else if slot.live {
      MarksOne(Emission(Some(k), BlockDelta(slot.index, Words(delta))), k);
      assert Spoken([Says(Words(delta))]) == delta by { assert [Says(Words(delta))][1..] == []; }
    } else if !cfg.blank(slot.pending + delta) {
      OpenWithMarks(t, k, TextBlock, Words(slot.pending + delta));
      TwoWords(slot.pending + delta);
    }
  }

  lemma TwoWords(text: Text)
    ensures Spoken([Opens(TextBlock), Says(Words(text))]) == text
  {
    var two, one: seq<Mark> := [Opens(TextBlock), Says(Words(text))], [Says(Words(text))];
    assert two[1..] == one && one[1..] == [];
    assert Spoken(one) == text + [] == text;
    assert Spoken(two) == [] + Spoken(one);
  }

  lemma DoneWords(cfg: Config, t: Translator, k: int, item: Item)
    requires MessageSlot(t, k)
    ensures var r := OnDone(cfg, t, k, item);
      MessageSlot(r.t, k) && Spoken(Marks(r.out, k)) == [] && r.t.slots[k].pending == t.slots[k].pending
  {
    hide Marks, Spoken;
    OnlyCloses(OnDone(cfg, t, k, item).out, k);
  }

  lemma {:induction false} SerialWords(cfg: Config, t: Translator, log: seq<Upstream>, k: int)
    requires Usual(log) && MessageSlot(t, k)
    ensures var r := Serial(cfg, t, log);
      && MessageSlot(r.t, k)
      && Spoken(Marks(r.out, k)) + r.t.slots[k].pending == t.slots[k].pending + Received(Of(log, k))
    decreases |log|
  {
    hide HandleOne, Named, Marks, Spoken;
    if log == [] {
      NothingSpoken(k);
    } else {
      var e := log[0];
      var a := HandleOne(cfg, t, e);
      WordsStep(cfg, t, e, k);
      SerialWords(cfg, a.t, log[1..], k);
      var b := Serial(cfg, a.t, log[1..]);
      MarksAppend(a.out, b.out, k);
      SpokenAppend(Marks(a.out, k), Marks(b.out, k));
      OfStep(log, k);
      ReceivedAppend(if e.OfItem? && e.k == Some(k) then [e.body] else [], Of(log[1..], k));
      Regroup(Spoken(Marks(a.out, k)), Spoken(Marks(b.out, k)), b.t.slots[k].pending, a.t.slots[k].pending,
              Received(Of(log[1..], k)), t.slots[k].pending, WordsOf(e, k));
    }
  }

  function WordsOf(e: Upstream, k: int): Text {
    if e.OfItem? && e.k == Some(k) && e.body.TextDelta? then e.body.delta else []
  }

  lemma Regroup(a: Text, b: Text, p2: Text, p1: Text, later: Text, p0: Text, d: Text)
    requires b + p2 == p1 + later && a + p1 == p0 + d
    ensures (a + b) + p2 == p0 + (d + later)
  {
    assert (a + b) + p2 == a + (b + p2);
    assert a + (p1 + later) == (a + p1) + later;
  }

  lemma OfStep(log: seq<Upstream>, k: int)
    requires log != []
    ensures Of(log, k) == (if log[0].OfItem? && log[0].k == Some(k) then [log[0].body] else []) + Of(log[1..], k)
    ensures Received(if log[0].OfItem? && log[0].k == Some(k) then [log[0].body] else []) == WordsOf(log[0], k)
  {
    if log[0].OfItem? {
      assert [log[0].body][1..] == [];
    }
  }

  lemma NothingSpoken(k: int)
    ensures Spoken(Marks([], k)) == []
  {
  }

  lemma WordsStep(cfg: Config, t: Translator, e: Upstream, k: int)
    requires Plain(e) && Named(e) && MessageSlot(t, k)
    ensures var a := HandleOne(cfg, t, e);
      && MessageSlot(a.t, k)
      && Spoken(Marks(a.out, k)) + a.t.slots[k].pending == t.slots[k].pending + WordsOf(e, k)
  {
    hide HandleItem, Marks, Spoken;
    if e.OfItem? && e.k == Some(k) {
      OwnWords(cfg, t, k, e.body);
    } else {
      OthersAloof(cfg, t, e, k);
      OnlyCloses(HandleOne(cfg, t, e).out, k);
      hide HandleOne;
      assert [] + HandleOne(cfg, t, e).t.slots[k].pending == t.slots[k].pending + [];
    }
  }
}
