/** A call held at the end of a stream, and what of its arguments is told. */
module HeldCalls {
  import opened Text
  import opened Translate
  import opened TranslateShape
  import opened TranslateItems
  import opened TranslateMeaning
  import opened BlockOwners
  import opened ForcedEnd
  import opened StreamTail

  /** What a call of whose arguments `sent` characters were told has still to tell. */
  function Unsaid(sent: nat, bodies: seq<Body>): Text
    decreases |bodies|
  {
    if bodies == [] then []
    else match bodies[0]
      case ArgsDelta(delta) => delta + Unsaid(sent + |delta|, bodies[1..])
      case Done(item) => if |item.arguments| > sent then item.arguments[sent..] else []
      case _ => Unsaid(sent, bodies[1..])
  }

  /** Handling this event takes the open place: a new call, the first words or the first summary of an item
      with no open block, or the encrypted content of one. */
  predicate Interrupts(cfg: Config, t: Translator, e: Upstream) {
    && e.OfItem? && e.k.Some?
    && var j := e.k.value;
       match e.body
       case Added(item, _) => item.kind.CallItem? && j !in t.slots
       case TextDelta(delta) =>
         delta != [] && Has(t, j, Message) && !t.slots[j].live && !cfg.blank(t.slots[j].pending + delta)
       case SummaryDelta(_) => Has(t, j, Thinking) && !t.slots[j].live
       case ArgsDelta(_) => false
       case Done(item) => Has(t, j, Thinking) && !t.slots[j].live && item.encrypted != []
  }

  /** In the course of the log another item takes the open place from call `k`, which has more to tell. */
  predicate CutShort(cfg: Config, t: Translator, log: seq<Upstream>, k: int)
    requires forall e <- log :: Plain(e)
    decreases |log|
  {
    && log != []
    && var e := log[0];
       if Has(t, k, Tool) && t.slots[k].live && e.OfItem? && e.k != Some(k) && Interrupts(cfg, t, e) then
         Unsaid(t.slots[k].argsSent, Of(log[1..], k)) != []
       else CutShort(cfg, HandleOne(cfg, t, e).t, log[1..], k)
  }

  lemma OwnDead(cfg: Config, t: Translator, e: Upstream, k: int)
    requires e.OfItem? && e.k == Some(k) && Has(t, k, Tool) && !t.slots[k].live
    ensures var a := HandleOne(cfg, t, e);
      Has(a.t, k, Tool) && !a.t.slots[k].live && JsonIn(Marks(a.out, k)) == []
  {
    hide OnAdded, OnText, OnSummary, Marks;
    NoMarks(k);
    match e.body
    case Added(item, r) => AddedWords(cfg, t, k, item, r);
    case TextDelta(delta) => TextElsewhere(cfg, t, k, delta);
    case SummaryDelta(delta) => SummaryElsewhere(cfg, t, k, delta);
    case ArgsDelta(delta) =>
    case Done(item) =>
  }

  lemma OtherDead(cfg: Config, t: Translator, e: Upstream, k: int)
    requires Plain(e) && Named(e) && !(e.OfItem? && e.k == Some(k)) && Has(t, k, Tool)
    ensures var a := HandleOne(cfg, t, e);
      Has(a.t, k, Tool) && (!t.slots[k].live ==> !a.t.slots[k].live) && JsonIn(Marks(a.out, k)) == []
  {
    hide HandleOne, Marks;
    OthersAloof(cfg, t, e, k);
    OnlyClosesMind(HandleOne(cfg, t, e).out, k);
  }

  lemma JsonApart(cfg: Config, t: Translator, log: seq<Upstream>, k: int)
    requires log != [] && forall e <- log :: Plain(e)
    ensures var a := HandleOne(cfg, t, log[0]);
      JsonIn(Marks(Serial(cfg, t, log).out, k))
      == JsonIn(Marks(a.out, k)) + JsonIn(Marks(Serial(cfg, a.t, log[1..]).out, k))
  {
    hide HandleOne, Marks, JsonIn;
    var a := HandleOne(cfg, t, log[0]);
    var b := Serial(cfg, a.t, log[1..]);
    MarksAppend(a.out, b.out, k);
    JsonAppend(Marks(a.out, k), Marks(b.out, k));
  }

  /** A call whose block is closed tells nothing more. */
  lemma {:induction false} CallDead(cfg: Config, t: Translator, log: seq<Upstream>, k: int)
    requires Usual(log) && Has(t, k, Tool) && !t.slots[k].live
    ensures JsonIn(Marks(Serial(cfg, t, log).out, k)) == [] && !CutShort(cfg, t, log, k)
    decreases |log|
  {
    hide HandleOne, Named, Marks, JsonIn, Of, Unsaid, Interrupts;
    if log == [] {
      assert JsonIn(Marks([], k)) == [] by { NoJson(k); }
    } else {
      var e := log[0];
      JsonApart(cfg, t, log, k);
      if e.OfItem? && e.k == Some(k) {
        OwnDead(cfg, t, e, k);
      } else {
        OtherDead(cfg, t, e, k);
      }
      CallDead(cfg, HandleOne(cfg, t, e).t, log[1..], k);
    }
  }

  lemma NoJson(k: int)
    ensures JsonIn(Marks([], k)) == [] && Of([], k) == []
  {
  }

  /** What an event of the call itself does while its block is open. */
  lemma OwnLive(cfg: Config, t: Translator, e: Upstream, k: int, rest: seq<Body>)
    requires e.OfItem? && e.k == Some(k) && Has(t, k, Tool) && t.slots[k].live
    ensures var a := HandleOne(cfg, t, e);
      && Has(a.t, k, Tool) && a.t.slots[k].live == !e.body.Done?
      && JsonIn(Marks(a.out, k)) + (if e.body.Done? then [] else Unsaid(a.t.slots[k].argsSent, rest))
         == Unsaid(t.slots[k].argsSent, [e.body] + rest)
  {
    hide OnAdded, OnText, OnSummary, Marks, Tail;
    NoMarks(k);
    assert ([e.body] + rest)[1..] == rest;
    match e.body
    case Added(item, r) => AddedWords(cfg, t, k, item, r);
    case TextDelta(delta) => TextElsewhere(cfg, t, k, delta);
    case SummaryDelta(delta) => SummaryElsewhere(cfg, t, k, delta);
    case ArgsDelta(delta) => ArgsTold(t, k, delta);
    case Done(item) => TailTold(cfg, t, k, item);
  }

  lemma ArgsTold(t: Translator, k: int, delta: Text)
    requires Has(t, k, Tool) && t.slots[k].live
    ensures var r := OnArgs(t, k, delta);
      && Has(r.t, k, Tool) && r.t.slots[k].live && r.t.slots[k].argsSent == t.slots[k].argsSent + |delta|
      && JsonIn(Marks(r.out, k)) == delta
  {
    NoMarks(k);
    if delta != [] {
      MarksOne(Emission(Some(k), BlockDelta(t.slots[k].index, Json(delta))), k);
      OneJson(delta);
    }
    hide Marks, JsonIn;
  }

  lemma OneJson(text: Text)
    ensures JsonIn([Says(Json(text))]) == text && JsonIn([Closes]) == []
  {
    var one, end: seq<Mark> := [Says(Json(text))], [Closes];
    assert one[1..] == [] && end[1..] == [];
    assert JsonIn(one) == text + [] == text;
  }

  lemma TailTold(cfg: Config, t: Translator, k: int, item: Item)
    requires Has(t, k, Tool) && t.slots[k].live
    ensures var r := OnDone(cfg, t, k, item);
      && Has(r.t, k, Tool) && !r.t.slots[k].live
      && JsonIn(Marks(r.out, k)) == Unsaid(t.slots[k].argsSent, [Done(item)])
  {
    hide Marks, JsonIn;
    var i, tail := t.slots[k].index, Tail(t.slots[k], item);
    OneJson(tail);
    var close := Emission(Some(k), BlockStop(i));
    if tail == [] {
      assert OnDone(cfg, t, k, item).out == [close];
      MarksOne(close, k);
    } else {
      var delta := Emission(Some(k), BlockDelta(i, Json(tail)));
      assert OnDone(cfg, t, k, item).out == [delta, close];
      MarksTwo(delta, close, k);
      JsonAppend([Says(Json(tail))], [Closes]);
      assert [Says(Json(tail))] + [Closes] == [Says(Json(tail)), Closes];
    }
  }

  lemma CloseOtherStops(t: Translator, j: int, k: int)
    requires j != k && t.open == Some(k) && Has(t, k, Tool)
    ensures var a := CloseOther(t, j);
      Has(a.t, k, Tool) && !a.t.slots[k].live && (j in t.slots ==> j in a.t.slots) && a.t.next == t.next
  {
  }

  lemma OpenStops(t: Translator, j: int, start: Start, piece: Piece, k: int)
    requires j != k && t.open == Some(k) && Has(t, k, Tool) && j in t.slots
    ensures var a := OpenWith(t, j, start, piece); Has(a.t, k, Tool) && !a.t.slots[k].live
  {
    hide CloseOther;
    CloseOtherStops(t, j, k);
  }

  /** An interruption closes the open block; any other event of another item leaves it as it is. */
  lemma InterruptStops(cfg: Config, t: Translator, e: Upstream, k: int)
    requires Plain(e) && Named(e) && e.OfItem? && e.k != Some(k) && t.open == Some(k) && Has(t, k, Tool)
    requires Interrupts(cfg, t, e)
    ensures var u := HandleOne(cfg, t, e).t; Has(u, k, Tool) && !u.slots[k].live
  {
    hide CloseOther, OpenWith, EnsureStart, ToolId;
    var j := e.k.value;
    match e.body
    case Added(item, r) =>
      StartKeepsHeld(cfg, t, r);
      StartAway(cfg, t, r, k);
      StartSlots(cfg, t, r);
      CloseOtherStops(EnsureStart(cfg, t, r).t, j, k);
    case TextDelta(delta) => OpenStops(t, j, TextBlock, Words(t.slots[j].pending + delta), k);
    case SummaryDelta(delta) =>
      CloseOtherStops(t, j, k);
      OpenStops(t, j, ThinkingBlock, Thought(t.slots[j].pending + delta), k);
    case ArgsDelta(_) =>
    case Done(item) =>
      CloseOtherStops(t, j, k);
      BlobGiven(cfg, item);
      hide Blob;
  }

  lemma StartSlots(cfg: Config, t: Translator, r: Response)
    ensures var u := EnsureStart(cfg, t, r).t; u.slots == t.slots && u.open == t.open
  {
  }

  lemma BlobGiven(cfg: Config, item: Item)
    ensures item.encrypted != [] <==> Blob(cfg, Thinking, item) != []
  {
  }

  predicate LeftAlone(t: Translator, u: Translator, k: int) {
    u.open == t.open && k in t.slots && k in u.slots && u.slots[k] == t.slots[k]
  }

  lemma OthersPass(cfg: Config, t: Translator, e: Upstream, k: int)
    requires Plain(e) && Named(e) && !(e.OfItem? && e.k == Some(k)) && t.open == Some(k) && Has(t, k, Tool)
    requires OneOpen(t) && !(e.OfItem? && Interrupts(cfg, t, e))
    ensures LeftAlone(t, HandleOne(cfg, t, e).t, k)
  {
    match e
    case Begun(r) => StartSlots(cfg, t, r);
    case Ignored =>
    case OfItem(key, body) =>
      var j := key.value;
      assert j in t.slots ==> SlotOk(t, j);
      match body {
        case Added(item, r) => StartSlots(cfg, t, r);
        case TextDelta(delta) =>
        case SummaryDelta(delta) =>
        case ArgsDelta(_) =>
        case Done(item) =>
          BlobGiven(cfg, item);
          hide Blob;
      }
  }

  /** From an open call on: it tells all it has to tell, unless it is cut short. */
  lemma {:induction false} CallLive(cfg: Config, t: Translator, log: seq<Upstream>, k: int)
    requires Usual(log) && OneOpen(t) && Has(t, k, Tool) && t.slots[k].live
    ensures var said, all := JsonIn(Marks(Serial(cfg, t, log).out, k)), Unsaid(t.slots[k].argsSent, Of(log, k));
      if CutShort(cfg, t, log, k) then |said| < |all| else said == all
    decreases |log|
  {
    hide HandleOne, Named, Marks, JsonIn, Of, Unsaid, Interrupts;
    if log == [] {
      NoJson(k);
      assert Unsaid(t.slots[k].argsSent, []) == [] by { NothingUnsaid(t.slots[k].argsSent); }
    } else {
      var e, rest := log[0], log[1..];
      var a := HandleOne(cfg, t, e);
      OfStep(log, k);
      JsonApart(cfg, t, log, k);
      OneKeepsOpen(cfg, t, e);
      OpenIsLive(t, k);
      if e.OfItem? && e.k == Some(k) {
        OwnLive(cfg, t, e, k, Of(rest, k));
        if e.body.Done? {
          CallDead(cfg, a.t, rest, k);
        } else {
          CallLive(cfg, a.t, rest, k);
        }
      } else {
        assert [] + Of(rest, k) == Of(rest, k);
        OtherDead(cfg, t, e, k);
        if e.OfItem? && Interrupts(cfg, t, e) {
          InterruptStops(cfg, t, e, k);
          CallDead(cfg, a.t, rest, k);
        } else {
          OthersPass(cfg, t, e, k);
          CallLive(cfg, a.t, rest, k);
        }
      }
    }
  }

  lemma NothingUnsaid(sent: nat)
    ensures Unsaid(sent, []) == []
  {
  }

  lemma OpenIsLive(t: Translator, k: int)
    requires OneOpen(t) && k in t.slots && t.slots[k].live
    ensures t.open == Some(k)
  {
    assert SlotOk(t, k);
  }

  lemma FirstCall(cfg: Config, t: Translator, e: Upstream, k: int)
    requires e.OfItem? && e.k == Some(k) && e.body.Added? && e.body.item.kind.CallItem? && k !in t.slots
    ensures var a := HandleOne(cfg, t, e);
      Has(a.t, k, Tool) && a.t.slots[k].live && a.t.slots[k].argsSent == 0 && JsonIn(Marks(a.out, k)) == []
  {
    hide ToolId, CloseOther, EnsureStart, Marks, JsonIn;
    StartSlots(cfg, t, e.body.response);
    OnlyStart(cfg, t, e.body.response);
    OnlyStops(EnsureStart(cfg, t, e.body.response).t, k);
    NoJsonHere(HandleOne(cfg, t, e).out, k);
  }

  lemma OnlyStart(cfg: Config, t: Translator, r: Response)
    ensures forall e <- EnsureStart(cfg, t, r).out :: e.event.MessageStart?
  {
  }

  lemma {:induction false} NoJsonHere(out: seq<Emission>, k: int)
    requires forall e <- out :: !(e.event.BlockDelta? && e.event.piece.Json?)
    ensures JsonIn(Marks(out, k)) == []
  {
    hide MarkOf, JsonIn;
    if out == [] {
      NoJson(k);
    } else {
      NoJsonHere(out[1..], k);
      NoJsonIn(out[0], k);
      JsonAppend(MarkOf(out[0], k), Marks(out[1..], k));
    }
  }

  lemma NoJsonIn(e: Emission, k: int)
    requires !(e.event.BlockDelta? && e.event.piece.Json?)
    ensures JsonIn(MarkOf(e, k)) == []
  {
  }

  lemma {:induction false} CallFromAbsent(cfg: Config, t: Translator, log: seq<Upstream>, k: int)
    requires Usual(log) && OneOpen(t) && k !in t.slots
    requires Of(log, k) != [] && Of(log, k)[0].Added? && Of(log, k)[0].item.kind.CallItem?
    ensures var said, all := JsonIn(Marks(Serial(cfg, t, log).out, k)), Unsaid(0, Of(log, k)[1..]);
      if CutShort(cfg, t, log, k) then |said| < |all| else said == all
    decreases |log|
  {
    hide HandleOne, Named, Marks, JsonIn, Of, Unsaid, Interrupts;
    NoJson(k);
    var e, rest := log[0], log[1..];
    var a := HandleOne(cfg, t, e);
    OfStep(log, k);
    JsonApart(cfg, t, log, k);
    OneKeepsOpen(cfg, t, e);
    if e.OfItem? && e.k == Some(k) {
      FirstCall(cfg, t, e, k);
      assert ([e.body] + Of(rest, k))[1..] == Of(rest, k);
      CallLive(cfg, a.t, rest, k);
    } else {
      assert [] + Of(rest, k) == Of(rest, k);
      OthersAloof(cfg, t, e, k);
      OnlyClosesMind(a.out, k);
      CallFromAbsent(cfg, a.t, rest, k);
    }
  }

  /** What was handled before the end cuts no call short. */
  lemma {:induction false} CalmCutsNothing(cfg: Config, t: Translator, log: seq<Upstream>, tail: seq<Upstream>, k: int)
    requires OneOpen(t) && Usual(log) && Calm(cfg, t, log) && forall e <- tail :: Plain(e)
    ensures forall e <- log + tail :: Plain(e)
    ensures CutShort(cfg, t, log + tail, k) == CutShort(cfg, Serial(cfg, t, log).t, tail, k)
    decreases |log|
  {
    hide HandleOne, Named, Of, Unsaid, Interrupts;
    if log == [] {
      assert log + tail == tail;
    } else {
      var e := log[0];
      assert (log + tail)[0] == e && (log + tail)[1..] == log[1..] + tail;
      OneKeepsOpen(cfg, t, e);
      CalmCutsNothing(cfg, HandleOne(cfg, t, e).t, log[1..], tail, k);
      if Has(t, k, Tool) && t.slots[k].live {
        OpenIsLive(t, k);
      }
    }
  }

  /** The translator when the end is there, about to handle what it holds. */
  function AtEnd(cfg: Config, t: Translator, e: Upstream): Translator {
    if e.Ended? then EnsureStart(cfg, Bare(t), e.response).t else Bare(t)
  }

  lemma LeadCutsNothing(cfg: Config, t: Translator, e: Upstream, held: seq<Upstream>, k: int)
    requires forall f <- held :: Plain(f)
    ensures forall f <- Lead(e) + held :: Plain(f)
    ensures CutShort(cfg, Bare(t), Lead(e) + held, k) == CutShort(cfg, AtEnd(cfg, t, e), held, k)
  {
    hide EnsureStart, Unsaid, Of, Interrupts;
    var all := Lead(e) + held;
    if e.Ended? {
      assert all[0] == Begun(e.response) && all[1..] == held;
    } else {
      assert all == held;
    }
  }

  /** The reader has also been told all the arguments of a call that began, done or not, if and only if no
      event held at the end takes the open place from it while it has more to tell. */
  lemma EndSaysAllArguments(cfg: Config, model: Text, es: seq<Upstream>, e: Upstream, k: int) returns (n: nat)
    requires Usual(es) && Last(e)
    requires Of(es, k) != [] && Of(es, k)[0].Added? && Of(es, k)[0].item.kind.CallItem?
    ensures var t, out := PushAll(cfg, Fresh(model), es).t, PushAll(cfg, Fresh(model), es + [e]).out;
      && EndsAt(e, out, n)
      && (forall f <- t.deferred :: Plain(f))
      && (JsonIn(MarksBy(Outs(out[..n]), Owners(out), k)) == Unsaid(0, Of(es, k)[1..])
          <==> !CutShort(cfg, AtEnd(cfg, t, e), t.deferred, k))
  {
    hide PushAll, Serial, Of, Marks, JsonIn, Owners, CloseAll, EndsAt, Usual, Calm, CutShort, Unsaid, Lead, AtEnd;
    var log, before, m := UpToTheEnd(cfg, model, es, e);
    n := m;
    UsualPlain(log);
    var t, start := PushAll(cfg, Fresh(model), es).t, Fresh(model);
    var s := Serial(cfg, start, log);
    FreshOpen(model);
    CallFromAbsent(cfg, start, log, k);
    CalmCutsNothing(cfg, start, before, Lead(e) + t.deferred, k);
    LeadCutsNothing(cfg, t, e, t.deferred, k);
    MarksAppend(s.out, CloseAll(s.t).out, k);
    JsonAppend(Marks(s.out, k), Marks(CloseAll(s.t).out, k));
    CloseAllCloses(s.t);
    OnlyClosesMind(CloseAll(s.t).out, k);
    assert EndsAt(e, PushAll(cfg, Fresh(model), es + [e]).out, n);
    EndWithin(e, PushAll(cfg, Fresh(model), es + [e]).out, n);
    UpToOwners(cfg, model, es + [e], n, k);
    assert JsonIn(Marks(s.out, k)) + [] == JsonIn(Marks(s.out, k));
  }

  /** A call none of whose events is held is never cut short. */
  lemma {:induction false} UnheldNotCut(cfg: Config, t: Translator, held: seq<Upstream>, k: int)
    requires Usual(held) && Of(held, k) == []
    ensures !CutShort(cfg, t, held, k)
    decreases |held|
  {
    hide HandleOne, Interrupts, Named;
    if held != [] {
      OfStep(held, k);
      UnheldNotCut(cfg, HandleOne(cfg, t, held[0]).t, held[1..], k);
    }
  }

  lemma UnsaidCons(sent: nat, delta: Text, rest: seq<Body>)
    ensures Unsaid(sent, [ArgsDelta(delta)] + rest) == delta + Unsaid(sent + |delta|, rest)
  {
    assert ([ArgsDelta(delta)] + rest)[1..] == rest;
  }

  lemma UnsaidLast(sent: nat, final: Item)
    ensures Unsaid(sent, [Done(final)]) == if |final.arguments| > sent then final.arguments[sent..] else []
  {
  }

  /** What a call tells in full: the deltas, and once it is done what the final arguments have beyond them. */
  lemma {:induction false} UnsaidIs(sent: nat, deltas: seq<Text>, final: Item)
    ensures Unsaid(sent, Args(deltas)) == Join(deltas)
    ensures Unsaid(sent, Args(deltas) + [Done(final)])
         == Join(deltas)
            + if |final.arguments| > sent + |Join(deltas)| then final.arguments[sent + |Join(deltas)|..] else []
    decreases |deltas|
  {
    hide Join, Unsaid;
    if deltas == [] {
      JoinNone();
      NothingUnsaid(sent);
      UnsaidLast(sent, final);
      assert Args(deltas) + [Done(final)] == [Done(final)];
    } else {
      var d, rest := deltas[0], deltas[1..];
      UnsaidIs(sent + |d|, rest, final);
      JoinCons(deltas);
      UnsaidCons(sent, d, Args(rest));
      UnsaidCons(sent, d, Args(rest) + [Done(final)]);
      assert Args(deltas) + [Done(final)] == [ArgsDelta(d)] + (Args(rest) + [Done(final)]);
      hide Args;
      CutsAgree(d, Join(rest), Join(deltas), sent, final.arguments);
    }
  }

  // ---- A call that is cut short ----

  predicate ACall(item: Item) {
    item.kind.CallItem? && item.callId.Some?
  }

  /** Three calls begin, and the second one's arguments come while the first is open. */
  function ThreeCalls(r: Response, a: Item, b: Item, c: Item, delta: Text): seq<Upstream> {
    [OfItem(Some(0), Added(a, r)), OfItem(Some(1), Added(b, r)), OfItem(Some(2), Added(c, r)),
     OfItem(Some(1), ArgsDelta(delta))]
  }

  lemma OneOpenTwoHeld(cfg: Config, model: Text, r: Response, a: Item, b: Item, c: Item, delta: Text)
    requires ACall(a) && ACall(b) && ACall(c)
    ensures var es, t := ThreeCalls(r, a, b, c, delta), PushAll(cfg, Fresh(model), ThreeCalls(r, a, b, c, delta)).t;
      t.deferred == es[1..] && t.open == Some(0) && t.slots == map[0 := Slot(0, Tool, true, 0, [])] && t.started
  {
    hide ToolId;
    var es := ThreeCalls(r, a, b, c, delta);
    var t1 := Push(cfg, Fresh(model), es[0]).t;
    assert t1.deferred == [] && t1.open == Some(0) && t1.slots == map[0 := Slot(0, Tool, true, 0, [])] && t1.started;
    hide Handle, Drain;
    var t2 := Push(cfg, t1, es[1]).t;
    var t3 := Push(cfg, t2, es[2]).t;
    var t4 := Push(cfg, t3, es[3]).t;
    assert t4 == t1.(deferred := [es[1], es[2], es[3]]);
    assert es[1..] == [es[1], es[2], es[3]];
    hide Push;
    assert es[1..][1..] == es[2..] && es[2..][1..] == es[3..] && es[3..][1..] == [];
    assert PushAll(cfg, t3, es[3..]).t == t4;
    assert PushAll(cfg, t2, es[2..]).t == t4;
    assert PushAll(cfg, t1, es[1..]).t == t4;
  }

  /** So not every call keeps its arguments when the stream ends before the calls are done: here the third
      call, held like the second, takes the open place from it and the delta is dropped. */
  lemma HeldCallIsCut(cfg: Config, model: Text, r: Response, a: Item, b: Item, c: Item, delta: Text) returns (n: nat)
    requires ACall(a) && ACall(b) && ACall(c) && delta != []
    ensures var es := ThreeCalls(r, a, b, c, delta);
      var out := PushAll(cfg, Fresh(model), es + [Ended(r)]).out;
      && EndsAt(Ended(r), out, n) && Of(es, 1) == [Added(b, r), ArgsDelta(delta)]
      && JsonIn(MarksBy(Outs(out[..n]), Owners(out), 1)) != delta
  {
    var es := ThreeCalls(r, a, b, c, delta);
    ThreeCallsAre(r, a, b, c, delta);
    OneOpenTwoHeld(cfg, model, r, a, b, c, delta);
    hide PushAll, Of;
    var t := PushAll(cfg, Fresh(model), es).t;
    SecondIsCut(cfg, AtEnd(cfg, t, Ended(r)), r, b, c, delta);
    hide CutShort, AtEnd;
    n := EndSaysAllArguments(cfg, model, es, Ended(r), 1);
  }

  lemma ThreeCallsAre(r: Response, a: Item, b: Item, c: Item, delta: Text)
    requires ACall(a) && ACall(b) && ACall(c)
    ensures var es := ThreeCalls(r, a, b, c, delta);
      && Usual(es) && Of(es, 1) == [Added(b, r), ArgsDelta(delta)]
      && es[1..] == [es[1], es[2], es[3]] && Unsaid(0, Of(es, 1)[1..]) == delta
  {
    var es := ThreeCalls(r, a, b, c, delta);
    OfStep(es, 1);
    OfStep(es[1..], 1);
    OfStep(es[1..][1..], 1);
    OfStep(es[1..][1..][1..], 1);
    assert es[1..] == [es[1], es[2], es[3]];
    assert es[1..][1..][1..] == [es[3]] && [es[3]][1..] == [];
    assert Of(es, 1)[1..] == [ArgsDelta(delta)];
    assert [ArgsDelta(delta)][1..] == [];
    assert Unsaid(0, [ArgsDelta(delta)]) == delta + [];
  }

  lemma SecondBegins(cfg: Config, t: Translator, r: Response, b: Item)
    requires ACall(b) && t.slots == map[0 := Slot(0, Tool, true, 0, [])] && t.open == Some(0)
    ensures var u := HandleOne(cfg, t, OfItem(Some(1), Added(b, r))).t;
      Has(u, 1, Tool) && u.slots[1].live && u.slots[1].argsSent == 0 && 2 !in u.slots
  {
    hide ToolId;
  }

  lemma ThirdCuts(cfg: Config, u: Translator, r: Response, c: Item, delta: Text)
    requires ACall(c) && delta != []
    requires Has(u, 1, Tool) && u.slots[1].live && u.slots[1].argsSent == 0 && 2 !in u.slots
    ensures CutShort(cfg, u, [OfItem(Some(2), Added(c, r)), OfItem(Some(1), ArgsDelta(delta))], 1)
  {
    hide HandleOne;
    var last := OfItem(Some(1), ArgsDelta(delta));
    var held := [OfItem(Some(2), Added(c, r)), last];
    assert held[1..] == [last] && [last][1..] == [];
    OfStep([last], 1);
    assert Of([last], 1) == [ArgsDelta(delta)] && [ArgsDelta(delta)][1..] == [];
    assert Unsaid(0, [ArgsDelta(delta)]) == delta + [];
  }

  lemma SecondIsCut(cfg: Config, t: Translator, r: Response, b: Item, c: Item, delta: Text)
    requires ACall(b) && ACall(c) && delta != []
    requires t.slots == map[0 := Slot(0, Tool, true, 0, [])] && t.open == Some(0)
    ensures CutShort(cfg, t, [OfItem(Some(1), Added(b, r)), OfItem(Some(2), Added(c, r)),
                              OfItem(Some(1), ArgsDelta(delta))], 1)
  {
    hide HandleOne, Unsaid, Of, Interrupts;
    var held := [OfItem(Some(1), Added(b, r)), OfItem(Some(2), Added(c, r)), OfItem(Some(1), ArgsDelta(delta))];
    assert held[1..] == [OfItem(Some(2), Added(c, r)), OfItem(Some(1), ArgsDelta(delta))];
    SecondBegins(cfg, t, r, b);
    ThirdCuts(cfg, HandleOne(cfg, t, held[0]).t, r, c, delta);
  }
}
