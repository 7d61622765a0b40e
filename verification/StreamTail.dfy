/** What a reader has been told of every item when the stream is over, done or not. */
module StreamTail {
  import opened Text
  import opened Translate
  import opened TranslateItems
  import opened TranslateMeaning
  import opened OwnerSteps
  import opened BlockOwners
  import opened ForcedEnd
  import J = TranslateJson

  // ---- The end itself ----

  predicate BeginsTool(e: Emission) {
    e.event.BlockStart? && e.event.start.ToolUseBlock?
  }

  predicate Tooled(out: seq<Emission>) {
    exists i :: 0 <= i < |out| && BeginsTool(out[i])
  }

  /** The one terminal event, with what the upstream said of the end: its error, or why it stopped and what
      it used. */
  predicate TellsEnd(e: Upstream, body: seq<Emission>, last: seq<Out>) {
    match e
    case Ended(r) =>
      last == [MessageDelta(if r.outOfTokens then MaxTokens else if Tooled(body) then ToolUse else EndTurn, r.usage),
               MessageStop]
    case Broke(message) => last == [Error(message)]
    case _ => false
  }

  /** The first `n` events are before the end; the rest is the end. */
  predicate EndsAt(e: Upstream, out: seq<Emission>, n: nat) {
    n <= |out| && NoEnd(out[..n]) && TellsEnd(e, out[..n], Outs(out[n..]))
  }

  lemma TooledAppend(a: seq<Emission>, b: seq<Emission>)
    ensures Tooled(a + b) <==> Tooled(a) || Tooled(b)
  {
    if Tooled(a) {
      var i :| 0 <= i < |a| && BeginsTool(a[i]);
      assert BeginsTool((a + b)[i]);
    }
    if Tooled(b) {
      var i :| 0 <= i < |b| && BeginsTool(b[i]);
      assert BeginsTool((a + b)[|a| + i]);
    }
  }

  lemma OneTools(cfg: Config, t: Translator, e: Upstream)
    requires Plain(e)
    ensures var a := HandleOne(cfg, t, e); a.t.hasTool <==> t.hasTool || Tooled(a.out)
  {
    hide OnAdded, OnText, OnSummary, OnArgs, OnDone, EnsureStart, Tooled;
    assert !Tooled([]) by { NoTools(); }
    match e
    case Begun(r) => StartTools(cfg, t, r);
    case Ignored =>
    case OfItem(key, body) =>
      var k := if key.Some? then key.value else -1;
      match body {
        case Added(item, r) => AddedTools(cfg, t, key, item, r);
        case TextDelta(delta) => DeltaTools(cfg, t, k, delta);
        case SummaryDelta(delta) => DeltaTools(cfg, t, k, delta);
        case ArgsDelta(delta) => DeltaTools(cfg, t, k, delta);
        case Done(item) => DoneTools(cfg, t, k, item);
      }
  }

  lemma NoTools()
    ensures !Tooled([])
  {
  }

  predicate Toolless(t: Translator, s: Step) {
    s.t.hasTool == t.hasTool && !Tooled(s.out)
  }

  lemma OpenTools(t: Translator, k: int, start: Start, piece: Piece)
    requires k in t.slots && !start.ToolUseBlock?
    ensures Toolless(t, OpenWith(t, k, start, piece))
  {
    hide CloseOther;
    CloseTools(t, k);
  }

  lemma DeltaTools(cfg: Config, t: Translator, k: int, delta: Text)
    ensures Toolless(t, OnText(cfg, t, k, delta)) && Toolless(t, OnSummary(cfg, t, k, delta))
    ensures Toolless(t, OnArgs(t, k, delta))
  {
    hide CloseOther, OpenWith;
    CloseTools(t, k);
    if k in t.slots {
      OpenTools(t, k, TextBlock, Words(t.slots[k].pending + delta));
      OpenTools(t, k, ThinkingBlock, Thought(t.slots[k].pending + delta));
    }
  }

  lemma DoneTools(cfg: Config, t: Translator, k: int, item: Item)
    ensures Toolless(t, OnDone(cfg, t, k, item))
  {
    hide CloseOther, Blob, Tail;
    CloseTools(t, k);
  }

  lemma AddedTools(cfg: Config, t: Translator, key: Option<int>, item: Item, r: Response)
    ensures var s := OnAdded(cfg, t, key, item, r); s.t.hasTool <==> t.hasTool || Tooled(s.out)
  {
    hide ToolId, CloseOther, EnsureStart;
    var a := EnsureStart(cfg, t, r);
    StartTools(cfg, t, r);
    var k := if key.Some? then key.value else |a.t.slots|;
    if k !in a.t.slots && item.kind.CallItem? {
      CloseTools(a.t, k);
      var out := OnAdded(cfg, t, key, item, r).out;
      assert BeginsTool(out[|out| - 1]);
    }
  }

  lemma StartTools(cfg: Config, t: Translator, r: Response)
    ensures EnsureStart(cfg, t, r).t.hasTool == t.hasTool && !Tooled(EnsureStart(cfg, t, r).out)
  {
  }

  lemma CloseTools(t: Translator, k: int)
    ensures CloseOther(t, k).t.hasTool == t.hasTool && !Tooled(CloseOther(t, k).out)
  {
  }

  lemma {:induction false} SerialTools(cfg: Config, t: Translator, log: seq<Upstream>)
    requires forall e <- log :: Plain(e)
    ensures var s := Serial(cfg, t, log); s.t.hasTool <==> t.hasTool || Tooled(s.out)
    decreases |log|
  {
    hide HandleOne, BeginsTool;
    if log != [] {
      var a := HandleOne(cfg, t, log[0]);
      OneTools(cfg, t, log[0]);
      SerialTools(cfg, a.t, log[1..]);
      TooledAppend(a.out, Serial(cfg, a.t, log[1..]).out);
    }
  }

  lemma UpToTheEnd(cfg: Config, model: Text, es: seq<Upstream>, e: Upstream)
      returns (log: seq<Upstream>, before: seq<Upstream>, n: nat)
    requires Usual(es) && Last(e)
    ensures Usual(log) && forall k :: Of(log, k) == Of(es, k)
    ensures var t := PushAll(cfg, Fresh(model), es).t;
      && log == before + (Lead(e) + t.deferred)
      && Usual(before) && Calm(cfg, Fresh(model), before) && Serial(cfg, Fresh(model), before).t == Bare(t)
      && forall f <- t.deferred :: Plain(f) && f.OfItem?
    ensures var r, s := PushAll(cfg, Fresh(model), es + [e]), Serial(cfg, Fresh(model), log);
      && EndsAt(e, r.out, n) && r.out[..n] == s.out + CloseAll(s.t).out
      && r.t == CloseAll(s.t).t.(finished := true) && r.t.deferred == []
  {
    hide PushAll, Serial, Of, Usual, Terminal, BeginsTool, Calm, Lead;
    log, before := WholeLog(cfg, model, es, e);
    UsualPlain(log);
    var r, s := PushAll(cfg, Fresh(model), es + [e]), Serial(cfg, Fresh(model), log);
    var c := CloseAll(s.t);
    SerialTools(cfg, Fresh(model), log);
    NoToolToClose(s.t);
    TooledAppend(s.out, c.out);
    n := |s.out + c.out|;
    assert r.out[..n] == s.out + c.out && r.out[n..] == Ending(e, s.t);
  }

  /** However much was held: the end comes after everything else, it comes once, and nothing is held
      behind it. */
  lemma EndComesLast(cfg: Config, model: Text, es: seq<Upstream>, e: Upstream) returns (n: nat)
    requires Usual(es) && Last(e)
    ensures var r := PushAll(cfg, Fresh(model), es + [e]); EndsAt(e, r.out, n) && r.t.deferred == [] && r.t.finished
  {
    hide PushAll, Serial, Of, Usual, EndsAt;
    var log, _, m := UpToTheEnd(cfg, model, es, e);
    n := m;
  }

  lemma UsualPlain(log: seq<Upstream>)
    requires Usual(log)
    ensures forall f <- log :: Plain(f)
  {
  }

  lemma NoToolToClose(t: Translator)
    ensures !Tooled(CloseAll(t).out)
  {
  }

  /** Of any stream, usual or not: its first end leaves nothing held, and so does the end of the input. */
  lemma NothingHeldAfterEnd(cfg: Config, model: Text, es: seq<Upstream>, e: Upstream)
    requires Last(e) && !PushAll(cfg, Fresh(model), es).t.finished
    ensures PushAll(cfg, Fresh(model), es + [e]).t.deferred == []
    ensures Finish(cfg, PushAll(cfg, Fresh(model), es).t).t.deferred == []
    ensures Finish(cfg, PushAll(cfg, Fresh(model), es).t)
         == Push(cfg, PushAll(cfg, Fresh(model), es).t, Broke(TRUNCATED))
  {
    hide PushAll, Push, Serial, CloseAll, Finish, Ending, Lead;
    var t := PushAll(cfg, Fresh(model), es).t;
    J.PushAllAppend(cfg, Fresh(model), es, [e]);
    J.PushAllOne(cfg, t, e);
    HeldPlain(t);
    EndIs(cfg, t, e);
    EndIs(cfg, t, Broke(TRUNCATED));
    FinishIsBroke(cfg, t);
  }

  // ---- Blanks ----

  /** What is collected but not yet sent is blank. */
  predicate OnlyBlanks(cfg: Config, t: Translator) {
    forall k <- t.slots :: cfg.blank(t.slots[k].pending)
  }

  lemma CloseBlanks(cfg: Config, t: Translator, k: int)
    requires OnlyBlanks(cfg, t)
    ensures OnlyBlanks(cfg, CloseOther(t, k).t)
    ensures k in t.slots ==> k in CloseOther(t, k).t.slots && CloseOther(t, k).t.slots[k] == t.slots[k]
  {
  }

  lemma OpenBlanks(cfg: Config, t: Translator, k: int, start: Start, piece: Piece)
    requires OnlyBlanks(cfg, t) && cfg.blank([]) && k in t.slots
    ensures OnlyBlanks(cfg, OpenWith(t, k, start, piece).t)
  {
    hide CloseOther;
    CloseBlanks(cfg, t, k);
  }

  lemma DeltaBlanks(cfg: Config, t: Translator, k: int, delta: Text)
    requires OnlyBlanks(cfg, t) && cfg.blank([])
    ensures OnlyBlanks(cfg, OnText(cfg, t, k, delta).t) && OnlyBlanks(cfg, OnSummary(cfg, t, k, delta).t)
    ensures OnlyBlanks(cfg, OnArgs(t, k, delta).t)
  {
    hide CloseOther, OpenWith;
    CloseBlanks(cfg, t, k);
    if k in t.slots {
      OpenBlanks(cfg, t, k, TextBlock, Words(t.slots[k].pending + delta));
      OpenBlanks(cfg, t, k, ThinkingBlock, Thought(t.slots[k].pending + delta));
    }
  }

  lemma DoneBlanks(cfg: Config, t: Translator, k: int, item: Item)
    requires OnlyBlanks(cfg, t) && cfg.blank([])
    ensures OnlyBlanks(cfg, OnDone(cfg, t, k, item).t)
  {
    hide CloseOther, Blob, Tail;
    CloseBlanks(cfg, t, k);
  }

  lemma AddedBlanks(cfg: Config, t: Translator, key: Option<int>, item: Item, r: Response)
    requires OnlyBlanks(cfg, t) && cfg.blank([])
    ensures OnlyBlanks(cfg, OnAdded(cfg, t, key, item, r).t)
  {
    hide CloseOther, ToolId;
    var a := EnsureStart(cfg, t, r);
    CloseBlanks(cfg, a.t, if key.Some? then key.value else |a.t.slots|);
  }

  lemma OneBlanks(cfg: Config, t: Translator, e: Upstream)
    requires Plain(e) && OnlyBlanks(cfg, t) && cfg.blank([])
    ensures OnlyBlanks(cfg, HandleOne(cfg, t, e).t)
  {
    hide OnAdded, OnText, OnSummary, OnArgs, OnDone;
    match e
    case Begun(r) =>
    case Ignored =>
    case OfItem(key, body) =>
      var k := if key.Some? then key.value else -1;
      match body {
        case Added(item, r) => AddedBlanks(cfg, t, key, item, r);
        case TextDelta(delta) => DeltaBlanks(cfg, t, k, delta);
        case SummaryDelta(delta) => DeltaBlanks(cfg, t, k, delta);
        case ArgsDelta(delta) => DeltaBlanks(cfg, t, k, delta);
        case Done(item) => DoneBlanks(cfg, t, k, item);
      }
  }

  lemma {:induction false} SerialBlanks(cfg: Config, t: Translator, log: seq<Upstream>)
    requires (forall e <- log :: Plain(e)) && OnlyBlanks(cfg, t) && cfg.blank([])
    ensures OnlyBlanks(cfg, Serial(cfg, t, log).t)
    decreases |log|
  {
    hide HandleOne, OnlyBlanks;
    if log != [] {
      OneBlanks(cfg, t, log[0]);
      SerialBlanks(cfg, HandleOne(cfg, t, log[0]).t, log[1..]);
    }
  }

  // ---- Messages ----

  lemma UpToOwners(cfg: Config, model: Text, es: seq<Upstream>, n: nat, k: int)
    requires n <= |PushAll(cfg, Fresh(model), es).out|
    ensures var out := PushAll(cfg, Fresh(model), es).out;
      MarksBy(Outs(out[..n]), Owners(out), k) == Marks(out[..n], k)
  {
    hide PushAll, AllFit, OwnersAfter, Rightly, Marks, MarksBy;
    var out := PushAll(cfg, Fresh(model), es).out;
    OneOwnerPerBlock(cfg, model, es);
    assert forall e <- out[..n] :: e in out;
    ByOwner(out[..n], Owners(out), k);
  }

  lemma ClosingMarks(t: Translator, k: int)
    ensures Spoken(Marks(CloseAll(t).out, k)) == []
  {
    OnlyCloses(CloseAll(t).out, k);
  }

  /** When the stream is over the reader has been told, before its end, all the text of every message that
      began, in order and in blocks of its own, but for blanks at the very end that no block was opened for. */
  lemma EndSaysAllText(cfg: Config, model: Text, es: seq<Upstream>, e: Upstream, k: int)
      returns (n: nat, blanks: Text)
    requires Usual(es) && Last(e) && cfg.blank([])
    requires Of(es, k) != [] && Of(es, k)[0].Added? && Of(es, k)[0].item.kind.MessageItem?
    ensures var out := PushAll(cfg, Fresh(model), es + [e]).out;
      && EndsAt(e, out, n)
      && Spoken(MarksBy(Outs(out[..n]), Owners(out), k)) + blanks == Received(Of(es, k)) && cfg.blank(blanks)
  {
    hide PushAll, Serial, Of, Marks, Spoken, Received, OwnersAfter, CloseAll, EndsAt, Usual;
    var log, _, m := UpToTheEnd(cfg, model, es, e);
    n := m;
    UsualPlain(log);
    var s := Serial(cfg, Fresh(model), log);
    SerialFromAbsent(cfg, Fresh(model), log, k);
    SerialBlanks(cfg, Fresh(model), log);
    MarksAppend(s.out, CloseAll(s.t).out, k);
    SpokenAppend(Marks(s.out, k), Marks(CloseAll(s.t).out, k));
    ClosingMarks(s.t, k);
    blanks := s.t.slots[k].pending;
    assert EndsAt(e, PushAll(cfg, Fresh(model), es + [e]).out, n);
    EndWithin(e, PushAll(cfg, Fresh(model), es + [e]).out, n);
    UpToOwners(cfg, model, es + [e], n, k);
    assert Spoken(Marks(s.out, k)) + [] == Spoken(Marks(s.out, k));
  }

  lemma EndWithin(e: Upstream, out: seq<Emission>, n: nat)
    requires EndsAt(e, out, n)
    ensures n <= |out|
  {
  }

  // ---- Reasoning ----

  function Summed(bodies: seq<Body>): Text {
    if bodies == [] then [] else (if bodies[0].SummaryDelta? then bodies[0].delta else []) + Summed(bodies[1..])
  }

  /** An item is declared done at most once, after all else. */
  predicate DoneLast(bodies: seq<Body>) {
    forall i :: 0 <= i < |bodies| - 1 ==> !bodies[i].Done?
  }

  predicate MindSlot(t: Translator, k: int) {
    Has(t, k, Thinking) && (t.slots[k].live ==> t.slots[k].pending == [])
  }

  lemma SummedCons(body: Body, bodies: seq<Body>)
    ensures Summed([body] + bodies) == (if body.SummaryDelta? then body.delta else []) + Summed(bodies)
  {
    assert ([body] + bodies)[1..] == bodies;
  }

  /** Of any item, closing a block tells nothing. */
  lemma {:induction false} OnlyClosesMind(out: seq<Emission>, k: int)
    requires forall i :: 0 <= i < |out| ==> out[i].owner == Some(k) ==> out[i].event.BlockStop?
    ensures ThoughtIn(Marks(out, k)) == [] && JsonIn(Marks(out, k)) == []
  {
    if out != [] {
      OnlyClosesMind(out[1..], k);
      ThoughtAppend(MarkOf(out[0], k), Marks(out[1..], k));
      JsonAppend(MarkOf(out[0], k), Marks(out[1..], k));
    }
  }

  lemma SummaryThoughts(cfg: Config, t: Translator, k: int, delta: Text)
    requires MindSlot(t, k)
    ensures var r := OnSummary(cfg, t, k, delta);
      MindSlot(r.t, k) && ThoughtIn(Marks(r.out, k)) + r.t.slots[k].pending == t.slots[k].pending + delta
  {
    hide OpenWith, CloseOther, Marks;
    NoMarks(k);
    var slot := t.slots[k];
    if slot.live {
      MarksOne(Emission(Some(k), BlockDelta(slot.index, Thought(delta))), k);
      assert ThoughtIn([Says(Thought(delta))]) == delta by { assert [Says(Thought(delta))][1..] == []; }
    } else if cfg.blank(slot.pending + delta) {
      CloseOtherMarks(t, k);
    } else {
      OpenWithMarks(t, k, ThinkingBlock, Thought(slot.pending + delta));
      TwoThoughts(slot.pending + delta);
    }
  }

  lemma OnlyStops(t: Translator, k: int)
    ensures forall e <- CloseOther(t, k).out :: e.event.BlockStop?
  {
  }

  lemma DoneThoughts(cfg: Config, t: Translator, k: int, item: Item)
    requires MindSlot(t, k)
    ensures var r := OnDone(cfg, t, k, item);
      MindSlot(r.t, k) && ThoughtIn(Marks(r.out, k)) == [] && r.t.slots[k].pending == []
  {
    hide CloseOther, Marks, ThoughtIn, Blob;
    CloseOtherMind(t, k);
    OnlyStops(t, k);
    NoThoughts(OnDone(cfg, t, k, item).out, k);
  }

  lemma CloseOtherMind(t: Translator, k: int)
    requires k in t.slots
    ensures k in CloseOther(t, k).t.slots && CloseOther(t, k).t.slots[k] == t.slots[k]
  {
  }

  lemma {:induction false} NoThoughts(out: seq<Emission>, k: int)
    requires forall e <- out :: !(e.event.BlockDelta? && e.event.piece.Thought?)
    ensures ThoughtIn(Marks(out, k)) == []
  {
    if out != [] {
      NoThoughts(out[1..], k);
      ThoughtAppend(MarkOf(out[0], k), Marks(out[1..], k));
    }
  }

  lemma OwnThoughts(cfg: Config, t: Translator, e: Upstream, k: int)
    requires e.OfItem? && e.k == Some(k) && MindSlot(t, k)
    ensures var r := HandleOne(cfg, t, e);
      && MindSlot(r.t, k)
      && (if e.body.Done? then ThoughtIn(Marks(r.out, k)) == [] && r.t.slots[k].pending == []
          else ThoughtIn(Marks(r.out, k)) + r.t.slots[k].pending
               == t.slots[k].pending + if e.body.SummaryDelta? then e.body.delta else [])
  {
    hide OnAdded, OnText, OnSummary, OnArgs, OnDone, Marks;
    NoMarks(k);
    match e.body
    case Added(item, r) => AddedWords(cfg, t, k, item, r);
    case TextDelta(delta) => TextElsewhere(cfg, t, k, delta);
    case SummaryDelta(delta) => SummaryThoughts(cfg, t, k, delta);
    case ArgsDelta(delta) => ArgsElsewhere(t, k, delta);
    case Done(item) => DoneThoughts(cfg, t, k, item);
  }

  lemma OthersThoughts(cfg: Config, t: Translator, e: Upstream, k: int)
    requires Plain(e) && Named(e) && MindSlot(t, k) && !(e.OfItem? && e.k == Some(k))
    ensures var a := HandleOne(cfg, t, e);
      MindSlot(a.t, k) && ThoughtIn(Marks(a.out, k)) == [] && a.t.slots[k].pending == t.slots[k].pending
  {
    hide HandleOne, Marks;
    OthersAloof(cfg, t, e, k);
    OnlyClosesMind(HandleOne(cfg, t, e).out, k);
  }

  /** From a reasoning item on: its summary is told but for blanks left over. */
  lemma {:induction false} SerialThoughts(cfg: Config, t: Translator, log: seq<Upstream>, k: int) returns (blanks: Text)
    requires Usual(log) && MindSlot(t, k) && OnlyBlanks(cfg, t) && cfg.blank([]) && DoneLast(Of(log, k))
    ensures ThoughtIn(Marks(Serial(cfg, t, log).out, k)) + blanks == t.slots[k].pending + Summed(Of(log, k))
    ensures cfg.blank(blanks)
    decreases |log|
  {
    hide HandleOne, Named, Marks, ThoughtIn, OnlyBlanks, Of, Summed, DoneLast;
    if log == [] {
      blanks := t.slots[k].pending;
      NothingThought(cfg, t, k);
    } else {
      var e, rest := log[0], log[1..];
      var a := HandleOne(cfg, t, e);
      OfStep(log, k);
      OneBlanks(cfg, t, e);
      ThoughtsApart(cfg, t, log, k);
      if e.OfItem? && e.k == Some(k) {
        OwnThoughts(cfg, t, e, k);
        DoneLastRest(e.body, Of(rest, k));
        hide MindSlot;
        var later := SerialThoughts(cfg, a.t, rest, k);
        blanks := if e.body.Done? then t.slots[k].pending else later;
        BlankPending(cfg, t, k);
        OwnTold(e.body, Of(rest, k), ThoughtIn(Marks(a.out, k)), ThoughtIn(Marks(Serial(cfg, a.t, rest).out, k)), later,
                a.t.slots[k].pending, t.slots[k].pending);
      } else {
        OthersThoughts(cfg, t, e, k);
        hide MindSlot;
        assert [] + Of(rest, k) == Of(rest, k);
        blanks := SerialThoughts(cfg, a.t, rest, k);
        assert [] + ThoughtIn(Marks(Serial(cfg, a.t, rest).out, k)) == ThoughtIn(Marks(Serial(cfg, a.t, rest).out, k));
      }
    }
  }

  lemma ThoughtsApart(cfg: Config, t: Translator, log: seq<Upstream>, k: int)
    requires log != [] && forall e <- log :: Plain(e)
    ensures var a := HandleOne(cfg, t, log[0]);
      ThoughtIn(Marks(Serial(cfg, t, log).out, k))
      == ThoughtIn(Marks(a.out, k)) + ThoughtIn(Marks(Serial(cfg, a.t, log[1..]).out, k))
  {
    hide HandleOne, Marks, ThoughtIn;
    var a := HandleOne(cfg, t, log[0]);
    var b := Serial(cfg, a.t, log[1..]);
    MarksAppend(a.out, b.out, k);
    ThoughtAppend(Marks(a.out, k), Marks(b.out, k));
  }

  /** What one event of the item tells, what the rest tells, and what is left over. */
  lemma OwnTold(body: Body, bodies: seq<Body>, now: Text, rest: Text, later: Text, mid: Text, before: Text)
    requires rest + later == mid + Summed(bodies) && (body.Done? ==> bodies == [])
    requires if body.Done? then now == [] && mid == []
             else now + mid == before + if body.SummaryDelta? then body.delta else []
    ensures (now + rest) + (if body.Done? then before else later) == before + Summed([body] + bodies)
  {
    SummedCons(body, bodies);
    if body.Done? {
      assert rest + later == [] && rest == [];
      assert [] + before == before + ([] + []);
    } else {
      Regroup(now, rest, later, mid, Summed(bodies), before, if body.SummaryDelta? then body.delta else []);
    }
  }

  lemma DoneLastRest(body: Body, bodies: seq<Body>)
    requires DoneLast([body] + bodies)
    ensures DoneLast(bodies) && (body.Done? ==> bodies == [])
  {
    var all := [body] + bodies;
    assert all[0] == body;
    forall i | 0 <= i < |bodies| - 1 ensures !bodies[i].Done? {
      assert all[i + 1] == bodies[i];
    }
  }

  lemma BlankPending(cfg: Config, t: Translator, k: int)
    requires OnlyBlanks(cfg, t) && k in t.slots
    ensures cfg.blank(t.slots[k].pending)
  {
  }

  lemma NothingThought(cfg: Config, t: Translator, k: int)
    requires OnlyBlanks(cfg, t) && k in t.slots
    ensures ThoughtIn(Marks([], k)) == [] && Summed(Of([], k)) == [] && cfg.blank(t.slots[k].pending)
  {
  }

  lemma {:induction false} ThoughtsFromAbsent(cfg: Config, t: Translator, log: seq<Upstream>, k: int)
      returns (blanks: Text)
    requires Usual(log) && k !in t.slots && OnlyBlanks(cfg, t) && cfg.blank([])
    requires Of(log, k) != [] && Of(log, k)[0].Added? && Of(log, k)[0].item.kind.ReasoningItem?
    requires DoneLast(Of(log, k))
    ensures ThoughtIn(Marks(Serial(cfg, t, log).out, k)) + blanks == Summed(Of(log, k)) && cfg.blank(blanks)
    decreases |log|
  {
    hide HandleOne, Named, Marks, ThoughtIn, OnlyBlanks, Summed;
    var e, rest := log[0], log[1..];
    var a := HandleOne(cfg, t, e);
    var b := Serial(cfg, a.t, rest);
    OfStep(log, k);
    OneBlanks(cfg, t, e);
    MarksAppend(a.out, b.out, k);
    ThoughtAppend(Marks(a.out, k), Marks(b.out, k));
    if e.OfItem? && e.k == Some(k) {
      FirstThoughts(cfg, t, e, k);
      SummedCons(e.body, Of(rest, k));
      DoneLastRest(e.body, Of(rest, k));
      blanks := SerialThoughts(cfg, a.t, rest, k);
    } else {
      OthersAloof(cfg, t, e, k);
      OnlyClosesMind(a.out, k);
      assert [] + Of(rest, k) == Of(rest, k);
      blanks := ThoughtsFromAbsent(cfg, a.t, rest, k);
    }
    assert [] + ThoughtIn(Marks(b.out, k)) == ThoughtIn(Marks(b.out, k));
    assert [] + Summed(Of(rest, k)) == Summed(Of(rest, k));
  }

  lemma FirstThoughts(cfg: Config, t: Translator, e: Upstream, k: int)
    requires e.OfItem? && e.k == Some(k) && e.body.Added? && e.body.item.kind.ReasoningItem? && k !in t.slots
    ensures var a := HandleOne(cfg, t, e);
      MindSlot(a.t, k) && a.t.slots[k].pending == [] && ThoughtIn(Marks(a.out, k)) == []
  {
    hide EnsureStart, Marks;
    StartKeepsHeld(cfg, t, e.body.response);
    StartAway(cfg, t, e.body.response, k);
    MarksNone(EnsureStart(cfg, t, e.body.response).out, k);
  }

  /** And all of the summary of every reasoning item that began, done or not, but for blanks at its end. */
  lemma EndSaysAllThoughts(cfg: Config, model: Text, es: seq<Upstream>, e: Upstream, k: int)
      returns (n: nat, blanks: Text)
    requires Usual(es) && Last(e) && cfg.blank([]) && DoneLast(Of(es, k))
    requires Of(es, k) != [] && Of(es, k)[0].Added? && Of(es, k)[0].item.kind.ReasoningItem?
    ensures var out := PushAll(cfg, Fresh(model), es + [e]).out;
      && EndsAt(e, out, n)
      && ThoughtIn(MarksBy(Outs(out[..n]), Owners(out), k)) + blanks == Summed(Of(es, k)) && cfg.blank(blanks)
  {
    hide PushAll, Serial, Of, Marks, ThoughtIn, Summed, OwnersAfter, CloseAll, EndsAt, Usual, DoneLast;
    var log, _, m := UpToTheEnd(cfg, model, es, e);
    n := m;
    UsualPlain(log);
    var s := Serial(cfg, Fresh(model), log);
    blanks := ThoughtsFromAbsent(cfg, Fresh(model), log, k);
    MarksAppend(s.out, CloseAll(s.t).out, k);
    ThoughtAppend(Marks(s.out, k), Marks(CloseAll(s.t).out, k));
    CloseAllCloses(s.t);
    OnlyClosesMind(CloseAll(s.t).out, k);
    assert EndsAt(e, PushAll(cfg, Fresh(model), es + [e]).out, n);
    EndWithin(e, PushAll(cfg, Fresh(model), es + [e]).out, n);
    UpToOwners(cfg, model, es + [e], n, k);
    assert ThoughtIn(Marks(s.out, k)) + [] == ThoughtIn(Marks(s.out, k));
  }

  lemma CloseAllCloses(t: Translator)
    ensures forall i :: 0 <= i < |CloseAll(t).out| ==> CloseAll(t).out[i].event.BlockStop?
  {
  }
}
