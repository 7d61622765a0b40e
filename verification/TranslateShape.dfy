/** The shape of the translated stream: whatever the upstream sends, each step continues a legal message
    stream. A reader is followed who knows which block is open and how many there were, and the
    translator's own books agree with that reader's. */
module TranslateShape {
  import opened Text
  import opened Translate

  /** What a reader of the stream knows: has the message begun, which block is open, how many blocks
      there were, is it over. */
  datatype Shape = Shape(started: bool, open: Option<(int, Start)>, next: nat, ended: bool)

  const BLANK := Shape(false, None, 0, false)

  predicate Fits(start: Start, piece: Piece) {
    match piece
    case Words(_) => start.TextBlock?
    case Thought(_) => start.ThinkingBlock?
    case Signature(_) => start.ThinkingBlock?
    case Json(_) => start.ToolUseBlock?
  }

  /** The next event, if it is legal: blocks are numbered 0, 1, 2, …, one is open at a time, deltas
      go to the open block and suit it, and the end comes when none is open. */
  function Next(s: Shape, e: Out): Option<Shape> {
    match e
    case MessageStart(_, _) => if s.started then None else Some(s.(started := true))
    case BlockStart(i, start) =>
      if s.started && s.open.None? && i == s.next then Some(s.(open := Some((i, start)), next := s.next + 1)) else None
    case BlockDelta(i, piece) =>
      if s.open.Some? && s.open.value.0 == i && Fits(s.open.value.1, piece) then Some(s) else None
    case BlockStop(i) =>
      if s.open.Some? && s.open.value.0 == i then Some(s.(open := None)) else None
    case MessageDelta(_, _) => if s.started && s.open.None? then Some(s) else None
    case MessageStop => if s.started && s.open.None? then Some(s.(ended := true)) else None
    case Error(_) => if s.open.None? then Some(s.(ended := true)) else None
  }

  /** Reading on, up to the terminal event. None: something illegal came before it. */
  function Reading(s: Shape, out: seq<Emission>): Option<Shape>
    decreases |out|
  {
    if s.ended || out == [] then Some(s)
    else match Next(s, out[0].event)
      case None => None
      case Some(u) => Reading(u, out[1..])
  }

  lemma {:induction false} ReadingOn(s: Shape, a: seq<Emission>, b: seq<Emission>)
    ensures Reading(s, a + b) == match Reading(s, a) case None => None case Some(u) => Reading(u, b)
    decreases |a|
  {
    if s.ended {
    } else if a == [] {
      assert a + b == b;
    } else {
      assert (a + b)[1..] == a[1..] + b;
      match Next(s, a[0].event)
      case None =>
      case Some(u) => ReadingOn(u, a[1..], b);
    }
  }

  // ---- The translator and its reader agree ----

  predicate SlotOk(t: Translator, k: int)
    requires k in t.slots
  {
    t.slots[k].live ==> t.open == Some(k) && 0 <= t.slots[k].index < t.next
  }

  /** At most one block is live, and it is the open item's. */
  ghost predicate OneOpen(t: Translator) {
    && (forall k <- t.slots :: SlotOk(t, k))
    && (t.open.Some? ==> t.open.value in t.slots
                         && (t.slots[t.open.value].live || t.slots[t.open.value].kind.Thinking?))
    && (t.slots != map[] ==> t.started)
    && HoldsItems(t)
  }

  predicate Suits(kind: Kind, start: Start) {
    match kind
    case Message => start.TextBlock?
    case Thinking => start.ThinkingBlock?
    case Tool => start.ToolUseBlock?
  }

  function LiveSlot(t: Translator): Option<Slot> {
    if t.open.Some? && t.open.value in t.slots && t.slots[t.open.value].live then Some(t.slots[t.open.value]) else None
  }

  predicate Agree(t: Translator, s: Shape) {
    if t.finished then s.ended
    else
      && !s.ended && s.started == t.started && s.next == t.next
      && match LiveSlot(t)
         case None => s.open.None?
         case Some(slot) => s.open.Some? && s.open.value.0 == slot.index && Suits(slot.kind, s.open.value.1)
  }

  /** After this step the stream is still legal and the two still agree. */
  ghost predicate Legal(s: Shape, r: Step) {
    OneOpen(r.t) && Reading(s, r.out).Some? && Agree(r.t, Reading(s, r.out).value)
  }

  lemma Chain(s: Shape, a: Step, b: Step)
    requires Legal(s, a) && Legal(Reading(s, a.out).value, b)
    ensures Legal(s, Step(b.t, a.out + b.out))
    ensures Reading(s, a.out + b.out) == Reading(Reading(s, a.out).value, b.out)
  {
    hide OneOpen, Agree;
    ReadingOn(s, a.out, b.out);
  }

  lemma ReadOne(s: Shape, e: Emission)
    requires !s.ended
    ensures Reading(s, [e]) == Next(s, e.event)
  {
    if Next(s, e.event).Some? {
      assert [e][1..] == [];
    }
  }

  lemma ReadTwo(s: Shape, e: Emission, f: Emission)
    requires !s.ended
    ensures Reading(s, [e, f]) == match Next(s, e.event)
      case None => None
      case Some(u) => Reading(u, [f])
  {
    assert [e, f][1..] == [f];
  }

  lemma Quiet(t: Translator, s: Shape, u: Translator)
    requires Agree(t, s) && OneOpen(u) && u.finished == t.finished && u.started == t.started && u.next == t.next
    requires !t.finished ==> LiveSlot(u) == LiveSlot(t)
    ensures Legal(s, Step(u, []))
  {
    hide OneOpen;
  }

  /** After the terminal event nothing is read, so nothing can go wrong. */
  lemma Over(t: Translator, s: Shape, r: Step)
    requires Agree(t, s) && t.finished && OneOpen(r.t) && r.t.finished
    ensures Legal(s, r)
  {
    hide OneOpen;
  }

  lemma StartLegal(cfg: Config, t: Translator, s: Shape, r: Response)
    requires OneOpen(t) && Agree(t, s) && !t.finished
    ensures Legal(s, EnsureStart(cfg, t, r)) && EnsureStart(cfg, t, r).t.started
    ensures EnsureStart(cfg, t, r).t.slots == t.slots && EnsureStart(cfg, t, r).t.open == t.open
  {
    if !t.started {
      ReadOne(s, EnsureStart(cfg, t, r).out[0]);
    }
  }

  lemma CloseOtherLegal(t: Translator, s: Shape, k: int)
    requires OneOpen(t) && Agree(t, s) && !t.finished
    ensures var a := CloseOther(t, k);
      && Legal(s, a) && (a.t.open == None || a.t.open == Some(k)) && a.t.started == t.started && a.t.next == t.next
      && a.t.slots.Keys == t.slots.Keys
      && (k in t.slots ==> a.t.slots[k] == t.slots[k])
      && (t.open == Some(k) ==> a == Step(t, []))
  {
    var a := CloseOther(t, k);
    if a.out != [] {
      ReadOne(s, a.out[0]);
    }
  }

  /** A new block for item `k`, when nothing is live. */
  lemma OpenedLegal(t: Translator, s: Shape, k: int, slot: Slot, start: Start)
    requires OneOpen(t) && Agree(t, s) && !t.finished && t.started && (t.open == None || t.open == Some(k))
      && LiveSlot(t) == None
    requires slot.live && slot.index == t.next && Suits(slot.kind, start)
    ensures var u := t.(slots := t.slots[k := slot], open := Some(k), next := t.next + 1);
      Legal(s, Step(u, [Emission(Some(k), BlockStart(t.next, start))])) && LiveSlot(u) == Some(slot)
  {
    ReadOne(s, Emission(Some(k), BlockStart(t.next, start)));
  }

  /** A delta for the live block. */
  lemma DeltaLegal(t: Translator, s: Shape, slot: Slot, piece: Piece)
    requires OneOpen(t) && Agree(t, s) && !t.finished && LiveSlot(t) == Some(slot)
    requires forall start :: Suits(slot.kind, start) ==> Fits(start, piece)
    ensures Legal(s, Step(t, [Emission(t.open, BlockDelta(slot.index, piece))]))
  {
    hide OneOpen;
    ReadOne(s, Emission(t.open, BlockDelta(slot.index, piece)));
  }

  /** The live block closes, and its slot may change. */
  lemma StopLegal(t: Translator, s: Shape, k: int, slot: Slot, after: Slot)
    requires OneOpen(t) && Agree(t, s) && !t.finished && t.open == Some(k) && LiveSlot(t) == Some(slot) && !after.live
    ensures var u := t.(slots := t.slots[k := after], open := None);
      Legal(s, Step(u, [Emission(Some(k), BlockStop(slot.index))])) && LiveSlot(u) == None
  {
    ReadOne(s, Emission(Some(k), BlockStop(slot.index)));
  }

  lemma LiveIsOpen(t: Translator, k: int)
    requires OneOpen(t) && k in t.slots && t.slots[k].live
    ensures t.open == Some(k) && LiveSlot(t) == Some(t.slots[k]) && t.started
  {
    assert SlotOk(t, k);
  }

  lemma OpenWithLegal(t: Translator, s: Shape, k: int, start: Start, piece: Piece)
    requires OneOpen(t) && Agree(t, s) && !t.finished && k in t.slots && !t.slots[k].live
    requires Suits(t.slots[k].kind, start) && forall st :: Suits(t.slots[k].kind, st) ==> Fits(st, piece)
    ensures Legal(s, OpenWith(t, k, start, piece))
  {
    var a := CloseOther(t, k);
    CloseOtherLegal(t, s, k);
    assert a.t.started;
    hide OneOpen, Agree, CloseOther;
    var s1 := Reading(s, a.out).value;
    var slot := a.t.slots[k].(index := a.t.next, live := true, pending := []);
    OpenedLegal(a.t, s1, k, slot, start);
    var u := a.t.(slots := a.t.slots[k := slot], open := Some(k), next := a.t.next + 1);
    var b := Step(u, [Emission(Some(k), BlockStart(a.t.next, start))]);
    Chain(s, a, b);
    var c := Step(u, [Emission(Some(k), BlockDelta(a.t.next, piece))]);
    DeltaLegal(u, Reading(s1, b.out).value, slot, piece);
    Chain(s, Step(u, a.out + b.out), c);
    assert a.out + b.out + c.out == OpenWith(t, k, start, piece).out;
  }

  lemma TextLegal(cfg: Config, t: Translator, s: Shape, k: int, delta: Text)
    requires OneOpen(t) && Agree(t, s) && !t.finished
    ensures Legal(s, OnText(cfg, t, k, delta))
  {
    hide OpenWith;
    if !Has(t, k, Message) || delta == [] {
      Quiet(t, s, t);
    } else if t.slots[k].live {
      LiveIsOpen(t, k);
      DeltaLegal(t, s, t.slots[k], Words(delta));
    } else {
      var text := t.slots[k].pending + delta;
      if cfg.blank(text) {
        Quiet(t, s, t.(slots := t.slots[k := t.slots[k].(pending := text)]));
      } else {
        OpenWithLegal(t, s, k, TextBlock, Words(text));
      }
    }
  }

  lemma SummaryLegal(cfg: Config, t: Translator, s: Shape, k: int, delta: Text)
    requires OneOpen(t) && Agree(t, s) && !t.finished
    ensures Legal(s, OnSummary(cfg, t, k, delta))
  {
    hide OpenWith, CloseOther;
    if !Has(t, k, Thinking) {
      Quiet(t, s, t);
    } else if t.slots[k].live {
      LiveIsOpen(t, k);
      Quiet(t, s, t);
      DeltaLegal(t, s, t.slots[k], Thought(delta));
    } else {
      var text := t.slots[k].pending + delta;
      if cfg.blank(text) {
        CloseOtherLegal(t, s, k);
        var a := CloseOther(t, k);
        var u := a.t.(open := Some(k), slots := a.t.slots[k := a.t.slots[k].(pending := text)]);
        Quiet(a.t, Reading(s, a.out).value, u);
        Chain(s, a, Step(u, []));
        assert a.out + [] == a.out;
      } else {
        OpenWithLegal(t, s, k, ThinkingBlock, Thought(text));
      }
    }
  }

  lemma ArgsLegal(t: Translator, s: Shape, k: int, delta: Text)
    requires OneOpen(t) && Agree(t, s) && !t.finished
    ensures Legal(s, OnArgs(t, k, delta))
  {
    Quiet(t, s, t);
    if Has(t, k, Tool) && t.slots[k].live && delta != [] {
      LiveIsOpen(t, k);
      var slot := t.slots[k].(argsSent := t.slots[k].argsSent + |delta|);
      var u := t.(slots := t.slots[k := slot]);
      assert OneOpen(u) && Agree(u, s);
      DeltaLegal(u, s, slot, Json(delta));
    }
  }

  /** A last delta, if any, and the end of the live block. */
  lemma CloseLegal(t: Translator, s: Shape, k: int, slot: Slot, last: Option<Piece>, after: Slot)
    requires OneOpen(t) && Agree(t, s) && !t.finished && t.open == Some(k) && LiveSlot(t) == Some(slot) && !after.live
    requires last.Some? ==> forall start :: Suits(slot.kind, start) ==> Fits(start, last.value)
    ensures var u := t.(slots := t.slots[k := after], open := None);
      Legal(s, Step(u, (if last.None? then [] else [Emission(Some(k), BlockDelta(slot.index, last.value))])
                       + [Emission(Some(k), BlockStop(slot.index))]))
  {
    hide OneOpen, Agree;
    Quiet(t, s, t);
    if last.Some? {
      DeltaLegal(t, s, slot, last.value);
    }
    var a := Step(t, if last.None? then [] else [Emission(Some(k), BlockDelta(slot.index, last.value))]);
    StopLegal(t, Reading(s, a.out).value, k, slot, after);
    Chain(s, a, Step(t.(slots := t.slots[k := after], open := None), [Emission(Some(k), BlockStop(slot.index))]));
  }

  lemma ThinkingDoneLegal(cfg: Config, t: Translator, s: Shape, k: int, item: Item)
    requires OneOpen(t) && Agree(t, s) && !t.finished && k in t.slots && t.slots[k].kind == Thinking
    ensures Legal(s, OnThinkingDone(cfg, t, k, item))
  {
    hide CloseOther, Blob;
    var slot, blob := t.slots[k], Blob(cfg, Thinking, item);
    if slot.live {
      LiveIsOpen(t, k);
      CloseLegal(t, s, k, slot, if blob == [] then None else Some(Signature(blob)),
                 slot.(live := false, pending := []));
    } else if blob == [] {
      Quiet(t, s, t.(slots := t.slots[k := slot.(pending := [])], open := Released(t, k)));
    } else {
      RedactedLegal(t, s, k, slot, blob);
    }
  }

  lemma RedactedLegal(t: Translator, s: Shape, k: int, slot: Slot, blob: Text)
    requires OneOpen(t) && Agree(t, s) && !t.finished && k in t.slots && t.slots[k] == slot && slot.kind == Thinking
      && !slot.live
    ensures var a := CloseOther(t, k);
      Legal(s, Step(a.t.(slots := a.t.slots[k := slot.(index := a.t.next, pending := [])], next := a.t.next + 1,
                         open := None),
                    a.out + [Emission(Some(k), BlockStart(a.t.next, RedactedBlock(blob))),
                             Emission(Some(k), BlockStop(a.t.next))]))
  {
    var a := CloseOther(t, k);
    CloseOtherLegal(t, s, k);
    assert LiveSlot(a.t) == None && a.t.started;
    hide CloseOther;
    var u := a.t.(slots := a.t.slots[k := slot.(index := a.t.next, pending := [])], next := a.t.next + 1, open := None);
    assert OneOpen(u) && LiveSlot(u) == None;
    var e, f := Emission(Some(k), BlockStart(a.t.next, RedactedBlock(blob))), Emission(Some(k), BlockStop(a.t.next));
    var s1 := Reading(s, a.out).value;
    ReadTwo(s1, e, f);
    ReadOne(Next(s1, e.event).value, f);
    Chain(s, a, Step(u, [e, f]));
  }

  lemma DoneLegal(cfg: Config, t: Translator, s: Shape, k: int, item: Item)
    requires OneOpen(t) && Agree(t, s) && !t.finished
    ensures Legal(s, OnDone(cfg, t, k, item))
  {
    hide OnThinkingDone;
    Quiet(t, s, t);
    if k in t.slots {
      if t.slots[k].kind.Thinking? {
        ThinkingDoneLegal(cfg, t, s, k, item);
      } else if t.slots[k].live {
        LiveIsOpen(t, k);
        var slot := t.slots[k];
        var tail := Tail(slot, item);
        assert tail != [] ==> slot.kind.Tool?;
        CloseLegal(t, s, k, slot, if tail == [] then None else Some(Json(tail)),
                   slot.(live := false, argsSent := slot.argsSent + |tail|));
      }
    }
  }

  lemma AddedCallLegal(t: Translator, s: Shape, k: int, id: nat -> Text, name: Text)
    requires OneOpen(t) && Agree(t, s) && !t.finished && k !in t.slots && t.started
    ensures var b := CloseOther(t, k);
      var i := b.t.next;
      Legal(s, Step(b.t.(slots := b.t.slots[k := Slot(i, Tool, true, 0, [])], open := Some(k), hasTool := true,
                         next := i + 1),
                    b.out + [Emission(Some(k), BlockStart(i, ToolUseBlock(id(i), name)))]))
  {
    var b := CloseOther(t, k);
    CloseOtherLegal(t, s, k);
    assert LiveSlot(b.t) == None;
    hide CloseOther;
    var i, slot := b.t.next, Slot(b.t.next, Tool, true, 0, []);
    OpenedLegal(b.t, Reading(s, b.out).value, k, slot, ToolUseBlock(id(i), name));
    var u := b.t.(slots := b.t.slots[k := slot], open := Some(k), next := i + 1);
    var e := Emission(Some(k), BlockStart(i, ToolUseBlock(id(i), name)));
    Chain(s, b, Step(u, [e]));
    assert Agree(u.(hasTool := true), Reading(s, b.out + [e]).value);
    assert OneOpen(u.(hasTool := true));
  }

  lemma AddedOtherLegal(t: Translator, s: Shape, k: int, kind: Kind)
    requires OneOpen(t) && Agree(t, s) && !t.finished && k !in t.slots && t.started
    ensures Legal(s, Step(t.(slots := t.slots[k := Slot(-1, kind, false, 0, [])]), []))
  {
    Quiet(t, s, t.(slots := t.slots[k := Slot(-1, kind, false, 0, [])]));
  }

  lemma AddedLegal(cfg: Config, t: Translator, s: Shape, key: Option<int>, item: Item, r: Response)
    requires OneOpen(t) && Agree(t, s) && !t.finished
    ensures Legal(s, OnAdded(cfg, t, key, item, r))
  {
    hide EnsureStart, CloseOther, ToolId, Agree, OneOpen;
    var a := EnsureStart(cfg, t, r);
    StartLegal(cfg, t, s, r);
    var s1 := Reading(s, a.out).value;
    var k := if key.Some? then key.value else |a.t.slots|;
    assert a.out + [] == a.out;
    if !(k in a.t.slots || item.kind.OtherItem?) {
      if !item.kind.CallItem? {
        var kind := if item.kind.ReasoningItem? then Thinking else Message;
        AddedOtherLegal(a.t, s1, k, kind);
        Chain(s, a, Step(a.t.(slots := a.t.slots[k := Slot(-1, kind, false, 0, [])]), []));
      } else {
        AddedCallLegal(a.t, s1, k, i => ToolId(item, i), item.name);
        var b := CloseOther(a.t, k);
        var i := b.t.next;
        var c := Step(b.t.(slots := b.t.slots[k := Slot(i, Tool, true, 0, [])], open := Some(k), hasTool := true,
                           next := i + 1),
                      b.out + [Emission(Some(k), BlockStart(i, ToolUseBlock(ToolId(item, i), item.name)))]);
        Chain(s, a, c);
        assert a.out + c.out
          == a.out + b.out + [Emission(Some(k), BlockStart(i, ToolUseBlock(ToolId(item, i), item.name)))];
      }
    }
  }

  // ---- What is held back, and that the stream is over, is of no account to an item ----

  function With(t: Translator, f: bool, d: seq<Upstream>): Translator {
    t.(finished := f, deferred := d)
  }

  function StepWith(r: Step, f: bool, d: seq<Upstream>): Step {
    Step(With(r.t, f, d), r.out)
  }

  lemma AsideStart(cfg: Config, t: Translator, r: Response, f: bool, d: seq<Upstream>)
    ensures EnsureStart(cfg, With(t, f, d), r) == StepWith(EnsureStart(cfg, t, r), f, d)
  {
  }

  lemma AsideClose(t: Translator, k: int, f: bool, d: seq<Upstream>)
    ensures CloseOther(With(t, f, d), k) == StepWith(CloseOther(t, k), f, d)
  {
  }

  lemma AsideAdded(cfg: Config, t: Translator, key: Option<int>, item: Item, r: Response, f: bool, d: seq<Upstream>)
    ensures OnAdded(cfg, With(t, f, d), key, item, r) == StepWith(OnAdded(cfg, t, key, item, r), f, d)
  {
    hide ToolId, EnsureStart, CloseOther;
    AsideStart(cfg, t, r, f, d);
    var a := EnsureStart(cfg, t, r);
    AsideClose(a.t, if key.Some? then key.value else |a.t.slots|, f, d);
  }

  lemma AsideOpenWith(t: Translator, k: int, start: Start, piece: Piece, f: bool, d: seq<Upstream>)
    requires k in t.slots
    ensures OpenWith(With(t, f, d), k, start, piece) == StepWith(OpenWith(t, k, start, piece), f, d)
  {
    hide CloseOther;
    AsideClose(t, k, f, d);
  }

  lemma AsideText(cfg: Config, t: Translator, k: int, delta: Text, f: bool, d: seq<Upstream>)
    ensures OnText(cfg, With(t, f, d), k, delta) == StepWith(OnText(cfg, t, k, delta), f, d)
  {
    hide OpenWith;
    if k in t.slots {
      AsideOpenWith(t, k, TextBlock, Words(t.slots[k].pending + delta), f, d);
    }
  }

  lemma AsideSummary(cfg: Config, t: Translator, k: int, delta: Text, f: bool, d: seq<Upstream>)
    ensures OnSummary(cfg, With(t, f, d), k, delta) == StepWith(OnSummary(cfg, t, k, delta), f, d)
  {
    hide OpenWith;
    if k in t.slots {
      AsideOpenWith(t, k, ThinkingBlock, Thought(t.slots[k].pending + delta), f, d);
    }
    hide CloseOther;
    AsideClose(t, k, f, d);
  }

  lemma AsideThinkingDone(cfg: Config, t: Translator, k: int, item: Item, f: bool, d: seq<Upstream>)
    requires k in t.slots
    ensures OnThinkingDone(cfg, With(t, f, d), k, item) == StepWith(OnThinkingDone(cfg, t, k, item), f, d)
  {
    hide Blob;
    hide CloseOther;
    AsideClose(t, k, f, d);
  }

  lemma AsideDone(cfg: Config, t: Translator, k: int, item: Item, f: bool, d: seq<Upstream>)
    ensures OnDone(cfg, With(t, f, d), k, item) == StepWith(OnDone(cfg, t, k, item), f, d)
  {
    hide OnThinkingDone, Tail;
    if k in t.slots {
      AsideThinkingDone(cfg, t, k, item, f, d);
    }
  }

  lemma Aside(cfg: Config, t: Translator, key: Option<int>, body: Body, f: bool, d: seq<Upstream>)
    ensures HandleItem(cfg, With(t, f, d), key, body) == StepWith(HandleItem(cfg, t, key, body), f, d)
  {
    hide OnAdded, OnText, OnSummary, OnDone;
    var k := if key.Some? then key.value else -1;
    match body
    case Added(item, r) => AsideAdded(cfg, t, key, item, r, f, d);
    case TextDelta(delta) => AsideText(cfg, t, k, delta, f, d);
    case SummaryDelta(delta) => AsideSummary(cfg, t, k, delta, f, d);
    case ArgsDelta(_) =>
    case Done(item) => AsideDone(cfg, t, k, item, f, d);
  }

  // ---- Whole steps and runs ----

  lemma ItemLegal(cfg: Config, t: Translator, s: Shape, key: Option<int>, body: Body)
    requires OneOpen(t) && Agree(t, s)
    ensures Legal(s, HandleItem(cfg, t, key, body))
    decreases t.finished, 1
  {
    hide OnAdded, OnText, OnSummary, OnArgs, OnDone, OneOpen, Agree, Reading;
    var k := if key.Some? then key.value else -1;
    if t.finished {
      OverItem(cfg, t, s, key, body);
    } else {
      match body
      case Added(item, r) => AddedLegal(cfg, t, s, key, item, r);
      case TextDelta(delta) => TextLegal(cfg, t, s, k, delta);
      case SummaryDelta(delta) => SummaryLegal(cfg, t, s, k, delta);
      case ArgsDelta(delta) => ArgsLegal(t, s, k, delta);
      case Done(item) => DoneLegal(cfg, t, s, k, item);
    }
  }

  /** After the end the translator still keeps its books, though nobody reads on. */
  lemma OverItem(cfg: Config, t: Translator, s: Shape, key: Option<int>, body: Body)
    requires OneOpen(t) && Agree(t, s) && t.finished
    ensures Legal(s, HandleItem(cfg, t, key, body))
    decreases t.finished, 0
  {
    hide HandleItem, Reading;
    var u := t.(finished := false);
    var v := Shape(t.started,
                   if LiveSlot(t).Some? then Some((LiveSlot(t).value.index, StartFor(LiveSlot(t).value.kind)))
                     else None,
                   t.next, false);
    assert OneOpen(u) && Agree(u, v);
    ItemLegal(cfg, u, v, key, body);
    Aside(cfg, t, key, body, false, t.deferred);
    assert OneOpen(HandleItem(cfg, u, key, body).t);
    AsideOpen(HandleItem(cfg, u, key, body).t);
    Over(t, s, HandleItem(cfg, t, key, body));
  }

  function StartFor(kind: Kind): Start {
    match kind
    case Message => TextBlock
    case Thinking => ThinkingBlock
    case Tool => ToolUseBlock([], [])
  }

  lemma AsideOpen(u: Translator)
    requires OneOpen(u)
    ensures OneOpen(u.(finished := true))
  {
  }

  lemma WithDeferred(t: Translator, s: Shape, d: seq<Upstream>)
    requires OneOpen(t) && Agree(t, s) && forall e <- d :: e.OfItem?
    ensures OneOpen(t.(deferred := d)) && Agree(t.(deferred := d), s)
  {
  }

  lemma {:induction false} DrainLegal(cfg: Config, t: Translator, s: Shape, force: bool)
    requires OneOpen(t) && Agree(t, s)
    ensures Legal(s, Drain(cfg, t, force))
    decreases |t.deferred|
  {
    hide HandleItem, OneOpen, Agree, FirstReady;
    assert HoldsItems(t) by { HoldsThem(t); }
    var i := if force then 0 else FirstReady(t, t.deferred);
    if i >= |t.deferred| {
      Idle(t, s);
    } else {
      var d := t.deferred[..i] + t.deferred[i + 1..];
      WithDeferred(t, s, d);
      var a := HandleHeld(cfg, t, i);
      ItemLegal(cfg, t.(deferred := d), s, t.deferred[i].k, t.deferred[i].body);
      DrainLegal(cfg, a.t, Reading(s, a.out).value, force);
      Chain(s, a, Drain(cfg, a.t, force));
    }
  }

  lemma HoldsThem(t: Translator)
    requires OneOpen(t)
    ensures HoldsItems(t)
  {
  }

  lemma Idle(t: Translator, s: Shape)
    requires OneOpen(t) && Agree(t, s)
    ensures Legal(s, Step(t, []))
  {
  }

  lemma CloseAllLegal(t: Translator, s: Shape)
    requires OneOpen(t) && Agree(t, s) && !t.finished
    ensures Legal(s, CloseAll(t)) && LiveSlot(CloseAll(t).t) == None && CloseAll(t).t.started == t.started
  {
    if LiveSlot(t).Some? {
      var k := t.open.value;
      StopLegal(t, s, k, t.slots[k], t.slots[k].(live := false));
    } else {
      Quiet(t, s, t.(open := None));
    }
  }

  lemma EndedLegal(t: Translator, s: Shape, r: Response, reason: StopReason)
    requires OneOpen(t) && Agree(t, s) && !t.finished && t.started && LiveSlot(t) == None
    ensures Legal(s, Step(t.(finished := true),
                          [Emission(None, MessageDelta(reason, r.usage)), Emission(None, MessageStop)]))
  {
    ReadTwo(s, Emission(None, MessageDelta(reason, r.usage)), Emission(None, MessageStop));
    ReadOne(s, Emission(None, MessageStop));
    AsideOpen(t);
  }

  lemma BrokeLegal(t: Translator, s: Shape, message: Text)
    requires OneOpen(t) && Agree(t, s) && !t.finished && LiveSlot(t) == None
    ensures Legal(s, Step(t.(finished := true), [Emission(None, Error(message))]))
  {
    ReadOne(s, Emission(None, Error(message)));
    AsideOpen(t);
  }

  lemma {:induction false} DrainKeepsStart(cfg: Config, t: Translator, force: bool)
    requires HoldsItems(t)
    ensures t.started ==> Drain(cfg, t, force).t.started
    decreases |t.deferred|
  {
    hide HandleItem, FirstReady;
    var i := if force then 0 else FirstReady(t, t.deferred);
    if i < |t.deferred| {
      ItemKeepsStart(cfg, t.(deferred := t.deferred[..i] + t.deferred[i + 1..]), t.deferred[i].k, t.deferred[i].body);
      DrainKeepsStart(cfg, HandleHeld(cfg, t, i).t, force);
    }
  }

  lemma ItemKeepsStart(cfg: Config, t: Translator, key: Option<int>, body: Body)
    ensures t.started ==> HandleItem(cfg, t, key, body).t.started
  {
    hide Blob, ToolId, Tail;
  }

  lemma CompleteLegal(cfg: Config, t: Translator, s: Shape, r: Response)
    requires OneOpen(t) && Agree(t, s)
    ensures HoldsItems(t) && Legal(s, Complete(cfg, t, r))
  {
    hide OneOpen, Agree, EnsureStart, Drain, CloseAll, Reason;
    HoldsThem(t);
    if t.finished {
      Idle(t, s);
    } else {
      var a := EnsureStart(cfg, t, r);
      StartLegal(cfg, t, s, r);
      HoldsThem(a.t);
      var b := Drain(cfg, a.t, true);
      DrainLegal(cfg, a.t, Reading(s, a.out).value, true);
      DrainKeepsStart(cfg, a.t, true);
      Chain(s, a, b);
      var ab := Step(b.t, a.out + b.out);
      var c := CloseAll(b.t);
      CloseAllLegal(b.t, Reading(s, ab.out).value);
      Chain(s, ab, c);
      var abc := Step(c.t, ab.out + c.out);
      EndedLegal(c.t, Reading(s, abc.out).value, r, Reason(c.t, r));
      Chain(s, abc, Step(c.t.(finished := true),
                         [Emission(None, MessageDelta(Reason(c.t, r), r.usage)), Emission(None, MessageStop)]));
    }
  }

  lemma FailLegal(cfg: Config, t: Translator, s: Shape, message: Text)
    requires OneOpen(t) && Agree(t, s)
    ensures HoldsItems(t) && Legal(s, Fail(cfg, t, message))
  {
    hide OneOpen, Agree, Drain, CloseAll;
    HoldsThem(t);
    if t.finished {
      Idle(t, s);
    } else {
      var b := Drain(cfg, t, true);
      DrainLegal(cfg, t, s, true);
      var c := CloseAll(b.t);
      CloseAllLegal(b.t, Reading(s, b.out).value);
      Chain(s, b, c);
      var bc := Step(c.t, b.out + c.out);
      BrokeLegal(c.t, Reading(s, bc.out).value, message);
      Chain(s, bc, Step(c.t.(finished := true), [Emission(None, Error(message))]));
    }
  }

  lemma HandleLegal(cfg: Config, t: Translator, s: Shape, e: Upstream)
    requires OneOpen(t) && Agree(t, s)
    ensures HoldsItems(t) && Legal(s, Handle(cfg, t, e))
  {
    hide OneOpen, Agree, HandleItem, Complete, Fail, EnsureStart;
    HoldsThem(t);
    match e
    case Begun(r) =>
      if t.finished {
        LateStart(cfg, t, s, r);
      } else {
        StartLegal(cfg, t, s, r);
      }
    case OfItem(k, body) => ItemLegal(cfg, t, s, k, body);
    case Ended(r) => CompleteLegal(cfg, t, s, r);
    case Broke(message) => FailLegal(cfg, t, s, message);
    case Ignored => Idle(t, s);
  }

  lemma LateStart(cfg: Config, t: Translator, s: Shape, r: Response)
    requires OneOpen(t) && Agree(t, s) && t.finished
    ensures Legal(s, EnsureStart(cfg, t, r))
  {
    assert OneOpen(EnsureStart(cfg, t, r).t);
    Over(t, s, EnsureStart(cfg, t, r));
  }

  lemma PushLegal(cfg: Config, t: Translator, s: Shape, e: Upstream)
    requires OneOpen(t) && Agree(t, s)
    ensures HoldsItems(t) && Legal(s, Push(cfg, t, e))
  {
    hide OneOpen, Agree, Handle, Drain;
    HoldsThem(t);
    if ShouldDefer(t, e) {
      WithDeferred(t, s, t.deferred + [e]);
      Idle(t.(deferred := t.deferred + [e]), s);
    } else {
      var a := Handle(cfg, t, e);
      HandleLegal(cfg, t, s, e);
      DrainLegal(cfg, a.t, Reading(s, a.out).value, false);
      Chain(s, a, Drain(cfg, a.t, false));
    }
  }

  lemma {:induction false} PushAllLegal(cfg: Config, t: Translator, s: Shape, es: seq<Upstream>)
    requires OneOpen(t) && Agree(t, s)
    ensures HoldsItems(t) && Legal(s, PushAll(cfg, t, es))
    decreases |es|
  {
    hide OneOpen, Agree, Push;
    HoldsThem(t);
    if es == [] {
      Idle(t, s);
    } else {
      var a := Push(cfg, t, es[0]);
      PushLegal(cfg, t, s, es[0]);
      PushAllLegal(cfg, a.t, Reading(s, a.out).value, es[1..]);
      Chain(s, a, PushAll(cfg, a.t, es[1..]));
    }
  }

  lemma FreshOpen(model: Text)
    ensures OneOpen(Fresh(model))
  {
  }
}
