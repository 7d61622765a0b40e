/** Translation of an upstream Responses stream into an Anthropic message stream: one content block
    open at a time, events of other items held back while a block that cannot be split is open, and
    replayed, always the first that may be, when it closes. Functions on the translator's state;
    `SseTranslator.dfy` is the object. */
module Translate {
  import opened Text
  import opened Suffix

  // ---- Upstream events ----

  datatype ItemKind = ReasoningItem | MessageItem | CallItem | OtherItem

  /** An output item; a missing string is empty, a missing id None. */
  datatype Item = Item(kind: ItemKind, callId: Option<Text>, id: Option<Text>, name: Text,
                       arguments: Text, encrypted: Text)

  /** What a response object says: the id and model to announce, and how it ended. */
  datatype Response = Response(id: Text, model: Text, outOfTokens: bool, usage: Text)

  datatype Body =
    | Added(item: Item, response: Response)
    | TextDelta(delta: Text)
    | SummaryDelta(delta: Text)
    | ArgsDelta(delta: Text)
    | Done(item: Item)

  datatype Upstream =
    | Begun(response: Response)
    | OfItem(k: Option<int>, body: Body)
    | Ended(response: Response)
    | Broke(message: Text)
    | Ignored

  // ---- Downstream events ----

  datatype Start = TextBlock | ThinkingBlock | RedactedBlock(data: Text) | ToolUseBlock(id: Text, name: Text)

  datatype Piece = Words(words: Text) | Thought(thought: Text) | Signature(signature: Text) | Json(json: Text)

  datatype Out =
    | MessageStart(id: Text, model: Text)
    | BlockStart(index: int, start: Start)
    | BlockDelta(index: int, piece: Piece)
    | BlockStop(index: int)
    | MessageDelta(stopReason: StopReason, usage: Text)
    | MessageStop
    | Error(message: Text)

  datatype StopReason = EndTurn | ToolUse | MaxTokens

  /** An event, and the item it says something about. */
  datatype Emission = Emission(owner: Option<int>, event: Out)

  /** What is sent: the events, without what they are about. */
  function Outs(es: seq<Emission>): (r: seq<Out>)
    ensures |r| == |es| && forall i :: 0 <= i < |es| ==> r[i] == es[i].event
  {
    if es == [] then [] else [es[0].event] + Outs(es[1..])
  }

  lemma OutsAppend(a: seq<Emission>, b: seq<Emission>)
    ensures Outs(a + b) == Outs(a) + Outs(b)
  {
  }

  // ---- State ----

  datatype Kind = Thinking | Message | Tool

  /** What is known of an item: its block, if it has one, and leading blanks not yet sent. */
  datatype Slot = Slot(index: int, kind: Kind, live: bool, argsSent: nat, pending: Text)

  datatype Translator = Translator(started: bool, finished: bool, next: nat, hasTool: bool,
                                   slots: map<int, Slot>, open: Option<int>, deferred: seq<Upstream>, model: Text)

  /** The provider prefix of signatures, and which texts are blank. */
  datatype Config = Config(prefix: Text, blank: Text -> bool, pinned: bool)

  datatype Step = Step(t: Translator, out: seq<Emission>)

  function Fresh(model: Text): Translator {
    Translator(false, false, 0, false, map[], None, [], model)
  }

  // ---- Handling one event ----

  predicate Terminal(e: Out) {
    e.MessageStop? || e.Error?
  }

  predicate NoEnd(out: seq<Emission>) {
    forall i :: 0 <= i < |out| ==> !Terminal(out[i].event)
  }

  /** Handling an item event neither holds anything back nor ends the stream. */
  predicate Keeps(t: Translator, u: Translator) {
    u.deferred == t.deferred && u.finished == t.finished
  }

  function EnsureStart(cfg: Config, t: Translator, r: Response): (s: Step)
    ensures Keeps(t, s.t) && NoEnd(s.out)
  {
    if t.started then Step(t, [])
    else
      var model := if !cfg.pinned && r.model != [] then r.model else t.model;
      Step(t.(started := true, model := model), [Emission(None, MessageStart(r.id, model))])
  }

  /** Before anything is sent for item `k`, the open block of another item is closed. */
  function CloseOther(t: Translator, k: int): (s: Step)
    ensures Keeps(t, s.t) && NoEnd(s.out)
  {
    if t.open == None || t.open == Some(k) then Step(t, [])
    else
      var j := t.open.value;
      if j in t.slots && t.slots[j].live then
        Step(t.(open := None, slots := t.slots[j := t.slots[j].(live := false)]),
             [Emission(Some(j), BlockStop(t.slots[j].index))])
      else Step(t.(open := None), [])
  }

  const CALL_UNDERSCORE: Text := [99, 97, 108, 108, 95]

  function ToolId(item: Item, index: nat): Text {
    match item.callId
    case Some(id) => id
    case None => if item.id.Some? then item.id.value else CALL_UNDERSCORE + Decimal(index)
  }

  function OnAdded(cfg: Config, t: Translator, key: Option<int>, item: Item, r: Response): (s: Step)
    ensures Keeps(t, s.t) && NoEnd(s.out)
  {
    var a := EnsureStart(cfg, t, r);
    var k := if key.Some? then key.value else |a.t.slots|;
    if k in a.t.slots || item.kind.OtherItem? then a
    else if !item.kind.CallItem? then
      var kind := if item.kind.ReasoningItem? then Thinking else Message;
      Step(a.t.(slots := a.t.slots[k := Slot(-1, kind, false, 0, [])]), a.out)
    else
      var b := CloseOther(a.t, k);
      var i := b.t.next;
      Step(b.t.(slots := b.t.slots[k := Slot(i, Tool, true, 0, [])], open := Some(k), hasTool := true, next := i + 1),
           a.out + b.out + [Emission(Some(k), BlockStart(i, ToolUseBlock(ToolId(item, i), item.name)))])
  }

  /** Open a block for item `k` and send what has been collected for it. */
  function OpenWith(t: Translator, k: int, start: Start, piece: Piece): (s: Step)
    requires k in t.slots
    ensures Keeps(t, s.t) && NoEnd(s.out)
  {
    var a := CloseOther(t, k);
    if k !in a.t.slots then a
    else
      var i := a.t.next;
      Step(a.t.(slots := a.t.slots[k := a.t.slots[k].(index := i, live := true, pending := [])], open := Some(k),
                next := i + 1),
           a.out + [Emission(Some(k), BlockStart(i, start)), Emission(Some(k), BlockDelta(i, piece))])
  }

  predicate Has(t: Translator, k: int, kind: Kind) {
    k in t.slots && t.slots[k].kind == kind
  }

  function OnText(cfg: Config, t: Translator, k: int, delta: Text): (s: Step)
    ensures Keeps(t, s.t) && NoEnd(s.out)
  {
    if !Has(t, k, Message) || delta == [] then Step(t, [])
    else if t.slots[k].live then Step(t, [Emission(Some(k), BlockDelta(t.slots[k].index, Words(delta)))])
    else
      var text := t.slots[k].pending + delta;
      if cfg.blank(text) then Step(t.(slots := t.slots[k := t.slots[k].(pending := text)]), [])
      else OpenWith(t, k, TextBlock, Words(text))
  }

  /** A reasoning item claims the open place with its first delta, even a blank one. */
  function OnSummary(cfg: Config, t: Translator, k: int, delta: Text): (s: Step)
    ensures Keeps(t, s.t) && NoEnd(s.out)
  {
    if !Has(t, k, Thinking) then Step(t, [])
    else if t.slots[k].live then
      Step(t, if delta == [] then [] else [Emission(Some(k), BlockDelta(t.slots[k].index, Thought(delta)))])
    else
      var text := t.slots[k].pending + delta;
      if cfg.blank(text) then
        var a := CloseOther(t, k);
        if k !in a.t.slots then a
        else Step(a.t.(open := Some(k), slots := a.t.slots[k := a.t.slots[k].(pending := text)]), a.out)
      else OpenWith(t, k, ThinkingBlock, Thought(text))
  }

  function OnArgs(t: Translator, k: int, delta: Text): (s: Step)
    ensures Keeps(t, s.t) && NoEnd(s.out)
  {
    if !Has(t, k, Tool) || !t.slots[k].live || delta == [] then Step(t, [])
    else
      Step(t.(slots := t.slots[k := t.slots[k].(argsSent := t.slots[k].argsSent + |delta|)]),
           [Emission(Some(k), BlockDelta(t.slots[k].index, Json(delta)))])
  }

  const ID_MARK: Text := [35, 105, 100, 61]
  const HASH: Text := [35]

  /** The encrypted content with its provider and, for reasoning, its item id in front. */
  function Blob(cfg: Config, kind: Kind, item: Item): Text {
    if item.encrypted == [] then []
    else
      cfg.prefix
      + (if kind.Thinking? && item.id.Some? && item.id.value != [] then ID_MARK + item.id.value + HASH else [])
      + item.encrypted
  }

  function Released(t: Translator, k: int): Option<int> {
    if t.open == Some(k) then None else t.open
  }

  function OnThinkingDone(cfg: Config, t: Translator, k: int, item: Item): (s: Step)
    requires k in t.slots
    ensures Keeps(t, s.t) && NoEnd(s.out)
  {
    var slot, blob := t.slots[k], Blob(cfg, Thinking, item);
    if slot.live then
      Step(t.(slots := t.slots[k := slot.(live := false, pending := [])], open := Released(t, k)),
           (if blob == [] then [] else [Emission(Some(k), BlockDelta(slot.index, Signature(blob)))])
           + [Emission(Some(k), BlockStop(slot.index))])
    else if blob == [] then
      Step(t.(slots := t.slots[k := slot.(pending := [])], open := Released(t, k)), [])
    else
      var a := CloseOther(t, k);
      var i := a.t.next;
      Step(a.t.(slots := a.t.slots[k := slot.(index := i, pending := [])], next := i + 1, open := None),
           a.out + [Emission(Some(k), BlockStart(i, RedactedBlock(blob))), Emission(Some(k), BlockStop(i))])
  }

  /** What the deltas left out of the arguments. */
  function Tail(slot: Slot, item: Item): Text {
    if slot.kind.Tool? && |item.arguments| > slot.argsSent then item.arguments[slot.argsSent..] else []
  }

  function OnDone(cfg: Config, t: Translator, k: int, item: Item): (s: Step)
    ensures Keeps(t, s.t) && NoEnd(s.out)
  {
    if k !in t.slots then Step(t, [])
    else if t.slots[k].kind.Thinking? then OnThinkingDone(cfg, t, k, item)
    else if !t.slots[k].live then Step(t, [])
    else
      var slot := t.slots[k];
      var tail := Tail(slot, item);
      Step(t.(slots := t.slots[k := slot.(live := false, argsSent := slot.argsSent + |tail|)], open := Released(t, k)),
           (if tail == [] then [] else [Emission(Some(k), BlockDelta(slot.index, Json(tail)))])
           + [Emission(Some(k), BlockStop(slot.index))])
  }

  function HandleItem(cfg: Config, t: Translator, key: Option<int>, body: Body): (s: Step)
    ensures Keeps(t, s.t) && NoEnd(s.out)
  {
    var k := if key.Some? then key.value else -1;
    match body
    case Added(item, r) => OnAdded(cfg, t, key, item, r)
    case TextDelta(delta) => OnText(cfg, t, k, delta)
    case SummaryDelta(delta) => OnSummary(cfg, t, k, delta)
    case ArgsDelta(delta) => OnArgs(t, k, delta)
    case Done(item) => OnDone(cfg, t, k, item)
  }

  // ---- Holding back ----

  /** A tool call or a thinking block, or a place claimed for one, cannot be interrupted. */
  predicate Uninterruptible(t: Translator) {
    t.open.Some? && t.open.value in t.slots && !t.slots[t.open.value].kind.Message?
  }

  predicate ShouldDefer(t: Translator, e: Upstream) {
    e.OfItem? && Uninterruptible(t) && e.k != t.open
  }

  /** The first held event that may be handled now, or their number. */
  function FirstReady(t: Translator, held: seq<Upstream>): (i: nat)
    ensures i <= |held|
    ensures i < |held| ==> !ShouldDefer(t, held[i])
    ensures forall j :: 0 <= j < i ==> ShouldDefer(t, held[j])
  {
    if held == [] || !ShouldDefer(t, held[0]) then 0 else 1 + FirstReady(t, held[1..])
  }

  /** Only item events are held. */
  predicate HoldsItems(t: Translator) {
    forall e <- t.deferred :: e.OfItem?
  }

  function HandleHeld(cfg: Config, t: Translator, i: nat): Step
    requires i < |t.deferred| && t.deferred[i].OfItem?
  {
    HandleItem(cfg, t.(deferred := t.deferred[..i] + t.deferred[i + 1..]), t.deferred[i].k, t.deferred[i].body)
  }

  /** Replay held events: always the first that may be handled; `force` replays all in order. */
  function Drain(cfg: Config, t: Translator, force: bool): (r: Step)
    requires HoldsItems(t)
    ensures HoldsItems(r.t) && r.t.finished == t.finished
    decreases |t.deferred|
  {
    var i := if force then 0 else FirstReady(t, t.deferred);
    if i >= |t.deferred| then Step(t, [])
    else
      var a := HandleHeld(cfg, t, i);
      var b := Drain(cfg, a.t, force);
      Step(b.t, a.out + b.out)
  }

  // ---- The end ----

  function CloseAll(t: Translator): (s: Step)
    ensures Keeps(t, s.t) && NoEnd(s.out)
  {
    if t.open.Some? && t.open.value in t.slots && t.slots[t.open.value].live then
      var j := t.open.value;
      Step(t.(open := None, slots := t.slots[j := t.slots[j].(live := false)]),
           [Emission(Some(j), BlockStop(t.slots[j].index))])
    else Step(t.(open := None), [])
  }

  function Reason(t: Translator, r: Response): StopReason {
    if r.outOfTokens then MaxTokens else if t.hasTool then ToolUse else EndTurn
  }

  function Complete(cfg: Config, t: Translator, r: Response): Step
    requires HoldsItems(t)
  {
    if t.finished then Step(t, [])
    else
      var a := EnsureStart(cfg, t, r);
      var b := Drain(cfg, a.t, true);
      var c := CloseAll(b.t);
      Step(c.t.(finished := true),
           a.out + b.out + c.out + [Emission(None, MessageDelta(Reason(c.t, r), r.usage)), Emission(None, MessageStop)])
  }

  function Fail(cfg: Config, t: Translator, message: Text): Step
    requires HoldsItems(t)
  {
    if t.finished then Step(t, [])
    else
      var b := Drain(cfg, t, true);
      var c := CloseAll(b.t);
      Step(c.t.(finished := true), b.out + c.out + [Emission(None, Error(message))])
  }

  function Handle(cfg: Config, t: Translator, e: Upstream): (r: Step)
    requires HoldsItems(t)
    ensures HoldsItems(r.t)
  {
    match e
    case Begun(response) => EnsureStart(cfg, t, response)
    case OfItem(k, body) => HandleItem(cfg, t, k, body)
    case Ended(response) => Complete(cfg, t, response)
    case Broke(message) => Fail(cfg, t, message)
    case Ignored => Step(t, [])
  }

  function Push(cfg: Config, t: Translator, e: Upstream): (r: Step)
    requires HoldsItems(t)
    ensures HoldsItems(r.t)
  {
    if ShouldDefer(t, e) then Step(t.(deferred := t.deferred + [e]), [])
    else
      var a := Handle(cfg, t, e);
      var b := Drain(cfg, a.t, false);
      Step(b.t, a.out + b.out)
  }

  function PushAll(cfg: Config, t: Translator, es: seq<Upstream>): (r: Step)
    requires HoldsItems(t)
    ensures HoldsItems(r.t)
    decreases |es|
  {
    if es == [] then Step(t, [])
    else
      var a := Push(cfg, t, es[0]);
      var b := PushAll(cfg, a.t, es[1..]);
      Step(b.t, a.out + b.out)
  }

  const TRUNCATED: Text := [116, 114, 117, 110, 99, 97, 116, 101, 100]

  /** The upstream ended; without a terminal event that is a failure. */
  function Finish(cfg: Config, t: Translator): Step
    requires HoldsItems(t)
  {
    Fail(cfg, t, TRUNCATED)
  }
}
