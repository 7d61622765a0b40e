/** A finished response, translated and folded, is a plain map over its items: the translator and the
    collector are followed side by side, item by item, from one state between two items to the next. */
module CollectLaws {
  import opened Text
  import opened Translate
  import opened TranslateShape
  import opened TranslateMeaning
  import opened TranslateJson
  import opened Collect

  // ---- What each item should become ----

  /** A call's arguments parse, or there are none. */
  predicate Parses(parse: Parser, ji: JsonItem) {
    ji.item.kind.CallItem? && ji.item.arguments != [] ==> parse(ji.item.arguments).Some?
  }

  /** The block an item becomes, as block number `n`; at most one. */
  function Gives(cfg: Config, parse: Parser, ji: JsonItem, n: nat): seq<Content>
    requires Parses(parse, ji)
  {
    var text, blob := Join(ji.parts), Blob(cfg, Thinking, ji.item);
    match ji.item.kind
    case MessageItem => if cfg.blank(text) then [] else [Begin(TextBlock).(text := text)]
    case ReasoningItem =>
      if !cfg.blank(text) then [Begin(ThinkingBlock).(thinking := text, signature := blob)]
      else if blob != [] then [Begin(RedactedBlock(blob))]
      else []
    case CallItem =>
      var args := ji.item.arguments;
      var input := if args == [] then NO_INPUT else parse(args).value;
      [Begin(ToolUseBlock(ToolId(ji.item, n), ji.item.name)).(json := args, input := input)]
    case OtherItem => []
  }

  function GivesAll(cfg: Config, parse: Parser, items: seq<JsonItem>, n: nat): seq<Content>
    requires forall ji <- items :: Parses(parse, ji)
    decreases |items|
  {
    if items == [] then []
    else
      var here := Gives(cfg, parse, items[0], n);
      here + GivesAll(cfg, parse, items[1..], n + |here|)
  }

  // ---- Translator and collector side by side ----

  function Listed(content: seq<Content>): map<nat, Content> {
    map i: nat | i < |content| :: content[i]
  }

  /** Between two items: no block open, nothing held, every block so far collected. */
  ghost predicate Between(t: Translator, c: Collection, content: seq<Content>, k: nat) {
    && t.started && !t.finished && t.next == |content| && t.open == None && t.deferred == []
    && (forall j <- t.slots :: j < k && !t.slots[j].live)
    && !c.failed && !c.stopped && c.message.Some? && c.blocks == Listed(content)
  }

  lemma {:induction false} TakeAppend(parse: Parser, c: Collection, a: seq<Out>, b: seq<Out>)
    ensures TakeAll(parse, c, a + b) == TakeAll(parse, TakeAll(parse, c, a), b)
    decreases |a|
  {
    hide Take;
    if a == [] {
      assert a + b == b;
    } else {
      assert (a + b)[0] == a[0] && (a + b)[1..] == a[1..] + b;
      TakeAppend(parse, Take(parse, c, a[0]), a[1..], b);
    }
  }

  lemma TakeOne(parse: Parser, c: Collection, e: Out)
    ensures TakeAll(parse, c, [e]) == Take(parse, c, e)
  {
    hide Take;
    assert [e][1..] == [];
  }

  lemma TakeTwo(parse: Parser, c: Collection, e: Out, f: Out)
    ensures TakeAll(parse, c, [e, f]) == Take(parse, Take(parse, c, e), f)
  {
    hide Take;
    assert [e, f][1..] == [f];
    TakeOne(parse, Take(parse, c, e), f);
  }

  lemma ListedMore(content: seq<Content>, b: Content, d: Content)
    ensures Listed(content)[|content| := b] == Listed(content + [b])
    ensures Listed(content + [b])[|content| := d] == Listed(content + [d])
    ensures |content| in Listed(content + [b]) && Listed(content + [b])[|content|] == b
    ensures |content| !in Listed(content)
  {
  }

  /** With nothing held and no other block open, an event is handled and that is all. */
  lemma PushOwn(cfg: Config, t: Translator, k: int, body: Body)
    requires t.deferred == [] && (t.open == None || t.open == Some(k))
    ensures HoldsItems(t) && Push(cfg, t, OfItem(Some(k), body)) == HandleItem(cfg, t, Some(k), body)
  {
    hide HandleItem;
    var a := HandleItem(cfg, t, Some(k), body);
    assert Drain(cfg, a.t, false) == Step(a.t, []);
    assert a.out + [] == a.out;
  }

  /** One event for the item at hand, and what the collector makes of it. */
  ghost predicate Moves(cfg: Config, parse: Parser, t: Translator, c: Collection, k: int, body: Body, u: Translator,
                        d: Collection) {
    && HoldsItems(t)
    && Push(cfg, t, OfItem(Some(k), body)).t == u
    && TakeAll(parse, c, Outs(Push(cfg, t, OfItem(Some(k), body)).out)) == d
  }

  // ---- A message or a summary in the making ----

  /** `text` of item `k` has arrived: nothing to show while it is blank, one open block after. */
  ghost predicate Making(cfg: Config, t: Translator, c: Collection, content: seq<Content>, k: nat, kind: Kind,
                         text: Text) {
    && t.started && !t.finished && t.deferred == [] && (t.open == None || t.open == Some(k))
    && (forall j <- t.slots :: j <= k && (j != k ==> !t.slots[j].live))
    && !c.failed && !c.stopped && c.message.Some?
    && k in t.slots && t.slots[k].kind == kind && (kind == Message || kind == Thinking)
    && if cfg.blank(text) then
         !t.slots[k].live && t.slots[k].pending == text && t.next == |content| && c.blocks == Listed(content)
       else
         && t.slots[k].live && t.slots[k].pending == [] && t.slots[k].index == |content| && t.open == Some(k)
         && t.next == |content| + 1 && c.blocks == Listed(content + [Made(kind, text)])
  }

  function Made(kind: Kind, text: Text): Content {
    if kind.Message? then Begin(TextBlock).(text := text) else Begin(ThinkingBlock).(thinking := text)
  }

  function DeltaFor(kind: Kind, d: Text): Body {
    if kind.Message? then TextDelta(d) else SummaryDelta(d)
  }

  function PieceFor(kind: Kind, d: Text): Piece {
    if kind.Message? then Words(d) else Thought(d)
  }

  /** A first non-blank delta opens the block, which the collector then has. */
  lemma OpensCollected(parse: Parser, t: Translator, c: Collection, content: seq<Content>, k: nat, kind: Kind,
                       text: Text)
    requires k in t.slots && (t.open == None || t.open == Some(k)) && t.next == |content|
      && (kind == Message || kind == Thinking)
    requires !c.failed && !c.stopped && c.blocks == Listed(content)
    ensures var r := OpenWith(t, k, StartFor(kind), PieceFor(kind, text));
      && r.t == t.(slots := t.slots[k := t.slots[k].(index := t.next, live := true, pending := [])], open := Some(k),
                   next := t.next + 1)
      && TakeAll(parse, c, Outs(r.out)) == c.(blocks := Listed(content + [Made(kind, text)]))
  {
    hide TakeAll;
    var i := t.next;
    var e, f := BlockStart(i, StartFor(kind)), BlockDelta(i, PieceFor(kind, text));
    var r := OpenWith(t, k, StartFor(kind), PieceFor(kind, text));
    assert Outs(r.out) == [e, f];
    TakeTwo(parse, c, e, f);
    ListedMore(content, Begin(StartFor(kind)), Made(kind, text));
    assert [] + text == text;
    assert Add(Begin(StartFor(kind)), PieceFor(kind, text)) == Made(kind, text);
  }

  lemma BlankTogether(cfg: Config, a: Text, b: Text)
    requires GoodBlank(cfg)
    ensures Both(cfg, a, b) && cfg.blank([])
  {
  }

  lemma MakingStep(cfg: Config, parse: Parser, t: Translator, c: Collection, content: seq<Content>, k: nat, kind: Kind,
                   text: Text, d: Text)
    requires GoodBlank(cfg) && Making(cfg, t, c, content, k, kind, text)
    ensures HoldsItems(t)
    ensures var r := Push(cfg, t, OfItem(Some(k), DeltaFor(kind, d)));
      Making(cfg, r.t, TakeAll(parse, c, Outs(r.out)), content, k, kind, text + d) && r.t.hasTool == t.hasTool
  {
    hide Push, OpenWith, TakeAll, Take, CloseOther, GoodBlank;
    PushOwn(cfg, t, k, DeltaFor(kind, d));
    BlankTogether(cfg, text, d);
    NothingTaken(parse, c);
    if cfg.blank(text) {
      if cfg.blank(text + d) {
        BlankStep(cfg, t, k, kind, d);
      } else {
        OpensCollected(parse, t, c, content, k, kind, text + d);
      }
    } else {
      LiveStep(cfg, parse, t, c, content, k, kind, text, d);
    }
  }

  lemma NothingTaken(parse: Parser, c: Collection)
    ensures TakeAll(parse, c, Outs([])) == c
  {
  }

  lemma BlankStep(cfg: Config, t: Translator, k: nat, kind: Kind, d: Text)
    requires k in t.slots && t.slots[k].kind == kind && !t.slots[k].live && (kind == Message || kind == Thinking)
    requires (t.open == None || t.open == Some(k)) && cfg.blank(t.slots[k].pending + d)
    ensures var r := HandleItem(cfg, t, Some(k), DeltaFor(kind, d));
      && r.out == [] && (r.t.open == t.open || r.t.open == Some(k))
      && r.t == t.(slots := t.slots[k := t.slots[k].(pending := t.slots[k].pending + d)], open := r.t.open)
  {
    assert t.slots[k].pending + [] == t.slots[k].pending;
    assert t.slots[k := t.slots[k]] == t.slots;
  }

  lemma LiveStep(cfg: Config, parse: Parser, t: Translator, c: Collection, content: seq<Content>, k: nat, kind: Kind,
                 text: Text, d: Text)
    requires Making(cfg, t, c, content, k, kind, text) && !cfg.blank(text)
    ensures var r := HandleItem(cfg, t, Some(k), DeltaFor(kind, d));
      && r.t == t && TakeAll(parse, c, Outs(r.out)) == c.(blocks := Listed(content + [Made(kind, text + d)]))
  {
    hide TakeAll;
    var e := BlockDelta(|content|, PieceFor(kind, d));
    TakeOne(parse, c, e);
    NothingTaken(parse, c);
    ListedMore(content, Made(kind, text), Made(kind, text + d));
    assert text + [] == text;
    var r := HandleItem(cfg, t, Some(k), DeltaFor(kind, d));
    assert Outs(r.out) == if d == [] then Outs([]) else [e];
  }

  lemma {:induction false} MakingAll(cfg: Config, parse: Parser, t: Translator, c: Collection, content: seq<Content>,
                                     k: nat, kind: Kind,
                                     text: Text, parts: seq<Text>)
    requires GoodBlank(cfg) && Making(cfg, t, c, content, k, kind, text)
    ensures HoldsItems(t)
    ensures var r := PushAll(cfg, t, Deltas(if kind == Message then MessageItem else ReasoningItem, k, parts));
      Making(cfg, r.t, TakeAll(parse, c, Outs(r.out)), content, k, kind, text + Join(parts)) && r.t.hasTool == t.hasTool
    decreases |parts|
  {
    hide Making, Push, TakeAll, GoodBlank;
    MakingStep(cfg, parse, t, c, content, k, kind, text, []);
    NothingTaken(parse, c);
    if parts == [] {
      JoinNone();
      assert text + [] == text;
    } else {
      var es := Deltas(if kind == Message then MessageItem else ReasoningItem, k, parts);
      var a := Push(cfg, t, es[0]);
      MakingStep(cfg, parse, t, c, content, k, kind, text, parts[0]);
      MakingAll(cfg, parse, a.t, TakeAll(parse, c, Outs(a.out)), content, k, kind, text + parts[0], parts[1..]);
      assert es[1..] == Deltas(if kind == Message then MessageItem else ReasoningItem, k, parts[1..]);
      var b := PushAll(cfg, a.t, es[1..]);
      OutsAppend(a.out, b.out);
      TakeAppend(parse, c, Outs(a.out), Outs(b.out));
      JoinCons(parts);
      assert text + (parts[0] + Join(parts[1..])) == (text + parts[0]) + Join(parts[1..]);
    }
  }

  // ---- The end of an item ----

  lemma DoneSilently(cfg: Config, t: Translator, k: nat, item: Item)
    requires k in t.slots && !t.slots[k].live && (t.open == None || t.open == Some(k))
    requires t.slots[k].kind == Message || (t.slots[k].kind == Thinking && Blob(cfg, Thinking, item) == [])
    requires t.slots[k].kind == Message ==> t.open == None
    ensures var r := HandleItem(cfg, t, Some(k), Done(item));
      && r.out == [] && r.t.slots.Keys == t.slots.Keys && (forall j <- t.slots :: r.t.slots[j].live == t.slots[j].live)
      && r.t == t.(slots := r.t.slots, open := None)
  {
    hide Blob;
  }

  lemma DoneLive(cfg: Config, parse: Parser, t: Translator, c: Collection, content: seq<Content>, k: nat, kind: Kind,
                 text: Text, item: Item)
    requires Making(cfg, t, c, content, k, kind, text) && !cfg.blank(text)
    ensures var r := HandleItem(cfg, t, Some(k), Done(item));
      var blob := Blob(cfg, Thinking, item);
      && Between(r.t, TakeAll(parse, c, Outs(r.out)),
                 content + [if kind == Message then Made(kind, text) else Made(kind, text).(signature := blob)], k + 1)
      && r.t.hasTool == t.hasTool
  {
    hide Blob, TakeAll;
    var blob := Blob(cfg, Thinking, item);
    var r := HandleItem(cfg, t, Some(k), Done(item));
    var b, n := Made(kind, text), |content|;
    var sign, stop := BlockDelta(n, Signature(blob)), BlockStop(n);
    TakeOne(parse, c, stop);
    TakeTwo(parse, c, sign, stop);
    ListedMore(content, b, b.(signature := blob));
    assert [] + blob == blob;
    assert Add(b, Signature(blob)) == b.(signature := blob);
    if kind == Message || blob == [] {
      assert Outs(r.out) == [stop];
    } else {
      assert Outs(r.out) == [sign, stop];
    }
  }

  lemma DoneRedacted(cfg: Config, parse: Parser, t: Translator, c: Collection, content: seq<Content>, k: nat,
                     text: Text, item: Item)
    requires Making(cfg, t, c, content, k, Thinking, text) && cfg.blank(text) && Blob(cfg, Thinking, item) != []
    ensures var r := HandleItem(cfg, t, Some(k), Done(item));
      && Between(r.t, TakeAll(parse, c, Outs(r.out)), content + [Begin(RedactedBlock(Blob(cfg, Thinking, item)))],
                 k + 1)
      && r.t.hasTool == t.hasTool
  {
    hide Blob, TakeAll;
    var blob := Blob(cfg, Thinking, item);
    var r := HandleItem(cfg, t, Some(k), Done(item));
    var e, f := BlockStart(|content|, RedactedBlock(blob)), BlockStop(|content|);
    assert Outs(r.out) == [e, f];
    TakeTwo(parse, c, e, f);
    ListedMore(content, Begin(RedactedBlock(blob)), Begin(RedactedBlock(blob)));
  }

  /** The end of a message or reasoning item leaves at most one more finished block. */
  lemma MadeDone(cfg: Config, parse: Parser, t: Translator, c: Collection, content: seq<Content>, k: nat, kind: Kind,
                 text: Text, item: Item)
    requires Making(cfg, t, c, content, k, kind, text) && (kind == Message && cfg.blank(text) ==> t.open == None)
    ensures var r := HandleItem(cfg, t, Some(k), Done(item));
      var blob := Blob(cfg, Thinking, item);
      && Between(r.t, TakeAll(parse, c, Outs(r.out)),
                 content + (if !cfg.blank(text) then
                              [if kind == Message then Made(kind, text) else Made(kind, text).(signature := blob)]
                            else if kind == Thinking && blob != [] then [Begin(RedactedBlock(blob))] else []), k + 1)
      && r.t.hasTool == t.hasTool
  {
    hide Blob, TakeAll, HandleItem;
    if !cfg.blank(text) {
      DoneLive(cfg, parse, t, c, content, k, kind, text, item);
    } else if kind == Thinking && Blob(cfg, Thinking, item) != [] {
      DoneRedacted(cfg, parse, t, c, content, k, text, item);
    } else {
      DoneSilently(cfg, t, k, item);
      NothingTaken(parse, c);
      assert content + [] == content;
    }
  }

  // ---- Item by item ----

  lemma AddedCollected(cfg: Config, parse: Parser, t: Translator, c: Collection, content: seq<Content>, k: nat,
                       item: Item)
    requires Between(t, c, content, k) && GoodBlank(cfg)
    ensures HoldsItems(t)
    ensures var r := Push(cfg, t, OfItem(Some(k), Added(item, NO_RESPONSE)));
      var d := TakeAll(parse, c, Outs(r.out));
      match item.kind
      case MessageItem => Making(cfg, r.t, d, content, k, Message, []) && r.t.open == None && r.t.hasTool == t.hasTool
      case ReasoningItem => Making(cfg, r.t, d, content, k, Thinking, []) && r.t.hasTool == t.hasTool
      case CallItem =>
        && r.t.hasTool && d == c.(blocks := Listed(content + [Begin(ToolUseBlock(ToolId(item, |content|), item.name))]))
        && r.t == t.(slots := t.slots[k := Slot(|content|, Tool, true, 0, [])], open := Some(k), hasTool := true,
                     next := |content| + 1)
      case OtherItem => Between(r.t, d, content, k + 1) && r.t.hasTool == t.hasTool
  {
    hide Push, TakeAll, ToolId, GoodBlank;
    PushOwn(cfg, t, k, Added(item, NO_RESPONSE));
    BlankTogether(cfg, [], []);
    NothingTaken(parse, c);
    assert k !in t.slots;
    var start := ToolUseBlock(ToolId(item, |content|), item.name);
    TakeOne(parse, c, BlockStart(|content|, start));
    ListedMore(content, Begin(start), Begin(start));
    if item.kind.CallItem? {
      assert Outs(HandleItem(cfg, t, Some(k), Added(item, NO_RESPONSE)).out) == [BlockStart(|content|, start)];
    }
  }

  lemma {:induction false} BlankStaysClosed(cfg: Config, t: Translator, k: nat, parts: seq<Text>)
    requires GoodBlank(cfg) && t.deferred == [] && t.open == None && Has(t, k, Message) && !t.slots[k].live
    requires cfg.blank(t.slots[k].pending + Join(parts))
    ensures HoldsItems(t) && PushAll(cfg, t, Deltas(MessageItem, k, parts)).t.open == None
    decreases |parts|
  {
    hide GoodBlank;
    if parts != [] {
      var es := Deltas(MessageItem, k, parts);
      JoinCons(parts);
      assert t.slots[k].pending + (parts[0] + Join(parts[1..])) == (t.slots[k].pending + parts[0]) + Join(parts[1..]);
      PartsBlank(cfg, t.slots[k].pending + parts[0], Join(parts[1..]));
      PushOwn(cfg, t, k, TextDelta(parts[0]));
      BlankStep(cfg, t, k, Message, parts[0]);
      assert HandleItem(cfg, t, Some(k), TextDelta(parts[0])).t.open == None;
      hide HandleItem, Push, Join;
      BlankStaysClosed(cfg, Push(cfg, t, es[0]).t, k, parts[1..]);
    }
  }

  lemma PartsBlank(cfg: Config, a: Text, b: Text)
    requires GoodBlank(cfg) && cfg.blank(a + b)
    ensures cfg.blank(a) && cfg.blank(b)
  {
    assert Both(cfg, a, b);
  }

  lemma JoinBody(cfg: Config, t: Translator, e: Upstream, mid: seq<Upstream>, f: Upstream)
    requires HoldsItems(t)
    ensures var a := Push(cfg, t, e);
      var b := PushAll(cfg, a.t, mid);
      var d := Push(cfg, b.t, f);
      PushAll(cfg, t, [e] + mid + [f]) == Step(d.t, a.out + b.out + d.out)
  {
    hide Push;
    PushAllAppend(cfg, t, [e] + mid, [f]);
    PushAllAppend(cfg, t, [e], mid);
    PushAllOne(cfg, t, e);
    PushAllOne(cfg, PushAll(cfg, Push(cfg, t, e).t, mid).t, f);
  }

  lemma TakeThree(parse: Parser, c: Collection, a: seq<Emission>, b: seq<Emission>, d: seq<Emission>)
    ensures TakeAll(parse, c, Outs(a + b + d))
      == TakeAll(parse, TakeAll(parse, TakeAll(parse, c, Outs(a)), Outs(b)), Outs(d))
  {
    OutsAppend(a + b, d);
    OutsAppend(a, b);
    TakeAppend(parse, c, Outs(a) + Outs(b), Outs(d));
    TakeAppend(parse, c, Outs(a), Outs(b));
  }

  /** What one item of the response adds: the block it should become, or, for a call whose arguments
      do not parse, the failure of the whole. */
  ghost predicate ItemLaw(cfg: Config, parse: Parser, t: Translator, c: Collection, content: seq<Content>, k: nat,
                          ji: JsonItem)
    requires HoldsItems(t)
  {
    var r := PushAll(cfg, t, ItemEvents(k, ji));
    var d := TakeAll(parse, c, Outs(r.out));
    && r.t.hasTool == (t.hasTool || ji.item.kind.CallItem?)
    && if Parses(parse, ji) then Between(r.t, d, content + Gives(cfg, parse, ji, |content|), k + 1) else d.failed
  }

  /** What a message or reasoning item leaves behind. */
  function Leaves(cfg: Config, kind: Kind, text: Text, blob: Text): seq<Content> {
    if !cfg.blank(text) then [if kind == Message then Made(kind, text) else Made(kind, text).(signature := blob)]
    else if kind == Thinking && blob != [] then [Begin(RedactedBlock(blob))]
    else []
  }

  lemma MadeMiddle(cfg: Config, parse: Parser, t: Translator, c: Collection, content: seq<Content>, k: nat, kind: Kind,
                   parts: seq<Text>)
    requires GoodBlank(cfg) && Making(cfg, t, c, content, k, kind, []) && (kind == Message ==> t.open == None)
    ensures HoldsItems(t)
    ensures var b := PushAll(cfg, t, Deltas(if kind == Message then MessageItem else ReasoningItem, k, parts));
      && Making(cfg, b.t, TakeAll(parse, c, Outs(b.out)), content, k, kind, Join(parts)) && b.t.hasTool == t.hasTool
      && (kind == Message && cfg.blank(Join(parts)) ==> b.t.open == None)
  {
    hide PushAll, TakeAll, Join;
    var text := Join(parts);
    assert [] + text == text;
    assert cfg.blank([]);
    assert t.deferred == [] && t.slots[k].pending == [] && !t.slots[k].live;
    hide Making, GoodBlank;
    MakingAll(cfg, parse, t, c, content, k, kind, [], parts);
    if kind == Message && cfg.blank(text) {
      assert Has(t, k, Message) by { MakingHas(cfg, t, c, content, k, kind); }
      BlankStaysClosed(cfg, t, k, parts);
    }
  }

  lemma MakingHas(cfg: Config, t: Translator, c: Collection, content: seq<Content>, k: nat, kind: Kind)
    requires Making(cfg, t, c, content, k, kind, [])
    ensures Has(t, k, kind)
  {
  }

  lemma MakingReady(cfg: Config, t: Translator, c: Collection, content: seq<Content>, k: nat, kind: Kind, text: Text)
    requires Making(cfg, t, c, content, k, kind, text)
    ensures t.deferred == [] && (t.open == None || t.open == Some(k))
  {
  }

  lemma MadeRun(cfg: Config, parse: Parser, t: Translator, c: Collection, content: seq<Content>, k: nat, kind: Kind,
                ji: JsonItem)
    requires Between(t, c, content, k) && GoodBlank(cfg)
    requires ji.item.kind == if kind == Message then MessageItem else ReasoningItem
    requires kind == Message || kind == Thinking
    ensures HoldsItems(t)
    ensures var r := PushAll(cfg, t, ItemEvents(k, ji));
      && Between(r.t, TakeAll(parse, c, Outs(r.out)),
                 content + Leaves(cfg, kind, Join(ji.parts), Blob(cfg, Thinking, ji.item)), k + 1)
      && r.t.hasTool == t.hasTool
  {
    hide Between, Making, Push, PushAll, TakeAll, Blob, GoodBlank, Join, HandleItem;
    var e, f := OfItem(Some(k), Added(ji.item, NO_RESPONSE)), OfItem(Some(k), Done(ji.item));
    AddedCollected(cfg, parse, t, c, content, k, ji.item);
    var a := Push(cfg, t, e);
    var c1 := TakeAll(parse, c, Outs(a.out));
    MadeMiddle(cfg, parse, a.t, c1, content, k, kind, ji.parts);
    assert Middle(k, ji) == Deltas(if kind == Message then MessageItem else ReasoningItem, k, ji.parts);
    var b := PushAll(cfg, a.t, Middle(k, ji));
    var c2 := TakeAll(parse, c1, Outs(b.out));
    MakingReady(cfg, b.t, c2, content, k, kind, Join(ji.parts));
    MadeDone(cfg, parse, b.t, c2, content, k, kind, Join(ji.parts), ji.item);
    PushOwn(cfg, b.t, k, Done(ji.item));
    JoinBody(cfg, t, e, Middle(k, ji), f);
    TakeThree(parse, c, a.out, b.out, Push(cfg, b.t, f).out);
  }

  lemma MadeItem(cfg: Config, parse: Parser, t: Translator, c: Collection, content: seq<Content>, k: nat, ji: JsonItem)
    requires Between(t, c, content, k) && GoodBlank(cfg) && (ji.item.kind.MessageItem? || ji.item.kind.ReasoningItem?)
    ensures HoldsItems(t) && ItemLaw(cfg, parse, t, c, content, k, ji)
  {
    hide Between, PushAll, TakeAll, Blob, GoodBlank, Join;
    MadeRun(cfg, parse, t, c, content, k, if ji.item.kind.MessageItem? then Message else Thinking, ji);
  }

  lemma OtherItemLaw(cfg: Config, parse: Parser, t: Translator, c: Collection, content: seq<Content>, k: nat,
                     ji: JsonItem)
    requires Between(t, c, content, k) && GoodBlank(cfg) && ji.item.kind.OtherItem?
    ensures HoldsItems(t) && ItemLaw(cfg, parse, t, c, content, k, ji)
  {
    hide Push, PushAll, TakeAll, GoodBlank, HandleItem;
    var e, f := OfItem(Some(k), Added(ji.item, NO_RESPONSE)), OfItem(Some(k), Done(ji.item));
    AddedCollected(cfg, parse, t, c, content, k, ji.item);
    var a := Push(cfg, t, e);
    JoinBody(cfg, t, e, [], f);
    assert ItemEvents(k, ji) == [e] + [] + [f];
    NothingPushedNow(cfg, a.t);
    OtherAdded(cfg, t, k, ji.item);
    PushOwn(cfg, a.t, k, Done(ji.item));
    OtherDone(cfg, a.t, k, ji.item);
    TakeThree(parse, c, a.out, [], []);
    NothingTaken(parse, TakeAll(parse, c, Outs(a.out)));
    assert content + [] == content;
    assert a.out + [] + [] == a.out;
  }

  lemma NothingPushedNow(cfg: Config, t: Translator)
    requires HoldsItems(t)
    ensures PushAll(cfg, t, []) == Step(t, [])
  {
  }

  lemma OtherAdded(cfg: Config, t: Translator, k: nat, item: Item)
    requires t.started && t.deferred == [] && t.open == None && k !in t.slots && item.kind.OtherItem?
    ensures HoldsItems(t) && Push(cfg, t, OfItem(Some(k), Added(item, NO_RESPONSE))) == Step(t, [])
  {
    PushOwn(cfg, t, k, Added(item, NO_RESPONSE));
    hide Push;
  }

  lemma OtherDone(cfg: Config, t: Translator, k: nat, item: Item)
    requires k !in t.slots
    ensures HandleItem(cfg, t, Some(k), Done(item)) == Step(t, [])
  {
  }

  // ---- Calls ----

  function MadeCall(item: Item, n: nat): Content {
    Begin(ToolUseBlock(ToolId(item, n), item.name)).(json := item.arguments)
  }

  lemma CallArgs(cfg: Config, parse: Parser, t: Translator, c: Collection, content: seq<Content>, k: nat, item: Item)
    requires t.deferred == [] && t.open == Some(k) && k in t.slots && t.slots[k] == Slot(|content|, Tool, true, 0, [])
    requires !c.failed && !c.stopped
      && c.blocks == Listed(content + [Begin(ToolUseBlock(ToolId(item, |content|), item.name))])
    ensures var a := HandleItem(cfg, t, Some(k), ArgsDelta(item.arguments));
      && a.t == t.(slots := t.slots[k := t.slots[k].(argsSent := |item.arguments|)])
      && TakeAll(parse, c, Outs(a.out)) == c.(blocks := Listed(content + [MadeCall(item, |content|)]))
  {
    hide TakeAll, ToolId;
    var args, n := item.arguments, |content|;
    var a := HandleItem(cfg, t, Some(k), ArgsDelta(args));
    ListedMore(content, Begin(ToolUseBlock(ToolId(item, n), item.name)), MadeCall(item, n));
    NothingTaken(parse, c);
    TakeOne(parse, c, BlockDelta(n, Json(args)));
    assert [] + args == args;
    assert t.slots[k := t.slots[k]] == t.slots;
    assert Outs(a.out) == if args == [] then Outs([]) else [BlockDelta(n, Json(args))];
  }

  lemma CallEnd(cfg: Config, parse: Parser, t: Translator, c: Collection, content: seq<Content>, k: nat, item: Item)
    requires t.open == Some(k) && k in t.slots && t.slots[k] == Slot(|content|, Tool, true, |item.arguments|, [])
    requires !c.failed && !c.stopped && c.blocks == Listed(content + [MadeCall(item, |content|)])
    ensures var b := HandleItem(cfg, t, Some(k), Done(item));
      var d := TakeAll(parse, c, Outs(b.out));
      && b.t == t.(slots := t.slots[k := t.slots[k].(live := false)], open := None)
      && (item.arguments != [] && parse(item.arguments).None? ==> d.failed)
      && (item.arguments == [] ==> d == c)
      && (item.arguments != [] && parse(item.arguments).Some? ==>
            d == c.(blocks := Listed(content + [MadeCall(item, |content|).(input := parse(item.arguments).value)])))
  {
    hide TakeAll, ToolId;
    var args, n := item.arguments, |content|;
    var b := HandleItem(cfg, t, Some(k), Done(item));
    assert Outs(b.out) == [BlockStop(n)];
    TakeOne(parse, c, BlockStop(n));
    ListedMore(content, MadeCall(item, n), MadeCall(item, n));
    if args != [] && parse(args).Some? {
      ListedMore(content, MadeCall(item, n), MadeCall(item, n).(input := parse(args).value));
    }
  }

  /** The arguments and the end of a call's block. */
  lemma CallRest(cfg: Config, parse: Parser, t: Translator, c: Collection, content: seq<Content>, k: nat, item: Item)
    requires t.deferred == [] && t.open == Some(k) && k in t.slots && t.slots[k] == Slot(|content|, Tool, true, 0, [])
    requires !c.failed && !c.stopped
      && c.blocks == Listed(content + [Begin(ToolUseBlock(ToolId(item, |content|), item.name))])
    ensures HoldsItems(t)
    ensures var a := Push(cfg, t, OfItem(Some(k), ArgsDelta(item.arguments)));
      var b := Push(cfg, a.t, OfItem(Some(k), Done(item)));
      var d := TakeAll(parse, TakeAll(parse, c, Outs(a.out)), Outs(b.out));
      var made := MadeCall(item, |content|);
      && b.t == t.(slots := t.slots[k := t.slots[k].(live := false, argsSent := |item.arguments|)], open := None)
      && (item.arguments != [] && parse(item.arguments).None? ==> d.failed)
      && (item.arguments == [] ==> d == c.(blocks := Listed(content + [made])))
      && (item.arguments != [] && parse(item.arguments).Some? ==>
            d == c.(blocks := Listed(content + [made.(input := parse(item.arguments).value)])))
  {
    hide TakeAll, ToolId, Push, HandleItem, Listed, MadeCall;
    PushOwn(cfg, t, k, ArgsDelta(item.arguments));
    CallArgs(cfg, parse, t, c, content, k, item);
    var a := HandleItem(cfg, t, Some(k), ArgsDelta(item.arguments));
    PushOwn(cfg, a.t, k, Done(item));
    CallEnd(cfg, parse, a.t, TakeAll(parse, c, Outs(a.out)), content, k, item);
  }

  lemma CallItemLaw(cfg: Config, parse: Parser, t: Translator, c: Collection, content: seq<Content>, k: nat,
                    ji: JsonItem)
    requires Between(t, c, content, k) && GoodBlank(cfg) && ji.item.kind.CallItem?
    ensures HoldsItems(t) && ItemLaw(cfg, parse, t, c, content, k, ji)
  {
    hide Push, PushAll, TakeAll, GoodBlank, HandleItem, ToolId, Listed;
    var item := ji.item;
    var e, f := OfItem(Some(k), Added(item, NO_RESPONSE)), OfItem(Some(k), Done(item));
    var m := OfItem(Some(k), ArgsDelta(item.arguments));
    AddedCollected(cfg, parse, t, c, content, k, item);
    var a := Push(cfg, t, e);
    var c1 := TakeAll(parse, c, Outs(a.out));
    CallRest(cfg, parse, a.t, c1, content, k, item);
    JoinBody(cfg, t, e, [m], f);
    PushAllOne(cfg, a.t, m);
    assert Middle(k, ji) == [m];
    var b := Push(cfg, a.t, m);
    TakeThree(parse, c, a.out, b.out, Push(cfg, b.t, f).out);
  }

  lemma EveryItemLaw(cfg: Config, parse: Parser, t: Translator, c: Collection, content: seq<Content>, k: nat,
                     ji: JsonItem)
    requires Between(t, c, content, k) && GoodBlank(cfg)
    ensures HoldsItems(t) && ItemLaw(cfg, parse, t, c, content, k, ji)
  {
    hide Between, ItemLaw, GoodBlank;
    match ji.item.kind
    case MessageItem => MadeItem(cfg, parse, t, c, content, k, ji);
    case ReasoningItem => MadeItem(cfg, parse, t, c, content, k, ji);
    case CallItem => CallItemLaw(cfg, parse, t, c, content, k, ji);
    case OtherItem => OtherItemLaw(cfg, parse, t, c, content, k, ji);
  }

  // ---- The whole response ----

  lemma {:induction false} StaysFailed(parse: Parser, c: Collection, es: seq<Out>)
    requires c.failed
    ensures TakeAll(parse, c, es).failed
    decreases |es|
  {
    if es != [] {
      StaysFailed(parse, Take(parse, c, es[0]), es[1..]);
    }
  }

  predicate CallsSome(items: seq<JsonItem>) {
    exists ji <- items :: ji.item.kind.CallItem?
  }

  lemma {:induction false} OutputLaw(cfg: Config, parse: Parser, t: Translator, c: Collection, content: seq<Content>,
                                     k: nat, items: seq<JsonItem>)
    requires Between(t, c, content, k) && GoodBlank(cfg)
    ensures HoldsItems(t)
    ensures var r := PushAll(cfg, t, OutputEvents(k, items));
      var d := TakeAll(parse, c, Outs(r.out));
      if forall ji <- items :: Parses(parse, ji) then
        Between(r.t, d, content + GivesAll(cfg, parse, items, |content|), k + |items|)
        && r.t.hasTool == (t.hasTool || CallsSome(items))
      else d.failed
    decreases |items|
  {
    hide Between, GoodBlank, PushAll, TakeAll, Gives, ItemEvents, Parses;
    assert HoldsItems(t) by { BetweenHolds(t, c, content, k); }
    if items == [] {
      NothingPushedNow(cfg, t);
      NothingTaken(parse, c);
      assert content + [] == content;
    } else {
      var ji := items[0];
      EveryItemLaw(cfg, parse, t, c, content, k, ji);
      var a := PushAll(cfg, t, ItemEvents(k, ji));
      var c1 := TakeAll(parse, c, Outs(a.out));
      PushAllAppend(cfg, t, ItemEvents(k, ji), OutputEvents(k + 1, items[1..]));
      var b := PushAll(cfg, a.t, OutputEvents(k + 1, items[1..]));
      OutsAppend(a.out, b.out);
      TakeAppend(parse, c, Outs(a.out), Outs(b.out));
      assert items == [ji] + items[1..];
      if Parses(parse, ji) {
        var more := content + Gives(cfg, parse, ji, |content|);
        OutputLaw(cfg, parse, a.t, c1, more, k + 1, items[1..]);
        if forall jj <- items :: Parses(parse, jj) {
          assert forall jj <- items[1..] :: jj in items;
          assert more + GivesAll(cfg, parse, items[1..], |more|) == content + GivesAll(cfg, parse, items, |content|);
        }
      } else {
        StaysFailed(parse, c1, Outs(b.out));
      }
    }
  }

  lemma BetweenHolds(t: Translator, c: Collection, content: seq<Content>, k: nat)
    requires Between(t, c, content, k)
    ensures HoldsItems(t)
  {
  }

  lemma {:induction false} InOrderOfListed(from: seq<Content>, m: map<nat, Content>, lo: nat)
    requires forall i: nat :: i in m <==> lo <= i < |from|
    requires lo <= |from| && forall i: nat :: i in m ==> m[i] == from[i]
    ensures InOrder(m) == from[lo..]
    decreases |from| - lo
  {
    if lo == |from| {
      assert m == map[];
    } else {
      assert IsLeast(m.Keys, lo);
      AnthropicMessageCollector.LeastIs(m, lo);
      InOrderOfListed(from, m - {lo}, lo + 1);
      assert from[lo..] == [from[lo]] + from[lo + 1..];
    }
  }

  lemma ListedInOrder(content: seq<Content>)
    ensures InOrder(Listed(content)) == content
    ensures Listed(content) == map[] <==> content == []
  {
    InOrderOfListed(content, Listed(content), 0);
    assert content != [] ==> 0 in Listed(content);
  }

  /** The announcement of the response. */
  lemma BegunCollected(cfg: Config, parse: Parser, model: Text, r: Response)
    ensures var a := Push(cfg, Fresh(model), Begun(r));
      && Between(a.t, TakeAll(parse, EMPTY, Outs(a.out)), [], 0) && !a.t.hasTool
      && TakeAll(parse, EMPTY, Outs(a.out)).message
           == Some(Header(r.id, if !cfg.pinned && r.model != [] then r.model else model, None, []))
  {
    hide TakeAll;
    var a := Push(cfg, Fresh(model), Begun(r));
    var model1 := if !cfg.pinned && r.model != [] then r.model else model;
    assert Drain(cfg, EnsureStart(cfg, Fresh(model), r).t, false) == Step(EnsureStart(cfg, Fresh(model), r).t, []);
    assert Outs(a.out) == [MessageStart(r.id, model1)];
    TakeOne(parse, EMPTY, MessageStart(r.id, model1));
    assert Listed([]) == map[];
  }

  /** And its end. */
  lemma EndedCollected(cfg: Config, parse: Parser, t: Translator, c: Collection, content: seq<Content>, k: nat,
                       r: Response)
    requires Between(t, c, content, k)
    ensures HoldsItems(t)
    ensures var d := TakeAll(parse, c, Outs(Push(cfg, t, Ended(r)).out));
      d == c.(message := Some(c.message.value.(stopReason := Some(Reason(t, r)), usage := r.usage)), stopped := true)
  {
    hide TakeAll;
    assert Drain(cfg, t, true) == Step(t, []);
    var u := t.(open := None, finished := true);
    assert Drain(cfg, u, false) == Step(u, []);
    var e, f := MessageDelta(Reason(t, r), r.usage), MessageStop;
    assert Complete(cfg, t, r).t == u;
    assert Outs(Push(cfg, t, Ended(r)).out) == [e, f];
    TakeTwo(parse, c, e, f);
  }

  lemma {:induction false} MessageUntouched(parse: Parser, c: Collection, es: seq<Out>)
    requires forall i :: 0 <= i < |es| ==> !es[i].MessageStart? && !es[i].MessageDelta?
    ensures TakeAll(parse, c, es).message == c.message
    decreases |es|
  {
    if es != [] {
      MessageUntouched(parse, Take(parse, c, es[0]), es[1..]);
    }
  }

  /** Block events only. */
  predicate OnlyBlocks(out: seq<Emission>) {
    forall i :: 0 <= i < |out| ==> !out[i].event.MessageStart? && !out[i].event.MessageDelta?
  }

  lemma ItemOnlyBlocks(cfg: Config, t: Translator, key: Option<int>, body: Body)
    requires t.started
    ensures OnlyBlocks(HandleItem(cfg, t, key, body).out) && HandleItem(cfg, t, key, body).t.started
  {
    hide Blob, ToolId, Tail, OnAdded, OnText, OnSummary, OnThinkingDone;
    match body
    case Added(item, r) => AddedOnlyBlocks(cfg, t, key, item, r);
    case TextDelta(delta) => DeltaOnlyBlocks(cfg, t, if key.Some? then key.value else -1, delta);
    case SummaryDelta(delta) => DeltaOnlyBlocks(cfg, t, if key.Some? then key.value else -1, delta);
    case ArgsDelta(delta) =>
    case Done(item) =>
      if Has(t, if key.Some? then key.value else -1, Thinking) {
        ThinkingDoneOnlyBlocks(cfg, t, if key.Some? then key.value else -1, item);
      }
  }

  lemma AddedOnlyBlocks(cfg: Config, t: Translator, key: Option<int>, item: Item, r: Response)
    requires t.started
    ensures OnlyBlocks(OnAdded(cfg, t, key, item, r).out) && OnAdded(cfg, t, key, item, r).t.started
  {
    hide ToolId;
  }

  lemma DeltaOnlyBlocks(cfg: Config, t: Translator, k: int, delta: Text)
    requires t.started
    ensures OnlyBlocks(OnText(cfg, t, k, delta).out) && OnText(cfg, t, k, delta).t.started
    ensures OnlyBlocks(OnSummary(cfg, t, k, delta).out) && OnSummary(cfg, t, k, delta).t.started
  {
    hide CloseOther, OpenWith;
    CloseOnlyBlocks(t, k);
    if k in t.slots {
      OpenOnlyBlocks(t, k, TextBlock, Words(t.slots[k].pending + delta));
      OpenOnlyBlocks(t, k, ThinkingBlock, Thought(t.slots[k].pending + delta));
    }
  }

  lemma CloseOnlyBlocks(t: Translator, k: int)
    requires t.started
    ensures OnlyBlocks(CloseOther(t, k).out) && CloseOther(t, k).t.started
  {
  }

  lemma OpenOnlyBlocks(t: Translator, k: int, start: Start, piece: Piece)
    requires t.started && k in t.slots
    ensures OnlyBlocks(OpenWith(t, k, start, piece).out) && OpenWith(t, k, start, piece).t.started
  {
    hide CloseOther;
    CloseOnlyBlocks(t, k);
  }

  lemma ThinkingDoneOnlyBlocks(cfg: Config, t: Translator, k: int, item: Item)
    requires t.started && k in t.slots
    ensures OnlyBlocks(OnThinkingDone(cfg, t, k, item).out) && OnThinkingDone(cfg, t, k, item).t.started
  {
    hide Blob;
  }

  lemma {:induction false} DrainOnlyBlocks(cfg: Config, t: Translator)
    requires t.started && HoldsItems(t)
    ensures OnlyBlocks(Drain(cfg, t, false).out) && Drain(cfg, t, false).t.started
    decreases |t.deferred|
  {
    hide HandleItem, FirstReady;
    var i := FirstReady(t, t.deferred);
    if i < |t.deferred| {
      ItemOnlyBlocks(cfg, t.(deferred := t.deferred[..i] + t.deferred[i + 1..]), t.deferred[i].k, t.deferred[i].body);
      DrainOnlyBlocks(cfg, HandleHeld(cfg, t, i).t);
    }
  }

  lemma {:induction false} ItemsOnlyBlocks(cfg: Config, t: Translator, es: seq<Upstream>)
    requires t.started && HoldsItems(t) && forall e <- es :: e.OfItem?
    ensures OnlyBlocks(PushAll(cfg, t, es).out)
    decreases |es|
  {
    hide HandleItem, Drain, ShouldDefer;
    if es != [] {
      var e := es[0];
      ItemOnlyBlocks(cfg, t, e.k, e.body);
      if !ShouldDefer(t, e) {
        DrainOnlyBlocks(cfg, Handle(cfg, t, e).t);
      }
      ItemsOnlyBlocks(cfg, Push(cfg, t, e).t, es[1..]);
    }
  }

  lemma {:induction false} DeltasAreItems(kind: ItemKind, k: nat, parts: seq<Text>)
    ensures forall e <- Deltas(kind, k, parts) :: e.OfItem?
  {
    if parts != [] {
      DeltasAreItems(kind, k, parts[1..]);
    }
  }

  lemma {:induction false} OutputIsItems(k: nat, items: seq<JsonItem>)
    ensures forall e <- OutputEvents(k, items) :: e.OfItem?
    decreases |items|
  {
    if items != [] {
      DeltasAreItems(MessageItem, k, items[0].parts);
      DeltasAreItems(ReasoningItem, k, items[0].parts);
      OutputIsItems(k + 1, items[1..]);
    }
  }
}
