/** What the translator wrote into a conversation comes back upstream as it was, in order. */
module ReplayLaws {
  import opened Text
  import opened Translate
  import opened TranslateMeaning
  import opened TranslateJson
  import C = Collect
  import L = CollectLaws
  import R = Replay
  import opened JsonMap

  // ---- The signature blob ----

  function IdOf(item: Item): Option<Text> {
    if item.id.Some? && item.id.value != [] then item.id else None
  }

  /** With an id, the id must not hold a hash; without one, the encrypted content must not look as if
      it began with an id. */
  predicate Legible(item: Item) {
    if IdOf(item).Some? then 35 !in item.id.value
    else !(ID_MARK <= item.encrypted && R.IndexFrom(item.encrypted, 35, 4).Some? && item.encrypted[4] != 35)
  }

  lemma SplitWithId(id: Text, encrypted: Text)
    requires id != []
    ensures R.SplitBlob(ID_MARK + id + HASH + encrypted) == R.Split(Some(id), encrypted) <==> 35 !in id
  {
    var blob := ID_MARK + id + HASH + encrypted;
    assert blob[..4] == ID_MARK && blob[4 + |id|] == 35;
    assert blob[4..4 + |id|] == id && blob[4 + |id| + 1..] == encrypted;
    assert forall i :: 4 <= i < 4 + |id| ==> blob[i] == id[i - 4];
    if 35 in id {
      var p :| 0 <= p < |id| && id[p] == 35;
      assert blob[4 + p] == 35;
    }
  }

  /** Splitting gives back the id and the encrypted content just when they are legible. */
  lemma BlobComesBack(cfg: Config, item: Item)
    requires item.encrypted != []
    ensures cfg.prefix <= Blob(cfg, Thinking, item)
    ensures R.SplitBlob(Blob(cfg, Thinking, item)[|cfg.prefix|..]) == R.Split(IdOf(item), item.encrypted)
      <==> Legible(item)
  {
    var blob := Blob(cfg, Thinking, item)[|cfg.prefix|..];
    if IdOf(item).None? {
      assert blob == item.encrypted;
    } else {
      hide R.SplitBlob;
      assert blob == ID_MARK + item.id.value + HASH + item.encrypted;
      SplitWithId(item.id.value, item.encrypted);
    }
  }

  /** A thinking block with the signature the translator gives it, and a redacted block holding one,
      are replayed as the reasoning item they came from. */
  lemma SignatureComesBack(cfg: Config, item: Item, summary: Text)
    requires cfg.prefix != [] && item.encrypted != []
    ensures var policy := R.Policy(cfg.prefix, false);
      var blob, whole := Blob(cfg, Thinking, item), R.ReasoningInput(IdOf(item), summary, item.encrypted);
      && (R.Own(policy, R.Thinking(summary, blob)) == [whole] <==> Legible(item))
      && (R.Own(policy, R.Redacted(blob)) == [whole.(summary := [])] <==> Legible(item))
      && |R.Own(policy, R.Thinking(summary, blob))| == 1 == |R.Own(policy, R.Redacted(blob))|
  {
    hide Blob, R.SplitBlob, Legible;
    BlobComesBack(cfg, item);
  }

  // ---- A whole response ----

  function AsBlock(b: C.Content): R.Block {
    match b.start
    case TextBlock => R.TextPart(b.text)
    case ThinkingBlock => R.Thinking(b.thinking, b.signature)
    case RedactedBlock(data) => R.Redacted(data)
    case ToolUseBlock(id, name) => R.Use(id, name, b.input)
  }

  function AsBlocks(content: seq<C.Content>): seq<R.Block> {
    seq(|content|, i requires 0 <= i < |content| => AsBlock(content[i]))
  }

  /** The items that stand for themselves: everything but messages. */
  function Apart(items: seq<R.Input>): seq<R.Input> {
    if items == [] then []
    else (if items[0].MessageInput? then [] else [items[0]]) + Apart(items[1..])
  }

  /** What of an item must come back; `n` is the number its block gets. */
  function Wanted(cfg: Config, parse: C.Parser, ji: JsonItem, n: nat): seq<R.Input>
    requires L.Parses(parse, ji)
  {
    match ji.item.kind
    case ReasoningItem =>
      var summary := Join(ji.parts);
      if ji.item.encrypted == [] then []
      else [R.ReasoningInput(IdOf(ji.item), if cfg.blank(summary) then [] else summary, ji.item.encrypted)]
    case CallItem =>
      var args := ji.item.arguments;
      [R.CallInput(ToolId(ji.item, n), ji.item.name, if args == [] then C.NO_INPUT else parse(args).value)]
    case _ => []
  }

  function WantedAll(cfg: Config, parse: C.Parser, items: seq<JsonItem>, n: nat): seq<R.Input>
    requires forall ji <- items :: L.Parses(parse, ji)
    decreases |items|
  {
    if items == [] then []
    else Wanted(cfg, parse, items[0], n) + WantedAll(cfg, parse, items[1..], n + |L.Gives(cfg, parse, items[0], n)|)
  }

  /** A reasoning item is legible; a call's arguments are not a bare null, which is replayed as an
      empty object. */
  predicate Returns(parse: C.Parser, ji: JsonItem)
    requires L.Parses(parse, ji)
  {
    match ji.item.kind
    case ReasoningItem => ji.item.encrypted == [] || Legible(ji.item)
    case CallItem => ji.item.arguments == [] || parse(ji.item.arguments).value != R.NULL
    case _ => true
  }

  function Owned(policy: R.Policy, blocks: seq<R.Block>): seq<R.Input> {
    if blocks == [] then [] else R.Own(policy, blocks[0]) + Owned(policy, blocks[1..])
  }

  lemma {:induction false} ApartAppend(a: seq<R.Input>, b: seq<R.Input>)
    ensures Apart(a + b) == Apart(a) + Apart(b)
  {
    if a == [] {
      assert a + b == b;
    } else {
      assert (a + b)[0] == a[0] && (a + b)[1..] == a[1..] + b;
      ApartAppend(a[1..], b);
    }
  }

  lemma OwnIsApart(policy: R.Policy, b: R.Block)
    ensures Apart(R.Own(policy, b)) == R.Own(policy, b)
  {
    hide R.Reasoning;
    var own := R.Own(policy, b);
    R.OneOwn(policy, b);
    if own != [] {
      assert own == [own[0]] && own[1..] == [];
    }
  }

  /** Apart from messages, a message's items are what its blocks own, in order. */
  lemma {:induction false} RestApart(s: R.Speaker, policy: R.Policy, pending: seq<R.Part>, blocks: seq<R.Block>)
    ensures Apart(R.Rest(s, policy, pending, blocks)) == Owned(policy, blocks)
    decreases |blocks|
  {
    hide R.Reasoning;
    var flushed := R.Flush(s, pending);
    assert Apart(flushed) == [] by { assert flushed == [] || flushed[1..] == []; }
    if blocks != [] {
      var own := R.Own(policy, blocks[0]);
      if R.IsPart(blocks[0]) || blocks[0].Unknown? {
        RestApart(s, policy, pending + R.Parts(s, blocks[0]), blocks[1..]);
        assert [] + Owned(policy, blocks[1..]) == Owned(policy, blocks[1..]);
      } else {
        RestApart(s, policy, [], blocks[1..]);
        OwnIsApart(policy, blocks[0]);
        ApartAppend(flushed, own);
        ApartAppend(flushed + own, R.Rest(s, policy, [], blocks[1..]));
        assert [] + own == own;
      }
    }
  }

  lemma {:induction false} OwnedAppend(policy: R.Policy, a: seq<R.Block>, b: seq<R.Block>)
    ensures Owned(policy, a + b) == Owned(policy, a) + Owned(policy, b)
  {
    hide R.Own;
    if a == [] {
      assert a + b == b;
    } else {
      assert (a + b)[0] == a[0] && (a + b)[1..] == a[1..] + b;
      OwnedAppend(policy, a[1..], b);
    }
  }

  lemma OwnedOne(policy: R.Policy, b: R.Block)
    ensures Owned(policy, [b]) == R.Own(policy, b) && Owned(policy, []) == []
  {
    hide R.Own;
    assert [b][1..] == [];
  }

  /** One item of the response, there and back. */
  lemma ItemComesBack(cfg: Config, parse: C.Parser, ji: JsonItem, n: nat)
    requires GoodBlank(cfg) && cfg.prefix != [] && L.Parses(parse, ji)
    ensures var there := Owned(R.Policy(cfg.prefix, false), AsBlocks(L.Gives(cfg, parse, ji, n)));
      && |there| == |Wanted(cfg, parse, ji, n)|
      && (there == Wanted(cfg, parse, ji, n) <==> Returns(parse, ji))
  {
    hide Blob, Legible, ToolId, Join, GoodBlank, R.SplitBlob;
    var policy := R.Policy(cfg.prefix, false);
    var given := L.Gives(cfg, parse, ji, n);
    if given == [] {
      assert AsBlocks(given) == [];
      if ji.item.kind.ReasoningItem? { NoBlob(cfg, ji.item); }
    } else {
      assert AsBlocks(given) == [AsBlock(given[0])];
      OwnedOne(policy, AsBlock(given[0]));
      if ji.item.kind.ReasoningItem? {
        NoBlob(cfg, ji.item);
        if ji.item.encrypted != [] {
          SignatureComesBack(cfg, ji.item, Join(ji.parts));
        }
      }
    }
  }

  lemma NoBlob(cfg: Config, item: Item)
    ensures Blob(cfg, Thinking, item) == [] <==> item.encrypted == []
  {
  }

  lemma EqualPieces<T>(a: seq<T>, b: seq<T>, x: seq<T>, y: seq<T>)
    requires |a| == |b|
    ensures a + x == b + y <==> a == b && x == y
  {
    if a + x == b + y {
      assert a == (a + x)[..|a|] && b == (b + y)[..|a|];
      assert x == (a + x)[|a|..] && y == (b + y)[|a|..];
    }
  }

  lemma {:induction false} EveryItemComesBack(cfg: Config, parse: C.Parser, items: seq<JsonItem>, n: nat)
    requires GoodBlank(cfg) && cfg.prefix != [] && forall ji <- items :: L.Parses(parse, ji)
    ensures var there := Owned(R.Policy(cfg.prefix, false), AsBlocks(L.GivesAll(cfg, parse, items, n)));
      there == WantedAll(cfg, parse, items, n) <==> forall ji <- items :: Returns(parse, ji)
    decreases |items|
  {
    hide GoodBlank, L.Parses, L.Gives, Wanted, Returns, R.Own;
    var policy := R.Policy(cfg.prefix, false);
    if items == [] {
      assert AsBlocks([]) == [];
    } else {
      var here := L.Gives(cfg, parse, items[0], n);
      var rest := L.GivesAll(cfg, parse, items[1..], n + |here|);
      assert AsBlocks(here + rest) == AsBlocks(here) + AsBlocks(rest);
      OwnedAppend(policy, AsBlocks(here), AsBlocks(rest));
      ItemComesBack(cfg, parse, items[0], n);
      EveryItemComesBack(cfg, parse, items[1..], n + |here|);
      EqualPieces(Owned(policy, AsBlocks(here)), Wanted(cfg, parse, items[0], n), Owned(policy, AsBlocks(rest)),
                  WantedAll(cfg, parse, items[1..], n + |here|));
      assert items == [items[0]] + items[1..];
    }
  }

  /** A finished response, translated, folded and replayed by the same provider, gives back its
      reasoning items and calls, in their order, just when every item returns. */
  lemma ReplayRoundTrip(cfg: Config, parse: C.Parser, model: Text, r: Response, items: seq<JsonItem>)
    requires GoodBlank(cfg) && cfg.prefix != []
    ensures var out := Outs(PushJson(cfg, Fresh(model), JsonResponse.Finished(r, items)).out);
      var m := C.Outcome(C.TakeAll(parse, C.EMPTY, out));
      m.Whole? ==>
        && (forall ji <- items :: L.Parses(parse, ji))
        && (Apart(R.Inputs(R.Assistant, R.Policy(cfg.prefix, false), R.Blocks(AsBlocks(m.content))))
            == WantedAll(cfg, parse, items, 0)
            <==> forall ji <- items :: Returns(parse, ji))
  {
    hide GoodBlank, PushJson, C.TakeAll, C.Outcome, L.Parses, L.GivesAll, WantedAll, Returns, R.Rest, Apart, Owned;
    JsonIsAPlainMap(cfg, parse, model, r, items);
    if forall ji <- items :: L.Parses(parse, ji) {
      EveryItemComesBack(cfg, parse, items, 0);
      RestApart(R.Assistant, R.Policy(cfg.prefix, false), [], AsBlocks(L.GivesAll(cfg, parse, items, 0)));
    }
  }
}
