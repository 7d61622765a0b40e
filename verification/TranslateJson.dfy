/** A whole JSON response as the stream of events it stands for. */
module TranslateJson {
  import opened Text
  import opened Translate

  /** An item of the response: `parts` are the texts of a message or of a summary. */
  datatype JsonItem = JsonItem(item: Item, parts: seq<Text>)

  datatype JsonResponse =
    | NotAnObject
    | NotTerminal
    | Unsuccessful(message: Text)
    | Finished(response: Response, output: seq<JsonItem>)

  const NO_RESPONSE := Response([], [], false, [])

  const INVALID_OBJECT: Text := [105, 110, 118, 97, 108, 105, 100]
  const NOT_YET_TERMINAL: Text := [112, 101, 110, 100, 105, 110, 103]

  function Deltas(kind: ItemKind, k: nat, parts: seq<Text>): seq<Upstream> {
    if parts == [] then []
    else
      [OfItem(Some(k), if kind.MessageItem? then TextDelta(parts[0]) else SummaryDelta(parts[0]))]
      + Deltas(kind, k, parts[1..])
  }

  function Middle(k: nat, ji: JsonItem): seq<Upstream> {
    match ji.item.kind
    case MessageItem => Deltas(MessageItem, k, ji.parts)
    case ReasoningItem => Deltas(ReasoningItem, k, ji.parts)
    case CallItem => [OfItem(Some(k), ArgsDelta(ji.item.arguments))]
    case OtherItem => []
  }

  function ItemEvents(k: nat, ji: JsonItem): seq<Upstream> {
    [OfItem(Some(k), Added(ji.item, NO_RESPONSE))] + Middle(k, ji) + [OfItem(Some(k), Done(ji.item))]
  }

  function OutputEvents(k: nat, items: seq<JsonItem>): seq<Upstream>
    decreases |items|
  {
    if items == [] then [] else ItemEvents(k, items[0]) + OutputEvents(k + 1, items[1..])
  }

  /** The life of a finished response, told as a stream. */
  function Events(r: Response, output: seq<JsonItem>): seq<Upstream> {
    [Begun(r)] + OutputEvents(0, output) + [Ended(r)]
  }

  function PushJson(cfg: Config, t: Translator, j: JsonResponse): (s: Step)
    requires HoldsItems(t)
    ensures HoldsItems(s.t)
  {
    match j
    case NotAnObject => Fail(cfg, t, INVALID_OBJECT)
    case NotTerminal => Fail(cfg, t, NOT_YET_TERMINAL)
    case Unsuccessful(message) => Push(cfg, t, Broke(message))
    case Finished(r, output) => PushAll(cfg, t, Events(r, output))
  }

  lemma {:induction false} PushAllAppend(cfg: Config, t: Translator, a: seq<Upstream>, b: seq<Upstream>)
    requires HoldsItems(t)
    ensures var x := PushAll(cfg, t, a);
      var y := PushAll(cfg, x.t, b);
      PushAll(cfg, t, a + b) == Step(y.t, x.out + y.out)
    decreases |a|
  {
    hide Push;
    if a == [] {
      assert a + b == b;
      assert [] + PushAll(cfg, t, b).out == PushAll(cfg, t, b).out;
    } else {
      assert (a + b)[0] == a[0] && (a + b)[1..] == a[1..] + b;
      var h := Push(cfg, t, a[0]);
      PushAllAppend(cfg, h.t, a[1..], b);
      var x := PushAll(cfg, h.t, a[1..]);
      var y := PushAll(cfg, x.t, b);
      assert h.out + (x.out + y.out) == (h.out + x.out) + y.out;
    }
  }

  lemma PushAllOne(cfg: Config, t: Translator, e: Upstream)
    requires HoldsItems(t)
    ensures PushAll(cfg, t, [e]) == Push(cfg, t, e)
  {
    hide Push;
    assert [e][1..] == [];
    assert Push(cfg, t, e).out + [] == Push(cfg, t, e).out;
  }
}
