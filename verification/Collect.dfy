/** Folding the translated stream back into one message. A collection keeps the header and the blocks
    by number, and once it has failed or was stopped it takes in nothing more. Arguments of a call are
    parsed when its block stops, and a stream that did not end properly, or has no block at all, gives
    no message. */
module Collect {
  import opened Text
  import opened Translate

  const NO_INPUT: Text := [123, 125]

  /** A content block: how it started, and what its deltas added. `json` is its input as text so
      far, `input` the parsed input, in canonical print. */
  datatype Content = Content(start: Start, text: Text, thinking: Text, signature: Text, input: Text, json: Text)

  datatype Header = Header(id: Text, model: Text, stopReason: Option<StopReason>, usage: Text)

  datatype Collection = Collection(message: Option<Header>, blocks: map<nat, Content>, stopped: bool, failed: bool)

  /** JSON text to the canonical print of its value, or None where it does not parse. */
  type Parser = Text -> Option<Text>

  const EMPTY := Collection(None, map[], false, false)

  function Begin(start: Start): Content {
    Content(start, [], [], [], NO_INPUT, [])
  }

  function Add(b: Content, piece: Piece): Content {
    match piece
    case Words(t) => b.(text := b.text + t)
    case Thought(t) => b.(thinking := b.thinking + t)
    case Signature(t) => b.(signature := b.signature + t)
    case Json(t) => b.(json := b.json + t)
  }

  function Failed(c: Collection): Collection {
    c.(failed := true)
  }

  function Take(parse: Parser, c: Collection, e: Out): Collection {
    if c.failed || c.stopped then c
    else match e
      case MessageStart(id, model) => c.(message := Some(Header(id, model, None, [])))
      case BlockStart(i, start) =>
        if i < 0 || i in c.blocks then Failed(c) else c.(blocks := c.blocks[i := Begin(start)])
      case BlockDelta(i, piece) =>
        if i !in c.blocks then Failed(c) else c.(blocks := c.blocks[i := Add(c.blocks[i], piece)])
      case BlockStop(i) =>
        if i !in c.blocks then Failed(c)
        else if !c.blocks[i].start.ToolUseBlock? || c.blocks[i].json == [] then c
        else if parse(c.blocks[i].json).None? then Failed(c)
        else c.(blocks := c.blocks[i := c.blocks[i].(input := parse(c.blocks[i].json).value)])
      case MessageDelta(reason, usage) =>
        if c.message.None? then Failed(c)
        else c.(message := Some(c.message.value.(stopReason := Some(reason), usage := usage)))
      case MessageStop => c.(stopped := true)
      case Error(_) => Failed(c)
  }

  function TakeAll(parse: Parser, c: Collection, es: seq<Out>): Collection
    decreases |es|
  {
    if es == [] then c else TakeAll(parse, Take(parse, c, es[0]), es[1..])
  }

  predicate IsLeast(s: set<nat>, k: nat) {
    k in s && forall x <- s :: k <= x
  }

  lemma {:induction false} LeastExists(s: set<nat>)
    requires s != {}
    ensures exists k :: IsLeast(s, k)
    decreases |s|
  {
    var x: nat :| x in s;
    if s == {x} {
      assert IsLeast(s, x);
    } else {
      LeastExists(s - {x});
      var k: nat :| IsLeast(s - {x}, k);
      assert forall y <- s :: y == x || y in s - {x};
      assert IsLeast(s, if x < k then x else k);
    }
  }

  /** The blocks by number. */
  ghost function InOrder(m: map<nat, Content>): seq<Content>
    decreases |m|
  {
    if m == map[] then []
    else
      LeastExists(m.Keys);
      var k: nat :| IsLeast(m.Keys, k);
      assert |m - {k}| < |m| by { assert (m - {k}).Keys == m.Keys - {k}; }
      [m[k]] + InOrder(m - {k})
  }

  datatype Result = Whole(header: Header, content: seq<Content>) | Incomplete

  /** The message, if the stream came to a proper end and has content. */
  ghost function Outcome(c: Collection): Result {
    if c.failed || c.message.None? || !c.stopped || c.blocks == map[] then Incomplete
    else Whole(c.message.value, InOrder(c.blocks))
  }

  // ---- The object ----

  class AnthropicMessageCollector {
    const parse: Parser
    var message: Option<Header>
    var blocks: map<nat, Content>
    var stopped: bool
    var failed: bool

    function State(): Collection
      reads this
    {
      Collection(message, blocks, stopped, failed)
    }

    constructor (parse: Parser)
      ensures this.parse == parse && State() == EMPTY
    {
      this.parse := parse;
      message, blocks, stopped, failed := None, map[], false, false;
    }

    method Push(e: Out)
      modifies this
      ensures State() == Take(parse, old(State()), e)
    {
      if failed || stopped {
        return;
      }
      match e
      case MessageStart(id, model) => message := Some(Header(id, model, None, []));
      case BlockStart(i, start) =>
        if i < 0 || i in blocks {
          failed := true;
        } else {
          blocks := blocks[i := Begin(start)];
        }
      case BlockDelta(i, piece) =>
        if i !in blocks {
          failed := true;
        } else {
          blocks := blocks[i := Add(blocks[i], piece)];
        }
      case BlockStop(i) => CloseBlock(i);
      case MessageDelta(reason, usage) =>
        if message.None? {
          failed := true;
        } else {
          message := Some(message.value.(stopReason := Some(reason), usage := usage));
        }
      case MessageStop => stopped := true;
      case Error(_) => failed := true;
    }

    /** A tool call's arguments are parsed when its block stops. */
    method CloseBlock(i: int)
      modifies this`blocks, this`failed
      requires !failed && !stopped
      ensures State() == Take(parse, old(State()), BlockStop(i))
    {
      if i !in blocks {
        failed := true;
      } else if blocks[i].start.ToolUseBlock? && blocks[i].json != [] {
        var input := parse(blocks[i].json);
        if input.None? {
          failed := true;
        } else {
          blocks := blocks[i := blocks[i].(input := input.value)];
        }
      }
    }

    method Finish() returns (r: Result)
      ensures r == Outcome(State())
    {
      if failed || message.None? || !stopped || blocks == map[] {
        return Incomplete;
      }
      var content := [];
      var rest := blocks;
      while rest != map[]
        invariant content + InOrder(rest) == InOrder(blocks)
        decreases |rest|
      {
        var k := Least(rest);
        LeastIs(rest, k);
        content := content + [rest[k]];
        assert |rest - {k}| < |rest| by { assert (rest - {k}).Keys == rest.Keys - {k}; }
        rest := rest - {k};
      }
      return Whole(message.value, content);
    }

    static lemma LeastIs(m: map<nat, Content>, k: nat)
      requires IsLeast(m.Keys, k)
      ensures m != map[] && InOrder(m) == [m[k]] + InOrder(m - {k})
    {
    }

    static method Least(m: map<nat, Content>) returns (k: nat)
      requires m != map[]
      ensures IsLeast(m.Keys, k)
    {
      var keys := m.Keys;
      k :| k in keys;
      keys := keys - {k};
      while keys != {}
        invariant keys <= m.Keys && k in m.Keys
        invariant forall x <- m.Keys :: x in keys || k <= x
        decreases |keys|
      {
        var x: nat :| x in keys;
        if x < k {
          k := x;
        }
        keys := keys - {x};
      }
    }
  }
}
