/** Replaying a conversation upstream: an Anthropic message becomes Responses input items. */
module Replay {
  import opened Text
  import opened Translate

  datatype Speaker = User | Assistant | System

  /** A content block. `url` is the image's data or web URL, if it has one; `input` is the printed
      tool input; `output` is the tool result as text; a missing string is empty. */
  datatype Block =
    | TextPart(text: Text)
    | ImagePart(url: Option<Text>)
    | Use(id: Text, name: Text, input: Text)
    | Result(useId: Text, output: Text)
    | Thinking(thinking: Text, signature: Text)
    | Redacted(data: Text)
    | Unknown

  datatype Content = Plain(text: Text) | Blocks(blocks: seq<Block>)

  datatype Role = AsUser | AsAssistant | AsDeveloper

  datatype Part = OutputText(text: Text) | InputText(text: Text) | InputImage(url: Text)

  /** An input item; an empty `summary` is none. */
  datatype Input =
    | MessageInput(role: Role, parts: seq<Part>)
    | CallInput(callId: Text, name: Text, arguments: Text)
    | OutputInput(callId: Text, output: Text)
    | ReasoningInput(id: Option<Text>, summary: Text, encrypted: Text)

  /** Whose reasoning may be replayed. */
  datatype Policy = Policy(prefix: Text, dropAll: bool)

  function RoleOf(s: Speaker): Role {
    match s
    case User => AsUser
    case Assistant => AsAssistant
    case System => AsDeveloper
  }

  // ---- The signature blob ----

  /** Where `u` is first found in `t` at or after `from`. */
  function IndexFrom(t: Text, u: Unit, from: nat): (r: Option<nat>)
    ensures r.Some? ==> from <= r.value < |t| && t[r.value] == u && forall i :: from <= i < r.value ==> t[i] != u
    ensures r.None? ==> forall i :: from <= i < |t| ==> t[i] != u
    decreases |t| - from
  {
    if from >= |t| then None
    else if t[from] == u then Some(from)
    else IndexFrom(t, u, from + 1)
  }

  datatype Split = Split(id: Option<Text>, encrypted: Text)

  /** An item id in front of the encrypted content: the mark, the id, a hash. */
  function SplitBlob(blob: Text): Split {
    var end := IndexFrom(blob, 35, 4);
    if ID_MARK <= blob && end.Some? && end.value > 4 then Split(Some(blob[4..end.value]), blob[end.value + 1..])
    else Split(None, blob)
  }

  // ---- One block at a time ----

  const NO_ARGUMENTS: Text := [123, 125]
  const NULL: Text := [110, 117, 108, 108]

  /** A null input counts as no input. */
  function Arguments(input: Text): Text {
    if input == NULL then NO_ARGUMENTS else input
  }

  predicate Ours(policy: Policy, blob: Text) {
    !policy.dropAll && blob != [] && policy.prefix != [] && policy.prefix <= blob
  }

  /** Reasoning of the current provider, with the id it came with; anyone else's is dropped. */
  function Reasoning(policy: Policy, blob: Text, summary: Text): seq<Input> {
    if !Ours(policy, blob) then []
    else
      var split := SplitBlob(blob[|policy.prefix|..]);
      [ReasoningInput(split.id, summary, split.encrypted)]
  }

  predicate IsPart(b: Block) {
    b.TextPart? || b.ImagePart?
  }

  function TextAs(s: Speaker, text: Text): Part {
    if s.Assistant? then OutputText(text) else InputText(text)
  }

  function Parts(s: Speaker, b: Block): seq<Part> {
    match b
    case TextPart(text) => [TextAs(s, text)]
    case ImagePart(Some(url)) => [InputImage(url)]
    case _ => []
  }

  function Own(policy: Policy, b: Block): seq<Input> {
    match b
    case Use(id, name, input) => [CallInput(id, name, Arguments(input))]
    case Result(useId, output) => [OutputInput(useId, output)]
    case Thinking(thinking, signature) => Reasoning(policy, signature, thinking)
    case Redacted(data) => Reasoning(policy, data, [])
    case _ => []
  }

  function Flush(s: Speaker, pending: seq<Part>): seq<Input> {
    if pending == [] then [] else [MessageInput(RoleOf(s), pending)]
  }

  // ---- The whole message ----

  /** What remains to come out with `pending` collected and `blocks` ahead. */
  function Rest(s: Speaker, policy: Policy, pending: seq<Part>, blocks: seq<Block>): seq<Input>
    decreases |blocks|
  {
    if blocks == [] then Flush(s, pending)
    else if IsPart(blocks[0]) || blocks[0].Unknown? then Rest(s, policy, pending + Parts(s, blocks[0]), blocks[1..])
    else Flush(s, pending) + Own(policy, blocks[0]) + Rest(s, policy, [], blocks[1..])
  }

  function Inputs(s: Speaker, policy: Policy, content: Content): seq<Input> {
    match content
    case Plain(text) => if text == [] then [] else [MessageInput(RoleOf(s), [TextAs(s, text)])]
    case Blocks(blocks) => Rest(s, policy, [], blocks)
  }

  lemma RestStep(s: Speaker, policy: Policy, items: seq<Input>, pending: seq<Part>, blocks: seq<Block>)
    requires blocks != []
    ensures items + Rest(s, policy, pending, blocks) ==
      if IsPart(blocks[0]) || blocks[0].Unknown? then
        items + Rest(s, policy, pending + Parts(s, blocks[0]), blocks[1..])
      else items + Flush(s, pending) + Own(policy, blocks[0]) + Rest(s, policy, [], blocks[1..])
  {
    hide Flush, Own, Parts;
    var f, o, r := Flush(s, pending), Own(policy, blocks[0]), Rest(s, policy, [], blocks[1..]);
    assert items + (f + o + r) == items + f + o + r;
  }

  lemma RestEnds(s: Speaker, policy: Policy, pending: seq<Part>)
    ensures Rest(s, policy, pending, []) == Flush(s, pending)
  {
    hide Flush;
  }

  method MessageToInputItems(s: Speaker, policy: Policy, content: Content) returns (items: seq<Input>)
    ensures items == Inputs(s, policy, content)
  {
    items := [];
    if content.Plain? {
      if content.text != [] {
        items := [MessageInput(RoleOf(s), [TextAs(s, content.text)])];
      }
      return;
    }
    var pending: seq<Part> := [];
    hide Flush, Reasoning, TextAs, Arguments, Rest;
    var i := 0;
    while i < |content.blocks|
      invariant i <= |content.blocks|
      invariant items + Rest(s, policy, pending, content.blocks[i..]) == Rest(s, policy, [], content.blocks)
      decreases |content.blocks| - i
    {
      var b := content.blocks[i];
      assert content.blocks[i..][1..] == content.blocks[i + 1..];
      RestStep(s, policy, items, pending, content.blocks[i..]);
      match b {
      case TextPart(text) => pending := pending + [TextAs(s, text)];
      case ImagePart(url) =>
        if url.Some? {
          pending := pending + [InputImage(url.value)];
        } else {
          assert pending == pending + Parts(s, b);
        }
      case Use(id, name, input) =>
        items := items + Flush(s, pending) + [CallInput(id, name, Arguments(input))];
        pending := [];
      case Result(useId, output) =>
        items := items + Flush(s, pending) + [OutputInput(useId, output)];
        pending := [];
      case Thinking(thinking, signature) =>
        items := items + Flush(s, pending) + Reasoning(policy, signature, thinking);
        pending := [];
      case Redacted(data) =>
        items := items + Flush(s, pending) + Reasoning(policy, data, []);
        pending := [];
      case Unknown => assert pending == pending + Parts(s, b);
      }
      i := i + 1;
    }
    assert content.blocks[i..] == [];
    RestEnds(s, policy, pending);
    items := items + Flush(s, pending);
  }

  // ---- Nothing is lost and nothing changes places ----

  /** One thing said: a part of a message, or an item of its own. */
  datatype Said = SaidPart(role: Role, part: Part) | SaidItem(item: Input)

  function SaidParts(role: Role, parts: seq<Part>): seq<Said> {
    seq(|parts|, i requires 0 <= i < |parts| => SaidPart(role, parts[i]))
  }

  function SaidBy(item: Input): seq<Said> {
    if item.MessageInput? then SaidParts(item.role, item.parts) else [SaidItem(item)]
  }

  function Everything(items: seq<Input>): seq<Said> {
    if items == [] then [] else SaidBy(items[0]) + Everything(items[1..])
  }

  /** What the blocks say, each by itself. */
  function BlockByBlock(s: Speaker, policy: Policy, blocks: seq<Block>): seq<Said> {
    if blocks == [] then []
    else
      SaidParts(RoleOf(s), Parts(s, blocks[0])) + Everything(Own(policy, blocks[0]))
      + BlockByBlock(s, policy, blocks[1..])
  }

  lemma {:induction false} EverythingAppend(a: seq<Input>, b: seq<Input>)
    ensures Everything(a + b) == Everything(a) + Everything(b)
  {
    if a == [] {
      assert a + b == b;
    } else {
      assert (a + b)[0] == a[0] && (a + b)[1..] == a[1..] + b;
      EverythingAppend(a[1..], b);
    }
  }

  lemma FlushSays(s: Speaker, pending: seq<Part>)
    ensures Everything(Flush(s, pending)) == SaidParts(RoleOf(s), pending)
  {
    if pending != [] {
      var m := MessageInput(RoleOf(s), pending);
      assert [m][1..] == [];
      assert Everything([m]) == SaidBy(m) + [];
    }
  }

  lemma PartsSay(role: Role, pending: seq<Part>, parts: seq<Part>, rest: seq<Said>)
    ensures SaidParts(role, pending + parts) + rest
      == SaidParts(role, pending) + (SaidParts(role, parts) + Everything([]) + rest)
  {
    assert SaidParts(role, pending + parts) == SaidParts(role, pending) + SaidParts(role, parts);
    assert SaidParts(role, parts) + [] == SaidParts(role, parts);
  }

  lemma FlushThenSays(s: Speaker, pending: seq<Part>, own: seq<Input>, tail: seq<Input>, rest: seq<Said>)
    requires Everything(tail) == SaidParts(RoleOf(s), []) + rest
    ensures Everything(Flush(s, pending) + own + tail)
         == SaidParts(RoleOf(s), pending) + (SaidParts(RoleOf(s), []) + Everything(own) + rest)
  {
    NothingSaid(RoleOf(s));
    hide *;
    FlushSays(s, pending);
    EverythingAppend(Flush(s, pending), own);
    EverythingAppend(Flush(s, pending) + own, tail);
    Regroup(SaidParts(RoleOf(s), pending), Everything(own), rest);
  }

  lemma NothingSaid(role: Role)
    ensures SaidParts(role, []) == []
  {
  }

  lemma Regroup(p: seq<Said>, e: seq<Said>, rest: seq<Said>)
    ensures (p + e) + ([] + rest) == p + ([] + e + rest)
  {
  }

  lemma {:induction false} RestSays(s: Speaker, policy: Policy, pending: seq<Part>, blocks: seq<Block>)
    ensures Everything(Rest(s, policy, pending, blocks))
      == SaidParts(RoleOf(s), pending) + BlockByBlock(s, policy, blocks)
    decreases |blocks|
  {
    hide Everything, Flush, SaidParts, Reasoning;
    if blocks == [] {
      FlushSays(s, pending);
      assert SaidParts(RoleOf(s), pending) + [] == SaidParts(RoleOf(s), pending);
    } else if IsPart(blocks[0]) || blocks[0].Unknown? {
      RestSays(s, policy, pending + Parts(s, blocks[0]), blocks[1..]);
      PartsSay(RoleOf(s), pending, Parts(s, blocks[0]), BlockByBlock(s, policy, blocks[1..]));
    } else {
      RestSays(s, policy, [], blocks[1..]);
      FlushThenSays(s, pending, Own(policy, blocks[0]), Rest(s, policy, [], blocks[1..]),
                    BlockByBlock(s, policy, blocks[1..]));
    }
  }

  /** The items say what the blocks say, block by block, in the same order; messages are never empty,
      and a part never moves past a call, a result or a reasoning item. */
  lemma ItemsSayWhatBlocksSay(s: Speaker, policy: Policy, blocks: seq<Block>)
    ensures Everything(Inputs(s, policy, Blocks(blocks))) == BlockByBlock(s, policy, blocks)
    ensures forall m <- Inputs(s, policy, Blocks(blocks)) :: m.MessageInput? ==> m.parts != [] && m.role == RoleOf(s)
  {
    RestSays(s, policy, [], blocks);
    RestMessages(s, policy, [], blocks);
    assert SaidParts(RoleOf(s), []) == [];
  }

  lemma {:induction false} RestMessages(s: Speaker, policy: Policy, pending: seq<Part>, blocks: seq<Block>)
    ensures forall m <- Rest(s, policy, pending, blocks) :: m.MessageInput? ==> m.parts != [] && m.role == RoleOf(s)
    decreases |blocks|
  {
    if blocks != [] {
      RestMessages(s, policy, pending + Parts(s, blocks[0]), blocks[1..]);
      RestMessages(s, policy, [], blocks[1..]);
    }
  }

  predicate Alternates(items: seq<Input>) {
    forall i :: 0 <= i < |items| - 1 ==> items[i].MessageInput? ==> !items[i + 1].MessageInput?
  }

  /** Parts that follow one another share one message: two messages in a row come only from a dropped
      reasoning block between them. */
  lemma NoTwoMessagesInARow(s: Speaker, policy: Policy, blocks: seq<Block>)
    requires forall b <- blocks :: IsPart(b) || b.Unknown? || Own(policy, b) != []
    ensures Alternates(Inputs(s, policy, Blocks(blocks)))
  {
    RestAlternates(s, policy, [], blocks);
  }

  lemma {:induction false} RestAlternates(s: Speaker, policy: Policy, pending: seq<Part>, blocks: seq<Block>)
    requires forall b <- blocks :: IsPart(b) || b.Unknown? || Own(policy, b) != []
    ensures Alternates(Rest(s, policy, pending, blocks))
    decreases |blocks|
  {
    hide Own;
    if blocks == [] {
    } else if IsPart(blocks[0]) || blocks[0].Unknown? {
      RestAlternates(s, policy, pending + Parts(s, blocks[0]), blocks[1..]);
    } else {
      RestAlternates(s, policy, [], blocks[1..]);
      OneOwn(policy, blocks[0]);
      FlushedAlternates(s, pending, Own(policy, blocks[0]), Rest(s, policy, [], blocks[1..]));
    }
  }

  lemma FlushedAlternates(s: Speaker, pending: seq<Part>, own: seq<Input>, rest: seq<Input>)
    requires |own| == 1 && !own[0].MessageInput? && Alternates(rest)
    ensures Alternates(Flush(s, pending) + own + rest)
  {
  }

  lemma OneOwn(policy: Policy, b: Block)
    ensures |Own(policy, b)| <= 1 && forall x <- Own(policy, b) :: !x.MessageInput?
  {
  }
}
