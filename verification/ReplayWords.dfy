/** What a replayed message says upstream, block by block, in so many words. */
module ReplayWords {
  import opened Text
  import opened Translate
  import opened Replay

  /** The parts of a message are said in the role of its speaker. */
  predicate InRole(s: Speaker, role: Role) {
    && (s.User? <==> role.AsUser?) && (s.Assistant? <==> role.AsAssistant?) && (s.System? <==> role.AsDeveloper?)
  }

  /** What an assistant said is output; what anyone else said is input. */
  predicate TextOf(s: Speaker, text: Text, part: Part) {
    if s.Assistant? then part == OutputText(text) else part == InputText(text)
  }

  /** `rest` reads as the mark, a nonempty id without a hash, a hash, and the encrypted content. */
  predicate Marked(rest: Text, id: Text, encrypted: Text) {
    id != [] && 35 !in id && rest == ID_MARK + id + HASH + encrypted
  }

  /** Reasoning of the current provider is said with its id, if it came with one, and its encrypted
      content; without a prefix to know it by, or with another's, nothing is. */
  ghost predicate Reasons(policy: Policy, blob: Text, summary: Text, said: seq<Said>) {
    if policy.dropAll || blob == [] || policy.prefix == [] || !(policy.prefix <= blob) then said == []
    else
      var rest := blob[|policy.prefix|..];
      || (exists id, encrypted :: Marked(rest, id, encrypted)
                                  && said == [SaidItem(ReasoningInput(Some(id), summary, encrypted))])
      || ((forall id, encrypted :: !Marked(rest, id, encrypted))
          && said == [SaidItem(ReasoningInput(None, summary, rest))])
  }

  /** What one block says. */
  ghost predicate Says(s: Speaker, policy: Policy, b: Block, said: seq<Said>) {
    match b
    case TextPart(text) =>
      |said| == 1 && said[0].SaidPart? && InRole(s, said[0].role) && TextOf(s, text, said[0].part)
    case ImagePart(Some(url)) =>
      |said| == 1 && said[0].SaidPart? && InRole(s, said[0].role) && said[0].part == InputImage(url)
    case ImagePart(None) => said == []
    case Use(id, name, input) =>
      said == [SaidItem(CallInput(id, name, if input == [110, 117, 108, 108] then [123, 125] else input))]
    case Result(useId, output) => said == [SaidItem(OutputInput(useId, output))]
    case Thinking(thinking, signature) => Reasons(policy, signature, thinking, said)
    case Redacted(data) => Reasons(policy, data, [], said)
    case Unknown => said == []
  }

  function Flat(words: seq<seq<Said>>): seq<Said> {
    if words == [] then [] else words[0] + Flat(words[1..])
  }

  lemma MarkedSplits(rest: Text, id: Text, encrypted: Text)
    requires Marked(rest, id, encrypted)
    ensures SplitBlob(rest) == Split(Some(id), encrypted)
  {
    assert |ID_MARK| == 4 && rest[..4] == ID_MARK && rest[4 + |id|] == 35;
    assert rest[4..4 + |id|] == id && rest[4 + |id| + 1..] == encrypted;
    assert forall i :: 4 <= i < 4 + |id| ==> rest[i] == id[i - 4];
  }

  lemma SplitMarks(rest: Text)
    ensures var p := SplitBlob(rest);
      if p.id.Some? then Marked(rest, p.id.value, p.encrypted)
      else p.encrypted == rest && forall id, encrypted :: !Marked(rest, id, encrypted)
  {
    var p := SplitBlob(rest);
    if p.id.Some? {
      var end := IndexFrom(rest, 35, 4).value;
      assert rest == rest[..4] + rest[4..end] + rest[end..end + 1] + rest[end + 1..];
      assert rest[end..end + 1] == HASH;
    } else {
      forall id, encrypted ensures !Marked(rest, id, encrypted) {
        if Marked(rest, id, encrypted) {
          MarkedSplits(rest, id, encrypted);
        }
      }
    }
  }

  /** The word of a block. */
  function Word(s: Speaker, policy: Policy, b: Block): seq<Said> {
    SaidParts(RoleOf(s), Parts(s, b)) + Everything(Own(policy, b))
  }

  lemma ItemAlone(item: Input)
    requires !item.MessageInput?
    ensures Everything([item]) == [SaidItem(item)]
  {
    assert [item][1..] == [];
  }

  lemma ReasoningSays(policy: Policy, blob: Text, summary: Text)
    ensures Reasons(policy, blob, summary, Everything(Reasoning(policy, blob, summary)))
  {
    if Ours(policy, blob) {
      var rest := blob[|policy.prefix|..];
      SplitMarks(rest);
      ItemAlone(Reasoning(policy, blob, summary)[0]);
      hide SplitBlob, Everything;
    }
  }

  lemma WordSays(s: Speaker, policy: Policy, b: Block)
    ensures Says(s, policy, b, Word(s, policy, b))
  {
    hide Reasons, Reasoning;
    match b
    case Use(id, name, input) => ItemAlone(CallInput(id, name, Arguments(input)));
    case Result(useId, output) => ItemAlone(OutputInput(useId, output));
    case Thinking(thinking, signature) =>
      ReasoningSays(policy, signature, thinking);
      NoParts(s, policy, b, Reasoning(policy, signature, thinking));
    case Redacted(data) =>
      ReasoningSays(policy, data, []);
      NoParts(s, policy, b, Reasoning(policy, data, []));
    case _ =>
  }

  lemma NoParts(s: Speaker, policy: Policy, b: Block, own: seq<Input>)
    requires Parts(s, b) == [] && Own(policy, b) == own
    ensures Word(s, policy, b) == Everything(own)
  {
    hide Own;
    assert SaidParts(RoleOf(s), []) == [];
  }

  function Words(s: Speaker, policy: Policy, blocks: seq<Block>): (r: seq<seq<Said>>)
    ensures |r| == |blocks|
  {
    seq(|blocks|, i requires 0 <= i < |blocks| => Word(s, policy, blocks[i]))
  }

  lemma {:induction false} WordsAre(s: Speaker, policy: Policy, blocks: seq<Block>)
    ensures Flat(Words(s, policy, blocks)) == BlockByBlock(s, policy, blocks)
  {
    hide Word, Own, Parts;
    if blocks != [] {
      assert Words(s, policy, blocks)[1..] == Words(s, policy, blocks[1..]);
      WordsAre(s, policy, blocks[1..]);
      WordOf(s, policy, blocks[0]);
    }
  }

  lemma WordOf(s: Speaker, policy: Policy, b: Block)
    ensures Word(s, policy, b) == SaidParts(RoleOf(s), Parts(s, b)) + Everything(Own(policy, b))
  {
  }

  /** A message says what its blocks say, in their order, and its parts in its speaker's role; a message of
      plain text is that text. */
  lemma MessageSays(s: Speaker, policy: Policy, content: Content) returns (words: seq<seq<Said>>)
    ensures match content
      case Plain(text) =>
        var items := Inputs(s, policy, content);
        if text == [] then items == []
        else
          && |items| == 1 && items[0].MessageInput? && InRole(s, items[0].role)
          && |items[0].parts| == 1 && TextOf(s, text, items[0].parts[0])
      case Blocks(blocks) =>
        && |words| == |blocks| && (forall i :: 0 <= i < |blocks| ==> Says(s, policy, blocks[i], words[i]))
        && Everything(Inputs(s, policy, content)) == Flat(words)
        && forall m <- Inputs(s, policy, content) :: m.MessageInput? ==> m.parts != [] && InRole(s, m.role)
  {
    words := [];
    if content.Blocks? {
      hide Word, Rest, Says, Everything, Flat;
      words := Words(s, policy, content.blocks);
      forall i | 0 <= i < |content.blocks| ensures Says(s, policy, content.blocks[i], words[i]) {
        WordSays(s, policy, content.blocks[i]);
      }
      WordsAre(s, policy, content.blocks);
      ItemsSayWhatBlocksSay(s, policy, content.blocks);
    }
  }

  // ---- Calls and results ----

  function OutputsOf(said: seq<Said>): seq<(Text, Text)> {
    if said == [] then []
    else
      (match said[0]
       case SaidItem(OutputInput(callId, output)) => [(callId, output)]
       case _ => [])
      + OutputsOf(said[1..])
  }

  function CallsOf(said: seq<Said>): seq<(Text, Text)> {
    if said == [] then []
    else
      (match said[0]
       case SaidItem(CallInput(callId, name, _)) => [(callId, name)]
       case _ => [])
      + CallsOf(said[1..])
  }

  function ResultsOf(blocks: seq<Block>): seq<(Text, Text)> {
    if blocks == [] then []
    else (if blocks[0].Result? then [(blocks[0].useId, blocks[0].output)] else []) + ResultsOf(blocks[1..])
  }

  function UsesOf(blocks: seq<Block>): seq<(Text, Text)> {
    if blocks == [] then []
    else (if blocks[0].Use? then [(blocks[0].id, blocks[0].name)] else []) + UsesOf(blocks[1..])
  }

  lemma {:induction false} CallsAppend(a: seq<Said>, b: seq<Said>)
    ensures OutputsOf(a + b) == OutputsOf(a) + OutputsOf(b)
    ensures CallsOf(a + b) == CallsOf(a) + CallsOf(b)
  {
    if a == [] {
      assert a + b == b;
    } else {
      assert (a + b)[1..] == a[1..] + b;
      CallsAppend(a[1..], b);
    }
  }

  lemma SaysCalls(s: Speaker, policy: Policy, b: Block, said: seq<Said>)
    requires Says(s, policy, b, said)
    ensures OutputsOf(said) == ResultsOf([b]) && CallsOf(said) == UsesOf([b])
  {
    if said != [] {
      assert said == [said[0]];
    }
    assert [b][1..] == [];
  }

  lemma {:induction false} FlatCalls(s: Speaker, policy: Policy, blocks: seq<Block>, words: seq<seq<Said>>)
    requires |words| == |blocks| && forall i :: 0 <= i < |blocks| ==> Says(s, policy, blocks[i], words[i])
    ensures OutputsOf(Flat(words)) == ResultsOf(blocks) && CallsOf(Flat(words)) == UsesOf(blocks)
  {
    hide Says, OutputsOf, CallsOf, ResultsOf, UsesOf;
    if blocks == [] {
      NoCalls();
    } else {
      SaysCalls(s, policy, blocks[0], words[0]);
      CallsAppend(words[0], Flat(words[1..]));
      FlatCalls(s, policy, blocks[1..], words[1..]);
      FirstBlock(blocks);
    }
  }

  lemma NoCalls()
    ensures OutputsOf([]) == CallsOf([]) == ResultsOf([]) == UsesOf([]) == []
  {
  }

  lemma {:induction false} FirstBlock(blocks: seq<Block>)
    requires blocks != []
    ensures ResultsOf(blocks) == ResultsOf([blocks[0]]) + ResultsOf(blocks[1..])
    ensures UsesOf(blocks) == UsesOf([blocks[0]]) + UsesOf(blocks[1..])
  {
    assert [blocks[0]][1..] == [];
  }

  /** The results replayed are exactly the results of the message, each under the id of its own call, and
      the calls exactly its calls, under their own ids and names; both in the order they stand in. */
  lemma CallsAndResultsKept(s: Speaker, policy: Policy, blocks: seq<Block>)
    ensures OutputsOf(Everything(Inputs(s, policy, Blocks(blocks)))) == ResultsOf(blocks)
    ensures CallsOf(Everything(Inputs(s, policy, Blocks(blocks)))) == UsesOf(blocks)
  {
    hide Says, Inputs, Everything, Flat, OutputsOf, CallsOf, ResultsOf, UsesOf;
    var words := MessageSays(s, policy, Blocks(blocks));
    FlatCalls(s, policy, blocks, words);
  }

  // ---- Where one item ends and the next begins ----

  predicate Inline(b: Block) {
    b.TextPart? || b.ImagePart? || b.Unknown?
  }

  lemma {:induction false} InlineRest(s: Speaker, policy: Policy, pending: seq<Part>, blocks: seq<Block>,
                                      rest: seq<Block>)
      returns (parts: seq<Part>)
    requires forall b <- blocks :: Inline(b)
    ensures Rest(s, policy, pending, blocks + rest) == Rest(s, policy, pending + parts, rest)
    ensures Rest(s, policy, pending, blocks) == Flush(s, pending + parts)
    decreases |blocks|
  {
    hide Flush, Parts;
    if blocks == [] {
      parts := [];
      assert blocks + rest == rest && pending + [] == pending;
      RestEnds(s, policy, pending);
    } else {
      var own := Parts(s, blocks[0]);
      assert Inline(blocks[0]) && forall b <- blocks[1..] :: b in blocks;
      assert (blocks + rest)[0] == blocks[0] && (blocks + rest)[1..] == blocks[1..] + rest;
      var more := InlineRest(s, policy, pending + own, blocks[1..], rest);
      parts := own + more;
      assert (pending + own) + more == pending + parts;
    }
  }

  /** Texts and images that follow one another go into one message, unless none of them can be sent. */
  lemma RunIsOneMessage(s: Speaker, policy: Policy, blocks: seq<Block>)
    requires forall b <- blocks :: Inline(b)
    ensures |Inputs(s, policy, Blocks(blocks))| <= 1
    ensures forall m <- Inputs(s, policy, Blocks(blocks)) :: m.MessageInput?
  {
    var parts := InlineRest(s, policy, [], blocks, []);
    assert [] + parts == parts;
  }

  /** Any other block ends the message before it, even where nothing is said of the block itself: what
      stands before it, it itself and what stands after it are replayed one after the other. */
  lemma {:induction false} BlockEndsMessage(s: Speaker, policy: Policy, before: seq<Block>, b: Block,
                                            after: seq<Block>)
    requires !Inline(b)
    ensures Inputs(s, policy, Blocks(before + [b] + after))
         == Inputs(s, policy, Blocks(before)) + Inputs(s, policy, Blocks([b])) + Inputs(s, policy, Blocks(after))
  {
    RestSplits(s, policy, [], before, b, after);
    Alone(s, policy, b);
  }

  lemma Alone(s: Speaker, policy: Policy, b: Block)
    requires !Inline(b)
    ensures Rest(s, policy, [], [b]) == Own(policy, b)
  {
    hide Own;
    assert [b][1..] == [];
    assert [] + Own(policy, b) + [] == Own(policy, b);
  }

  lemma {:induction false} RestSplits(s: Speaker, policy: Policy, pending: seq<Part>, before: seq<Block>, b: Block,
                                      after: seq<Block>)
    requires !Inline(b)
    ensures Rest(s, policy, pending, before + [b] + after)
         == Rest(s, policy, pending, before) + Own(policy, b) + Rest(s, policy, [], after)
    decreases |before|
  {
    hide Flush, Own, Parts;
    var all := before + [b] + after;
    if before == [] {
      assert all[0] == b && all[1..] == after;
      RestEnds(s, policy, pending);
    } else {
      assert all[0] == before[0] && all[1..] == before[1..] + [b] + after;
      if Inline(before[0]) {
        RestSplits(s, policy, pending + Parts(s, before[0]), before[1..], b, after);
      } else {
        RestSplits(s, policy, [], before[1..], b, after);
        var f, o := Flush(s, pending), Own(policy, before[0]);
        var x, y, z := Rest(s, policy, [], before[1..]), Own(policy, b), Rest(s, policy, [], after);
        assert f + o + (x + y + z) == (f + o + x) + y + z;
      }
    }
  }
}
