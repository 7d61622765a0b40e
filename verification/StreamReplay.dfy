/** A streamed response, translated, folded and replayed, gives back its items, for every interleaving. */
module StreamReplay {
  import opened Text
  import opened Translate
  import opened TranslateItems
  import opened TranslateMeaning
  import opened TranslateJson
  import opened OwnerSteps
  import opened BlockOwners
  import opened StreamOrder
  import opened CollectStream
  import opened WholeStream
  import opened ReplayLaws
  import C = Collect
  import L = CollectLaws
  import R = Replay

  // ---- What the stream tells of its items ----

  /** An item as it was added, the deltas that followed, and the item as it was done. */
  datatype Story = Story(first: Item, deltas: seq<Text>, final: Item)

  /** The events of one item tell its story; the deltas of a call are a beginning of its arguments. */
  predicate Narrates(bodies: seq<Body>, story: Story) {
    match story.first.kind
    case CallItem => CallBodies(bodies, story.first, story.deltas, story.final)
      && Join(story.deltas) <= story.final.arguments
    case ReasoningItem => ReasoningBodies(bodies, story.first, story.deltas, story.final)
    case MessageItem => Starting(bodies, story)
    case OtherItem => Starting(bodies, story) && forall i :: 1 <= i < |bodies| ==> !bodies[i].Added?
  }

  predicate Starting(bodies: seq<Body>, story: Story) {
    |bodies| >= 2 && bodies[0].Added? && bodies[0].item == story.first && bodies[|bodies| - 1].Done?
  }

  predicate NarratedAt(es: seq<Upstream>, stories: map<int, Story>, k: int) {
    if k in stories then Narrates(Of(es, k), stories[k]) else Of(es, k) == []
  }

  ghost predicate Narrated(es: seq<Upstream>, stories: map<int, Story>) {
    Usual(es) && forall k :: NarratedAt(es, stories, k)
  }

  /** The whole item: a call with its final arguments, a reasoning item as it was done. */
  function AsItem(story: Story): JsonItem {
    match story.first.kind
    case CallItem => JsonItem(story.first.(arguments := story.final.arguments), [])
    case ReasoningItem => JsonItem(story.final.(kind := ReasoningItem), story.deltas)
    case _ => JsonItem(story.first, story.deltas)
  }

  predicate AllParse(parse: C.Parser, stories: map<int, Story>) {
    forall k <- stories :: L.Parses(parse, AsItem(stories[k]))
  }

  /** A reasoning item that shows nothing and has nothing to sign gets no block. */
  predicate Blockless(cfg: Config, story: Story) {
    cfg.blank(Join(story.deltas)) && Blob(cfg, Translate.Thinking, story.final) == []
  }

  // ---- Consequences for one item ----

  lemma NarratedDone(es: seq<Upstream>, stories: map<int, Story>, k: int)
    requires NarratedAt(es, stories, k)
    ensures AllDone(es, k) && (k in stories ==> Of(es, k) != [] && Of(es, k)[|Of(es, k)| - 1].Done?)
  {
    hide Of, Join, Args, Summaries;
    if k in stories {
      LastIsDone(Of(es, k), stories[k]);
    }
  }

  lemma LastIsDone(bodies: seq<Body>, story: Story)
    requires Narrates(bodies, story)
    ensures |bodies| >= 2 && bodies[|bodies| - 1].Done?
  {
    hide Join, Args, Summaries;
    if story.first.kind.CallItem? {
      assert bodies[|bodies| - 1] == bodies[1..][|bodies| - 2];
    } else if story.first.kind.ReasoningItem? {
      assert bodies[|bodies| - 1] == bodies[1..][|bodies| - 2];
    }
  }

  lemma EveryDone(es: seq<Upstream>, stories: map<int, Story>)
    requires Narrated(es, stories)
    ensures forall k :: AllDone(es, k)
  {
    hide Of, NarratedAt, AllDone, Usual;
    forall k ensures AllDone(es, k) { NarratedDone(es, stories, k); }
  }

  lemma NotMessage(es: seq<Upstream>, stories: map<int, Story>, k: int)
    requires NarratedAt(es, stories, k) && (k in stories ==> !stories[k].first.kind.MessageItem?)
    ensures NeverMessage(es, k)
  {
    hide Join;
    forall e <- es ensures e.OfItem? && e.k == Some(k) && e.body.Added? ==> !e.body.item.kind.MessageItem? {
      if e.OfItem? && e.k == Some(k) && e.body.Added? {
        OfHas(es, e, k);
        var i :| 0 <= i < |Of(es, k)| && Of(es, k)[i] == e.body;
        AddedFirst(Of(es, k), stories[k], i);
      }
    }
  }

  lemma AddedOnce(bodies: seq<Body>, story: Story, i: nat)
    requires Narrates(bodies, story) && !story.first.kind.MessageItem? && 1 <= i < |bodies|
    ensures !bodies[i].Added?
  {
    hide Join;
    if !story.first.kind.OtherItem? {
      var said := if story.first.kind.CallItem? then Args(story.deltas) else Summaries(story.deltas);
      assert bodies[1..][i - 1] == bodies[i];
      assert i - 1 < |said| ==> said[i - 1] in said;
    }
  }

  lemma AddedFirst(bodies: seq<Body>, story: Story, i: nat)
    requires Narrates(bodies, story) && !story.first.kind.MessageItem? && i < |bodies| && bodies[i].Added?
    ensures i == 0 && bodies[0].item == story.first
  {
    hide Join, Args, Summaries;
    if i > 0 {
      AddedOnce(bodies, story, i);
    }
  }

  // ---- A call and a reasoning item are tidy ----

  lemma TidyCons(cfg: Config, a: Alone, body: Body, rest: seq<Body>)
    requires Closings(AloneOn(cfg, a, body).1) == (if body.Done? then 1 else 0)
      && Tidy(cfg, AloneOn(cfg, a, body).0, rest)
    ensures Tidy(cfg, a, [body] + rest)
  {
    hide AloneOn;
    assert ([body] + rest)[0] == body && ([body] + rest)[1..] == rest;
  }

  lemma {:induction false} NoClosings(ms: seq<Mark>)
    requires forall m <- ms :: !m.Closes?
    ensures Closings(ms) == 0
  {
    if ms != [] {
      NoClosings(ms[1..]);
    }
  }

  /** Pieces, and one end. */
  lemma OneClosing(ms: seq<Mark>)
    requires forall m <- ms :: !m.Closes?
    ensures Closings(ms + [Closes]) == 1
  {
    NoClosings(ms);
    ClosingsAppend(ms, [Closes]);
    assert [Closes][1..] == [];
  }

  lemma {:induction false} CallTidy(cfg: Config, sent: nat, deltas: seq<Text>, final: Item)
    ensures Tidy(cfg, Calling(true, sent), Args(deltas) + [Done(final)])
    decreases |deltas|
  {
    hide Tidy;
    if deltas == [] {
      var tail := if |final.arguments| > sent then final.arguments[sent..] else [];
      OneClosing(if tail == [] then [] else [Says(Json(tail))]);
      TidyNothing(cfg, AloneOn(cfg, Calling(true, sent), Done(final)).0);
      TidyCons(cfg, Calling(true, sent), Done(final), []);
      assert Args(deltas) + [Done(final)] == [Done(final)] + [];
    } else {
      var rest := Args(deltas[1..]) + [Done(final)];
      CallTidy(cfg, sent + |deltas[0]|, deltas[1..], final);
      OneDelta(cfg, sent, deltas[0]);
      NoClosings(AloneOn(cfg, Calling(true, sent), ArgsDelta(deltas[0])).1);
      TidyCons(cfg, Calling(true, sent), ArgsDelta(deltas[0]), rest);
      assert Args(deltas) + [Done(final)] == [ArgsDelta(deltas[0])] + rest;
    }
  }

  lemma TidyNothing(cfg: Config, a: Alone)
    ensures Tidy(cfg, a, [])
  {
  }

  lemma {:induction false} MindTidy(cfg: Config, live: bool, pending: Text, deltas: seq<Text>, final: Item)
    requires live || !cfg.blank(pending + Join(deltas)) || Blob(cfg, Translate.Thinking, final) != []
    requires !live ==> cfg.blank(pending)
    ensures Tidy(cfg, Mind(live, pending), Summaries(deltas) + [Done(final)])
    decreases |deltas|
  {
    hide Tidy, Blob, Join;
    var a := Mind(live, pending);
    if deltas == [] {
      JoinNone();
      assert pending + [] == pending;
      LastTidy(cfg, a, final);
      assert Summaries(deltas) + [Done(final)] == [Done(final)];
    } else {
      var d, rest := deltas[0], Summaries(deltas[1..]) + [Done(final)];
      var next := AloneOn(cfg, a, SummaryDelta(d)).0;
      JoinCons(deltas);
      assert pending + (d + Join(deltas[1..])) == (pending + d) + Join(deltas[1..]);
      MindTidy(cfg, next.live, next.pending, deltas[1..], final);
      NoClosings(AloneOn(cfg, a, SummaryDelta(d)).1);
      TidyCons(cfg, a, SummaryDelta(d), rest);
      assert Summaries(deltas) + [Done(final)] == [SummaryDelta(d)] + rest;
    }
  }

  lemma LastTidy(cfg: Config, a: Alone, final: Item)
    requires a.Mind? && (a.live || Blob(cfg, Translate.Thinking, final) != [])
    ensures Tidy(cfg, a, [Done(final)])
  {
    hide Blob;
    var blob := Blob(cfg, Translate.Thinking, final);
    OneClosing(if a.live then if blob == [] then [] else [Says(Signature(blob))] else [Opens(RedactedBlock(blob))]);
    assert [Opens(RedactedBlock(blob))] + [Closes] == [Opens(RedactedBlock(blob)), Closes];
    assert [Done(final)][1..] == [];
  }

  /** What has a block of its own closes it when it is done. */
  lemma StoryTidy(cfg: Config, bodies: seq<Body>, story: Story)
    requires GoodBlank(cfg) && Narrates(bodies, story)
    requires story.first.kind.CallItem? || (story.first.kind.ReasoningItem? && !Blockless(cfg, story))
    ensures Tidy(cfg, Unknown, bodies)
  {
    assert cfg.blank([]);
    hide Tidy, Blob, Join, GoodBlank;
    assert bodies == [bodies[0]] + bodies[1..];
    if story.first.kind.CallItem? {
      CallTidy(cfg, 0, story.deltas, story.final);
    } else {
      assert [] + Join(story.deltas) == Join(story.deltas);
      MindTidy(cfg, false, [], story.deltas, story.final);
    }
    NoClosings(AloneOn(cfg, Unknown, bodies[0]).1);
    TidyCons(cfg, Unknown, bodies[0], bodies[1..]);
  }

  // ---- What becomes of each block ----

  function Ours(cfg: Config): R.Policy {
    R.Policy(cfg.prefix, false)
  }

  /** What is replayed of an item. */
  function Back(cfg: Config, parse: C.Parser, story: Story): seq<R.Input> {
    if L.Parses(parse, AsItem(story)) then Owned(Ours(cfg), AsBlocks(L.Gives(cfg, parse, AsItem(story), 0))) else []
  }

  /** The block is refused with its item's arguments, or folds to what is replayed of the item. */
  predicate FoldsTo(cfg: Config, parse: C.Parser, f: Folded, story: Story) {
    if L.Parses(parse, AsItem(story)) then f.Kept? && Owned(Ours(cfg), [AsBlock(f.block)]) == Back(cfg, parse, story)
    else f == Refused
  }

  lemma CallBlock(cfg: Config, parse: C.Parser, ms: seq<Mark>, story: Story)
    requires story.first.kind.CallItem?
    requires OneCall(ms, ToolUseBlock(ToolId(story.first, 0), story.first.name), story.final.arguments)
    ensures FoldsTo(cfg, parse, FoldAll(parse, Absent, ms), story)
  {
    hide FoldAll, OneCall, Owned, ToolId;
    var start := ToolUseBlock(ToolId(story.first, 0), story.first.name);
    CallFolds(parse, ms, start, story.final.arguments);
    SameId(story);
    var ji := AsItem(story);
    if L.Parses(parse, ji) {
      var b := CallContent(parse, start, story.final.arguments).block;
      assert L.Gives(cfg, parse, ji, 0) == [b];
      assert AsBlocks([b]) == [AsBlock(b)];
    }
  }

  lemma SameId(story: Story)
    requires story.first.kind.CallItem?
    ensures ToolId(AsItem(story).item, 0) == ToolId(story.first, 0)
  {
  }

  lemma ThoughtBlock(cfg: Config, parse: C.Parser, ms: seq<Mark>, story: Story)
    requires story.first.kind.ReasoningItem? && !Blockless(cfg, story)
    requires ThoughtMarks(cfg, ms, Join(story.deltas), Blob(cfg, Translate.Thinking, story.final))
    ensures FoldsTo(cfg, parse, FoldAll(parse, Absent, ms), story)
  {
    hide FoldAll, OneThought, Owned, Join, Blob;
    var summary, blob := Join(story.deltas), Blob(cfg, Translate.Thinking, story.final);
    SameBlob(cfg, story);
    if cfg.blank(summary) {
      RedactedFolds(parse, blob);
    } else {
      ThinkingFolds(parse, ms, summary, blob);
    }
    var b := FoldAll(parse, Absent, ms).block;
    assert L.Gives(cfg, parse, AsItem(story), 0) == [b];
    assert AsBlocks([b]) == [AsBlock(b)];
  }

  lemma SameBlob(cfg: Config, story: Story)
    requires story.first.kind.ReasoningItem?
    ensures Blob(cfg, Translate.Thinking, AsItem(story).item) == Blob(cfg, Translate.Thinking, story.final)
  {
  }

  lemma TextBlockFolds(cfg: Config, parse: C.Parser, ms: seq<Mark>, story: Story)
    requires story.first.kind.MessageItem? && Begins(ms) && ms[0].start.TextBlock?
    ensures FoldsTo(cfg, parse, FoldAll(parse, Absent, ms), story)
  {
    hide Owned, Join;
    TextRestFolds(parse, C.Begin(TextBlock), ms[1..]);
    assert FoldAll(parse, Absent, ms) == FoldAll(parse, Kept(C.Begin(TextBlock)), ms[1..]);
    var policy, b := Ours(cfg), FoldAll(parse, Absent, ms).block;
    OwnedOne(policy, AsBlock(b));
    var given := L.Gives(cfg, parse, AsItem(story), 0);
    if given == [] {
      assert AsBlocks(given) == [];
    } else {
      assert AsBlocks(given) == [AsBlock(given[0])];
      OwnedOne(policy, AsBlock(given[0]));
    }
  }

  // ---- The blocks of the stream ----

  /** Only items that are told of, and not of the other kind or without a block, own blocks. */
  lemma OwnersTold(cfg: Config, model: Text, es: seq<Upstream>, stories: map<int, Story>, k: int)
    requires GoodBlank(cfg) && Narrated(es, stories) && k in Owners(PushAll(cfg, Fresh(model), es).out)
    ensures k in stories && !stories[k].first.kind.OtherItem?
    ensures stories[k].first.kind.ReasoningItem? ==> !Blockless(cfg, stories[k])
  {
    hide PushAll, AllDone, Of, Usual, OwnersAfter, Narrates, GoodBlank, Blockless, ReasoningBodies;
    assert NarratedAt(es, stories, k);
    EveryDone(es, stories);
    if k !in stories || !stories[k].first.kind.MessageItem? {
      NotMessage(es, stories, k);
      AllSaid(cfg, model, es, k);
      if k !in stories {
        NothingSaid(cfg, Of(es, k));
        NoBlock(cfg, model, es, k);
      } else if stories[k].first.kind.OtherItem? {
        OtherSaysNothing(cfg, Of(es, k), stories[k]);
        NoBlock(cfg, model, es, k);
      } else if stories[k].first.kind.ReasoningItem? {
        ToldBodies(Of(es, k), stories[k]);
        ReasoningAlone(cfg, Of(es, k), stories[k].first, stories[k].deltas, stories[k].final);
        if Blockless(cfg, stories[k]) {
          BlocklessStarts(cfg, stories[k]);
          NoBlock(cfg, model, es, k);
        }
      }
    }
  }

  lemma BlocklessStarts(cfg: Config, story: Story)
    requires Blockless(cfg, story)
    ensures cfg.blank(Join(story.deltas)) && Blob(cfg, Translate.Thinking, story.final) == []
  {
  }

  lemma ToldBodies(bodies: seq<Body>, story: Story)
    requires Narrates(bodies, story)
    ensures story.first.kind.CallItem? ==>
      CallBodies(bodies, story.first, story.deltas, story.final) && Join(story.deltas) <= story.final.arguments
    ensures story.first.kind.ReasoningItem? ==> ReasoningBodies(bodies, story.first, story.deltas, story.final)
    ensures story.first.kind.MessageItem? ==> bodies != [] && bodies[0].Added? && bodies[0].item == story.first
  {
    hide Join, CallBodies, ReasoningBodies;
  }

  lemma NothingSaid(cfg: Config, bodies: seq<Body>)
    requires bodies == []
    ensures Starts(Solo(cfg, Unknown, bodies)) == 0
  {
  }

  lemma OtherSaysNothing(cfg: Config, bodies: seq<Body>, story: Story)
    requires Narrates(bodies, story) && story.first.kind.OtherItem?
    ensures Starts(Solo(cfg, Unknown, bodies)) == 0
  {
    UnknownStays(cfg, bodies);
  }

  lemma {:induction false} UnknownStays(cfg: Config, bodies: seq<Body>)
    requires forall i :: 0 <= i < |bodies| ==> bodies[i].Added? ==> bodies[i].item.kind.OtherItem?
    ensures Solo(cfg, Unknown, bodies) == []
    decreases |bodies|
  {
    if bodies != [] {
      UnknownStays(cfg, bodies[1..]);
    }
  }

  /** Every block folds to what is replayed of its owner, or is refused with it. */
  lemma EveryBlock(cfg: Config, parse: C.Parser, model: Text, es: seq<Upstream>, stories: map<int, Story>, n: nat)
    requires GoodBlank(cfg) && Narrated(es, stories)
    ensures var out := PushAll(cfg, Fresh(model), es).out;
      n < |Owners(out)| ==>
        Owners(out)[n] in stories
          && FoldsTo(cfg, parse, FoldAll(parse, Absent, MarksAt(Outs(out), n)), stories[Owners(out)[n]])
  {
    hide PushAll, AllDone, Of, Usual, OwnersAfter, Narrates, GoodBlank, Blockless, FoldsTo, FoldAll, MarksAt, OneCall,
         OneThought, CallBodies, ReasoningBodies, Told, Join;
    var out := PushAll(cfg, Fresh(model), es).out;
    if n < |Owners(out)| {
      var k := Owners(out)[n];
      OwnersTold(cfg, model, es, stories, k);
      EveryDone(es, stories);
      assert NarratedAt(es, stories, k);
      var story := stories[k];
      ToldBodies(Of(es, k), story);
      match story.first.kind {
        case CallItem =>
          NotMessage(es, stories, k);
          var m := CallSaysItsArguments(cfg, model, es, k, story.first, story.deltas, story.final);
          CallBlock(cfg, parse, MarksAt(Outs(out), n), story);
        case ReasoningItem =>
          NotMessage(es, stories, k);
          var m := ReasoningKeepsItsSignature(cfg, model, es, k, story.first, story.deltas, story.final);
          ThoughtBlock(cfg, parse, MarksAt(Outs(out), n), story) by { SignedMarks(cfg, story, MarksAt(Outs(out), n)); }
        case MessageItem => MessageBlock(cfg, parse, model, es, n, story);
        case OtherItem =>
      }
    }
  }

  lemma SignedMarks(cfg: Config, story: Story, ms: seq<Mark>)
    requires !Blockless(cfg, story)
    requires var blob := Blob(cfg, Translate.Thinking, story.final);
      !(cfg.blank(Join(story.deltas)) && blob == []) ==>
        if cfg.blank(Join(story.deltas)) then ms == [Opens(RedactedBlock(blob)), Closes]
        else OneThought(ms, Join(story.deltas), blob)
    ensures ThoughtMarks(cfg, ms, Join(story.deltas), Blob(cfg, Translate.Thinking, story.final))
  {
    hide OneThought, Blob, Join;
  }

  lemma MessageBlock(cfg: Config, parse: C.Parser, model: Text, es: seq<Upstream>, n: nat, story: Story)
    requires Usual(es) && (forall k :: AllDone(es, k)) && n < |Owners(PushAll(cfg, Fresh(model), es).out)|
    requires var k := Owners(PushAll(cfg, Fresh(model), es).out)[n];
      Of(es, k) != [] && Of(es, k)[0].Added? && Of(es, k)[0].item == story.first && story.first.kind.MessageItem?
    ensures FoldsTo(cfg, parse, FoldAll(parse, Absent, MarksAt(Outs(PushAll(cfg, Fresh(model), es).out), n)), story)
  {
    hide PushAll, AllDone, Of, Usual, OwnersAfter, FoldsTo, FoldAll, AllFit, TextEvent;
    var out := PushAll(cfg, Fresh(model), es).out;
    var k := Owners(out)[n];
    OneOwnerPerBlock(cfg, model, es);
    BlockBegins([], out, n);
    MessageIsText(cfg, model, es, k);
    assert forall e <- Outs(out) :: BlockOf(e) == Some(n) ==> In(e, Owners(out), k);
    MarksFrom(Outs(out), n);
    var ms := MarksAt(Outs(out), n);
    assert ms[0] in ms;
    TextBlockFolds(cfg, parse, ms, story);
  }

  // ---- Replaying owner by owner ----

  /** What `v` has for each of `ks`, in order. */
  function Gather(v: map<int, seq<R.Input>>, ks: seq<int>): seq<R.Input> {
    if ks == [] then [] else (if ks[0] in v then v[ks[0]] else []) + Gather(v, ks[1..])
  }

  lemma {:induction false} GatherAmong(v: map<int, seq<R.Input>>, ks: seq<int>, s: set<int>)
    requires forall k <- v :: k in s || v[k] == []
    ensures Gather(v, ks) == Gather(v, Among(ks, s))
  {
    if ks != [] {
      GatherAmong(v, ks[1..], s);
      if ks[0] in s {
        assert ([ks[0]] + Among(ks[1..], s))[1..] == Among(ks[1..], s);
      } else {
        assert [] + Gather(v, ks[1..]) == Gather(v, ks[1..]);
        assert [] + Among(ks[1..], s) == Among(ks[1..], s);
      }
    }
  }

  lemma {:induction false} GatherSame(v: map<int, seq<R.Input>>, w: map<int, seq<R.Input>>, ks: seq<int>)
    requires v.Keys == w.Keys && forall k <- v :: |v[k]| == |w[k]|
    ensures Gather(v, ks) == Gather(w, ks) <==> forall i :: 0 <= i < |ks| && ks[i] in v ==> v[ks[i]] == w[ks[i]]
  {
    if ks != [] {
      GatherSame(v, w, ks[1..]);
      var a, b := if ks[0] in v then v[ks[0]] else [], if ks[0] in w then w[ks[0]] else [];
      EqualPieces(a, b, Gather(v, ks[1..]), Gather(w, ks[1..]));
      assert forall i :: 1 <= i < |ks| ==> ks[i] == ks[1..][i - 1];
      assert forall i :: 0 <= i < |ks[1..]| ==> ks[1..][i] == ks[i + 1];
    }
  }

  lemma {:induction false} OwnedByOwner(policy: R.Policy, content: seq<C.Content>, ow: seq<int>,
                                        v: map<int, seq<R.Input>>)
    requires |content| == |ow|
    requires forall n :: 0 <= n < |ow| ==> ow[n] in v && Owned(policy, [AsBlock(content[n])]) == v[ow[n]]
    ensures Owned(policy, AsBlocks(content)) == Gather(v, ow)
    decreases |ow|
  {
    if ow == [] {
      assert AsBlocks(content) == [];
    } else {
      assert forall n :: 0 <= n < |ow[1..]| ==> ow[1..][n] == ow[n + 1] && content[1..][n] == content[n + 1];
      OwnedByOwner(policy, content[1..], ow[1..], v);
      assert AsBlocks(content) == [AsBlock(content[0])] + AsBlocks(content[1..]);
      OwnedAppend(policy, [AsBlock(content[0])], AsBlocks(content[1..]));
    }
  }

  // ---- There and back ----

  /** What of each item must come back. */
  function Wants(cfg: Config, parse: C.Parser, stories: map<int, Story>): map<int, seq<R.Input>> {
    map k | k in stories ::
      if L.Parses(parse, AsItem(stories[k])) then Wanted(cfg, parse, AsItem(stories[k]), 0) else []
  }

  function Backs(cfg: Config, parse: C.Parser, stories: map<int, Story>): map<int, seq<R.Input>> {
    map k | k in stories :: Back(cfg, parse, stories[k])
  }

  /** The items with a block of their own. */
  function Blocked(cfg: Config, stories: map<int, Story>): set<int> {
    set k | k in stories
      && (stories[k].first.kind.CallItem? || (stories[k].first.kind.ReasoningItem? && !Blockless(cfg, stories[k])))
  }

  lemma BackOrNot(cfg: Config, parse: C.Parser, stories: map<int, Story>, k: int)
    requires GoodBlank(cfg) && cfg.prefix != [] && k in stories && L.Parses(parse, AsItem(stories[k]))
    ensures var v, w := Backs(cfg, parse, stories), Wants(cfg, parse, stories);
      && |v[k]| == |w[k]|
      && (v[k] == w[k] <==> Returns(parse, AsItem(stories[k])))
      && (k !in Blocked(cfg, stories) ==> v[k] == [])
  {
    hide GoodBlank, Wanted, Returns, L.Gives, AsItem, L.Parses;
    ItemComesBack(cfg, parse, AsItem(stories[k]), 0);
    if k !in Blocked(cfg, stories) {
      NothingWanted(cfg, parse, stories[k]);
    }
  }

  lemma NothingWanted(cfg: Config, parse: C.Parser, story: Story)
    requires L.Parses(parse, AsItem(story)) && !story.first.kind.CallItem?
    requires story.first.kind.ReasoningItem? ==> Blockless(cfg, story)
    ensures Wanted(cfg, parse, AsItem(story), 0) == []
  {
    hide Join;
    if story.first.kind.ReasoningItem? {
      NoBlob(cfg, story.final);
    }
  }

  lemma {:induction false} DoneIn(log: seq<Upstream>, k: int, i: nat)
    requires i < |Of(log, k)| && Of(log, k)[i].Done?
    ensures k in DoneOrder(log)
  {
    var e := log[0];
    if e.OfItem? && e.k == Some(k) {
      if i == 0 {
        assert DoneOf(e) == [k];
      } else {
        DoneIn(log[1..], k, i - 1);
      }
    } else {
      DoneIn(log[1..], k, i);
    }
  }

  lemma {:induction false} OwnersInOrder(cfg: Config, parse: C.Parser, model: Text, es: seq<Upstream>,
                                         stories: map<int, Story>, log: seq<Upstream>)
    requires GoodBlank(cfg) && cfg.prefix != [] && Narrated(es, stories) && HandledAs(cfg, model, es, log)
      && AllParse(parse, stories)
    ensures var v := Backs(cfg, parse, stories);
      Gather(v, Owners(PushAll(cfg, Fresh(model), es).out)) == Gather(v, DoneOrder(log))
  {
    hide PushAll, Of, Usual, OwnersAfter, AllDone, GoodBlank, Narrates, Tidy, NeverMessage, Blockless, HandledAs, Backs,
         L.Parses, Gather;
    var v, s := Backs(cfg, parse, stories), Blocked(cfg, stories);
    EveryDone(es, stories);
    forall k <- s ensures NeverMessage(es, k) && Tidy(cfg, Unknown, Of(es, k)) {
      assert NarratedAt(es, stories, k);
      NotMessage(es, stories, k);
      StoryTidy(cfg, Of(es, k), stories[k]);
    }
    BlocksInDoneOrder(cfg, model, es, log, s);
    BacksKeys(cfg, parse, stories);
    forall k <- v ensures k in s || v[k] == [] {
      BackOrNot(cfg, parse, stories, k);
    }
    GatherAmong(v, Owners(PushAll(cfg, Fresh(model), es).out), s);
    GatherAmong(v, DoneOrder(log), s);
  }

  lemma BacksKeys(cfg: Config, parse: C.Parser, stories: map<int, Story>)
    ensures Backs(cfg, parse, stories).Keys == stories.Keys == Wants(cfg, parse, stories).Keys
  {
  }

  /** All items come back, in the order in which they were done, just when every item returns. */
  lemma BacksAreWanted(cfg: Config, parse: C.Parser, es: seq<Upstream>, stories: map<int, Story>, log: seq<Upstream>)
    requires GoodBlank(cfg) && cfg.prefix != [] && Narrated(es, stories) && (forall k :: Of(log, k) == Of(es, k))
      && AllParse(parse, stories)
    ensures Gather(Backs(cfg, parse, stories), DoneOrder(log)) == Gather(Wants(cfg, parse, stories), DoneOrder(log))
      <==> forall k <- stories :: Returns(parse, AsItem(stories[k]))
  {
    hide Of, Usual, GoodBlank, Backs, Wants, Gather, Returns, L.Parses, DoneOrder, Narrates;
    var v, w, ks := Backs(cfg, parse, stories), Wants(cfg, parse, stories), DoneOrder(log);
    BacksKeys(cfg, parse, stories);
    forall k <- stories
      ensures |v[k]| == |w[k]| && (v[k] == w[k] <==> Returns(parse, AsItem(stories[k])))
      ensures k in ks
    {
      BackOrNot(cfg, parse, stories, k);
      assert NarratedAt(es, stories, k) && Of(log, k) == Of(es, k);
      NarratedDone(es, stories, k);
      DoneIn(log, k, |Of(log, k)| - 1);
    }
    GatherSame(v, w, ks);
    if forall i :: 0 <= i < |ks| && ks[i] in v ==> v[ks[i]] == w[ks[i]] {
      forall k <- stories ensures Returns(parse, AsItem(stories[k])) {
        var i :| 0 <= i < |ks| && ks[i] == k;
        assert v[ks[i]] == w[ks[i]];
      }
    }
    if forall k <- stories :: Returns(parse, AsItem(stories[k])) {
      forall i | 0 <= i < |ks| && ks[i] in v ensures v[ks[i]] == w[ks[i]] {
        assert ks[i] in stories;
      }
    }
  }

  lemma EveryKept(cfg: Config, parse: C.Parser, model: Text, es: seq<Upstream>, stories: map<int, Story>, n: nat)
    requires GoodBlank(cfg) && Narrated(es, stories) && AllParse(parse, stories)
    ensures var out := PushAll(cfg, Fresh(model), es).out;
      var f := FoldAll(parse, Absent, MarksAt(Outs(out), n));
      n < |Owners(out)| ==>
        && f.Kept? && Owners(out)[n] in Backs(cfg, parse, stories)
        && Owned(Ours(cfg), [AsBlock(f.block)]) == Backs(cfg, parse, stories)[Owners(out)[n]]
  {
    hide PushAll, GoodBlank, Narrated, FoldAll, MarksAt, Outs, Owned, AsBlock, Back, L.Parses, OwnersAfter;
    EveryBlock(cfg, parse, model, es, stories, n);
    var ow := Owners(PushAll(cfg, Fresh(model), es).out);
    if n < |ow| {
      var k := ow[n];
      assert k in stories && L.Parses(parse, AsItem(stories[k]));
    }
  }

  /** The content of the message, block by block. */
  lemma ContentOf(cfg: Config, parse: C.Parser, model: Text, es: seq<Upstream>, stories: map<int, Story>)
      returns (content: seq<C.Content>)
    requires GoodBlank(cfg) && Narrated(es, stories) && AllParse(parse, stories)
    ensures var out := PushAll(cfg, Fresh(model), es).out;
      && |content| == |Owners(out)| && Folds(parse, Outs(out), content)
      && Owned(Ours(cfg), AsBlocks(content)) == Gather(Backs(cfg, parse, stories), Owners(out))
  {
    hide PushAll, Of, Usual, OwnersAfter, GoodBlank, FoldAll, MarksAt, Outs, Owned, AsBlock, Back, L.Parses;
    var out := PushAll(cfg, Fresh(model), es).out;
    var ow := Owners(out);
    forall n | 0 <= n < |ow|
      ensures FoldAll(parse, Absent, MarksAt(Outs(out), n)).Kept?
    {
      EveryKept(cfg, parse, model, es, stories, n);
    }
    content := seq(|ow|, n requires 0 <= n < |ow| => FoldAll(parse, Absent, MarksAt(Outs(out), n)).block);
    forall n | 0 <= n < |ow|
      ensures ow[n] in Backs(cfg, parse, stories)
      ensures Owned(Ours(cfg), [AsBlock(content[n])]) == Backs(cfg, parse, stories)[ow[n]]
      ensures FoldAll(parse, Absent, MarksAt(Outs(out), n)) == Kept(content[n])
    {
      EveryKept(cfg, parse, model, es, stories, n);
    }
    OwnedByOwner(Ours(cfg), content, ow, Backs(cfg, parse, stories));
  }

  /** A call whose arguments do not parse has a block, and the block is refused. */
  lemma UnparsedRefused(cfg: Config, parse: C.Parser, model: Text, es: seq<Upstream>, stories: map<int, Story>, k: int)
      returns (n: int)
    requires GoodBlank(cfg) && Narrated(es, stories) && k in stories && !L.Parses(parse, AsItem(stories[k]))
    ensures FoldAll(parse, Absent, MarksAt(Outs(PushAll(cfg, Fresh(model), es).out), n)) == Refused
  {
    hide PushAll, AllDone, Of, Usual, OwnersAfter, Narrates, GoodBlank, FoldAll, MarksAt, OneCall, CallBodies, Told,
         Join;
    EveryDone(es, stories);
    assert NarratedAt(es, stories, k);
    ToldBodies(Of(es, k), stories[k]);
    NotMessage(es, stories, k);
    n := CallSaysItsArguments(cfg, model, es, k, stories[k].first, stories[k].deltas, stories[k].final);
    EveryBlock(cfg, parse, model, es, stories, n);
  }

  /** A stream whose items are told to their end, in whatever interleaving, and which then ends, is folded
      to a whole message just when every call's arguments parse and some item got a block. Replayed by the
      same provider, the message gives back the reasoning items and calls in the order in which they were
      done in `log`, the order in which the events were handled, just when every item returns. */
  lemma StreamComesBack(cfg: Config, parse: C.Parser, model: Text, es: seq<Upstream>, stories: map<int, Story>,
                        log: seq<Upstream>, r: Response)
    requires GoodBlank(cfg) && cfg.prefix != [] && Narrated(es, stories) && HandledAs(cfg, model, es, log)
    ensures var m := Collected(cfg, parse, model, es, r);
      && (m.Whole? <==> AllParse(parse, stories) && Owners(PushAll(cfg, Fresh(model), es).out) != [])
      && (m.Whole? ==>
           (Apart(R.Inputs(R.Assistant, Ours(cfg), R.Blocks(AsBlocks(m.content))))
            == Gather(Wants(cfg, parse, stories), DoneOrder(log))
            <==> forall k <- stories :: Returns(parse, AsItem(stories[k]))))
  {
    hide GoodBlank, PushAll, LogOf, Of, OwnersAfter, Collected, L.Parses, Returns, R.Rest, Apart, Owned, Gather,
         DoneOrder, NarratedAt, AllDone, Folds, FoldAll, Usual, Wants, Backs, Ours;
    EveryDone(es, stories);
    if AllParse(parse, stories) {
      var content := ContentOf(cfg, parse, model, es, stories);
      StreamCollects(cfg, parse, model, es, log, r, content);
      RestApart(R.Assistant, Ours(cfg), [], AsBlocks(content));
      OwnersInOrder(cfg, parse, model, es, stories, log);
      BacksAreWanted(cfg, parse, es, stories, log);
    } else {
      var k :| k in stories && !L.Parses(parse, AsItem(stories[k]));
      var n := UnparsedRefused(cfg, parse, model, es, stories, k);
      StreamRefused(cfg, parse, model, es, log, r, n);
    }
  }

  /** Items that do not interleave come back in the order in which they arrived. */
  lemma SeparateItemsComeBackInOrder(cfg: Config, parse: C.Parser, model: Text, es: seq<Upstream>,
                                     stories: map<int, Story>, r: Response)
    requires GoodBlank(cfg) && cfg.prefix != [] && Narrated(es, stories) && OneAtATime(es)
    ensures var m := Collected(cfg, parse, model, es, r);
      m.Whole? ==>
        && AllParse(parse, stories)
        && (Apart(R.Inputs(R.Assistant, Ours(cfg), R.Blocks(AsBlocks(m.content))))
            == Gather(Wants(cfg, parse, stories), DoneOrder(es))
            <==> forall k <- stories :: Returns(parse, AsItem(stories[k])))
  {
    hide GoodBlank, PushAll, HandledAs, Collected, Returns, R.Inputs, Apart, Gather, DoneOrder, NarratedAt, AllDone,
         Usual, Wants, OneAtATime;
    EveryDone(es, stories);
    ArrivalOrder(cfg, model, es);
    StreamComesBack(cfg, parse, model, es, stories, es, r);
  }
}
