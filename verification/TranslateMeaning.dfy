/** What a reader of the translated stream gets of each item, for every interleaving. */
module TranslateMeaning {
  import opened Text
  import opened Translate
  import opened TranslateItems
  import opened OwnerSteps
  import opened BlockOwners

  function Args(deltas: seq<Text>): (r: seq<Body>)
    ensures |r| == |deltas|
    ensures forall b <- r :: b.ArgsDelta?
  {
    if deltas == [] then [] else [ArgsDelta(deltas[0])] + Args(deltas[1..])
  }

  function Summaries(deltas: seq<Text>): (r: seq<Body>)
    ensures |r| == |deltas|
    ensures forall b <- r :: b.SummaryDelta?
  {
    if deltas == [] then [] else [SummaryDelta(deltas[0])] + Summaries(deltas[1..])
  }

  function JsonOf(m: Mark): Text {
    if m.Says? && m.piece.Json? then m.piece.json else []
  }

  function JsonIn(ms: seq<Mark>): Text {
    if ms == [] then [] else JsonOf(ms[0]) + JsonIn(ms[1..])
  }

  function ThoughtOf(m: Mark): Text {
    if m.Says? && m.piece.Thought? then m.piece.thought else []
  }

  function ThoughtIn(ms: seq<Mark>): Text {
    if ms == [] then [] else ThoughtOf(ms[0]) + ThoughtIn(ms[1..])
  }

  lemma {:induction false} JsonAppend(a: seq<Mark>, b: seq<Mark>)
    ensures JsonIn(a + b) == JsonIn(a) + JsonIn(b)
  {
    if a == [] {
      assert a + b == b;
    } else {
      assert (a + b)[0] == a[0] && (a + b)[1..] == a[1..] + b;
      JsonAppend(a[1..], b);
      hide JsonOf;
      assert JsonOf(a[0]) + (JsonIn(a[1..]) + JsonIn(b)) == (JsonOf(a[0]) + JsonIn(a[1..])) + JsonIn(b);
    }
  }

  lemma {:induction false} ThoughtAppend(a: seq<Mark>, b: seq<Mark>)
    ensures ThoughtIn(a + b) == ThoughtIn(a) + ThoughtIn(b)
  {
    if a == [] {
      assert a + b == b;
    } else {
      assert (a + b)[0] == a[0] && (a + b)[1..] == a[1..] + b;
      ThoughtAppend(a[1..], b);
      hide ThoughtOf;
      assert ThoughtOf(a[0]) + (ThoughtIn(a[1..]) + ThoughtIn(b))
          == (ThoughtOf(a[0]) + ThoughtIn(a[1..])) + ThoughtIn(b);
    }
  }

  lemma SoloCons(cfg: Config, a: Alone, body: Body, rest: seq<Body>)
    ensures Solo(cfg, a, [body] + rest) == AloneOn(cfg, a, body).1 + Solo(cfg, AloneOn(cfg, a, body).0, rest)
  {
    hide AloneOn;
    assert ([body] + rest)[0] == body && ([body] + rest)[1..] == rest;
  }

  // ---- Calls ----

  predicate IsJson(m: Mark) {
    m.Says? && m.piece.Json?
  }

  predicate IsThought(m: Mark) {
    m.Says? && m.piece.Thought?
  }

  /** Marks of one sort, and then exactly `end`. */
  predicate AllThen(ms: seq<Mark>, sort: Mark -> bool, end: seq<Mark>) {
    |end| <= |ms| && ms[|ms| - |end|..] == end && forall i :: 0 <= i < |ms| - |end| ==> sort(ms[i])
  }

  lemma AllLater(a: seq<Mark>, b: seq<Mark>, sort: Mark -> bool, end: seq<Mark>)
    requires AllThen(b, sort, end) && forall m <- a :: sort(m)
    ensures AllThen(a + b, sort, end)
  {
    assert (a + b)[|a + b| - |end|..] == b[|b| - |end|..];
  }

  lemma AllStart(ms: seq<Mark>, sort: Mark -> bool, end: seq<Mark>)
    requires AllThen(ms, sort, end) && (forall m <- end :: !m.Opens?) && forall m: Mark :: sort(m) ==> m.Says?
    ensures Starts(ms) == 0
  {
    forall m <- ms ensures !m.Opens? {
      var i :| 0 <= i < |ms| && ms[i] == m;
      assert i >= |ms| - |end| ==> m == end[i - (|ms| - |end|)];
    }
    NoStarts(ms);
  }

  lemma {:induction false} NoStarts(ms: seq<Mark>)
    requires forall m <- ms :: !m.Opens?
    ensures Starts(ms) == 0
  {
    if ms != [] {
      NoStarts(ms[1..]);
    }
  }

  /** What is said of a call's arguments: the deltas, and what the final arguments have beyond them. */
  function Told(deltas: seq<Text>, final: Item): Text {
    Join(deltas) + if |final.arguments| > |Join(deltas)| then final.arguments[|Join(deltas)|..] else []
  }

  lemma {:induction false} RestOfCall(cfg: Config, sent: nat, deltas: seq<Text>, final: Item)
    ensures var ms := Solo(cfg, Calling(true, sent), Args(deltas) + [Done(final)]);
      && AllThen(ms, IsJson, [Closes])
      && JsonIn(ms) == Join(deltas)
        + if |final.arguments| > sent + |Join(deltas)| then final.arguments[sent + |Join(deltas)|..] else []
    decreases |deltas|
  {
    hide AloneOn, Join, AllThen;
    if deltas == [] {
      LastOfCall(cfg, sent, final);
      assert Args(deltas) + [Done(final)] == [Done(final)];
    } else {
      var d := deltas[0];
      assert Args(deltas) + [Done(final)] == [ArgsDelta(d)] + (Args(deltas[1..]) + [Done(final)]);
      SoloCons(cfg, Calling(true, sent), ArgsDelta(d), Args(deltas[1..]) + [Done(final)]);
      RestOfCall(cfg, sent + |d|, deltas[1..], final);
      OneDelta(cfg, sent, d);
      JoinCons(deltas);
      var rest := Solo(cfg, Calling(true, sent + |d|), Args(deltas[1..]) + [Done(final)]);
      JsonAppend(AloneOn(cfg, Calling(true, sent), ArgsDelta(d)).1, rest);
      AllLater(AloneOn(cfg, Calling(true, sent), ArgsDelta(d)).1, rest, IsJson, [Closes]);
      CutsAgree(d, Join(deltas[1..]), Join(deltas), sent, final.arguments);
    }
  }

  lemma CutsAgree(d: Text, later: Text, all: Text, sent: nat, full: Text)
    requires all == d + later
    ensures d + (later + if |full| > (sent + |d|) + |later| then full[(sent + |d|) + |later|..] else [])
         == all + if |full| > sent + |all| then full[sent + |all|..] else []
  {
  }

  lemma JoinCons(deltas: seq<Text>)
    requires deltas != []
    ensures Join(deltas) == deltas[0] + Join(deltas[1..])
  {
  }

  lemma JoinNone()
    ensures Join([]) == []
  {
  }

  lemma OneDelta(cfg: Config, sent: nat, d: Text)
    ensures AloneOn(cfg, Calling(true, sent), ArgsDelta(d)).0 == Calling(true, sent + |d|)
    ensures JsonIn(AloneOn(cfg, Calling(true, sent), ArgsDelta(d)).1) == d
    ensures forall m <- AloneOn(cfg, Calling(true, sent), ArgsDelta(d)).1 :: IsJson(m)
  {
    var one: seq<Mark> := [Says(Json(d))];
    assert one[1..] == [];
  }

  lemma LastOfCall(cfg: Config, sent: nat, final: Item)
    ensures var ms := Solo(cfg, Calling(true, sent), [Done(final)]);
      && AllThen(ms, IsJson, [Closes]) && Join([]) == []
      && JsonIn(ms) == [] + if |final.arguments| > sent + 0 then final.arguments[sent + 0..] else []
  {
    var tail := if |final.arguments| > sent then final.arguments[sent..] else [];
    var ms: seq<Mark> := (if tail == [] then [] else [Says(Json(tail))]) + [Closes];
    assert [Done(final)][1..] == [];
    assert Solo(cfg, Calling(true, sent), [Done(final)]) == ms + [] == ms;
    var closes: seq<Mark> := [Closes];
    assert closes[1..] == [] && JsonIn(closes) == [];
    JsonAppend(if tail == [] then [] else [Says(Json(tail))], closes);
    if tail != [] {
      var one: seq<Mark> := [Says(Json(tail))];
      assert one[1..] == [] && JsonIn(one) == tail + [] == tail;
    }
  }

  predicate CallBodies(bodies: seq<Body>, item: Item, deltas: seq<Text>, final: Item) {
    && item.kind.CallItem? && |bodies| >= 2 && bodies[0].Added? && bodies[0].item == item
    && bodies[1..] == Args(deltas) + [Done(final)]
  }

  /** A tool-use block with its id and name, pieces of JSON, and its end. */
  predicate OneCall(ms: seq<Mark>, start: Start, json: Text) {
    |ms| >= 2 && ms[0] == Opens(start) && AllThen(ms[1..], IsJson, [Closes]) && JsonIn(ms) == json
  }

  lemma CallAlone(cfg: Config, bodies: seq<Body>, item: Item, deltas: seq<Text>, final: Item)
    requires CallBodies(bodies, item, deltas, final)
    ensures var ms := Solo(cfg, Unknown, bodies);
      OneCall(ms, ToolUseBlock(ToolId(item, 0), item.name), Told(deltas, final)) && Starts(ms) == 1
  {
    hide Join, AllThen, Args, Starts;
    assert bodies == [bodies[0]] + bodies[1..];
    SoloCons(cfg, Unknown, bodies[0], bodies[1..]);
    RestOfCall(cfg, 0, deltas, final);
    var rest := Solo(cfg, Calling(true, 0), bodies[1..]);
    var first: seq<Mark> := [Opens(ToolUseBlock(ToolId(item, 0), item.name))];
    JsonAppend(first, rest);
    assert first[1..] == [] && JsonIn(first) == [];
    NotEmpty(rest, IsJson, [Closes]);
    assert (first + rest)[1..] == rest;
    OneStart(first[0], rest, IsJson, [Closes]);
  }

  lemma OneStart(first: Mark, rest: seq<Mark>, sort: Mark -> bool, end: seq<Mark>)
    requires first.Opens? && AllThen(rest, sort, end) && (forall m <- end :: !m.Opens?)
    requires forall m: Mark :: sort(m) ==> m.Says?
    ensures Starts([first] + rest) == 1
  {
    hide AllThen;
    AllStart(rest, sort, end);
    assert ([first] + rest)[1..] == rest;
  }

  lemma NotEmpty(ms: seq<Mark>, sort: Mark -> bool, end: seq<Mark>)
    requires AllThen(ms, sort, end)
    ensures |ms| >= |end|
  {
  }

  lemma ToldIff(deltas: seq<Text>, final: Item)
    ensures Told(deltas, final) == final.arguments <==> Join(deltas) <= final.arguments
  {
    hide Join;
    var said := Join(deltas);
    if said <= final.arguments {
      assert said + final.arguments[|said|..] == final.arguments;
    } else if |said| <= |final.arguments| {
      assert Told(deltas, final)[..|said|] == said;
    }
  }

  /** Every item is done: what is said of item `k` is what it would say alone. */
  lemma AllSaid(cfg: Config, model: Text, es: seq<Upstream>, k: int)
    requires Usual(es) && (forall j :: AllDone(es, j)) && NeverMessage(es, k)
    ensures Marks(PushAll(cfg, Fresh(model), es).out, k) == Solo(cfg, Unknown, Of(es, k))
  {
    hide PushAll, Of, Usual, NeverMessage, AllDone;
    var handled := ItemsSpeakForThemselves(cfg, model, es, k);
    NothingHeldAtTheEnd(cfg, model, es);
    NothingElse(handled, Of(es, k), k);
  }

  /** A call is one block of its own, block `n`: its id, which is its item id where it has no call id, and its
      name, then JSON only, then its end. The JSON is the final arguments just when the deltas are a beginning
      of them. */
  lemma CallSaysItsArguments(cfg: Config, model: Text, es: seq<Upstream>, k: int, item: Item, deltas: seq<Text>,
                             final: Item)
      returns (n: int)
    requires Usual(es) && (forall j :: AllDone(es, j)) && NeverMessage(es, k)
    requires CallBodies(Of(es, k), item, deltas, final)
    ensures var out := PushAll(cfg, Fresh(model), es).out;
      && IsOnly(Owners(out), k, n)
      && OneCall(MarksAt(Outs(out), n), ToolUseBlock(ToolId(item, 0), item.name), Told(deltas, final))
    ensures item.callId.Some? ==> ToolId(item, 0) == item.callId.value
    ensures item.callId.None? && item.id.Some? ==> ToolId(item, 0) == item.id.value
    ensures Told(deltas, final) == final.arguments <==> Join(deltas) <= final.arguments
  {
    hide PushAll, Of, Usual, NeverMessage, AllDone, OneCall, CallBodies, Told, Join;
    AllSaid(cfg, model, es, k);
    CallAlone(cfg, Of(es, k), item, deltas, final);
    n := OneBlock(cfg, model, es, k);
    ToldIff(deltas, final);
  }

  lemma NothingElse(handled: seq<Body>, bodies: seq<Body>, k: int)
    requires handled + Of([], k) == bodies
    ensures handled == bodies
  {
    OfNothing(k);
    assert handled + [] == handled;
  }

  // ---- Reasoning ----

  /** Blankness is a matter of every part. */
  ghost predicate GoodBlank(cfg: Config) {
    cfg.blank([]) && forall a, b :: Both(cfg, a, b)
  }

  predicate Both(cfg: Config, a: Text, b: Text) {
    cfg.blank(a + b) <==> cfg.blank(a) && cfg.blank(b)
  }

  function Sealed(blob: Text): seq<Mark> {
    (if blob == [] then [] else [Says(Signature(blob))]) + [Closes]
  }

  lemma {:induction false} RestOfThought(cfg: Config, deltas: seq<Text>, final: Item)
    ensures var ms := Solo(cfg, Mind(true, []), Summaries(deltas) + [Done(final)]);
      AllThen(ms, IsThought, Sealed(Blob(cfg, Thinking, final))) && ThoughtIn(ms) == Join(deltas)
    decreases |deltas|
  {
    hide AloneOn, Blob, Sealed, AllThen, Join;
    if deltas == [] {
      LastOfThought(cfg, [], final, true);
      assert Summaries(deltas) + [Done(final)] == [Done(final)];
      JoinNone();
    } else {
      var d := deltas[0];
      assert Summaries(deltas) + [Done(final)] == [SummaryDelta(d)] + (Summaries(deltas[1..]) + [Done(final)]);
      SoloCons(cfg, Mind(true, []), SummaryDelta(d), Summaries(deltas[1..]) + [Done(final)]);
      RestOfThought(cfg, deltas[1..], final);
      ThoughtStep(cfg, d);
      JoinCons(deltas);
      var rest := Solo(cfg, Mind(true, []), Summaries(deltas[1..]) + [Done(final)]);
      ThoughtAppend(AloneOn(cfg, Mind(true, []), SummaryDelta(d)).1, rest);
      AllLater(AloneOn(cfg, Mind(true, []), SummaryDelta(d)).1, rest, IsThought, Sealed(Blob(cfg, Thinking, final)));
    }
  }

  lemma ThoughtStep(cfg: Config, d: Text)
    ensures AloneOn(cfg, Mind(true, []), SummaryDelta(d)).0 == Mind(true, [])
    ensures ThoughtIn(AloneOn(cfg, Mind(true, []), SummaryDelta(d)).1) == d
    ensures forall m <- AloneOn(cfg, Mind(true, []), SummaryDelta(d)).1 :: IsThought(m)
  {
    var one: seq<Mark> := [Says(Thought(d))];
    assert one[1..] == [];
  }

  lemma LastOfThought(cfg: Config, pending: Text, final: Item, live: bool)
    ensures var ms := Solo(cfg, Mind(live, pending), [Done(final)]);
      var blob := Blob(cfg, Thinking, final);
      && ThoughtIn(ms) == []
      && ms == if live then Sealed(blob) else if blob == [] then [] else [Opens(RedactedBlock(blob)), Closes]
    ensures live ==> AllThen(Solo(cfg, Mind(live, pending), [Done(final)]), IsThought,
                             Sealed(Blob(cfg, Thinking, final)))
  {
    hide Blob;
    var blob := Blob(cfg, Thinking, final);
    assert [Done(final)][1..] == [];
    var ms := if live then Sealed(blob) else if blob == [] then [] else [Opens(RedactedBlock(blob)), Closes];
    assert Solo(cfg, Mind(live, pending), [Done(final)]) == ms + [] == ms;
    SilentMarks(ms);
  }

  lemma {:induction false} SilentMarks(ms: seq<Mark>)
    requires forall m <- ms :: !(m.Says? && m.piece.Thought?)
    ensures ThoughtIn(ms) == []
  {
    if ms != [] {
      SilentMarks(ms[1..]);
    }
  }

  /** A thinking block, pieces of its summary, its signature if there is one, and its end. */
  predicate OneThought(ms: seq<Mark>, summary: Text, blob: Text) {
    |ms| >= 2 && ms[0] == Opens(ThinkingBlock) && AllThen(ms[1..], IsThought, Sealed(blob)) && ThoughtIn(ms) == summary
  }

  /** What a reasoning item says, given the summary so far, all blank. */
  lemma {:induction false} ThoughtSoFar(cfg: Config, pending: Text, deltas: seq<Text>, final: Item)
    requires GoodBlank(cfg) && cfg.blank(pending)
    ensures var ms := Solo(cfg, Mind(false, pending), Summaries(deltas) + [Done(final)]);
      var blob := Blob(cfg, Thinking, final);
      if cfg.blank(pending + Join(deltas)) then
        ms == if blob == [] then [] else [Opens(RedactedBlock(blob)), Closes]
      else
        OneThought(ms, pending + Join(deltas), blob)
    decreases |deltas|
  {
    hide AloneOn, Blob, Sealed, AllThen, Join, GoodBlank;
    if deltas == [] {
      LastOfThought(cfg, pending, final, false);
      assert Summaries(deltas) + [Done(final)] == [Done(final)];
      JoinNone();
      assert pending + [] == pending;
    } else {
      var d, later := deltas[0], Summaries(deltas[1..]) + [Done(final)];
      assert Summaries(deltas) + [Done(final)] == [SummaryDelta(d)] + later;
      SoloCons(cfg, Mind(false, pending), SummaryDelta(d), later);
      JoinCons(deltas);
      assert pending + (d + Join(deltas[1..])) == (pending + d) + Join(deltas[1..]);
      FirstThought(cfg, pending, d);
      if cfg.blank(pending + d) {
        ThoughtSoFar(cfg, pending + d, deltas[1..], final);
        assert [] + Solo(cfg, Mind(false, pending + d), later) == Solo(cfg, Mind(false, pending + d), later);
      } else {
        StillNotBlank(cfg, pending + d, Join(deltas[1..]));
        RestOfThought(cfg, deltas[1..], final);
        var rest := Solo(cfg, Mind(true, []), later);
        var first: seq<Mark> := [Opens(ThinkingBlock), Says(Thought(pending + d))];
        ThoughtAppend(first, rest);
        AllLater([first[1]], rest, IsThought, Sealed(Blob(cfg, Thinking, final)));
        assert (first + rest)[1..] == [first[1]] + rest;
        TwoThoughts(pending + d);
      }
    }
  }

  lemma TwoThoughts(text: Text)
    ensures ThoughtIn([Opens(ThinkingBlock), Says(Thought(text))]) == text
  {
    var two, one: seq<Mark> := [Opens(ThinkingBlock), Says(Thought(text))], [Says(Thought(text))];
    assert two[1..] == one && one[1..] == [];
    assert ThoughtIn(one) == text + [] == text;
    assert ThoughtIn(two) == [] + ThoughtIn(one);
  }

  lemma StillNotBlank(cfg: Config, a: Text, b: Text)
    requires GoodBlank(cfg) && !cfg.blank(a)
    ensures !cfg.blank(a + b)
  {
    assert Both(cfg, a, b);
  }

  lemma FirstThought(cfg: Config, pending: Text, d: Text)
    ensures AloneOn(cfg, Mind(false, pending), SummaryDelta(d))
         == if cfg.blank(pending + d) then (Mind(false, pending + d), [])
            else (Mind(true, []), [Opens(ThinkingBlock), Says(Thought(pending + d))])
  {
  }

  predicate ReasoningBodies(bodies: seq<Body>, item: Item, deltas: seq<Text>, final: Item) {
    && item.kind.ReasoningItem? && |bodies| >= 2 && bodies[0].Added? && bodies[0].item == item
    && bodies[1..] == Summaries(deltas) + [Done(final)]
  }

  /** What a reasoning item says: a thinking block, a redacted block, or nothing. */
  predicate ThoughtMarks(cfg: Config, ms: seq<Mark>, summary: Text, blob: Text) {
    if cfg.blank(summary) then ms == if blob == [] then [] else [Opens(RedactedBlock(blob)), Closes]
    else OneThought(ms, summary, blob)
  }

  lemma ReasoningAlone(cfg: Config, bodies: seq<Body>, item: Item, deltas: seq<Text>, final: Item)
    requires GoodBlank(cfg) && ReasoningBodies(bodies, item, deltas, final)
    ensures var ms := Solo(cfg, Unknown, bodies);
      && ThoughtMarks(cfg, ms, Join(deltas), Blob(cfg, Thinking, final))
      && Starts(ms) == if cfg.blank(Join(deltas)) && Blob(cfg, Thinking, final) == [] then 0 else 1
  {
    assert cfg.blank([]);
    hide Join, AllThen, Summaries, GoodBlank, Sealed, Blob, Starts;
    assert bodies == [bodies[0]] + bodies[1..];
    SoloCons(cfg, Unknown, bodies[0], bodies[1..]);
    ThoughtSoFar(cfg, [], deltas, final);
    assert [] + Join(deltas) == Join(deltas);
    assert [] + Solo(cfg, Mind(false, []), bodies[1..]) == Solo(cfg, Mind(false, []), bodies[1..]);
    ThoughtStarts(cfg, Solo(cfg, Unknown, bodies), Join(deltas), Blob(cfg, Thinking, final));
  }

  lemma ThoughtStarts(cfg: Config, ms: seq<Mark>, summary: Text, blob: Text)
    requires ThoughtMarks(cfg, ms, summary, blob)
    ensures Starts(ms) == if cfg.blank(summary) && blob == [] then 0 else 1
  {
    if !cfg.blank(summary) {
      OneStart(ms[0], ms[1..], IsThought, Sealed(blob));
      assert ms == [ms[0]] + ms[1..];
    } else if blob != [] {
      NoStarts([Closes]);
      assert ms[1..] == [Closes];
    }
  }

  /** A reasoning item with a visible summary is one thinking block, block `n`: its summary, then its own
      signature, then its end, and nothing else. Without one it is a redacted block holding the signature,
      or has no block at all. */
  lemma ReasoningKeepsItsSignature(cfg: Config, model: Text, es: seq<Upstream>, k: int, item: Item, deltas: seq<Text>,
                                   final: Item)
      returns (n: int)
    requires GoodBlank(cfg) && Usual(es) && (forall j :: AllDone(es, j)) && NeverMessage(es, k)
    requires ReasoningBodies(Of(es, k), item, deltas, final)
    ensures var out := PushAll(cfg, Fresh(model), es).out;
      var blob := Blob(cfg, Thinking, final);
      if cfg.blank(Join(deltas)) && blob == [] then k !in Owners(out)
      else
        && IsOnly(Owners(out), k, n)
        && var ms := MarksAt(Outs(out), n);
           if cfg.blank(Join(deltas)) then ms == [Opens(RedactedBlock(blob)), Closes]
           else OneThought(ms, Join(deltas), blob)
  {
    hide PushAll, Of, Usual, NeverMessage, AllDone, Join, ReasoningBodies, GoodBlank, OneThought, Blob;
    AllSaid(cfg, model, es, k);
    ReasoningAlone(cfg, Of(es, k), item, deltas, final);
    n := 0;
    if cfg.blank(Join(deltas)) && Blob(cfg, Thinking, final) == [] {
      NoBlock(cfg, model, es, k);
    } else {
      n := OneBlock(cfg, model, es, k);
    }
  }

  // ---- Messages ----

  lemma {:induction false} SerialFromAbsent(cfg: Config, t: Translator, log: seq<Upstream>, k: int)
    requires Usual(log) && k !in t.slots && Of(log, k) != [] && Of(log, k)[0].Added?
      && Of(log, k)[0].item.kind.MessageItem?
    ensures var r := Serial(cfg, t, log);
      MessageSlot(r.t, k) && Spoken(Marks(r.out, k)) + r.t.slots[k].pending == Received(Of(log, k))
    decreases |log|
  {
    hide HandleOne, Named, Marks, Spoken, Received;
    var e := log[0];
    var a := HandleOne(cfg, t, e);
    var b := Serial(cfg, a.t, log[1..]);
    MarksAppend(a.out, b.out, k);
    SpokenAppend(Marks(a.out, k), Marks(b.out, k));
    OfStep(log, k);
    if e.OfItem? && e.k == Some(k) {
      FirstWords(cfg, t, e, k);
      SerialWords(cfg, a.t, log[1..], k);
      ReceivedAppend([e.body], Of(log[1..], k));
    } else {
      OthersAloof(cfg, t, e, k);
      OnlyCloses(a.out, k);
      SerialFromAbsent(cfg, a.t, log[1..], k);
      assert [] + Of(log[1..], k) == Of(log[1..], k);
    }
    assert [] + Spoken(Marks(b.out, k)) == Spoken(Marks(b.out, k));
    assert [] + Received(Of(log[1..], k)) == Received(Of(log[1..], k));
  }

  lemma FirstWords(cfg: Config, t: Translator, e: Upstream, k: int)
    requires e.OfItem? && e.k == Some(k) && e.body.Added? && e.body.item.kind.MessageItem? && k !in t.slots
    ensures var a := HandleOne(cfg, t, e);
      MessageSlot(a.t, k) && a.t.slots[k].pending == [] && Spoken(Marks(a.out, k)) == [] && Received([e.body]) == []
  {
    hide EnsureStart, Marks;
    StartKeepsHeld(cfg, t, e.body.response);
    StartAway(cfg, t, e.body.response, k);
    MarksNone(EnsureStart(cfg, t, e.body.response).out, k);
    assert [e.body][1..] == [];
  }

  /** A message's text arrives whole and in order in the blocks that are its own, however many: what was
      sent there and the blanks still pending are what was received. */
  lemma MessageKeepsItsText(cfg: Config, model: Text, es: seq<Upstream>, k: int)
    requires Usual(es) && (forall j :: AllDone(es, j))
    requires Of(es, k) != [] && Of(es, k)[0].Added? && Of(es, k)[0].item.kind.MessageItem?
    ensures var r := PushAll(cfg, Fresh(model), es);
      && k in r.t.slots
      && Spoken(MarksBy(Outs(r.out), Owners(r.out), k)) + r.t.slots[k].pending == Received(Of(es, k))
  {
    hide PushAll, Serial, Calm, Of, AllDone, Marks, Spoken, Received, AllFit, OwnersAfter, Rightly;
    var t := Fresh(model);
    var log := PushAllLog(cfg, t, es);
    NothingHeldAtTheEnd(cfg, model, es);
    var r := PushAll(cfg, t, es);
    assert InTurn([], es, log, r.t.deferred, k);
    OfNothing(k);
    assert [] + Of(es, k) == Of(es, k) && Of(log, k) + [] == Of(log, k);
    SerialFromAbsent(cfg, t, log, k);
    OneOwnerPerBlock(cfg, model, es);
    ByOwner(r.out, Owners(r.out), k);
  }

  // ---- A message's blocks are text ----

  predicate TextEvent(e: Out) {
    match e
    case BlockStart(_, start) => start.TextBlock?
    case BlockDelta(_, piece) => piece.Words?
    case _ => true
  }

  predicate TextOnly(out: seq<Emission>, k: int) {
    forall e <- out :: e.owner == Some(k) ==> TextEvent(e.event)
  }

  lemma MessageTexts(cfg: Config, t: Translator, k: int, body: Body)
    requires Has(t, k, Message)
    ensures var r := HandleItem(cfg, t, Some(k), body); Has(r.t, k, Message) && TextOnly(r.out, k)
  {
    hide Blob, ToolId, EnsureStart, OnText, OnSummary, OnArgs;
    match body
    case Added(item, r) =>
      StartKeepsHeld(cfg, t, r);
      StartAway(cfg, t, r, k);
    case TextDelta(delta) => WordsAreText(cfg, t, k, delta);
    case SummaryDelta(delta) => SummaryElsewhere(cfg, t, k, delta);
    case ArgsDelta(delta) => ArgsElsewhere(t, k, delta);
    case Done(item) =>
  }

  lemma WordsAreText(cfg: Config, t: Translator, k: int, delta: Text)
    requires Has(t, k, Message)
    ensures var r := OnText(cfg, t, k, delta); Has(r.t, k, Message) && TextOnly(r.out, k)
  {
    hide CloseOther;
    CloseOtherAway(t, k, k);
  }

  lemma {:induction false} SerialTexts(cfg: Config, t: Translator, log: seq<Upstream>, k: int)
    requires Usual(log)
    requires Has(t, k, Message)
      || (k !in t.slots && (Of(log, k) == [] || (Of(log, k)[0].Added? && Of(log, k)[0].item.kind.MessageItem?)))
    ensures TextOnly(Serial(cfg, t, log).out, k)
    decreases |log|
  {
    hide HandleOne, Named, TextEvent;
    if log != [] {
      var e := log[0];
      OfStep(log, k);
      TextsStep(cfg, t, e, k);
      SerialTexts(cfg, HandleOne(cfg, t, e).t, log[1..], k);
    }
  }

  lemma TextsStep(cfg: Config, t: Translator, e: Upstream, k: int)
    requires Plain(e) && Named(e)
    requires Has(t, k, Message)
      || (k !in t.slots && (e.OfItem? && e.k == Some(k) ==> e.body.Added? && e.body.item.kind.MessageItem?))
    ensures var a := HandleOne(cfg, t, e);
      && TextOnly(a.out, k)
      && (if Has(t, k, Message) || (e.OfItem? && e.k == Some(k)) then Has(a.t, k, Message) else k !in a.t.slots)
  {
    hide HandleItem;
    if e.OfItem? && e.k == Some(k) {
      if k in t.slots {
        MessageTexts(cfg, t, k, e.body);
      } else {
        FirstTexts(cfg, t, k, e.body);
      }
    } else {
      OthersAloof(cfg, t, e, k);
    }
  }

  lemma FirstTexts(cfg: Config, t: Translator, k: int, body: Body)
    requires k !in t.slots && body.Added? && body.item.kind.MessageItem?
    ensures var r := HandleItem(cfg, t, Some(k), body); Has(r.t, k, Message) && TextOnly(r.out, k)
  {
    hide EnsureStart;
    StartKeepsHeld(cfg, t, body.response);
    StartAway(cfg, t, body.response, k);
  }

  /** A message's own blocks hold words and nothing else. */
  lemma MessageIsText(cfg: Config, model: Text, es: seq<Upstream>, k: int)
    requires Usual(es) && (forall j :: AllDone(es, j))
    requires Of(es, k) != [] && Of(es, k)[0].Added? && Of(es, k)[0].item.kind.MessageItem?
    ensures var out := PushAll(cfg, Fresh(model), es).out;
      forall e <- Outs(out) :: In(e, Owners(out), k) ==> TextEvent(e)
  {
    hide PushAll, Serial, Calm, Of, AllDone, AllFit, OwnersAfter, TextEvent;
    var t := Fresh(model);
    var log := PushAllLog(cfg, t, es);
    NothingHeldAtTheEnd(cfg, model, es);
    var r := PushAll(cfg, t, es);
    assert InTurn([], es, log, r.t.deferred, k);
    OfNothing(k);
    assert [] + Of(es, k) == Of(es, k) && Of(log, k) + [] == Of(log, k);
    SerialTexts(cfg, t, log, k);
    OneOwnerPerBlock(cfg, model, es);
    forall e <- Outs(r.out) ensures In(e, Owners(r.out), k) ==> TextEvent(e) {
      var i :| 0 <= i < |Outs(r.out)| && Outs(r.out)[i] == e;
      assert r.out[i] in r.out && Rightly(r.out[i], Owners(r.out));
    }
  }
}
