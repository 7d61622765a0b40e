/** Rounds of a call given up while it is handled: each leaves the byte counter one off, until the head is refused. */
module DriftRuns {
  import opened Text
  import opened Sums
  import opened Transport
  import opened Receiver
  import opened ReceiverLaws
  import opened Sender
  import opened Book
  import opened DeviceLink
  import opened HeadOfLine
  import opened CornerRuns

  const CALL := Header(Invoke, [73], [], [])
  const PAIR: Text := [97, 97]

  /** The one frame of a call under number `k`, sent alone. */
  function Framed(k: nat, json: Text): Envelope {
    Envelope(CALL, Wrapper(VERSION, [115], k, if k > 1 then Some(k) else None, None, json))
  }

  function ReadAs(k: nat, json: Text): Parsed {
    Parsed([115], k, k, None, json)
  }

  lemma OneFrame(k: nat, json: Text)
    requires 1 <= k <= MAX_SAFE_INTEGER && ByteLength(json) <= MAX_CHUNK_BYTES
    ensures Encode(CALL, LINK.streamId, json, k, k) == Some([Framed(k, json)])
    ensures Parse(Framed(k, json).body) == Some(ReadAs(k, json))
  {
    SplitMessage(json);
    hide ByteLength, Split;
    SinglePart(Split(json, MAX_CHUNK_BYTES));
    var frames := Encode(CALL, LINK.streamId, json, k, k).value;
    assert frames == [frames[0]];
  }

  lemma PairSize()
    ensures ByteLength(PAIR) == 2
  {
    assert PAIR[1..] == [97] && PAIR[1..][1..] == [];
    assert ByteLength(PAIR[1..]) == 1;
  }

  // ---- At rest between two rounds ----

  /** The sender when `n` calls are done, and the receiver's stream, off by `b` bytes. */
  function Resting(n: nat): Sender {
    FRESH.(reliable := true, phase := Phase.Open, nextSeq := n + 1, highestAck := n)
  }

  function Calm(n: nat, b: nat): Stream {
    Stream(n, if n == 0 then 1 else n, map[], map[], b, Idle, false)
  }

  predicate AtRest(y: Sys, n: nat, b: nat) {
    && y.s == Resting(n) && y.active && y.remoteBase == 1
    && (y.rx == Some(Calm(n, b)) || (n == 0 && b == 0 && y.rx == None))
  }

  const OPENED: seq<Step> := [Negotiate(true), OpenSending(Resume(true, false, false), 0, []), SetActive(true)]

  lemma Opened()
    ensures Run(START, LINK, OPENED) == START.(s := Resting(0), active := true)
  {
    hide Run;
    var one: seq<Step> := [Negotiate(true)];
    var two := one + [OpenSending(Resume(true, false, false), 0, [])];
    assert [] + one == one && two + [SetActive(true)] == OPENED;
    NothingRun(LINK);
    RunSnoc(LINK, [], Negotiate(true));
    assert Run(START, LINK, one) == START.(s := FRESH.(reliable := true));
    RunSnoc(LINK, one, OpenSending(Resume(true, false, false), 0, []));
    RunSnoc(LINK, two, SetActive(true));
  }

  // ---- The steps of a round ----

  /** The call as it is queued: written once, charged what its skip would cost. */
  function Queue(k: nat, json: Text, bytes: nat): Pending {
    Pending(k, CALL, json, false, bytes, 1, 0, true, 0)
  }

  /** A call of at most two bytes is queued and written. */
  lemma CallSent(y: Sys, n: nat, b: nat, json: Text)
    requires AtRest(y, n, b) && n < MAX_SAFE_INTEGER && ByteLength(json) <= 2
    ensures var z := Do(y, LINK, Send(Given(CALL, json)));
      && z.s == Resting(n).(pending := [Queue(n + 1, json, 5)], pendingBytes := 5, nextSeq := n + 2)
      && Framed(n + 1, json) in z.frames && z == y.(s := z.s, frames := z.frames, book := z.book)
  {
    LinkIsGood();
    hide ByteLength, Encode, WireBytes;
    var k, s := n + 1, Resting(n);
    OneFrame(k, json);
    Cost(CALL, json, 1, k, k);
    Cost(CALL, SKIP, 1, k, k);
    var clean := Pending(k, CALL, json, false, 5, 0, 0, false, 0);
    assert Reservation(LINK, CALL, json, k) == Some(5);
    var t := s.(pending := [clean], pendingBytes := 5, nextSeq := k + 1);
    assert s.pending + [clean] == [clean];
    assert [Framed(k, json)][..1] == [Framed(k, json)];
    assert SendAt(t, LINK, 0, 0, 1) == Outcome(t.(pending := [Queue(k, json, 5)]), [Framed(k, json)]);
    assert SendMessage(s, LINK, Given(CALL, json))
      == Sent(t.(pending := [Queue(k, json, 5)]), [Framed(k, json)], Accepted);
    assert Framed(k, json) in [Framed(k, json)];
  }

  /** A whole frame arrives. */
  lemma WholeArrives(y: Sys, env: Env, f: Envelope, p: Parsed)
    requires f in y.frames && y.active && Parse(f.body) == Some(p) && p.segment.None?
    ensures var s := if y.rx.Some? then y.rx.value else Receiver.Open(Max(y.remoteBase, p.baseSeq));
      var r := Ingest(s, env.j, y.remoteBase, f.header, p);
      Do(y, env, Arrive(f)) == y.(rx := Some(r.stream), acks := y.acks + (set a | a in r.acks))
  {
    hide Ingest, Parse, Receiver.Open;
  }

  /** The stream with the call stored, and while it is being handled. */
  function Stowed(n: nat, b: nat): Stream {
    Stream(n, n + 1, map[], map[n + 1 := Ready(CALL, LETTER)], b + 1, Live, false)
  }

  function Handling(n: nat, b: nat): Stream {
    Stowed(n, b).(drain := Awaiting(n + 1, Ready(CALL, LETTER)))
  }

  lemma CallStored(n: nat, b: nat)
    requires b < MAX_REASSEMBLY_BYTES
    ensures Receiver.Open(1) == Calm(0, 0)
    ensures Ingest(Calm(n, b), LINK.j, 1, CALL, ReadAs(n + 1, LETTER)) == Reaction(Stowed(n, b), [])
  {
    LinkIsGood();
    hide ByteLength, Sum;
    var clean := Calm(n, b).(base := n + 1);
    assert AdvanceBase(Calm(n, b), n + 1) == clean;
    assert HasRoom(clean, n + 1, 1);
    assert clean.ready[n + 1 := Ready(CALL, LETTER)] == Stowed(n, b).ready;
  }

  lemma DrainWaits(n: nat, b: nat)
    ensures StartDrain(Stowed(n, b), LINK.j, true) == Reaction(Handling(n, b), [])
  {
    hide ByteLength, Sum;
    assert LETTER != [115, 107];
  }

  lemma CallGivenUp(y: Sys, n: nat)
    requires n < MAX_SAFE_INTEGER
    requires y.s == Resting(n).(pending := [Queue(n + 1, LETTER, 5)], pendingBytes := 5, nextSeq := n + 2)
    ensures var z := Do(y, LINK, GiveUpRequest([73], 0, true, 1));
      && z.s == y.s.(pending := [Queue(n + 1, SKIP, 5)])
      && Framed(n + 1, SKIP) in z.frames && z == y.(s := z.s, frames := z.frames, book := z.book)
  {
    LinkIsGood();
    hide ByteLength, Encode, WireBytes;
    var k := n + 1;
    OneFrame(k, SKIP);
    Cost(CALL, SKIP, 1, k, k);
    FoundAt(y.s.pending, 0, [73]);
    assert [Framed(k, SKIP)][..1] == [Framed(k, SKIP)];
    assert Framed(k, SKIP) in [Framed(k, SKIP)];
    assert SkipRequest(y.s, LINK, [73], 0, true, 1) == Outcome(y.s.(pending := [Queue(k, SKIP, 5)]), [Framed(k, SKIP)]);
  }

  /** The skip in the call's place, or, where it does not fit, nothing. */
  function Overrun(n: nat, b: nat): Stream {
    if b + 2 <= MAX_REASSEMBLY_BYTES then
      Handling(n, b).(ready := map[n + 1 := Ready(CALL, SKIP)], buffered := b + 2, drainRequested := true)
    else Handling(n, b).(ready := map[], buffered := b)
  }

  /** The stream once the skip has taken the call away. */
  function Cleared(n: nat, b: nat): Stream {
    Handling(n, b).(ready := map[], buffered := b)
  }

  lemma CallTakenAway(n: nat, b: nat)
    ensures Ingest(Handling(n, b), LINK.j, 1, CALL, ReadAs(n + 1, SKIP))
         == StoreSingle(Handling(n, b), LINK.j, n + 1, CALL, SKIP)
    ensures Remove(Handling(n, b), n + 1) == Cleared(n, b)
  {
    LinkIsGood();
    hide ByteLength, Sum, StoreSingle;
    var s := Handling(n, b);
    assert s.ready - {n + 1} == map[] && s.assemblies - {n + 1} == map[];
    assert AdvanceBase(s, n + 1) == s;
  }

  lemma SkipStored(n: nat, b: nat)
    ensures Ingest(Handling(n, b), LINK.j, 1, CALL, ReadAs(n + 1, SKIP)).stream == Overrun(n, b)
  {
    LinkIsGood();
    CallTakenAway(n, b);
    hide ByteLength, Sum, Ingest, Remove;
    var k, cleared := n + 1, Cleared(n, b);
    assert Future(cleared, k) == {};
    if b + 2 <= MAX_REASSEMBLY_BYTES {
      assert HasRoom(cleared, k, 2);
      assert cleared.ready[k := Ready(CALL, SKIP)] == Overrun(n, b).ready;
    }
  }

  /** How far the byte counter is off after one more round. */
  function Off(b: nat): nat
    requires b < MAX_REASSEMBLY_BYTES
  {
    if b + 2 <= MAX_REASSEMBLY_BYTES then b + 1 else b - 1
  }

  lemma CallSettled(n: nat, b: nat)
    requires b < MAX_REASSEMBLY_BYTES
    ensures var r := Settle(Overrun(n, b), LINK.j, true, true);
      r.stream == Calm(n + 1, Off(b)) && n + 1 in r.acks
  {
    LinkIsGood();
    hide ByteLength, Sum;
    var k, s := n + 1, Overrun(n, b);
    var t := Delivered(s.(drain := Live), k, 1);
    assert s.ready - {k} == map[];
    assert t == Calm(k, Off(b)).(drain := Live, drainRequested := s.drainRequested);
    var u := t.(drainRequested := false);
    assert k + 1 !in u.ready && RunFrom(u, LINK.j, true) == EndRound(u, LINK.j, true) == Reaction(Calm(k, Off(b)), [k]);
    assert BeginRound(t) == u;
    assert RunFrom(t, LINK.j, true) == EndRound(t, LINK.j, true) == Reaction(Calm(k, Off(b)), [k]);
    assert k in [k];
  }

  lemma CallAcked(s: Sender, n: nat)
    requires s == Resting(n).(pending := [Queue(n + 1, SKIP, 5)], pendingBytes := 5, nextSeq := n + 2)
    ensures HandleAck(s, LINK, n + 1, None, 0, [], []).sender == Resting(n + 1)
    ensures HandleAck(s, LINK, n + 1, None, 0, [], []).written == []
  {
    var t := s.(highestAck := n + 1);
    assert DropHead(t).pending == [];
    assert DropAcked(t, n + 1) == DropHead(t);
  }

  // ---- A round ----

  /** A call under number `k` is sent and handled; its requester gives up, and the skip overtakes the
      handler; the handler succeeds, and the sender learns of it. */
  function Round(k: nat): seq<Step> {
    [Send(Given(CALL, LETTER)), Arrive(Framed(k, LETTER)), StartDraining]
    + [GiveUpRequest([73], 0, true, 1), Arrive(Framed(k, SKIP)), HandlerSettles(true), TakeAck(k, None, 0, [], [])]
  }

  /** What the first half of a round leads to. */
  predicate Busy(y: Sys, n: nat, b: nat) {
    && y.s == Resting(n).(pending := [Queue(n + 1, LETTER, 5)], pendingBytes := 5, nextSeq := n + 2)
    && y.active && y.remoteBase == 1 && y.rx == Some(Handling(n, b))
  }

  lemma FirstHalf(y: Sys, n: nat, b: nat)
    requires AtRest(y, n, b) && n < MAX_SAFE_INTEGER && b < MAX_REASSEMBLY_BYTES
    ensures Busy(Do(Do(Do(y, LINK, Send(Given(CALL, LETTER))), LINK, Arrive(Framed(n + 1, LETTER))), LINK,
                    StartDraining), n, b)
  {
    LinkIsGood();
    CallSent(y, n, b, LETTER);
    OneFrame(n + 1, LETTER);
    CallStored(n, b);
    DrainWaits(n, b);
    hide Do, ByteLength, Encode, Parse, Ingest, StartDrain, Receiver.Open;
    var y1 := Do(y, LINK, Send(Given(CALL, LETTER)));
    WholeArrives(y1, LINK, Framed(n + 1, LETTER), ReadAs(n + 1, LETTER));
    DrainStarts(Do(y1, LINK, Arrive(Framed(n + 1, LETTER))), LINK);
  }

  lemma DrainStarts(y: Sys, env: Env)
    requires y.rx.Some? && y.rx.value.drain == Live
    ensures var r := StartDrain(y.rx.value, env.j, y.active);
      Do(y, env, StartDraining) == y.(rx := Some(r.stream), acks := y.acks + (set a | a in r.acks))
  {
    hide StartDrain;
  }

  lemma HandlerEnds(y: Sys, env: Env)
    requires y.rx.Some? && y.rx.value.drain.Awaiting?
    ensures var z, r := Do(y, env, HandlerSettles(true)), Settle(y.rx.value, env.j, true, y.active);
      && z.rx == Some(r.stream) && z.acks == y.acks + (set a | a in r.acks)
      && z.s == y.s && z.active == y.active && z.remoteBase == y.remoteBase
  {
    hide Settle;
  }

  lemma AckTaken(y: Sys, n: nat)
    requires y.s == Resting(n).(pending := [Queue(n + 1, SKIP, 5)], pendingBytes := 5, nextSeq := n + 2)
      && n + 1 in y.acks
    ensures var z := Do(y, LINK, TakeAck(n + 1, None, 0, [], []));
      z.s == Resting(n + 1) && z.rx == y.rx && z.active == y.active && z.remoteBase == y.remoteBase
  {
    CallAcked(y.s, n);
    hide HandleAck, Confirmed;
  }

  lemma SecondHalf(y: Sys, n: nat, b: nat)
    requires Busy(y, n, b) && n < MAX_SAFE_INTEGER && b < MAX_REASSEMBLY_BYTES
    ensures var y1 := Do(Do(y, LINK, GiveUpRequest([73], 0, true, 1)), LINK, Arrive(Framed(n + 1, SKIP)));
      AtRest(Do(Do(y1, LINK, HandlerSettles(true)), LINK, TakeAck(n + 1, None, 0, [], [])), n + 1, Off(b))
  {
    LinkIsGood();
    CallGivenUp(y, n);
    OneFrame(n + 1, SKIP);
    SkipStored(n, b);
    CallSettled(n, b);
    hide Do, ByteLength, Encode, Parse, Ingest, Settle, Receiver.Open;
    var y1 := Do(y, LINK, GiveUpRequest([73], 0, true, 1));
    WholeArrives(y1, LINK, Framed(n + 1, SKIP), ReadAs(n + 1, SKIP));
    var y2 := Do(y1, LINK, Arrive(Framed(n + 1, SKIP)));
    HandlerEnds(y2, LINK);
    AckTaken(Do(y2, LINK, HandlerSettles(true)), n);
  }

  lemma RunThree(y: Sys, env: Env, a: Step, b: Step, c: Step)
    ensures Run(y, env, [a, b, c]) == Do(Do(Do(y, env, a), env, b), env, c)
  {
    hide Do;
    assert [a, b, c][1..] == [b, c] && [b, c][1..] == [c];
    RunOne(Do(Do(y, env, a), env, b), env, c);
  }

  /** One round moves the byte counter one up, or one down where the skip no longer fits. */
  lemma OneRound(y: Sys, n: nat, b: nat)
    requires AtRest(y, n, b) && n < MAX_SAFE_INTEGER && b < MAX_REASSEMBLY_BYTES
    ensures AtRest(Run(y, LINK, Round(n + 1)), n + 1, Off(b))
  {
    hide Do, Run, AtRest, Busy;
    var k := n + 1;
    FirstHalf(y, n, b);
    RunThree(y, LINK, Send(Given(CALL, LETTER)), Arrive(Framed(k, LETTER)), StartDraining);
    var half := [Send(Given(CALL, LETTER)), Arrive(Framed(k, LETTER)), StartDraining];
    var z := Run(y, LINK, half);
    SecondHalf(z, n, b);
    var give := [GiveUpRequest([73], 0, true, 1), Arrive(Framed(k, SKIP)), HandlerSettles(true)];
    RunThree(z, LINK, give[0], give[1], give[2]);
    RunOne(Run(z, LINK, give), LINK, TakeAck(k, None, 0, [], []));
    RunAppend(z, LINK, give, [TakeAck(k, None, 0, [], [])]);
    RunAppend(y, LINK, half, give + [TakeAck(k, None, 0, [], [])]);
    assert Round(k) == half + (give + [TakeAck(k, None, 0, [], [])]);
  }

  function Rounds(n: nat): seq<Step> {
    if n == 0 then OPENED else Rounds(n - 1) + Round(n)
  }

  /** As many rounds as the limit has bytes, but one. */
  const MANY := MAX_REASSEMBLY_BYTES - 1

  /** After `n` rounds nothing is held and the byte counter says `n`. */
  lemma {:induction false} RoundsDrift(n: nat)
    requires n <= MANY
    ensures AtRest(Run(START, LINK, Rounds(n)), n, n)
  {
    hide Run, Round;
    if n == 0 {
      Opened();
    } else {
      RoundsDrift(n - 1);
      RunAppend(START, LINK, Rounds(n - 1), Round(n));
      OneRound(Run(START, LINK, Rounds(n - 1)), n - 1, n - 1);
    }
  }

  lemma CalmDrift(y: Sys, n: nat, b: nat)
    requires AtRest(y, n, b) && n > 0
    ensures y.rx.Some? && Drift(y.rx.value) == b
  {
    assert AssemblySizes(map[]) == map[] && ReadySizes(map[]) == map[];
  }

  /** A call is being handled when its requester gives up: once the handler has succeeded, the receiver
      counts one byte that nothing holds; and another with every call of that kind. */
  lemma OvertakingSkipDrifts(n: nat)
    requires 1 <= n <= MANY
    ensures var y := Run(START, LINK, Rounds(n)); y.rx.Some? && Drift(y.rx.value) == n
  {
    hide Run;
    RoundsDrift(n);
    CalmDrift(Run(START, LINK, Rounds(n)), n, n);
  }

  /** With the counter so far off that the skip itself finds no room, the call is paid for twice. */
  lemma RefusedSkipPaysTwice()
    ensures var y := Run(START, LINK, Rounds(MANY) + Round(MANY + 1)); y.rx.Some? && Drift(y.rx.value) == MANY - 1
  {
    hide Run, Rounds, Round;
    RoundsDrift(MANY);
    RunAppend(START, LINK, Rounds(MANY), Round(MANY + 1));
    OneRound(Run(START, LINK, Rounds(MANY)), MANY, MANY);
    CalmDrift(Run(START, LINK, Rounds(MANY) + Round(MANY + 1)), MANY + 1, MANY - 1);
  }

  /** One call of two bytes later. */
  function LastStraw(): seq<Step> {
    Rounds(MANY) + [Send(Given(CALL, PAIR))]
  }

  lemma StrawIsSent()
    ensures var y := Run(START, LINK, LastStraw());
      && Framed(MANY + 1, PAIR) in y.frames && y.rx == Some(Calm(MANY, MANY)) && y.remoteBase == 1 && y.active
  {
    hide Run, Do, Rounds;
    PairSize();
    RoundsDrift(MANY);
    RunSnoc(LINK, Rounds(MANY), Send(Given(CALL, PAIR)));
    CallSent(Run(START, LINK, Rounds(MANY)), MANY, MANY, PAIR);
  }

  /** The head of the line can be refused: nothing at all is held, the frame with the next number is on the
      wire and arrives, and it is not taken in. */
  lemma HeadRefused()
    ensures var y, f := Run(START, LINK, LastStraw()), Framed(MANY + 1, PAIR);
      && AtHead(y, f) && Parse(f.body) == Some(ReadAs(MANY + 1, PAIR))
      && y.rx.value.ready == map[] && y.rx.value.assemblies == map[]
      && !Taken(Ingest(y.rx.value, LINK.j, y.remoteBase, f.header, ReadAs(MANY + 1, PAIR)).stream, MANY + 1, None)
  {
    LinkIsGood();
    PairSize();
    OneFrame(MANY + 1, PAIR);
    StrawIsSent();
    hide Run, LastStraw, Ingest, ByteLength, Parse, Rounds;
    var y, f := Run(START, LINK, LastStraw()), Framed(MANY + 1, PAIR);
    var t := Calm(MANY, MANY).(base := MANY + 1);
    assert AdvanceBase(y.rx.value, Max(y.remoteBase, MANY + 1)) == t;
    HeadTakenIff(LINK, LastStraw(), f);
    NothingFits(t);
  }

  lemma NothingFits(t: Stream)
    requires t == Calm(MANY, MANY).(base := MANY + 1)
    ensures !FitsAtHead(t, LINK.j, ReadAs(MANY + 1, PAIR)) && !Known(t, LINK.j, ReadAs(MANY + 1, PAIR))
  {
    PairSize();
    hide ByteLength;
    assert AssemblySizes(map[]) == map[] && ReadySizes(map[]) == map[];
    assert PAIR != [115, 107];
  }
}
