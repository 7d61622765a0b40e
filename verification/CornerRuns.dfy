/** Short runs of the two ends that reach the corners the general laws leave open. */
module CornerRuns {
  import opened Text
  import opened Transport
  import opened Receiver
  import opened Sender
  import opened SenderLaws
  import opened Book
  import opened DeviceLink
  import opened WireBudget

  const SKIP: Text := [115, 107]

  /** A link on which printing a frame costs three bytes beyond its text. */
  const LINK := Env([115], Json((t: Text) => true, (t: Text) => t == [115, 107]),
                    (f: Envelope) => ByteLength(f.body.data) + 3, SKIP, 8, 5, 2_000, 60_000)

  const LETTER: Text := [97]

  lemma LinkIsGood()
    ensures GoodCodec(CodecOf(LINK)) && Wrapping(LINK)
    ensures ByteLength(LETTER) == 1 && ByteLength(SKIP) == 2
  {
    assert LETTER[1..] == [] && SKIP[1..] == [107] && SKIP[1..][1..] == [];
    assert ByteLength(SKIP[1..]) == 1;
  }

  lemma RunOne(y: Sys, env: Env, step: Step)
    ensures Run(y, env, [step]) == Do(y, env, step)
  {
    hide Do;
    assert [step][1..] == [];
  }

  lemma {:induction false} RunAppend(y: Sys, env: Env, a: seq<Step>, b: seq<Step>)
    ensures Run(y, env, a + b) == Run(Run(y, env, a), env, b)
    decreases |a|
  {
    hide Do;
    if a == [] {
      assert a + b == b;
    } else {
      assert (a + b)[0] == a[0] && (a + b)[1..] == a[1..] + b;
      RunAppend(Do(y, env, a[0]), env, a[1..], b);
    }
  }

  lemma RunSnoc(env: Env, steps: seq<Step>, step: Step)
    ensures Run(START, env, steps + [step]) == Do(Run(START, env, steps), env, step)
  {
    hide Do, Run;
    RunAppend(START, env, steps, [step]);
    RunOne(Run(START, env, steps), env, step);
  }

  // ---- What a message costs ----

  function Filled(n: nat): Text {
    seq(n, i => 97)
  }

  lemma {:induction false} FilledBytes(n: nat)
    ensures ByteLength(Filled(n)) == n
  {
    if n > 0 {
      assert Filled(n)[0] == 97 && Width(Filled(n)) == 1;
      assert Filled(n)[1..] == Filled(n - 1);
      FilledBytes(n - 1);
    }
  }

  lemma {:induction false} LinkBytes(frames: seq<Envelope>)
    ensures WireBytes(LINK, frames) == TotalBytes(PartsOf(frames)) + 3 * |frames|
  {
    hide ByteLength;
    if frames != [] {
      LinkBytes(frames[1..]);
      assert PartsOf(frames)[1..] == PartsOf(frames[1..]);
      assert PartsOf(frames)[0] == frames[0].body.data;
    }
  }

  /** On this link a text of `n` bytes in `parts` chunks is charged `n` and three bytes a chunk. */
  lemma Cost(header: Header, t: Text, parts: nat, seqNo: nat, base: nat)
    requires 1 <= base <= seqNo <= MAX_SAFE_INTEGER && 1 <= parts
    requires ByteLength(t) <= MAX_MESSAGE_BYTES
    requires if parts == 1 then ByteLength(t) <= MAX_CHUNK_BYTES
             else (parts - 1) * MAX_CHUNK_BYTES < ByteLength(t) < parts * (MAX_CHUNK_BYTES - 3)
    ensures Encode(header, LINK.streamId, t, seqNo, base).Some?
    ensures WireBytes(LINK, Encode(header, LINK.streamId, t, seqNo, base).value) == ByteLength(t) + 3 * parts
  {
    SplitMessage(t);
    EncodeRoundTrip(header, LINK.streamId, t, seqNo, base);
    hide ByteLength, Split, WireBytes;
    var frames := Encode(header, LINK.streamId, t, seqNo, base).value;
    assert PartsOf(frames) == Split(t, MAX_CHUNK_BYTES);
    LinkBytes(frames);
    if parts > 1 {
      ChunkCount(|frames|, parts, ByteLength(t));
    }
  }

  lemma ChunkCount(n: nat, parts: nat, bytes: nat)
    requires bytes <= n * MAX_CHUNK_BYTES && (n - 1) * (MAX_CHUNK_BYTES - 3) <= bytes
    requires (parts - 1) * MAX_CHUNK_BYTES < bytes < parts * (MAX_CHUNK_BYTES - 3)
    ensures n == parts
  {
  }

  // ---- Queueing while the link is down ----

  predicate Offline(s: Sender) {
    && s.reliable && s.phase == Down && !s.explicitlyClosed && 1 <= BaseOf(s) <= s.nextSeq <= 99
    && forall p <- s.pending :: p.enqueuedAt == 0
  }

  function Given(header: Header, json: Text): Sending {
    Sending(header, json, false, false, 0, true, 1)
  }

  function Entry(s: Sender, header: Header, json: Text, bytes: nat): Pending {
    Pending(s.nextSeq, header, json, false, bytes, 0, 0, false, 0)
  }

  lemma Queued(s: Sender, header: Header, json: Text, bytes: nat)
    requires Offline(s) && ByteLength(json) <= MAX_MESSAGE_BYTES
    requires Reservation(LINK, header, json, s.nextSeq) == Some(bytes) && HasCapacity(s, bytes)
    ensures SendMessage(s, LINK, Given(header, json)) ==
      Sent(s.(pending := s.pending + [Entry(s, header, json, bytes)], pendingBytes := s.pendingBytes + bytes,
              nextSeq := s.nextSeq + 1), [], Accepted)
  {
    hide ByteLength, Split, Reservation, WireBytes;
    EncodeRoundTrip(header, LINK.streamId, json, s.nextSeq, BaseOf(s));
    if s.pending != [] {
      assert s.pending[0] in s.pending;
    }
    assert GiveUpStalled(s, LINK, 0) == s;
  }

  // ---- Above sixteen megabytes ----

  function Size(k: nat): nat {
    if k < 4 then 4_062_232 else if k == 4 then 527_897 else 1
  }

  function Chunks(k: nat): nat {
    if k < 4 then 31 else if k == 4 then 5 else 1
  }

  /** What the first `k` results are charged. */
  function Charge(k: nat): nat {
    if k == 0 then 0 else Charge(k - 1) + Size(k - 1) + 3 * Chunks(k - 1)
  }

  function ResultTo(k: nat): Header
    requires k < 6
  {
    Header(InvokeResult, [65 + k], [], [])
  }

  function Loading(k: nat): Step
    requires k < 6
  {
    Send(Given(ResultTo(k), Filled(Size(k))))
  }

  function Results(k: nat): seq<Step>
    requires k <= 6
  {
    if k == 0 then [Negotiate(true)] else Results(k - 1) + [Loading(k - 1)]
  }

  ghost predicate Loaded(s: Sender, k: nat)
    requires k <= 6
  {
    && Offline(s) && s.pendingBytes == Charge(k) && |s.pending| == k && s.nextSeq == k + 1
    && forall i :: 0 <= i < k ==>
         s.pending[i].header == ResultTo(i) && s.pending[i].bytes == Size(i) + 3 * Chunks(i)
           && s.pending[i].seqNo == i + 1
  }

  lemma ResultCost(k: nat, seqNo: nat)
    requires k < 6 && 1 <= seqNo <= 99
    ensures Reservation(LINK, ResultTo(k), Filled(Size(k)), seqNo) == Some(Size(k) + 3 * Chunks(k))
    ensures ByteLength(Filled(Size(k))) <= MAX_MESSAGE_BYTES
  {
    FilledBytes(Size(k));
    hide ByteLength, Encode, WireBytes, Filled;
    Cost(ResultTo(k), Filled(Size(k)), Chunks(k), seqNo, seqNo);
  }

  lemma StartsOffline()
    ensures Loaded(Run(START, LINK, Results(0)).s, 0)
  {
    hide Run;
    RunSnoc(LINK, [], Negotiate(true));
    assert [] + [Negotiate(true)] == [Negotiate(true)];
    NothingRun(LINK);
  }

  lemma SendQueues(y: Sys, header: Header, json: Text, bytes: nat)
    requires Offline(y.s) && ByteLength(json) <= MAX_MESSAGE_BYTES
    requires Reservation(LINK, header, json, y.s.nextSeq) == Some(bytes) && HasCapacity(y.s, bytes)
    ensures Do(y, LINK, Send(Given(header, json))).s
         == y.s.(pending := y.s.pending + [Entry(y.s, header, json, bytes)], pendingBytes := y.s.pendingBytes + bytes,
                 nextSeq := y.s.nextSeq + 1)
  {
    Queued(y.s, header, json, bytes);
    hide SendMessage, Reservation, ByteLength;
  }

  lemma RoomFor(s: Sender, k: nat)
    requires k < 6 && Loaded(s, k)
    ensures HasCapacity(s, Size(k) + 3 * Chunks(k))
  {
    ChargeIs();
    ChargeGrows(k + 1, 6);
  }

  lemma LoadOne(y: Sys, k: nat)
    requires k < 6 && Loaded(y.s, k)
    ensures Loaded(Do(y, LINK, Loading(k)).s, k + 1)
  {
    hide Do, Filled, Reservation, ByteLength, HasCapacity, Size, Chunks;
    ResultCost(k, y.s.nextSeq);
    RoomFor(y.s, k);
    SendQueues(y, ResultTo(k), Filled(Size(k)), Size(k) + 3 * Chunks(k));
  }

  lemma {:induction false} ResultsLoad(k: nat)
    requires k <= 6
    ensures Loaded(Run(START, LINK, Results(k)).s, k)
  {
    hide Run, Do, Loaded, Filled;
    if k == 0 {
      StartsOffline();
    } else {
      ResultsLoad(k - 1);
      RunSnoc(LINK, Results(k - 1), Loading(k - 1));
      LoadOne(Run(START, LINK, Results(k - 1)), k - 1);
    }
  }

  lemma NothingRun(env: Env)
    ensures Run(START, env, []) == START
  {
  }

  lemma {:induction false} ChargeGrows(k: nat, n: nat)
    requires k <= n
    ensures Charge(k) <= Charge(n)
  {
    if k < n {
      ChargeGrows(k, n - 1);
    }
  }

  lemma {:induction false} FoundAt(ps: seq<Pending>, i: nat, id: Text)
    requires i < |ps| && ps[i].header.id == id && forall x :: 0 <= x < i ==> ps[x].header.id != id
    ensures FindRequest(ps, id) == i
  {
    if i > 0 {
      FoundAt(ps[1..], i - 1, id);
    }
  }

  /** Six results fill the queue to the byte; giving up the last, smaller than its skip, takes the charge
      above the limit. */
  lemma SkipOverflows()
    ensures var y := Run(START, LINK, Results(6));
      var z := Run(START, LINK, Results(6) + [GiveUpRequest([70], 0, true, 1)]);
      y.s.pendingBytes == MAX_PENDING_BYTES && z.s.pendingBytes == MAX_PENDING_BYTES + 1
  {
    ResultsLoad(6);
    LinkIsGood();
    hide Run, ByteLength, Filled, SkipRequest;
    var y := Run(START, LINK, Results(6));
    var give := GiveUpRequest([70], 0, true, 1);
    assert Charge(6) == MAX_PENDING_BYTES by { ChargeIs(); }
    assert y.s.pending[5].header == ResultTo(5);
    FoundAt(y.s.pending, 5, [70]);
    Cost(ResultTo(5), SKIP, 1, 6, 6);
    assert SkipBytes(LINK, y.s.pending[5]) == 5;
    RunSnoc(LINK, Results(6), give);
    GivenUpBytes(LINK, y.s, [70], 0, true, 1);
    GiveUpIs(y, LINK, give);
  }

  lemma ChargeIs()
    ensures Charge(6) == MAX_PENDING_BYTES
  {
    assert Charge(1) == 4_062_325 && Charge(2) == 8_124_650 && Charge(3) == 12_186_975 && Charge(4) == 16_249_300;
    assert Charge(5) == 16_777_212;
  }

  // ---- A young push that became a skip ----

  const MIRROR := Header(Push, [77], [], [])

  const MIRRORED: seq<Step> := [Negotiate(true), Send(Given(MIRROR, LETTER)), GiveUpRequest([77], 0, true, 1)]

  const QUEUED_MIRROR := Pending(1, MIRROR, LETTER, false, 4, 0, 0, false, 0)

  lemma MirrorQueued()
    ensures Run(START, LINK, MIRRORED[..2]).s
         == FRESH.(reliable := true, pending := [QUEUED_MIRROR], pendingBytes := 4, nextSeq := 2)
  {
    LinkIsGood();
    hide Run, ByteLength, SendMessage;
    var first := [Negotiate(true)];
    assert [] + first == first && first + [MIRRORED[1]] == MIRRORED[..2];
    NothingRun(LINK);
    RunSnoc(LINK, [], Negotiate(true));
    RunSnoc(LINK, first, MIRRORED[1]);
    var s := Run(START, LINK, first).s;
    assert s == FRESH.(reliable := true);
    Cost(MIRROR, LETTER, 1, 1, 1);
    Queued(s, MIRROR, LETTER, 4);
    assert s.pending + [QUEUED_MIRROR] == [QUEUED_MIRROR];
  }

  lemma MirrorGivenUp()
    ensures var s := Run(START, LINK, MIRRORED).s;
      && |s.pending| == 1 && s.pending[0].json == SKIP && s.pending[0].header == MIRROR && s.pending[0].enqueuedAt == 0
  {
    MirrorQueued();
    hide Run, SkipRequest;
    var y := Run(START, LINK, MIRRORED[..2]);
    assert MIRRORED[..2] + [MIRRORED[2]] == MIRRORED;
    RunSnoc(LINK, MIRRORED[..2], MIRRORED[2]);
    FoundAt(y.s.pending, 0, [77]);
    GiveUpIs(y, LINK, MIRRORED[2]);
    GivenUpOffline(y.s);
  }

  /** A push queued and given up at once is a skip, and is not swept out while it is young. */
  lemma YoungSkipStays(now: int)
    ensures var s := Run(START, LINK, MIRRORED).s;
      && |s.pending| == 1 && IsSkip(LINK, s.pending[0])
      && (DropPrefix(s, LINK, now, true).pending == s.pending <==> now < PUSH_MAX_AGE)
  {
    MirrorGivenUp();
    hide Run, DropPrefix;
    SkipSweptIff(Run(START, LINK, MIRRORED).s, LINK, now);
  }

  lemma GivenUpOffline(s: Sender)
    requires |s.pending| == 1 && s.pending[0].header.id == [77] && s.phase == Down
    ensures SkipRequest(s, LINK, [77], 0, true, 1).sender == Skipped(s, LINK, 0)
  {
    hide SkipBytes;
  }
}
