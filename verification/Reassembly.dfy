/** Once every piece of the next message has arrived, in whatever order, it is there as a whole. */
module Reassembly {
  import opened Text
  import opened Transport
  import opened Receiver
  import opened ReceiverLaws
  import opened Sender
  import opened Book
  import opened BookLaws
  import opened DeviceLink
  import opened LinkTheorems
  import opened HeadOfLine

  /** Message `k` is ready, as it was queued; or the pieces `got` of it are held. */
  ghost predicate Gathered(b: Book, s: Stream, k: nat, got: set<int>)
    requires k in b.queued
  {
    if k in s.ready then s.ready[k] == Ready(b.queued[k].header, b.queued[k].json)
    else forall i <- got :: HasPiece(s, k, i)
  }

  /** Which piece of its message a frame carries; a whole message is its own first piece. */
  function PieceIndex(p: Parsed): int {
    if p.segment.Some? then p.segment.value.index else 0
  }

  // ---- A frame of the message itself ----

  lemma FileGathers(c: Codec, b: Book, s: Stream, k: nat, a: Assembly, got: set<int>)
    requires AssemblyOk(b, k, a) && 0 <= a.total && c.j.valid(b.queued[k].json)
    requires k !in s.ready && forall i <- got :: i in a.chunks
    ensures Gathered(b, File(s, c.j, k, a.header, a).stream, k, got)
  {
    hide Join, Pieces, ByteLength, Split;
    if |a.chunks| == a.total {
      CompleteAssembly(b, k, a);
    }
  }

  lemma ChunkGathers(c: Codec, b: Book, s: Stream, k: nat, a: Assembly, index: nat, data: Text, got: set<int>)
    requires AssemblyOk(b, k, a) && GoodAssembly(a) && index !in a.chunks && ByteLength(data) <= MAX_CHUNK_BYTES
    requires Shaped(s, c.j) && k == s.last + 1 && k !in s.ready && c.j.valid(b.queued[k].json)
    requires var parts := Split(b.queued[k].json, MAX_CHUNK_BYTES); index < |parts| && data == parts[index]
    requires Drift(s) <= MAX_DRIFT && forall i <- got :: i in a.chunks
    ensures Gathered(b, AddChunk(s, c.j, k, a.header, a, index, data).stream, k, got + {index})
  {
    hide *;
    AssemblyTotal(a);
    var bytes := ByteLength(data);
    PieceFits(b, k, a, index);
    HeadRoom(s, c.j, k, bytes);
    StillNotReady(s, c.j, k, bytes);
    var roomy := EnsureCapacity(s, k, bytes).0;
    MoreOk(b, k, a, index, data, bytes);
    AddChunkFiles(s, c.j, k, a, index, data);
    FileGathers(c, b, roomy.(buffered := roomy.buffered + bytes, assemblies := roomy.assemblies - {k}), k,
                a.(chunks := a.chunks[index := data], bytes := a.bytes + bytes), got + {index});
  }

  lemma SegmentGathers(c: Codec, b: Book, s: Stream, k: nat, header: Header, seg: Segment, data: Text, got: set<int>)
    requires Held(c, b, s) && Shaped(s, c.j) && k == s.last + 1 && k !in s.ready && Drift(s) <= MAX_DRIFT
    requires SegmentOf(b, k, header, seg, data) && c.j.valid(b.queued[k].json) && Gathered(b, s, k, got)
    ensures Gathered(b, StoreSegment(s, c.j, k, header, seg, data).stream, k, got + {seg.index})
  {
    hide ByteLength, File, Split, Shaped, AddChunk, GoodAssembly, Held, AssemblyOf, Drift;
    var a := AssemblyOf(s, k, header, seg);
    FoundGood(s, c.j, k, header, seg);
    FoundOk(c, b, s, k, header, seg);
    AssemblyFound(s, k, header, seg);
    assert forall i <- got :: i in a.chunks by {
      assert forall i <- got :: HasPiece(s, k, i);
    }
    if seg.index in a.chunks {
      FileGathers(c, b, s.(assemblies := s.assemblies - {k}), k, a, got + {seg.index});
    } else {
      ChunkGathers(c, b, s, k, a, seg.index, data, got);
    }
  }

  lemma WholeGathers(c: Codec, b: Book, s: Stream, k: nat, header: Header, data: Text, got: set<int>)
    requires Held(c, b, s) && Shaped(s, c.j) && k == s.last + 1 && k in b.queued && k !in s.ready
      && Drift(s) <= MAX_DRIFT
    requires data == b.queued[k].json && header == b.queued[k].header && c.j.valid(data)
    requires ByteLength(data) <= MAX_CHUNK_BYTES && !c.j.Skip(data)
    ensures Gathered(b, StoreSingle(s, c.j, k, header, data).stream, k, got)
  {
    hide ByteLength, Shaped, EnsureCapacity, Held, Drift;
    AssembledIsLarge(c, b, s, k);
    HeadRoom(s, c.j, k, ByteLength(data));
  }

  // ---- A frame of another message ----

  /** `t` holds of message `k` what `s` holds. */
  predicate SameAt(s: Stream, t: Stream, k: nat) {
    && (k in s.ready <==> k in t.ready) && (k in s.ready ==> t.ready[k] == s.ready[k])
    && (k in s.assemblies <==> k in t.assemblies) && (k in s.assemblies ==> t.assemblies[k] == s.assemblies[k])
  }

  lemma OtherSingle(s: Stream, j: Json, n: nat, header: Header, data: Text, k: nat)
    requires n != k && n != s.last + 1
    ensures SameAt(s, StoreSingle(s, j, n, header, data).stream, k)
  {
    hide ByteLength, HasRoom, Evict;
  }

  lemma OtherFile(s: Stream, j: Json, n: nat, header: Header, a: Assembly, k: nat)
    requires n != k && 0 <= a.total
    ensures SameAt(s, File(s, j, n, header, a).stream, k)
  {
    hide ByteLength, Join, Pieces;
  }

  lemma OtherChunk(s: Stream, j: Json, n: nat, header: Header, a: Assembly, index: nat, data: Text, k: nat)
    requires n != k && n != s.last + 1 && 0 <= a.total
    ensures SameAt(s, AddChunk(s, j, n, header, a, index, data).stream, k)
  {
    hide ByteLength, HasRoom, Evict, File;
    var filled := s.(buffered := s.buffered + ByteLength(data), assemblies := s.assemblies - {n});
    OtherFile(filled, j, n, header, a.(chunks := a.chunks[index := data], bytes := a.bytes + ByteLength(data)), k);
  }

  lemma OtherSegment(s: Stream, j: Json, n: nat, header: Header, seg: Segment, data: Text, k: nat)
    requires n != k && n != s.last + 1 && SegmentAccepted(seg)
    ensures SameAt(s, StoreSegment(s, j, n, header, seg, data).stream, k)
  {
    hide ByteLength, AddChunk, File;
    var a := AssemblyOf(s, n, header, seg);
    if a.total == seg.total {
      OtherFile(s.(assemblies := s.assemblies - {n}), j, n, header, a, k);
      OtherChunk(s, j, n, header, a, seg.index, data, k);
    }
  }

  lemma SameGathered(b: Book, s: Stream, t: Stream, k: nat, got: set<int>)
    requires k in b.queued && SameAt(s, t, k) && Gathered(b, s, k, got)
    ensures Gathered(b, t, k, got)
  {
    forall i | i in got && k !in t.ready ensures HasPiece(t, k, i) {
      assert HasPiece(s, k, i);
    }
  }

  // ---- Any frame of the wire ----

  /** What a frame adds to the pieces of message `k`. */
  function Adds(p: Parsed, k: nat): set<int> {
    if p.seqNo == k then {PieceIndex(p)} else {}
  }

  /** With no baseline above the next number, an arrival keeps what is held of that number and adds its
      own piece. */
  lemma IngestGathers(c: Codec, b: Book, s: Stream, remoteBase: nat, header: Header, p: Parsed, k: nat, got: set<int>)
    requires Held(c, b, s.(base := Max(s.base, Max(remoteBase, p.baseSeq)))) && Shaped(s, c.j) && Drift(s) <= MAX_DRIFT
    requires k == s.last + 1 && k in b.queued && s.base <= k && remoteBase <= k && p.baseSeq <= k
    requires PieceOf(c, b, p.seqNo, header, p) && (p.seqNo == k ==> !SkipFrame(c.j, p)) && Gathered(b, s, k, got)
    ensures p.segment.Some? ==> SegmentAccepted(p.segment.value)
    ensures Gathered(b, Ingest(s, c.j, remoteBase, header, p).stream, k, got + Adds(p, k))
  {
    hide ByteLength, Held, Shaped, StoreSingle, StoreSegment, Drift;
    var t := s.(base := Max(s.base, Max(remoteBase, p.baseSeq)));
    SameShape(s, t, c.j);
    BaseDriftless(s, t.base);
    assert AdvanceBase(s, Max(remoteBase, p.baseSeq)) == t;
    SameGathered(b, s, t, k, got);
    if p.seqNo == k {
      if k !in t.ready {
        match p.segment
        case None => WholeGathers(c, b, t, k, header, p.data, got + {0});
        case Some(seg) => SegmentGathers(c, b, t, k, header, seg, p.data, got);
      }
    } else {
      assert got + Adds(p, k) == got;
      if t.last < p.seqNo <= t.last + SEQUENCE_WINDOW {
        match p.segment
        case None => OtherSingle(t, c.j, p.seqNo, header, p.data, k);
        case Some(seg) => OtherSegment(t, c.j, p.seqNo, header, seg, p.data, k);
        SameGathered(b, t, Ingest(s, c.j, remoteBase, header, p).stream, k, got);
      }
    }
  }

  lemma BaseDriftless(s: Stream, base: nat)
    ensures Drift(s.(base := base)) == Drift(s)
  {
  }

  // ---- Whatever else happens ----

  /** The frame announces no baseline above `k`, and is no skip in the place of `k`. */
  ghost predicate Harmless(env: Env, f: Envelope, k: nat) {
    Parse(f.body).Some?
    && Parse(f.body).value.baseSeq <= k && (Parse(f.body).value.seqNo == k ==> !SkipFrame(env.j, Parse(f.body).value))
  }

  /** The step does not end the wait for `k` from outside: no baseline above it, no skip in its place, and
      the stream is not forgotten. */
  ghost predicate Spares(y: Sys, env: Env, step: Step, k: nat) {
    match step
    case Arrive(f) => f in y.frames && y.active ==> Harmless(env, f, k)
    case InstallBase(base) => base <= k
    case ForgetStream => false
    case _ => true
  }

  ghost predicate AllSpare(y: Sys, env: Env, steps: seq<Step>, k: nat)
    decreases |steps|
  {
    steps != [] ==> Spares(y, env, steps[0], k) && AllSpare(Do(y, env, steps[0]), env, steps[1..], k)
  }

  /** The piece of message `k` a step brings to the receiver, if it does. */
  ghost function Brings(y: Sys, step: Step, k: nat): set<int> {
    if step.Arrive? && step.f in y.frames && y.active && Parse(step.f.body).Some? then Adds(Parse(step.f.body).value, k)
    else {}
  }

  ghost function Brought(y: Sys, env: Env, steps: seq<Step>, k: nat): set<int>
    decreases |steps|
  {
    if steps == [] then {} else Brings(y, steps[0], k) + Brought(Do(y, env, steps[0]), env, steps[1..], k)
  }

  /** The receiver waits for message `k`, has some pieces of it and room for the rest. */
  ghost predicate Waits(y: Sys, env: Env, k: nat, e: Slack, got: set<int>) {
    && Inv(y, env) && QueuedValid(y, env) && y.rx.Some? && Buffered(y, env, e) && e.drift <= MAX_DRIFT
    && k == y.rx.value.last + 1 && k in y.book.queued && y.rx.value.base <= k && y.remoteBase <= k
    && Gathered(y.book, y.rx.value, k, got)
  }

  /** Message `k` was handed to the host, or it was a skip marker itself. */
  ghost predicate Handed(y: Sys, env: Env, k: nat) {
    && Inv(y, env) && y.rx.Some? && k <= y.rx.value.last && k in y.book.queued
    && (env.j.Skip(y.book.queued[k].json) || (k, y.book.queued[k].json) in y.log)
  }

  lemma WaitsFor(y: Sys, env: Env, k: nat, e: Slack, got: set<int>)
    requires Waits(y, env, k, e, got)
    ensures Inv(y, env) && QueuedValid(y, env) && y.rx.Some? && Buffered(y, env, e) && e.drift <= MAX_DRIFT
    ensures k == y.rx.value.last + 1 && k in y.book.queued && y.rx.value.base <= k && y.remoteBase <= k
    ensures Gathered(y.book, y.rx.value, k, got) && Buffers(y.rx.value, env.j, e) && CodecOf(env).j == env.j
  {
    hide Inv, QueuedValid, Buffers, Gathered, Slim;
  }

  lemma NowWaits(y: Sys, env: Env, k: nat, e: Slack, got: set<int>)
    requires Inv(y, env) && QueuedValid(y, env) && y.rx.Some? && Buffered(y, env, e) && e.drift <= MAX_DRIFT
    requires k == y.rx.value.last + 1 && k in y.book.queued && y.rx.value.base <= k && y.remoteBase <= k
    requires Gathered(y.book, y.rx.value, k, got)
    ensures Waits(y, env, k, e, got)
  {
  }

  // ---- An arrival ----

  lemma ArrivalGathers(y: Sys, env: Env, k: nat, e: Slack, got: set<int>, f: Envelope)
    requires GoodCodec(CodecOf(env)) && Waits(y, env, k, e, got) && f in y.frames && y.active && Harmless(env, f, k)
    ensures Waits(Do(y, env, Arrive(f)), env, k, e, got + Adds(Parse(f.body).value, k))
  {
    hide *;
    WaitsFor(y, env, k, e, got);
    HarmlessIs(env, f, k);
    WirePiece(y, env, f);
    StepOk(y, env, Arrive(f));
    StepQueuedValid(y, env, Arrive(f));
    var s, p := y.rx.value, Parse(f.body).value;
    PieceAccepted(CodecOf(env), y.book, f.header, p);
    Unhurried(y, env, f, k);
    StepBuffered(y, env, Arrive(f), e);
    ArrivesAt(y, env, f, k);
    RaisedForFrame(y, env, f);
    BuffersParts(s, env.j, e);
    DriftIs(s, env.j, e);
    IngestGathers(CodecOf(env), y.book, s, y.remoteBase, f.header, p, k, got);
    NowWaits(Do(y, env, Arrive(f)), env, k, e, got + Adds(p, k));
  }

  lemma PieceAccepted(c: Codec, b: Book, header: Header, p: Parsed)
    requires PieceOf(c, b, p.seqNo, header, p)
    ensures p.segment.Some? ==> SegmentAccepted(p.segment.value)
  {
    hide ByteLength, Split, SegmentAccepted;
  }

  lemma HarmlessIs(env: Env, f: Envelope, k: nat)
    requires Harmless(env, f, k)
    ensures Parse(f.body).Some? && Parse(f.body).value.baseSeq <= k
    ensures Parse(f.body).value.seqNo == k ==> !SkipFrame(env.j, Parse(f.body).value)
  {
  }

  /** Such an arrival overtakes nothing. */
  lemma Unhurried(y: Sys, env: Env, f: Envelope, k: nat)
    requires Inv(y, env) && y.rx.Some? && k == y.rx.value.last + 1 && Harmless(env, f, k)
    ensures !Overtakes(y, env, Arrive(f)) && forall e :: SlackAfter(y, env, Arrive(f), e) == e
  {
    StreamIsOrdered(y, env);
    hide Inv, Parse, SegmentAccepted, SkipFrame;
  }

  lemma ArrivesAt(y: Sys, env: Env, f: Envelope, k: nat)
    requires Inv(y, env) && y.rx.Some? && y.active && f in y.frames && k == y.rx.value.last + 1
    requires Parse(f.body).Some? && y.rx.value.base <= k && y.remoteBase <= k && Parse(f.body).value.baseSeq <= k
    requires Parse(f.body).value.segment.Some? ==> SegmentAccepted(Parse(f.body).value.segment.value)
    ensures var z := Do(y, env, Arrive(f));
      && z.rx == Some(Ingest(y.rx.value, env.j, y.remoteBase, f.header, Parse(f.body).value).stream)
      && z.rx.value.last + 1 == k && z.rx.value.base <= k && z.remoteBase == y.remoteBase && z.book == y.book
  {
    StreamIsOrdered(y, env);
    var s, p := y.rx.value, Parse(f.body).value;
    StaysPut(s, env.j, y.remoteBase, f.header, p, k);
    hide Inv, Parse, SegmentAccepted, Ingest;
  }

  lemma StaysPut(s: Stream, j: Json, remoteBase: nat, header: Header, p: Parsed, k: nat)
    requires p.segment.Some? ==> SegmentAccepted(p.segment.value)
    requires k == s.last + 1 && s.base <= k && remoteBase <= k && p.baseSeq <= k
    ensures var t := Ingest(s, j, remoteBase, header, p).stream; t.last == s.last && t.base <= k
  {
    hide StoreSingle, StoreSegment;
    var t := s.(base := Max(s.base, Max(remoteBase, p.baseSeq)));
    assert AdvanceBase(s, Max(remoteBase, p.baseSeq)) == t;
    match p.segment
    case None => StoreSingleSamePlace(t, j, p.seqNo, header, p.data);
    case Some(seg) => StoreSegmentSamePlace(t, j, p.seqNo, header, seg, p.data);
  }

  lemma RaisedForFrame(y: Sys, env: Env, f: Envelope)
    requires GoodCodec(CodecOf(env)) && Inv(y, env) && y.rx.Some? && Parse(f.body).Some?
    ensures Held(CodecOf(env), y.book,
                 y.rx.value.(base := Max(y.rx.value.base, Max(y.remoteBase, Parse(f.body).value.baseSeq))))
  {
    hide SenderOk, WireOk, LogOk, Numbered, SettledBelow, SkipsDiscarded, Genuine, AssemblyOk, Parse;
  }

  // ---- A drain ----

  /** The stream stands where it stood and holds the same of `k`. */
  predicate Unmoved(s: Stream, t: Stream, k: nat) {
    SameAt(s, t, k) && t.last == s.last && t.base <= Max(s.base, k)
  }

  /** The loop leaves the next number as it is, unless it passes over a skip held there. */
  lemma {:induction false} RunFromKeeps(s: Stream, j: Json, active: bool, k: nat)
    requires s.drain == Live && Ordered(s) && k == s.last + 1 && s.base <= k
    ensures var t := RunFrom(s, j, active).stream;
      Unmoved(s, t, k) || (k <= t.last && k in s.ready && j.Skip(s.ready[k].json))
    decreases if s.drainRequested then 1 else 0, |s.ready|
  {
    hide ByteLength, ApplyBase;
    if k !in s.ready || !active || !j.valid(s.ready[k].json) {
      if s.drainRequested {
        CaughtUpBase(s.(drainRequested := false));
        ApplyBaseOrdered(s.(drainRequested := false));
        RunFromKeeps(BeginRound(s), j, active, k);
      }
    } else if j.Skip(s.ready[k].json) {
      var bytes := ByteLength(s.ready[k].json);
      ApplyBaseOrdered(s.(ready := s.ready - {k}, buffered := s.buffered - bytes, last := k));
      DeliveredShrinks(s, k, bytes);
      RunFromOrdered(Delivered(s, k, bytes), j, active);
    }
  }

  lemma CaughtUpBase(s: Stream)
    requires s.base <= s.last + 1
    ensures ApplyBase(s) == s
  {
  }

  lemma StartKeeps(s: Stream, j: Json, active: bool, k: nat)
    requires s.drain == Live && Ordered(s) && k == s.last + 1 && s.base <= k
    ensures var t := StartDrain(s, j, active).stream;
      Unmoved(s, t, k) || (k <= t.last && k in s.ready && j.Skip(s.ready[k].json))
  {
    hide RunFrom, ApplyBase;
    CaughtUpBase(s.(drainRequested := false));
    RunFromKeeps(BeginRound(s), j, active, k);
  }

  lemma FailureKeeps(s: Stream, j: Json, active: bool, k: nat)
    requires s.drain.Awaiting? && Ordered(s) && k == s.last + 1 && s.base <= k
    ensures var t := Settle(s, j, false, active).stream;
      Unmoved(s, t, k) || (k <= t.last && k in s.ready && j.Skip(s.ready[k].json))
  {
    hide RunFrom, ApplyBase;
    var t := s.(drain := Live);
    CaughtUpBase(t);
    if t.drainRequested {
      CaughtUpBase(t.(drainRequested := false));
      RunFromKeeps(BeginRound(t), j, active, k);
    }
  }

  // ---- Any step ----

  lemma QueuedStays(y: Sys, env: Env, step: Step, k: nat)
    requires Inv(y, env) && k in y.book.queued
    ensures k in Do(y, env, step).book.queued && Do(y, env, step).book.queued[k] == y.book.queued[k]
  {
    hide Ingest, StartDrain, Settle, AdvanceBase, Resumed, SendMessage, HandleAck, RetryPass, SkipRequest, Confirmed,
         DropPrefix, CommitSend, FindRequest, Parse, SegmentAccepted, Abandon, SetReliable, Gone, StreamOk, WireOk,
         LogOk, SettledBelow, SkipsDiscarded, QueueOk;
  }

  /** Nothing but a settling handler moves the drift. */
  lemma DriftStays(y: Sys, env: Env, step: Step, e: Slack, k: nat)
    requires Inv(y, env) && y.rx.Some? && k == y.rx.value.last + 1 && Spares(y, env, step, k)
    requires !(step.HandlerSettles? && step.ok && y.rx.value.drain.Awaiting?)
    ensures SlackAfter(y, env, step, e).drift == e.drift
  {
    hide Inv;
    if step.Arrive? && step.f in y.frames && y.active {
      Unhurried(y, env, step.f, k);
    }
  }

  lemma StillGathered(b: Book, d: Book, s: Stream, t: Stream, k: nat, got: set<int>)
    requires k in b.queued && k in d.queued && d.queued[k] == b.queued[k]
    requires Gathered(b, s, k, got) && SameAt(s, t, k)
    ensures Gathered(d, t, k, got)
  {
    SameGathered(b, s, t, k, got);
    hide HasPiece;
  }

  /** The receiver's stream, moved by a step other than an arrival: it holds the same of `k`, or `k` was
      delivered. */
  lemma StreamWaits(y: Sys, env: Env, step: Step, k: nat)
    requires GoodCodec(CodecOf(env)) && Inv(y, env)
    requires y.rx.Some? && k == y.rx.value.last + 1 && y.rx.value.base <= k && k in y.book.queued
    requires y.remoteBase <= k && Spares(y, env, step, k) && !step.Arrive?
    requires k in y.rx.value.ready ==> y.rx.value.ready[k].json == y.book.queued[k].json
    ensures var z := Do(y, env, step);
      && z.rx.Some? && z.remoteBase <= k
      && ((Unmoved(y.rx.value, z.rx.value, k) && !(step.HandlerSettles? && step.ok && y.rx.value.drain.Awaiting?))
          || (k <= z.rx.value.last
              && (env.j.Skip(y.book.queued[k].json) || (k, y.book.queued[k].json) in z.log)))
  {
    hide Inv, StartDrain, Settle, ApplyBase, GoodCodec, Unmoved;
    StreamIsOrdered(y, env);
    var s := y.rx.value;
    match step {
      case StartDraining =>
        if s.drain == Live { StartKeeps(s, env.j, y.active, k); } else { StillThere(s, k); }
      case HandlerSettles(ok) =>
        if s.drain.Awaiting? { SettledWaits(y, env, ok, k); } else { StillThere(s, k); }
      case ResumeStream =>
        CaughtUpBase(s);
        BarelyMoved(s, Resumed(s), k);
      case InstallBase(base) =>
        CaughtUpBase(s.(base := Max(s.base, base)));
        StillThere(s, k);
        BarelyMoved(s, s.(base := Max(s.base, base)), k);
      case Arrive(_) =>
      case ForgetStream =>
      case _ =>
        ElsewhereSame(y, env, step);
        StillThere(s, k);
    }
  }

  lemma StillThere(s: Stream, k: nat)
    ensures Unmoved(s, s, k)
  {
  }

  lemma BarelyMoved(s: Stream, t: Stream, k: nat)
    requires t.ready == s.ready && t.assemblies == s.assemblies && t.last == s.last && s.base <= k && t.base <= k
    ensures Unmoved(s, t, k)
  {
  }

  lemma SettledWaits(y: Sys, env: Env, ok: bool, k: nat)
    requires GoodCodec(CodecOf(env)) && Inv(y, env) && y.rx.Some? && y.rx.value.drain.Awaiting?
    requires k == y.rx.value.last + 1 && y.rx.value.base <= k && k in y.book.queued
    requires k in y.rx.value.ready ==> y.rx.value.ready[k].json == y.book.queued[k].json
    ensures var z := Do(y, env, HandlerSettles(ok));
      && z.rx.Some? && z.remoteBase == y.remoteBase
      && ((Unmoved(y.rx.value, z.rx.value, k) && !ok)
          || (k <= z.rx.value.last
              && (env.j.Skip(y.book.queued[k].json) || (k, y.book.queued[k].json) in z.log)))
  {
    hide Inv, Settle, GoodCodec, Unmoved;
    StreamIsOrdered(y, env);
    var s := y.rx.value;
    SettleOrdered(s, env.j, ok, y.active);
    HandlesQueued(y, env);
    if !ok {
      FailureKeeps(s, env.j, y.active, k);
    }
  }

  lemma StepWaits(y: Sys, env: Env, step: Step, k: nat, e: Slack, got: set<int>)
    requires GoodCodec(CodecOf(env)) && Waits(y, env, k, e, got) && Spares(y, env, step, k)
    ensures var z := Do(y, env, step);
      Handed(z, env, k) || Waits(z, env, k, SlackAfter(y, env, step, e), got + Brings(y, step, k))
  {
    hide *;
    WaitsFor(y, env, k, e, got);
    StepOk(y, env, step);
    StepQueuedValid(y, env, step);
    StepBuffered(y, env, step, e);
    QueuedStays(y, env, step, k);
    ReadyAsQueued(y, k, got);
    if step.Arrive? && step.f in y.frames && y.active {
      SparedArrival(y, env, step, k);
      ArrivalGathers(y, env, k, e, got, step.f);
      Unhurried(y, env, step.f, k);
      HarmlessIs(env, step.f, k);
    } else if step.Arrive? {
      IdleArrival(y, env, step, k);
      assert got + {} == got;
    } else {
      NoPiece(y, step, k, got);
      StreamWaits(y, env, step, k);
      OthersWait(y, env, step, k, e, got);
    }
  }

  lemma ReadyAsQueued(y: Sys, k: nat, got: set<int>)
    requires y.rx.Some? && k in y.book.queued && Gathered(y.book, y.rx.value, k, got)
    ensures k in y.rx.value.ready ==> y.rx.value.ready[k].json == y.book.queued[k].json
  {
  }

  lemma SparedArrival(y: Sys, env: Env, step: Step, k: nat)
    requires step.Arrive? && step.f in y.frames && y.active && Spares(y, env, step, k)
    ensures Harmless(env, step.f, k)
    ensures Brings(y, step, k) == if Parse(step.f.body).Some? then Adds(Parse(step.f.body).value, k) else {}
  {
    hide Harmless, Parse;
  }

  lemma NoPiece(y: Sys, step: Step, k: nat, got: set<int>)
    requires !step.Arrive?
    ensures got + Brings(y, step, k) == got
  {
  }

  lemma IdleArrival(y: Sys, env: Env, step: Step, k: nat)
    requires step.Arrive? && !(step.f in y.frames && y.active) && y.rx.Some?
    ensures Do(y, env, step) == y && Brings(y, step, k) == {} && forall e :: SlackAfter(y, env, step, e) == e
  {
    hide Parse, SegmentAccepted;
  }

  lemma OthersWait(y: Sys, env: Env, step: Step, k: nat, e: Slack, got: set<int>)
    requires Waits(y, env, k, e, got) && Spares(y, env, step, k) && !step.Arrive?
    requires var z := Do(y, env, step);
      && Inv(z, env) && QueuedValid(z, env) && Buffered(z, env, SlackAfter(y, env, step, e))
      && k in z.book.queued && z.book.queued[k] == y.book.queued[k] && z.rx.Some? && z.remoteBase <= k
      && ((Unmoved(y.rx.value, z.rx.value, k) && !(step.HandlerSettles? && step.ok && y.rx.value.drain.Awaiting?))
          || (k <= z.rx.value.last && (env.j.Skip(y.book.queued[k].json) || (k, y.book.queued[k].json) in z.log)))
    ensures var z := Do(y, env, step);
      Handed(z, env, k) || Waits(z, env, k, SlackAfter(y, env, step, e), got)
  {
    hide Inv, Do, QueuedValid, Buffered, Gathered, Spares, SlackAfter;
    var z := Do(y, env, step);
    if Unmoved(y.rx.value, z.rx.value, k) && !(step.HandlerSettles? && step.ok && y.rx.value.drain.Awaiting?) {
      DriftStays(y, env, step, e, k);
      StillGathered(y.book, z.book, y.rx.value, z.rx.value, k, got);
    }
  }

  /** What was handed over stays so. */
  lemma StepHanded(y: Sys, env: Env, step: Step, k: nat)
    requires GoodCodec(CodecOf(env)) && Handed(y, env, k) && !step.ForgetStream?
    ensures Handed(Do(y, env, step), env, k)
  {
    hide Inv, Ingest, StartDrain, Settle, ApplyBase, SendMessage, HandleAck, RetryPass, SkipRequest, Confirmed,
         DropPrefix, CommitSend, FindRequest, Parse, SegmentAccepted, Abandon, SetReliable, Gone, GoodCodec;
    StepOk(y, env, step);
    QueuedStays(y, env, step, k);
    StreamIsOrdered(y, env);
    var s := y.rx.value;
    match step
    case Arrive(f) =>
      if Acceptable(f) {
        IngestOrdered(s, env.j, y.remoteBase, f.header, Parse(f.body).value);
      }
    case StartDraining => if s.drain == Live { StartAdvances(s, env.j, y.active); }
    case HandlerSettles(ok) => if s.drain.Awaiting? { SettleOrdered(s, env.j, ok, y.active); }
    case ResumeStream => ApplyBaseOrdered(s);
    case InstallBase(base) => ApplyBaseOrdered(s.(base := Max(s.base, base)));
    case _ =>
  }

  lemma StartAdvances(s: Stream, j: Json, active: bool)
    requires s.drain == Live && Ordered(s)
    ensures Advances(s, StartDrain(s, j, active).stream)
  {
    hide RunFrom, ApplyBase;
    ApplyBaseOrdered(s.(drainRequested := false));
    RunFromOrdered(BeginRound(s), j, active);
  }

  lemma SparesStream(y: Sys, env: Env, step: Step, k: nat)
    requires Spares(y, env, step, k)
    ensures !step.ForgetStream?
  {
  }

  lemma {:induction false} RunHanded(y: Sys, env: Env, steps: seq<Step>, k: nat)
    requires GoodCodec(CodecOf(env)) && Handed(y, env, k) && AllSpare(y, env, steps, k)
    ensures Handed(Run(y, env, steps), env, k)
    decreases |steps|
  {
    hide Do, Handed, Spares, GoodCodec;
    if steps != [] {
      SparesStream(y, env, steps[0], k);
      StepHanded(y, env, steps[0], k);
      RunHanded(Do(y, env, steps[0]), env, steps[1..], k);
    }
  }

  lemma {:induction false} RunWaits(y: Sys, env: Env, steps: seq<Step>, k: nat, e: Slack, got: set<int>)
    requires GoodCodec(CodecOf(env)) && Waits(y, env, k, e, got) && AllSpare(y, env, steps, k)
    ensures var z := Run(y, env, steps);
      Handed(z, env, k) || Waits(z, env, k, SlackOf(y, env, steps, e), got + Brought(y, env, steps, k))
    decreases |steps|
  {
    hide Do, Waits, Handed, Spares, Brings, SlackAfter, GoodCodec;
    if steps == [] {
      assert got + {} == got;
    } else {
      StepWaits(y, env, steps[0], k, e, got);
      var z := Do(y, env, steps[0]);
      if Handed(z, env, k) {
        RunHanded(z, env, steps[1..], k);
      } else {
        RunWaits(z, env, steps[1..], k, SlackAfter(y, env, steps[0], e), got + Brings(y, steps[0], k));
        assert got + Brings(y, steps[0], k) + Brought(z, env, steps[1..], k) == got + Brought(y, env, steps, k);
      }
    }
  }

  // ---- With all its pieces there ----

  lemma {:induction false} Interval(lo: nat, hi: nat)
    requires lo <= hi
    ensures |Gone(lo, hi)| == hi - lo
    decreases hi - lo
  {
    if lo < hi {
      Interval(lo + 1, hi);
    }
  }

  lemma NoneMissing(chunks: map<nat, Text>, n: nat)
    requires forall i: nat :: i < n ==> i in chunks
    ensures |chunks.Keys| >= n
  {
    Interval(0, n);
    SetSize(Gone(0, n), chunks.Keys);
  }

  lemma AssemblyShort(y: Sys, env: Env, k: nat, e: Slack)
    requires Inv(y, env) && y.rx.Some? && k in y.rx.value.assemblies && Buffers(y.rx.value, env.j, e)
      && k in y.book.queued
    ensures |y.rx.value.assemblies[k].chunks.Keys| < |Split(y.book.queued[k].json, MAX_CHUNK_BYTES)|
  {
    hide Split, ByteLength, SenderOk, WireOk, LogOk, Numbered, SettledBelow, SkipsDiscarded, Genuine, Slots, HeadKept,
         Accounted;
    var a := y.rx.value.assemblies[k];
    assert AssemblyOk(y.book, k, a) && GoodAssembly(a);
    assert |a.chunks.Keys| == |a.chunks|;
  }

  /** Nothing is missing, so there is no assembly left that waits for something. */
  lemma AllGathered(b: Book, s: Stream, k: nat, got: set<int>, n: nat)
    requires k in b.queued && Gathered(b, s, k, got) && n >= 1 && forall i: int :: 0 <= i < n ==> i in got
    requires k in s.assemblies ==> |s.assemblies[k].chunks.Keys| < n
    ensures k in s.ready && s.ready[k] == Ready(b.queued[k].header, b.queued[k].json)
  {
    if k !in s.ready {
      assert HasPiece(s, k, 0);
      var chunks := s.assemblies[k].chunks;
      forall i: nat | i < n ensures i in chunks {
        assert HasPiece(s, k, i);
      }
      NoneMissing(chunks, n);
    }
  }

  lemma AllPieces(y: Sys, env: Env, k: nat, e: Slack, got: set<int>)
    requires Waits(y, env, k, e, got)
    requires forall i: int :: 0 <= i < |Split(y.book.queued[k].json, MAX_CHUNK_BYTES)| ==> i in got
    ensures k in y.rx.value.ready
    ensures y.rx.value.ready[k] == Ready(y.book.queued[k].header, y.book.queued[k].json)
  {
    hide *;
    WaitsFor(y, env, k, e, got);
    SplitMessage(y.book.queued[k].json);
    if k in y.rx.value.assemblies {
      AssemblyShort(y, env, k, e);
    }
    AllGathered(y.book, y.rx.value, k, got, |Split(y.book.queued[k].json, MAX_CHUNK_BYTES)|);
  }

  lemma NothingYet(y: Sys, env: Env, k: nat)
    requires Inv(y, env) && y.rx.Some? && k in y.book.queued
    requires k in y.rx.value.ready ==> y.rx.value.ready[k].json == y.book.queued[k].json
    ensures Gathered(y.book, y.rx.value, k, {})
  {
    hide SenderOk, WireOk, LogOk, Numbered, SettledBelow, SkipsDiscarded, AssemblyOk;
  }

  /** After any run that leaves the byte counter not far off, whatever both ends do next: once every piece
      of the message waited for has arrived, in any order and any number of times, then that message is
      ready as it was queued, or was already handed to the host so. What would end the wait from outside is
      only a higher baseline, the message's own skip, or the stream being forgotten. */
  lemma MessageCompletes(env: Env, steps: seq<Step>, more: seq<Step>, k: nat)
    requires GoodCodec(CodecOf(env))
    requires var y := Run(START, env, steps);
      && y.rx.Some? && k == y.rx.value.last + 1 && k in y.book.queued
      && y.rx.value.base <= k && y.remoteBase <= k && Drift(y.rx.value) <= MAX_DRIFT
      && (k in y.rx.value.ready ==> y.rx.value.ready[k].json == y.book.queued[k].json)
      && AllSpare(y, env, more, k)
      && (forall i: int :: 0 <= i < |Split(y.book.queued[k].json, MAX_CHUNK_BYTES)| ==> i in Brought(y, env, more, k))
    ensures var y, z := Run(START, env, steps), Run(Run(START, env, steps), env, more);
      Handed(z, env, k)
      || (z.rx.Some? && k in z.rx.value.ready
          && z.rx.value.ready[k] == Ready(y.book.queued[k].header, y.book.queued[k].json))
  {
    StartOk(env);
    assert QueuedValid(START, env) && Buffered(START, env, EXACT);
    RunOk(START, env, steps);
    RunQueuedValid(START, env, steps);
    RunBuffered(START, env, steps, EXACT);
    hide *;
    DriftOf(env, steps);
    var y, e := Run(START, env, steps), SlackOf(START, env, steps, EXACT);
    NothingYet(y, env, k);
    NowWaits(y, env, k, e, {});
    WaitEnds(y, env, more, k, e);
  }

  lemma WaitEnds(y: Sys, env: Env, steps: seq<Step>, k: nat, e: Slack)
    requires GoodCodec(CodecOf(env)) && Waits(y, env, k, e, {}) && AllSpare(y, env, steps, k)
    requires forall i: int :: 0 <= i < |Split(y.book.queued[k].json, MAX_CHUNK_BYTES)| ==>
      i in Brought(y, env, steps, k)
    ensures var z := Run(y, env, steps);
      Handed(z, env, k)
      || (z.rx.Some? && k in z.rx.value.ready
          && z.rx.value.ready[k] == Ready(y.book.queued[k].header, y.book.queued[k].json))
  {
    hide *;
    WaitsFor(y, env, k, e, {});
    RunWaits(y, env, steps, k, e, {});
    RunQueuedStays(y, env, steps, k);
    var z, got := Run(y, env, steps), Brought(y, env, steps, k);
    if !Handed(z, env, k) {
      assert {} + got == got;
      WaitsFor(z, env, k, SlackOf(y, env, steps, e), got);
      AllPieces(z, env, k, SlackOf(y, env, steps, e), got);
    }
  }

  lemma {:induction false} RunQueuedStays(y: Sys, env: Env, steps: seq<Step>, k: nat)
    requires GoodCodec(CodecOf(env)) && Inv(y, env) && k in y.book.queued
    ensures k in Run(y, env, steps).book.queued && Run(y, env, steps).book.queued[k] == y.book.queued[k]
    decreases |steps|
  {
    hide Do, Inv, GoodCodec;
    if steps != [] {
      QueuedStays(y, env, steps[0], k);
      StepOk(y, env, steps[0]);
      RunQueuedStays(Do(y, env, steps[0]), env, steps[1..], k);
    }
  }
}
