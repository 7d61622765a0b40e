/** The frame that carries the next number a receiver waits for is always taken in. */
module HeadOfLine {
  import opened Text
  import opened Sums
  import opened Transport
  import opened Receiver
  import opened ReceiverLaws
  import opened Sender
  import opened Book
  import opened BookLaws
  import opened DeviceLink
  import opened LinkTheorems

  lemma {:induction false} SmallerParts(xs: seq<Text>, ys: seq<Text>)
    requires |xs| == |ys| && forall i :: 0 <= i < |xs| ==> xs[i] == ys[i] || xs[i] == []
    ensures TotalBytes(xs) <= TotalBytes(ys)
  {
    hide ByteLength;
    if xs != [] {
      assert forall i :: 0 <= i < |xs| - 1 ==> xs[1..][i] == xs[i + 1] && ys[1..][i] == ys[i + 1];
      SmallerParts(xs[1..], ys[1..]);
      EmptyText();
    }
  }

  lemma EmptyText()
    ensures ByteLength([]) == 0
  {
  }

  /** The pieces collected so far weigh no more than the whole. */
  lemma PartialSum(chunks: map<nat, Text>, parts: seq<Text>)
    requires forall i <- chunks :: i < |parts| && chunks[i] == parts[i]
    ensures Sum(ChunkSizes(chunks)) <= TotalBytes(parts)
  {
    hide Sum, ChunkSizes, ByteLength;
    PiecesTotal(chunks, |parts|);
    SmallerParts(Pieces(chunks, |parts|), parts);
  }

  /** One more piece still fits the size the message announced. */
  lemma PieceFits(b: Book, k: nat, a: Assembly, index: nat)
    requires AssemblyOk(b, k, a) && GoodAssembly(a) && index !in a.chunks
    requires index < |Split(b.queued[k].json, MAX_CHUNK_BYTES)|
    ensures a.bytes + ByteLength(Split(b.queued[k].json, MAX_CHUNK_BYTES)[index]) <= a.totalBytes
  {
    hide Sum, ChunkSizes, ByteLength, Split;
    var parts := Split(b.queued[k].json, MAX_CHUNK_BYTES);
    AddChunkSize(a.chunks, index, parts[index]);
    PartialSum(a.chunks[index := parts[index]], parts);
    SplitMessage(b.queued[k].json);
  }

  /** Number `k`, or piece `index` of it, is held. */
  predicate Taken(s: Stream, k: nat, index: Option<nat>) {
    k in s.ready || (index.Some? && k in s.assemblies && index.value in s.assemblies[k].chunks)
  }

  lemma FileTakes(c: Codec, b: Book, s: Stream, k: nat, a: Assembly, index: nat)
    requires AssemblyOk(b, k, a) && index in a.chunks && 0 <= a.total && c.j.valid(b.queued[k].json)
    ensures Taken(File(s, c.j, k, a.header, a).stream, k, Some(index))
  {
    hide Join, Pieces, ByteLength, Split;
    if |a.chunks| == a.total {
      CompleteAssembly(b, k, a);
    }
  }

  lemma AddChunkFiles(s: Stream, j: Json, k: nat, a: Assembly, index: nat, data: Text)
    requires 0 <= a.total && ByteLength(data) <= MAX_CHUNK_BYTES && a.bytes + ByteLength(data) <= a.totalBytes
    ensures var (roomy, ok) := EnsureCapacity(s, k, ByteLength(data));
      AddChunk(s, j, k, a.header, a, index, data) ==
        if !ok then Reaction(Remove(roomy, k), [])
        else File(roomy.(buffered := roomy.buffered + ByteLength(data), assemblies := roomy.assemblies - {k}), j, k,
                  a.header, a.(chunks := a.chunks[index := data], bytes := a.bytes + ByteLength(data)))
  {
    hide ByteLength, File, EnsureCapacity, Remove;
  }

  lemma AssemblyTotal(a: Assembly)
    requires GoodAssembly(a)
    ensures 0 <= a.total
  {
  }

  lemma RemovedIsGone(s: Stream, k: nat, index: Option<nat>)
    ensures !Taken(Remove(s, k), k, index)
  {
  }

  lemma ChunkTakenIff(c: Codec, b: Book, s: Stream, k: nat, a: Assembly, index: nat, data: Text)
    requires AssemblyOk(b, k, a) && GoodAssembly(a) && index !in a.chunks && ByteLength(data) <= MAX_CHUNK_BYTES
    requires Shaped(s, c.j) && k == s.last + 1 && k !in s.ready && c.j.valid(b.queued[k].json)
    requires var parts := Split(b.queued[k].json, MAX_CHUNK_BYTES); index < |parts| && data == parts[index]
    ensures Taken(AddChunk(s, c.j, k, a.header, a, index, data).stream, k, Some(index))
       <==> Drift(s) + OwnBytes(s, k) + ByteLength(data) <= MAX_REASSEMBLY_BYTES
  {
    hide *;
    AssemblyTotal(a);
    var bytes := ByteLength(data);
    PieceFits(b, k, a, index);
    HeadRoomIff(s, c.j, k, bytes);
    var roomy := EnsureCapacity(s, k, bytes).0;
    MoreOk(b, k, a, index, data, bytes);
    AddChunkFiles(s, c.j, k, a, index, data);
    RemovedIsGone(roomy, k, Some(index));
    FileTakes(c, b, roomy.(buffered := roomy.buffered + bytes, assemblies := roomy.assemblies - {k}), k,
              a.(chunks := a.chunks[index := data], bytes := a.bytes + bytes), index);
  }

  /** A genuine segment of number `k`. */
  ghost predicate SegmentOf(b: Book, k: nat, header: Header, seg: Segment, data: Text) {
    && SegmentAccepted(seg) && k in b.queued && header == b.queued[k].header && ByteLength(data) <= MAX_CHUNK_BYTES
    && var parts := Split(b.queued[k].json, MAX_CHUNK_BYTES);
       && seg.total == |parts| && seg.totalBytes == ByteLength(b.queued[k].json)
       && 0 <= seg.index < |parts| && data == parts[seg.index]
  }

  /** The piece is there already. */
  predicate HasPiece(s: Stream, k: nat, index: int) {
    k in s.assemblies && index in s.assemblies[k].chunks
  }

  lemma SegmentTakenIff(c: Codec, b: Book, s: Stream, k: nat, header: Header, seg: Segment, data: Text)
    requires Held(c, b, s) && Shaped(s, c.j) && k == s.last + 1 && k !in s.ready
    requires SegmentOf(b, k, header, seg, data) && c.j.valid(b.queued[k].json)
    ensures Taken(StoreSegment(s, c.j, k, header, seg, data).stream, k, Some(seg.index))
       <==> HasPiece(s, k, seg.index) || Drift(s) + OwnBytes(s, k) + ByteLength(data) <= MAX_REASSEMBLY_BYTES
  {
    hide ByteLength, File, Split, Shaped, AddChunk, GoodAssembly, Held, AssemblyOf, Taken, Drift;
    var a := AssemblyOf(s, k, header, seg);
    FoundGood(s, c.j, k, header, seg);
    FoundOk(c, b, s, k, header, seg);
    AssemblyFound(s, k, header, seg);
    if seg.index in a.chunks {
      FileTakes(c, b, s.(assemblies := s.assemblies - {k}), k, a, seg.index);
    } else {
      ChunkTakenIff(c, b, s, k, a, seg.index, data);
    }
  }

  lemma FoundGood(s: Stream, j: Json, k: nat, header: Header, seg: Segment)
    requires Shaped(s, j) && SegmentAccepted(seg)
    ensures GoodAssembly(AssemblyOf(s, k, header, seg))
  {
    var none: map<nat, Text> := map[];
    assert ChunkSizes(none) == map[];
    assert k in s.assemblies ==> GoodAssembly(s.assemblies[k]);
  }

  lemma FoundOk(c: Codec, b: Book, s: Stream, k: nat, header: Header, seg: Segment)
    requires Held(c, b, s) && SegmentAccepted(seg) && k in b.queued && header == b.queued[k].header
    requires var parts := Split(b.queued[k].json, MAX_CHUNK_BYTES);
      seg.total == |parts| && seg.totalBytes == ByteLength(b.queued[k].json)
    ensures AssemblyOk(b, k, AssemblyOf(s, k, header, seg))
  {
    hide ByteLength, Split;
  }

  lemma SkipTakenIff(s: Stream, j: Json, k: nat, header: Header, data: Text)
    requires Shaped(s, j) && k == s.last + 1 && j.Skip(data) && ByteLength(data) <= MAX_CHUNK_BYTES
    ensures k in StoreSingle(s, j, k, header, data).stream.ready
       <==> Drift(s) + ByteLength(data) <= MAX_REASSEMBLY_BYTES
  {
    hide ByteLength, Shaped, EnsureCapacity, Remove, Drift, Trimmed;
    RemoveShaped(s, k, j);
    RemovedDrift(s, k);
    RemovedHead(s, k);
    HeadRoomIff(Remove(s, k), j, k, ByteLength(data));
    StillNotReady(Remove(s, k), j, k, ByteLength(data));
  }

  lemma StillNotReady(s: Stream, j: Json, k: nat, bytes: nat)
    requires Shaped(s, j) && k !in s.ready
    ensures k !in EnsureCapacity(s, k, bytes).0.ready
  {
    hide EnsureCapacity, Shaped, Stored, Slots;
    ShapedKeys(s, j);
    CapacityTrims(s, k, bytes);
  }

  /** A message that has an assembly is too large for a single frame. */
  lemma AssembledIsLarge(c: Codec, b: Book, s: Stream, k: nat)
    requires Held(c, b, s) && Shaped(s, c.j) && k in b.queued
    ensures k in s.assemblies ==> ByteLength(b.queued[k].json) > MAX_CHUNK_BYTES
  {
    SplitMessage(b.queued[k].json);
    hide ByteLength, Split;
    if k in s.assemblies {
      assert AssemblyOk(b, k, s.assemblies[k]) && GoodAssembly(s.assemblies[k]);
    }
  }

  lemma WholeTakenIff(c: Codec, b: Book, s: Stream, k: nat, header: Header, data: Text)
    requires Held(c, b, s) && Shaped(s, c.j) && k == s.last + 1 && k in b.queued && k !in s.ready
    requires data == b.queued[k].json && c.j.valid(data) && ByteLength(data) <= MAX_CHUNK_BYTES && !c.j.Skip(data)
    ensures k !in s.assemblies
    ensures k in StoreSingle(s, c.j, k, header, data).stream.ready
       <==> Drift(s) + ByteLength(data) <= MAX_REASSEMBLY_BYTES
  {
    hide ByteLength, Shaped, EnsureCapacity, Held, Drift;
    AssembledIsLarge(c, b, s, k);
    HeadRoomIff(s, c.j, k, ByteLength(data));
    StillNotReady(s, c.j, k, ByteLength(data));
  }

  // ---- A frame of the sender, at the head ----

  function IndexOf(p: Parsed): Option<nat> {
    if p.segment.Some? && p.segment.value.index >= 0 then Some(p.segment.value.index) else None
  }

  /** The frame brings nothing new: its message is complete, or this piece of it is there. */
  predicate Known(t: Stream, j: Json, p: Parsed) {
    !SkipFrame(j, p) && (p.seqNo in t.ready || (p.segment.Some? && HasPiece(t, p.seqNo, p.segment.value.index)))
  }

  /** The drift of the byte counter, what the message's own assembly weighs and the new piece are within
      the limit together; a skip takes the place of the assembly. */
  ghost predicate FitsAtHead(t: Stream, j: Json, p: Parsed) {
    Drift(t) + (if SkipFrame(j, p) then 0 else OwnBytes(t, p.seqNo)) + ByteLength(p.data) <= MAX_REASSEMBLY_BYTES
  }

  /** `p` is a frame of message `k` of the history, or of the skip in its place. */
  ghost predicate PieceOf(c: Codec, b: Book, k: nat, header: Header, p: Parsed) {
    && k in b.queued && p.seqNo == k && header == b.queued[k].header && ByteLength(p.data) <= MAX_CHUNK_BYTES
    && c.j.valid(b.queued[k].json)
    && (p.segment.None? ==> p.data == b.queued[k].json || c.j.Skip(p.data))
    && (p.segment.Some? ==> SegmentOf(b, k, header, p.segment.value, p.data))
  }

  /** At a sound stream, a frame with the next number is taken in if and only if it is known or fits. */
  lemma StoredAtHeadIff(c: Codec, b: Book, t: Stream, k: nat, header: Header, p: Parsed)
    requires Held(c, b, t) && Shaped(t, c.j) && k == t.last + 1 && PieceOf(c, b, k, header, p)
    requires p.seqNo !in t.ready || SkipFrame(c.j, p)
    ensures p.segment.Some? ==> SegmentAccepted(p.segment.value)
    ensures var r := if p.segment.Some? then StoreSegment(t, c.j, k, header, p.segment.value, p.data)
                     else StoreSingle(t, c.j, k, header, p.data);
      Taken(r.stream, k, IndexOf(p)) <==> Known(t, c.j, p) || FitsAtHead(t, c.j, p)
  {
    hide ByteLength, Held, Shaped, StoreSingle, StoreSegment, Drift;
    match p.segment
    case None =>
      if c.j.Skip(p.data) {
        SkipTakenIff(t, c.j, k, header, p.data);
      } else {
        WholeTakenIff(c, b, t, k, header, p.data);
      }
    case Some(seg) => SegmentTakenIff(c, b, t, k, header, seg, p.data);
  }

  lemma IngestAtHeadIff(c: Codec, b: Book, s: Stream, remoteBase: nat, header: Header, p: Parsed)
    requires var t := AdvanceBase(s, Max(remoteBase, p.baseSeq));
      Held(c, b, t) && Shaped(t, c.j) && p.seqNo == t.last + 1 && PieceOf(c, b, p.seqNo, header, p)
    ensures p.segment.Some? ==> SegmentAccepted(p.segment.value)
    ensures var t := AdvanceBase(s, Max(remoteBase, p.baseSeq));
      (Taken(Ingest(s, c.j, remoteBase, header, p).stream, p.seqNo, IndexOf(p))
       <==> Known(t, c.j, p) || FitsAtHead(t, c.j, p))
  {
    hide ByteLength, Held, Shaped, StoreSingle, StoreSegment, AdvanceBase, FitsAtHead, HasPiece;
    var t := AdvanceBase(s, Max(remoteBase, p.baseSeq));
    if p.seqNo !in t.ready || SkipFrame(c.j, p) {
      StoredAtHeadIff(c, b, t, p.seqNo, header, p);
    }
  }

  // ---- Over whole runs ----

  ghost predicate QueuedValid(y: Sys, env: Env) {
    forall k <- y.book.queued :: env.j.valid(y.book.queued[k].json)
  }

  lemma {:induction false} RunQueuedValid(y: Sys, env: Env, steps: seq<Step>)
    requires QueuedValid(y, env)
    ensures QueuedValid(Run(y, env, steps), env)
    decreases |steps|
  {
    hide Do, QueuedValid;
    if steps != [] {
      StepQueuedValid(y, env, steps[0]);
      RunQueuedValid(Do(y, env, steps[0]), env, steps[1..]);
    }
  }

  lemma StepQueuedValid(y: Sys, env: Env, step: Step)
    requires QueuedValid(y, env)
    ensures QueuedValid(Do(y, env, step), env)
  {
    hide Ingest, StartDrain, Settle, AdvanceBase, Resumed, SendMessage, HandleAck, RetryPass, SkipRequest, Confirmed,
         DropPrefix, CommitSend, FindRequest, Parse, SegmentAccepted, Abandon, SetReliable, Gone;
  }

  lemma WireFrame(y: Sys, env: Env, f: Envelope)
    requires Inv(y, env) && f in y.frames
    ensures FrameOk(CodecOf(env), y.book, f)
  {
    hide SenderOk, LogOk, Numbered, SettledBelow, SkipsDiscarded, StreamOk, FrameOk;
  }

  /** Every frame on the wire is a piece of its message. */
  lemma WirePiece(y: Sys, env: Env, f: Envelope)
    requires GoodCodec(CodecOf(env)) && Inv(y, env) && QueuedValid(y, env) && f in y.frames
    ensures Parse(f.body).Some?
      && PieceOf(CodecOf(env), y.book, Parse(f.body).value.seqNo, f.header, Parse(f.body).value)
    ensures SettledBelow(y.book, Parse(f.body).value.baseSeq)
  {
    var c, b := CodecOf(env), y.book;
    hide SenderOk, LogOk, Numbered, SettledBelow, FrameFrom, Parse, SkipsDiscarded, ByteLength, Split, GoodCodec,
         WireOk, StreamOk;
    WireFrame(y, env, f);
    var k: nat, base: nat, json :|
      && Genuine(c, b, k, f.header, json) && FrameFrom(c, f.header, json, k, base, f)
      && SettledBelow(b, base) && base <= k < base + SEQUENCE_WINDOW;
    ReadBack(c, f.header, json, k, base, f);
    SkipSkips(c);
    SplitMessage(json);
  }

  lemma SkipSkips(c: Codec)
    requires GoodCodec(c)
    ensures c.j.Skip(c.skipJson) && ByteLength(c.skipJson) <= MAX_CHUNK_BYTES
  {
  }

  /** Catching up with a baseline keeps the buffers sound and in agreement with the history. */
  lemma AdvancedOk(y: Sys, env: Env, s: Stream, f: Envelope, e: Slack)
    requires GoodCodec(CodecOf(env)) && Inv(y, env) && QueuedValid(y, env) && f in y.frames && y.rx == Some(s)
    requires Buffers(s, env.j, e)
    ensures Parse(f.body).Some?
    ensures var t := AdvanceBase(s, Max(y.remoteBase, Parse(f.body).value.baseSeq));
      Held(CodecOf(env), y.book, t) && Buffers(t, env.j, e)
  {
    var c, b := CodecOf(env), y.book;
    hide SenderOk, LogOk, Parse, SkipsDiscarded, ApplyBase, Held, Buffers, GoodCodec, PieceOf;
    WirePiece(y, env, f);
    var raised := s.(base := Max(s.base, Max(y.remoteBase, Parse(f.body).value.baseSeq)));
    RaisedHeld(c, b, s, raised.base);
    ApplyBaseOk(c, b, raised);
    RaisedBuffers(s, raised.base, env.j, e);
    ApplyBaseBuffers(raised, env.j, e);
  }

  /** The frame `f` of the wire, arriving at the receiver, has the number right after the last delivered
      one. */
  ghost predicate AtHead(y: Sys, f: Envelope) {
    f in y.frames && y.rx.Some? && Parse(f.body).Some?
    && Parse(f.body).value.seqNo
         == AdvanceBase(y.rx.value, Max(y.remoteBase, Parse(f.body).value.baseSeq)).last + 1
  }

  /** After any run, a frame at the head is taken in if and only if it brings nothing new or fits; and it
      fits whenever the byte counter is off by no more than the limit less one message and one chunk. */
  lemma HeadTakenIff(env: Env, steps: seq<Step>, f: Envelope)
    requires GoodCodec(CodecOf(env)) && AtHead(Run(START, env, steps), f)
    ensures var y := Run(START, env, steps);
      var p := Parse(f.body).value;
      var t := AdvanceBase(y.rx.value, Max(y.remoteBase, p.baseSeq));
      && (p.segment.Some? ==> SegmentAccepted(p.segment.value))
      && Drift(t) == SlackOf(START, env, steps, EXACT).drift
      && (Taken(Ingest(y.rx.value, env.j, y.remoteBase, f.header, p).stream, p.seqNo, IndexOf(p))
          <==> Known(t, env.j, p) || FitsAtHead(t, env.j, p))
      && (Drift(t) <= MAX_DRIFT ==> FitsAtHead(t, env.j, p))
  {
    StartOk(env);
    assert QueuedValid(START, env) && Buffered(START, env, EXACT);
    RunOk(START, env, steps);
    RunQueuedValid(START, env, steps);
    RunBuffered(START, env, steps, EXACT);
    hide *;
    HeadTakenAt(Run(START, env, steps), env, f, SlackOf(START, env, steps, EXACT));
  }

  lemma HeadTakenAt(y: Sys, env: Env, f: Envelope, e: Slack)
    requires GoodCodec(CodecOf(env)) && Inv(y, env) && QueuedValid(y, env) && Buffered(y, env, e) && AtHead(y, f)
    ensures var p := Parse(f.body).value;
      var t := AdvanceBase(y.rx.value, Max(y.remoteBase, p.baseSeq));
      && (p.segment.Some? ==> SegmentAccepted(p.segment.value))
      && Drift(t) == e.drift
      && (Taken(Ingest(y.rx.value, env.j, y.remoteBase, f.header, p).stream, p.seqNo, IndexOf(p))
          <==> Known(t, env.j, p) || FitsAtHead(t, env.j, p))
      && (Drift(t) <= MAX_DRIFT ==> FitsAtHead(t, env.j, p))
  {
    hide *;
    HeadFacts(y, env, f, e);
    var c, b, s, p := CodecOf(env), y.book, y.rx.value, Parse(f.body).value;
    WirePiece(y, env, f);
    AdvancedOk(y, env, s, f, e);
    var t := AdvanceBase(s, Max(y.remoteBase, p.baseSeq));
    BuffersParts(t, env.j, e);
    DriftIs(t, env.j, e);
    IngestAtHeadIff(c, b, s, y.remoteBase, f.header, p);
    if Drift(t) <= MAX_DRIFT {
      SmallDriftFits(c, b, t, f.header, p);
    }
  }

  lemma HeadFacts(y: Sys, env: Env, f: Envelope, e: Slack)
    requires Buffered(y, env, e) && AtHead(y, f)
    ensures f in y.frames && y.rx.Some? && Parse(f.body).Some? && Buffers(y.rx.value, env.j, e)
    ensures Parse(f.body).value.seqNo
         == AdvanceBase(y.rx.value, Max(y.remoteBase, Parse(f.body).value.baseSeq)).last + 1
    ensures CodecOf(env).j == env.j
  {
    hide Buffers, Parse, AdvanceBase;
  }

  lemma SmallDriftFits(c: Codec, b: Book, t: Stream, header: Header, p: Parsed)
    requires Shaped(t, c.j) && PieceOf(c, b, p.seqNo, header, p) && Drift(t) <= MAX_DRIFT
    ensures FitsAtHead(t, c.j, p)
  {
    hide Shaped, ByteLength, Split, Drift;
    ShapedBounds(t, c.j);
  }

  /** The head of the line is never starved: after any run that leaves the byte counter off by no more than
      the limit less one message and one chunk, whatever fills the buffers, a frame with the number right
      after the last delivered one leaves that number, or that piece of it, held. */
  lemma HeadNeverRefused(env: Env, steps: seq<Step>, f: Envelope)
    requires GoodCodec(CodecOf(env)) && AtHead(Run(START, env, steps), f)
    requires Drift(Run(START, env, steps).rx.value) <= MAX_DRIFT
    ensures var y := Run(START, env, steps);
      var p := Parse(f.body).value;
      && (p.segment.Some? ==> SegmentAccepted(p.segment.value))
      && Taken(Ingest(y.rx.value, env.j, y.remoteBase, f.header, p).stream, p.seqNo, IndexOf(p))
  {
    assert Run(START, env, steps).rx.Some?;
    hide *;
    HeadTakenIff(env, steps, f);
    DriftOf(env, steps);
  }

  /** The drift of the byte counter is what the run has made of it. */
  lemma DriftOf(env: Env, steps: seq<Step>)
    requires GoodCodec(CodecOf(env)) && Run(START, env, steps).rx.Some?
    ensures Drift(Run(START, env, steps).rx.value) == SlackOf(START, env, steps, EXACT).drift
  {
    StartOk(env);
    assert Buffered(START, env, EXACT);
    RunBuffered(START, env, steps, EXACT);
    hide Run, Buffers, Slim;
    DriftIs(Run(START, env, steps).rx.value, env.j, SlackOf(START, env, steps, EXACT));
  }
}
