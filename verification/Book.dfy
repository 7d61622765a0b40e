/** The history of one stream, and what it means for a frame, a receive stream or a queue to
    agree with it. The history records which message was queued under which number, what the
    receiving host handled and what the sender gave up; it is kept for the proofs alone, and no step
    of either end looks at it. */
module Book {
  import opened Text
  import opened Transport
  import opened Receiver
  import opened ReceiverLaws

  datatype Message = Message(header: Header, json: Text)

  /** What was ever queued under each number; the numbers whose handler succeeded; and the
      numbers the sender gave up explicitly: dropped prefix, abandoned queue, or skip. */
  datatype Book = Book(queued: map<nat, Message>, nextSeq: nat, handled: set<nat>, discarded: set<nat>)

  ghost predicate Numbered(b: Book) {
    b.nextSeq >= 1 && forall k: nat :: k in b.queued <==> 1 <= k < b.nextSeq
  }

  predicate Settled(b: Book, k: nat) {
    k in b.handled || k in b.discarded
  }

  /** Every number below `n` has been handled or given up. */
  ghost predicate SettledBelow(b: Book, n: nat) {
    n <= b.nextSeq && forall k: nat :: 1 <= k < n ==> Settled(b, k)
  }

  /** The history only grows. */
  ghost predicate Extends(b: Book, c: Book) {
    && b.nextSeq <= c.nextSeq && b.handled <= c.handled && b.discarded <= c.discarded
    && (forall k <- b.queued :: k in c.queued && c.queued[k] == b.queued[k])
  }

  /** What the two ends agree on: the stream, how JSON is read, and how a skip is printed. */
  datatype Codec = Codec(streamId: Text, j: Json, skipJson: Text)

  predicate GoodCodec(c: Codec) {
    1 <= |c.streamId| <= MAX_STREAM_ID && c.j.Skip(c.skipJson) && ByteLength(c.skipJson) <= MAX_CHUNK_BYTES
  }

  /** A message under number `k` is what was queued there, or the skip that replaced it. */
  predicate Genuine(c: Codec, b: Book, k: nat, header: Header, json: Text) {
    && k in b.queued && header == b.queued[k].header
    && (json == b.queued[k].json || (json == c.skipJson && k in b.discarded))
  }

  /** A queued message that is itself a skip marker counts as given up. */
  ghost predicate SkipsDiscarded(c: Codec, b: Book) {
    forall k <- b.queued :: c.j.Skip(b.queued[k].json) ==> k in b.discarded
  }

  ghost predicate FrameFrom(c: Codec, header: Header, json: Text, k: nat, base: nat, f: Envelope) {
    var frames := Encode(header, c.streamId, json, k, base);
    frames.Some? && f in frames.value
  }

  /** A frame on the wire carries a genuine message and a baseline with nothing unsettled below it. */
  ghost predicate FrameOk(c: Codec, b: Book, f: Envelope) {
    exists k: nat, base: nat, json ::
      && Genuine(c, b, k, f.header, json) && FrameFrom(c, f.header, json, k, base, f)
      && SettledBelow(b, base) && base <= k < base + SEQUENCE_WINDOW
  }

  ghost predicate AssemblyOk(b: Book, k: nat, a: Assembly) {
    && k in b.queued && a.header == b.queued[k].header
    && var parts := Split(b.queued[k].json, MAX_CHUNK_BYTES);
       && a.total == |parts| && a.totalBytes == ByteLength(b.queued[k].json)
       && forall i <- a.chunks :: i < |parts| && a.chunks[i] == parts[i]
  }

  ghost predicate Held(c: Codec, b: Book, s: Stream) {
    && (forall k <- s.ready :: Genuine(c, b, k, s.ready[k].header, s.ready[k].json))
    && (forall k <- s.assemblies :: AssemblyOk(b, k, s.assemblies[k]))
    && (s.drain.Awaiting? ==> Genuine(c, b, s.drain.seqNo, s.drain.entry.header, s.drain.entry.json)
                              && !c.j.Skip(s.drain.entry.json))
  }

  /** A receive stream that agrees with the history. */
  ghost predicate StreamOk(c: Codec, b: Book, s: Stream) {
    Ordered(s) && Held(c, b, s) && SettledBelow(b, s.last + 1) && SettledBelow(b, s.base)
  }

  // ---- A longer history keeps what a shorter one allowed ----

  lemma GenuineGrows(c: Codec, b: Book, d: Book, k: nat, header: Header, json: Text)
    requires Extends(b, d) && Genuine(c, b, k, header, json)
    ensures Genuine(c, d, k, header, json)
  {
  }

  lemma SettledGrows(b: Book, d: Book, n: nat)
    requires Extends(b, d) && SettledBelow(b, n)
    ensures SettledBelow(d, n)
  {
    forall k: nat | 1 <= k < n ensures Settled(d, k) {
      assert Settled(b, k);
    }
  }

  lemma FrameGrows(c: Codec, b: Book, d: Book, f: Envelope)
    requires Extends(b, d) && FrameOk(c, b, f)
    ensures FrameOk(c, d, f)
  {
    hide FrameFrom;
    var k: nat, base: nat, json :|
      && Genuine(c, b, k, f.header, json) && FrameFrom(c, f.header, json, k, base, f)
      && SettledBelow(b, base) && base <= k < base + SEQUENCE_WINDOW;
    GenuineGrows(c, b, d, k, f.header, json);
    SettledGrows(b, d, base);
  }

  lemma StreamGrows(c: Codec, b: Book, d: Book, s: Stream)
    requires Extends(b, d) && StreamOk(c, b, s)
    ensures StreamOk(c, d, s)
  {
    hide Split, ByteLength;
    SettledGrows(b, d, s.last + 1);
    SettledGrows(b, d, s.base);
  }

  // ---- Frames read back ----

  /** An accepted frame shows its message's number and baseline and, whole or in part, its text. */
  lemma ReadBack(c: Codec, header: Header, json: Text, k: nat, base: nat, f: Envelope)
    requires GoodCodec(c) && FrameFrom(c, header, json, k, base, f)
    ensures f.header == header && Parse(f.body).Some?
    ensures var p, parts := Parse(f.body).value, Split(json, MAX_CHUNK_BYTES);
      && p.seqNo == k && p.baseSeq == base && 1 <= base <= k
      && ByteLength(p.data) <= MAX_CHUNK_BYTES
      && Join(parts) == json
      && (p.segment.None? ==> p.data == json)
      && (p.segment.Some? ==>
            && SegmentAccepted(p.segment.value)
            && p.segment.value.total == |parts| >= 2
            && p.segment.value.totalBytes == ByteLength(json) > MAX_CHUNK_BYTES
            && 0 <= p.segment.value.index < |parts|
            && p.data == parts[p.segment.value.index])
  {
    EncodeRoundTrip(header, c.streamId, json, k, base);
    SplitMessage(json);
    hide ByteLength, Split, Parse;
    var frames := Encode(header, c.streamId, json, k, base).value;
    var parts := Split(json, MAX_CHUNK_BYTES);
    assert PartsOf(frames) == parts;
    var i :| 0 <= i < |frames| && frames[i] == f;
    if |parts| == 1 {
      SinglePart(parts);
    } else {
      SegmentOfEncoded(c, header, json, k, base, i);
    }
  }

  lemma SinglePart(parts: seq<Text>)
    requires |parts| == 1
    ensures Join(parts) == parts[0]
  {
    assert parts[1..] == [];
  }

  lemma SegmentOfEncoded(c: Codec, header: Header, json: Text, k: nat, base: nat, i: nat)
    requires GoodCodec(c)
    requires var r := Encode(header, c.streamId, json, k, base); r.Some? && i < |r.value| && |r.value| > 1
    ensures SegmentAccepted(Segment(i, |Split(json, MAX_CHUNK_BYTES)|, ByteLength(json)))
  {
    SplitMessage(json);
    hide ByteLength, Split;
  }
}
