/** The reliable-transport wrapper: cutting a message into frames and accepting frames. */
module Transport {
  import opened Text

  const MAX_CHUNK_BYTES := 128 * 1024
  const MAX_SEGMENTS := 64
  const MAX_MESSAGE_BYTES := 4 * 1024 * 1024
  const MAX_STREAM_ID := 128
  const MAX_SAFE_INTEGER := 0x1F_FFFF_FFFF_FFFF
  const VERSION := 1

  datatype Kind = Invoke | InvokeResult | Push

  /** The routing fields every frame of a message shares. */
  datatype Header = Header(kind: Kind, id: Text, src: Text, dst: Text)

  datatype Segment = Segment(index: int, total: int, totalBytes: int)

  /** The wrapper as it travels; `baseSeq` is left out when it is 1. */
  datatype Wrapper = Wrapper(version: int, streamId: Text, seqNo: int, baseSeq: Option<int>,
                             segment: Option<Segment>, data: Text)

  datatype Envelope = Envelope(header: Header, body: Wrapper)

  /** What the receiver reads out of an accepted wrapper. */
  datatype Parsed = Parsed(streamId: Text, seqNo: nat, baseSeq: nat, segment: Option<Segment>, data: Text)

  // ---- Cutting text into chunks ----

  /** No code point of `t` is larger than a whole chunk. */
  predicate Fits(t: Text, max: int) {
    t == [] || (HeadBytes(t) <= max && Fits(t[Width(t)..], max))
  }

  /** Greedy cut: `cur` is the chunk being filled, `rest` what is still to be placed. */
  function SplitRest(cur: Text, rest: Text, max: int): seq<Text>
    decreases |rest|
  {
    if rest == [] then
      if cur == [] then [] else [cur]
    else
      var w := Width(rest);
      if cur != [] && ByteLength(cur) + HeadBytes(rest) > max then
        [cur] + SplitRest(rest[..w], rest[w..], max)
      else
        SplitRest(cur + rest[..w], rest[w..], max)
  }

  function Split(t: Text, max: int): seq<Text> {
    if t == [] then [[]] else SplitRest([], t, max)
  }

  /** Moving the code point at the front of `rest` onto `cur` neither cuts a pair nor loses bytes. */
  lemma MoveHead(cur: Text, rest: Text)
    requires rest != [] && !SplitsPair(cur, rest)
    ensures var w := Width(rest);
      !SplitsPair(cur + rest[..w], rest[w..]) && !SplitsPair(rest[..w], rest[w..])
      && ByteLength(cur + rest[..w]) == ByteLength(cur) + HeadBytes(rest)
      && ByteLength(rest[..w]) == HeadBytes(rest)
      && ByteLength(rest) == HeadBytes(rest) + ByteLength(rest[w..])
  {
    var w := Width(rest);
    var p := rest[..w];
    assert Width(p) == w && HeadBytes(p) == HeadBytes(rest);
    assert p[w..] == [];
    ByteLengthConcat(cur, p);
  }

  lemma JoinFirst(c: Text, parts: seq<Text>)
    ensures Join([c] + parts) == c + Join(parts) && TotalBytes([c] + parts) == ByteLength(c) + TotalBytes(parts)
  {
    assert ([c] + parts)[1..] == parts;
  }

  /** The chunks are the text, in order, and no surrogate pair is cut: their sizes add up to
      the size of the text. */
  lemma {:induction false} SplitRestSound(cur: Text, rest: Text, max: int)
    requires !SplitsPair(cur, rest)
    ensures var parts := SplitRest(cur, rest, max);
      Join(parts) == cur + rest && TotalBytes(parts) == ByteLength(cur) + ByteLength(rest)
    decreases |rest|
  {
    hide Join, TotalBytes, HeadBytes, SplitsPair;
    if rest == [] {
      SplitNothing(cur, max);
    } else {
      var w := Width(rest);
      MoveHead(cur, rest);
      hide ByteLength;
      assert rest == rest[..w] + rest[w..];
      if cur != [] && ByteLength(cur) + HeadBytes(rest) > max {
        SplitRestSound(rest[..w], rest[w..], max);
        JoinFirst(cur, SplitRest(rest[..w], rest[w..], max));
      } else {
        SplitRestSound(cur + rest[..w], rest[w..], max);
        assert (cur + rest[..w]) + rest[w..] == cur + rest;
      }
    }
  }

  lemma SplitNothing(cur: Text, max: int)
    ensures var parts := SplitRest(cur, [], max);
      Join(parts) == cur + [] && TotalBytes(parts) == ByteLength(cur) + ByteLength([])
  {
    if cur != [] {
      JoinFirst(cur, []);
      assert [cur] + [] == [cur];
    }
  }

  /** No chunk is empty and none is above the limit. */
  lemma {:induction false} SplitRestFits(cur: Text, rest: Text, max: int)
    requires 1 <= max && Fits(rest, max) && ByteLength(cur) <= max && !SplitsPair(cur, rest)
    ensures forall c <- SplitRest(cur, rest, max) :: c != [] && ByteLength(c) <= max
    decreases |rest|
  {
    if rest != [] {
      hide ByteLength, HeadBytes;
      var w := Width(rest);
      MoveHead(cur, rest);
      if cur != [] && ByteLength(cur) + HeadBytes(rest) > max {
        SplitRestFits(rest[..w], rest[w..], max);
      } else {
        SplitRestFits(cur + rest[..w], rest[w..], max);
      }
    }
  }

  /** Every chunk but the last is within three bytes of full, so the number of chunks is
      bounded by the size; and one chunk is enough exactly when the text fits. */
  lemma {:induction false} SplitRestCount(cur: Text, rest: Text, max: int)
    requires 4 <= max && ByteLength(cur) <= max && !SplitsPair(cur, rest) && cur + rest != []
    ensures var n := |SplitRest(cur, rest, max)|;
      1 <= n && (n - 1) * (max - 3) < ByteLength(cur) + ByteLength(rest)
      && (n == 1 <==> ByteLength(cur) + ByteLength(rest) <= max)
    decreases |rest|
  {
    if rest != [] {
      hide ByteLength, HeadBytes;
      var w := Width(rest);
      MoveHead(cur, rest);
      if cur != [] && ByteLength(cur) + HeadBytes(rest) > max {
        SplitRestCount(rest[..w], rest[w..], max);
        OneMore(|SplitRest(rest[..w], rest[w..], max)|, max - 3, ByteLength(cur), ByteLength(rest));
      } else {
        SplitRestCount(cur + rest[..w], rest[w..], max);
      }
    }
  }

  lemma OneMore(m: nat, d: int, x: int, y: int)
    requires (m - 1) * d < y && d <= x
    ensures m * d < x + y
  {
    assert m * d == (m - 1) * d + d;
  }

  /** A chunk size of four bytes or more fits every code point. */
  lemma {:induction false} FourBytesFit(t: Text, max: int)
    requires 4 <= max
    ensures Fits(t, max)
  {
    if t != [] {
      FourBytesFit(t[Width(t)..], max);
    }
  }

  /** `n` chunks no larger than `max` carry at most `n * max` bytes. */
  lemma {:induction false} TotalBytesBound(parts: seq<Text>, max: nat)
    requires forall c <- parts :: ByteLength(c) <= max
    ensures TotalBytes(parts) <= |parts| * max
  {
    if parts != [] {
      TotalBytesBound(parts[1..], max);
      assert |parts| * max == (|parts| - 1) * max + max;
    }
  }

  /** The whole contract of cutting a message for the wire. A message of at most 4 MiB never
      takes more than 33 segments, so the limit of 64 is never what refuses it. */
  lemma SplitMessage(t: Text)
    ensures var parts := Split(t, MAX_CHUNK_BYTES);
      Join(parts) == t && TotalBytes(parts) == ByteLength(t)
      && (forall c <- parts :: ByteLength(c) <= MAX_CHUNK_BYTES)
      && 1 <= |parts|
      && (|parts| == 1 <==> ByteLength(t) <= MAX_CHUNK_BYTES)
      && ByteLength(t) <= |parts| * MAX_CHUNK_BYTES
      && (|parts| - 1) * (MAX_CHUNK_BYTES - 3) <= ByteLength(t)
      && (ByteLength(t) <= MAX_MESSAGE_BYTES ==> |parts| <= 33)
  {
    var parts := Split(t, MAX_CHUNK_BYTES);
    if t == [] {
      assert parts[1..] == [];
    } else {
      FourBytesFit(t, MAX_CHUNK_BYTES);
      SplitRestSound([], t, MAX_CHUNK_BYTES);
      SplitRestFits([], t, MAX_CHUNK_BYTES);
      SplitRestCount([], t, MAX_CHUNK_BYTES);
      assert [] + t == t;
    }
    TotalBytesBound(parts, MAX_CHUNK_BYTES);
  }

  /** The state of the splitting loop: `chunks` are cut off, `text[start..offset]` is being filled. */
  ghost predicate Splitting(text: Text, max: int, chunks: seq<Text>, start: nat, offset: nat, bytes: int)
    requires start <= offset <= |text|
  {
    var cur, rest := text[start..offset], text[offset..];
    && (offset > 0 ==> offset > start)
    && bytes == ByteLength(cur)
    && !SplitsPair(cur, rest)
    && Fits(text, max) == Fits(rest, max)
    && SplitRest([], text, max) == chunks + SplitRest(cur, rest, max)
  }

  lemma SplitStep(text: Text, max: int, chunks: seq<Text>, start: nat, offset: nat, bytes: int)
    requires start <= offset < |text| && Splitting(text, max, chunks, start, offset, bytes)
    ensures var w, size := Width(text[offset..]), HeadBytes(text[offset..]);
      && (size > max ==> !Fits(text, max))
      && if offset > start && bytes + size > max
         then size <= max ==> Splitting(text, max, chunks + [text[start..offset]], offset, offset + w, size)
         else size <= max ==> Splitting(text, max, chunks, start, offset + w, bytes + size)
  {
    hide ByteLength, HeadBytes;
    var cur, rest := text[start..offset], text[offset..];
    var w := Width(rest);
    MoveHead(cur, rest);
    assert rest[w..] == text[offset + w..];
    assert rest[..w] == text[offset..offset + w];
    assert cur + rest[..w] == text[start..offset + w];
    if offset > start && bytes + HeadBytes(rest) > max {
      var later := SplitRest(rest[..w], rest[w..], max);
      assert chunks + ([cur] + later) == (chunks + [cur]) + later;
    } else if start == offset {
      assert cur == [];
    }
  }

  lemma SplitDone(text: Text, max: int, chunks: seq<Text>, start: nat, bytes: int)
    requires start <= |text| && Splitting(text, max, chunks, start, |text|, bytes)
    ensures Fits(text, max)
    ensures Split(text, max) == if |text| > start || |text| == 0 then chunks + [text[start..|text|]] else chunks
  {
    var cur := text[start..|text|];
    assert text[|text|..] == [];
    assert SplitRest(cur, [], max) == if cur == [] then [] else [cur];
    if text == [] {
      assert cur == [] && chunks == [];
    }
  }

  /** The loop over the code points of `text`. It fails exactly when some code point is larger
      than a chunk. */
  method SplitUtf8(text: Text, maxBytes: int) returns (r: Option<seq<Text>>)
    ensures r == if maxBytes <= 0 || !Fits(text, maxBytes) then None else Some(Split(text, maxBytes))
  {
    if maxBytes <= 0 {
      return None;
    }
    var chunks: seq<Text> := [];
    var chunkStart, offset, chunkBytes := 0, 0, 0;
    assert Splitting(text, maxBytes, chunks, 0, 0, 0) by {
      assert text[0..] == text && text[0..0] == [];
    }
    hide Splitting, Fits, Split, HeadBytes;
    while offset < |text|
      invariant 0 <= chunkStart <= offset <= |text|
      invariant Splitting(text, maxBytes, chunks, chunkStart, offset, chunkBytes)
    {
      var w, charBytes := Width(text[offset..]), HeadBytes(text[offset..]);
      SplitStep(text, maxBytes, chunks, chunkStart, offset, chunkBytes);
      if offset > chunkStart && chunkBytes + charBytes > maxBytes {
        chunks := chunks + [text[chunkStart..offset]];
        chunkStart := offset;
        chunkBytes := 0;
      }
      if charBytes > maxBytes {
        return None;
      }
      offset := offset + w;
      chunkBytes := chunkBytes + charBytes;
    }
    SplitDone(text, maxBytes, chunks, chunkStart, chunkBytes);
    if offset > chunkStart || |text| == 0 {
      chunks := chunks + [text[chunkStart..offset]];
    }
    return Some(chunks);
  }

  // ---- Frames ----

  predicate SafePositive(n: int) {
    0 < n <= MAX_SAFE_INTEGER
  }

  function FrameAt(header: Header, streamId: Text, seqNo: int, baseSeq: int, chunks: seq<Text>,
                   totalBytes: int, i: nat): Envelope
    requires i < |chunks|
  {
    Envelope(header, Wrapper(VERSION, streamId, seqNo,
                             if baseSeq > 1 then Some(baseSeq) else None,
                             if |chunks| > 1 then Some(Segment(i, |chunks|, totalBytes)) else None,
                             chunks[i]))
  }

  /** The frames of one message, or None where the encoder throws. `json` is the printed payload. */
  function Encode(header: Header, streamId: Text, json: Text, seqNo: int, baseSeq: int): Option<seq<Envelope>> {
    if streamId == [] || !SafePositive(seqNo) || !SafePositive(baseSeq) || baseSeq > seqNo then None
    else if ByteLength(json) > MAX_MESSAGE_BYTES then None
    else
      var chunks := Split(json, MAX_CHUNK_BYTES);
      if |chunks| > MAX_SEGMENTS then None
      else Some(seq(|chunks|, i requires 0 <= i < |chunks| =>
        FrameAt(header, streamId, seqNo, baseSeq, chunks, ByteLength(json), i)))
  }

  predicate SegmentAccepted(s: Segment) {
    && 0 <= s.index < s.total && 2 <= s.total <= MAX_SEGMENTS
    && MAX_CHUNK_BYTES < s.totalBytes <= MAX_MESSAGE_BYTES
    && s.totalBytes <= s.total * MAX_CHUNK_BYTES
  }

  /** The checks an incoming wrapper must pass. */
  function Parse(w: Wrapper): Option<Parsed> {
    var base := match w.baseSeq case None => 1 case Some(b) => b;
    if w.version != VERSION || !(1 <= |w.streamId| <= MAX_STREAM_ID)
       || !SafePositive(w.seqNo) || !SafePositive(base) || base > w.seqNo then None
    else if w.segment.Some? && !SegmentAccepted(w.segment.value) then None
    else Some(Parsed(w.streamId, w.seqNo, base, w.segment, w.data))
  }

  /** Exactly these wrappers are accepted, and read for what they say; a missing baseline is 1. */
  lemma ParseIff(w: Wrapper)
    ensures Parse(w).Some? <==>
      && w.version == 1 && 1 <= |w.streamId| <= 128
      && 1 <= w.seqNo <= 0x1F_FFFF_FFFF_FFFF
      && (w.baseSeq.Some? ==> 1 <= w.baseSeq.value <= w.seqNo)
      && (w.segment.Some? ==>
            var s := w.segment.value;
            && 0 <= s.index < s.total && 2 <= s.total <= 64
            && 128 * 1024 < s.totalBytes <= 4 * 1024 * 1024 && s.totalBytes <= s.total * 128 * 1024)
    ensures Parse(w).Some? ==>
      && Parse(w).value == Parsed(w.streamId, w.seqNo, Parse(w).value.baseSeq, w.segment, w.data)
      && Parse(w).value.baseSeq == if w.baseSeq.Some? then w.baseSeq.value else 1
  {
  }

  function PartsOf(frames: seq<Envelope>): seq<Text> {
    seq(|frames|, i requires 0 <= i < |frames| => frames[i].body.data)
  }

  /** Encoding succeeds exactly on valid numbers, a non-empty stream id and at most 4 MiB; the
      chunks are then the JSON again; and the receiving parser accepts every frame, reading
      back what was put in, exactly when the stream id is short enough. */
  lemma EncodeRoundTrip(header: Header, streamId: Text, json: Text, seqNo: int, baseSeq: int)
    ensures var r := Encode(header, streamId, json, seqNo, baseSeq);
      (r.Some? <==> streamId != [] && 1 <= baseSeq <= seqNo <= MAX_SAFE_INTEGER
                    && ByteLength(json) <= MAX_MESSAGE_BYTES)
      && (r.Some? ==>
            && 1 <= |r.value| <= 33
            && Join(PartsOf(r.value)) == json
            && (|r.value| == 1 <==> ByteLength(json) <= MAX_CHUNK_BYTES)
            && forall i :: 0 <= i < |r.value| ==>
                 var w := r.value[i].body;
                 && r.value[i].header == header
                 && ByteLength(w.data) <= MAX_CHUNK_BYTES
                 && Parse(w) == (if |streamId| > MAX_STREAM_ID then None else
                      Some(Parsed(streamId, seqNo, baseSeq,
                                  if |r.value| > 1 then Some(Segment(i, |r.value|, ByteLength(json))) else None,
                                  PartsOf(r.value)[i]))))
  {
    SplitMessage(json);
    var r := Encode(header, streamId, json, seqNo, baseSeq);
    if r.Some? {
      assert PartsOf(r.value) == Split(json, MAX_CHUNK_BYTES);
    }
  }
}
