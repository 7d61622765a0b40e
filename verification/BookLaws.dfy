/** Everything a receive stream does keeps it in agreement with the history: what it holds under a
    number is the message queued there, whole or in part, and whatever it has moved past was handled
    or given up. Frames may arrive in any order and any number of times, and handlers may fail and be
    tried again. */
module BookLaws {
  import opened Text
  import opened Sums
  import opened Transport
  import opened Receiver
  import opened ReceiverLaws
  import opened Book

  /** `t` holds nothing `s` did not hold and stands where `s` stands. */
  predicate Fewer(s: Stream, t: Stream) {
    && t.last == s.last && t.base == s.base && t.drain == s.drain
    && (forall k <- t.ready :: k in s.ready && t.ready[k] == s.ready[k])
    && (forall k <- t.assemblies :: k in s.assemblies && t.assemblies[k] == s.assemblies[k])
  }

  lemma FewerHeld(c: Codec, b: Book, s: Stream, t: Stream)
    requires Fewer(s, t) && Held(c, b, s)
    ensures Held(c, b, t)
  {
    hide AssemblyOk, Genuine;
  }

  lemma RemoveFewer(s: Stream, k: nat)
    ensures Fewer(s, Remove(s, k))
  {
  }

  lemma {:induction false} EvictFewer(s: Stream, k: nat, bytes: nat)
    ensures Fewer(s, Evict(s, k, bytes).0)
    decreases Slots(s)
  {
    if !HasRoom(s, k, bytes) && Future(s, k) != {} {
      MaxExists(Future(s, k));
      var top :| IsMax(Future(s, k), top) && Evict(s, k, bytes) == Evict(Remove(s, top), k, bytes);
      RemoveShrinks(s, top);
      RemoveFewer(s, top);
      EvictFewer(Remove(s, top), k, bytes);
    }
  }

  lemma CapacityFewer(s: Stream, k: nat, bytes: nat)
    ensures Fewer(s, EnsureCapacity(s, k, bytes).0)
  {
    hide Evict;
    EvictFewer(s, k, bytes);
  }

  lemma ApplyBaseOk(c: Codec, b: Book, s: Stream)
    requires HeadFirst(s) && Held(c, b, s) && SettledBelow(b, s.last + 1) && SettledBelow(b, s.base)
    ensures StreamOk(c, b, ApplyBase(s))
  {
    ApplyBaseOrdered(s);
    hide AssemblyOk, Genuine, Sum, Below, ReadySizes, AssemblySizes;
  }

  // ---- Arrivals ----

  lemma PutReadyHeld(c: Codec, b: Book, s: Stream, k: nat, r: Ready, buffered: int)
    requires Held(c, b, s) && Genuine(c, b, k, r.header, r.json)
    ensures Held(c, b, Schedule(s.(ready := s.ready[k := r], buffered := buffered)))
  {
    hide AssemblyOk, Genuine;
  }

  lemma StoreSingleHeld(c: Codec, b: Book, s: Stream, k: nat, header: Header, data: Text)
    requires Held(c, b, s) && Genuine(c, b, k, header, data)
    ensures Held(c, b, StoreSingle(s, c.j, k, header, data).stream)
  {
    hide EnsureCapacity, Remove, Held, Genuine, ByteLength, Schedule;
    var bytes := ByteLength(data);
    var cleared := if c.j.Skip(data) then Remove(s, k) else s;
    RemoveFewer(s, k);
    assert Held(c, b, cleared) by { if c.j.Skip(data) { FewerHeld(c, b, s, cleared); } }
    var roomy := EnsureCapacity(cleared, k, bytes).0;
    CapacityFewer(cleared, k, bytes);
    FewerHeld(c, b, cleared, roomy);
    PutReadyHeld(c, b, roomy, k, Ready(header, data), roomy.buffered + bytes);
  }

  /** A complete assembly spells out the very message that was queued. */
  lemma CompleteAssembly(b: Book, k: nat, a: Assembly)
    requires AssemblyOk(b, k, a) && |a.chunks| == a.total
    ensures Join(Pieces(a.chunks, a.total)) == b.queued[k].json
  {
    var parts := Split(b.queued[k].json, MAX_CHUNK_BYTES);
    FullInterval(a.chunks.Keys, a.total);
    assert Pieces(a.chunks, a.total) == parts;
    SplitMessage(b.queued[k].json);
    hide Split, ByteLength;
  }

  lemma FileHeld(c: Codec, b: Book, s: Stream, k: nat, header: Header, a: Assembly)
    requires Held(c, b, s) && AssemblyOk(b, k, a) && header == a.header && 0 <= a.total
    ensures Held(c, b, File(s, c.j, k, header, a).stream)
  {
    hide ByteLength, Join, Pieces, Split, Held;
    if |a.chunks| == a.total {
      CompleteAssembly(b, k, a);
      var json := Join(Pieces(a.chunks, a.total));
      PutReadyHeld(c, b, s, k, Ready(header, json), s.buffered);
      SameHeld(c, b, s, s.buffered - a.bytes);
    } else {
      PutAssemblyHeld(c, b, s, k, a);
    }
  }

  lemma SameHeld(c: Codec, b: Book, s: Stream, buffered: int)
    requires Held(c, b, s)
    ensures Held(c, b, s.(buffered := buffered))
  {
    hide AssemblyOk, Genuine;
  }

  lemma PutAssemblyHeld(c: Codec, b: Book, s: Stream, k: nat, a: Assembly)
    requires Held(c, b, s) && AssemblyOk(b, k, a)
    ensures Held(c, b, Schedule(s.(assemblies := s.assemblies[k := a])))
  {
    hide AssemblyOk, Genuine;
  }

  lemma MoreOk(b: Book, k: nat, a: Assembly, index: nat, data: Text, bytes: nat)
    requires AssemblyOk(b, k, a)
    requires var parts := Split(b.queued[k].json, MAX_CHUNK_BYTES); index < |parts| && data == parts[index]
    ensures AssemblyOk(b, k, a.(chunks := a.chunks[index := data], bytes := a.bytes + bytes))
  {
    hide Split, ByteLength;
  }

  lemma AddChunkHeld(c: Codec, b: Book, s: Stream, k: nat, header: Header, a: Assembly, index: nat, data: Text)
    requires Held(c, b, s) && AssemblyOk(b, k, a) && header == a.header && 0 <= a.total
    requires var parts := Split(b.queued[k].json, MAX_CHUNK_BYTES); index < |parts| && data == parts[index]
    ensures Held(c, b, AddChunk(s, c.j, k, header, a, index, data).stream)
  {
    hide EnsureCapacity, Remove, Held, ByteLength, File, AssemblyOk, Split;
    var bytes := ByteLength(data);
    var more := a.(chunks := a.chunks[index := data], bytes := a.bytes + bytes);
    MoreOk(b, k, a, index, data, bytes);
    RemoveFewer(s, k);
    FewerHeld(c, b, s, Remove(s, k));
    var roomy := EnsureCapacity(s, k, bytes).0;
    CapacityFewer(s, k, bytes);
    FewerHeld(c, b, s, roomy);
    RemoveFewer(roomy, k);
    FewerHeld(c, b, roomy, Remove(roomy, k));
    WithoutHeld(c, b, roomy, k, roomy.buffered + bytes);
    FileHeld(c, b, roomy.(buffered := roomy.buffered + bytes, assemblies := roomy.assemblies - {k}), k, header, more);
  }

  lemma WithoutHeld(c: Codec, b: Book, s: Stream, k: nat, buffered: int)
    requires Held(c, b, s)
    ensures Held(c, b, s.(buffered := buffered, assemblies := s.assemblies - {k}))
  {
    hide AssemblyOk, Genuine;
  }

  lemma StoreSegmentHeld(c: Codec, b: Book, s: Stream, k: nat, header: Header, seg: Segment, data: Text)
    requires Held(c, b, s) && SegmentAccepted(seg) && k in b.queued && header == b.queued[k].header
    requires var parts := Split(b.queued[k].json, MAX_CHUNK_BYTES);
      && seg.total == |parts| && seg.totalBytes == ByteLength(b.queued[k].json)
      && 0 <= seg.index < |parts| && data == parts[seg.index]
    ensures Held(c, b, StoreSegment(s, c.j, k, header, seg, data).stream)
  {
    var a := AssemblyOf(s, k, header, seg);
    assert AssemblyOk(b, k, a);
    assert 0 <= a.total && a.header == header;
    hide Held, ByteLength, File, AssemblyOk, Split, AddChunk;
    WithoutHeld(c, b, s, k, s.buffered);
    WithoutHeld(c, b, s, k, s.buffered - a.bytes);
    FileHeld(c, b, s.(assemblies := s.assemblies - {k}), k, header, a);
    AddChunkHeld(c, b, s, k, header, a, seg.index, data);
  }

  /** Any frame the relay may hand over, in any order and any number of times, is taken in
      without leaving the history. */
  lemma IngestOk(c: Codec, b: Book, s: Stream, remoteBase: nat, f: Envelope)
    requires GoodCodec(c) && Numbered(b) && SkipsDiscarded(c, b)
    requires StreamOk(c, b, s) && FrameOk(c, b, f) && SettledBelow(b, remoteBase)
    ensures Parse(f.body).Some?
      && (Parse(f.body).value.segment.Some? ==> SegmentAccepted(Parse(f.body).value.segment.value))
    ensures StreamOk(c, b, Ingest(s, c.j, remoteBase, f.header, Parse(f.body).value).stream)
  {
    hide FrameFrom, Parse, ByteLength, Split, StoreSingle, StoreSegment, ApplyBase, Held;
    var k: nat, base: nat, json :|
      && Genuine(c, b, k, f.header, json) && FrameFrom(c, f.header, json, k, base, f)
      && SettledBelow(b, base) && base <= k < base + SEQUENCE_WINDOW;
    ReadBack(c, f.header, json, k, base, f);
    var p := Parse(f.body).value;
    var raised := s.(base := Max(s.base, Max(remoteBase, p.baseSeq)));
    RaisedHeld(c, b, s, raised.base);
    ApplyBaseOk(c, b, raised);
    ApplyBaseOrdered(raised);
    var t := AdvanceBase(s, Max(remoteBase, p.baseSeq));
    assert t == ApplyBase(raised);
    IngestOrdered(s, c.j, remoteBase, f.header, p);
    ScheduleOk(c, b, t);
    hide Settled;
    match p.segment
    case None =>
      StoreSingleHeld(c, b, t, k, f.header, p.data);
      StoreSingleSamePlace(t, c.j, k, f.header, p.data);
    case Some(seg) =>
      assert json == b.queued[k].json by { SkipIsWhole(c, json); }
      StoreSegmentHeld(c, b, t, k, f.header, seg, p.data);
      StoreSegmentSamePlace(t, c.j, k, f.header, seg, p.data);
  }

  lemma SkipIsWhole(c: Codec, json: Text)
    requires GoodCodec(c) && ByteLength(json) > MAX_CHUNK_BYTES
    ensures json != c.skipJson
  {
  }

  lemma RaisedHeld(c: Codec, b: Book, s: Stream, base: nat)
    requires Held(c, b, s)
    ensures Held(c, b, s.(base := base))
  {
    hide AssemblyOk, Genuine;
  }

  lemma ScheduleOk(c: Codec, b: Book, s: Stream)
    requires StreamOk(c, b, s)
    ensures StreamOk(c, b, Schedule(s))
  {
    hide AssemblyOk, Genuine;
  }

  // ---- Delivery ----

  /** Number `n` is settled and the head moves past it. */
  lemma DeliveredOk(c: Codec, b: Book, s: Stream, n: nat, bytes: nat)
    requires Numbered(b) && s.drain == Live && StreamOk(c, b, s)
    requires n == s.last + 1 && n in b.queued && Settled(b, n)
    ensures StreamOk(c, b, Delivered(s, n, bytes))
  {
    hide ApplyBase, Held;
    var t := s.(ready := s.ready - {n}, buffered := s.buffered - bytes, last := n);
    assert Held(c, b, t) by { TakenHeld(c, b, s, n, bytes); }
    ApplyBaseOk(c, b, t);
  }

  lemma TakenHeld(c: Codec, b: Book, s: Stream, n: nat, bytes: nat)
    requires Held(c, b, s)
    ensures Held(c, b, s.(ready := s.ready - {n}, buffered := s.buffered - bytes, last := n))
  {
    hide AssemblyOk, Genuine;
  }

  lemma WithDrainOk(c: Codec, b: Book, s: Stream, d: Drain, requested: bool)
    requires StreamOk(c, b, s)
    requires d.Awaiting? ==> d.seqNo == s.last + 1 && d.seqNo in s.ready && s.ready[d.seqNo] == d.entry
                             && !c.j.Skip(d.entry.json)
    requires d.Awaiting? || !s.drain.Awaiting?
    ensures StreamOk(c, b, s.(drain := d, drainRequested := requested))
  {
    hide AssemblyOk, Genuine;
  }

  lemma BeginRoundOk(c: Codec, b: Book, s: Stream)
    requires s.drain == Live && StreamOk(c, b, s)
    ensures StreamOk(c, b, BeginRound(s)) && BeginRound(s).drain == Live
  {
    hide ApplyBase, Held;
    var t := s.(drainRequested := false);
    WithDrainOk(c, b, s, Live, false);
    ApplyBaseOk(c, b, t);
    ApplyBaseOrdered(t);
  }

  /** The drain passes over settled numbers only: skips, and what the baseline gave up. */
  lemma {:induction false} RunFromOk(c: Codec, b: Book, s: Stream, active: bool)
    requires Numbered(b) && SkipsDiscarded(c, b) && s.drain == Live && StreamOk(c, b, s)
    ensures StreamOk(c, b, RunFrom(s, c.j, active).stream)
    decreases if s.drainRequested then 1 else 0, |s.ready|
  {
    hide ApplyBase, Held, ByteLength, SettledBelow;
    var n := s.last + 1;
    if n !in s.ready || !active || !c.j.valid(s.ready[n].json) {
      if s.drainRequested {
        BeginRoundOk(c, b, s);
        RunFromOk(c, b, BeginRound(s), active);
      } else {
        WithDrainOk(c, b, s, Idle, false);
      }
    } else if c.j.Skip(s.ready[n].json) {
      var bytes := ByteLength(s.ready[n].json);
      assert n in b.queued && n in b.discarded by { HeldSkip(c, b, s, n); }
      DeliveredOk(c, b, s, n, bytes);
      DeliveredShrinks(s, n, bytes);
      ApplyBaseOrdered(s.(ready := s.ready - {n}, buffered := s.buffered - bytes, last := n));
      RunFromOk(c, b, Delivered(s, n, bytes), active);
    } else {
      WithDrainOk(c, b, s, Awaiting(n, s.ready[n]), s.drainRequested);
    }
  }

  lemma HeldSkip(c: Codec, b: Book, s: Stream, n: nat)
    requires SkipsDiscarded(c, b) && Held(c, b, s) && n in s.ready && c.j.Skip(s.ready[n].json)
    ensures n in b.queued && n in b.discarded
  {
    assert Genuine(c, b, n, s.ready[n].header, s.ready[n].json);
  }

  lemma StartDrainOk(c: Codec, b: Book, s: Stream, active: bool)
    requires Numbered(b) && SkipsDiscarded(c, b) && s.drain == Live && StreamOk(c, b, s)
    ensures StreamOk(c, b, StartDrain(s, c.j, active).stream)
  {
    hide RunFrom, ApplyBase;
    BeginRoundOk(c, b, s);
    RunFromOk(c, b, BeginRound(s), active);
  }

  /** A settled handler: the history already records a success. */
  lemma SettleOk(c: Codec, b: Book, s: Stream, handled: bool, active: bool)
    requires Numbered(b) && SkipsDiscarded(c, b) && s.drain.Awaiting? && StreamOk(c, b, s)
    requires handled ==> s.drain.seqNo in b.handled
    ensures StreamOk(c, b, Settle(s, c.j, handled, active).stream)
  {
    hide RunFrom, ApplyBase, ByteLength, SettledBelow;
    var n, bytes := s.drain.seqNo, ByteLength(s.drain.entry.json);
    var t := s.(drain := Live);
    assert n in b.queued && Held(c, b, t) by { hide AssemblyOk; }
    hide Held;
    if handled {
      TakenHeld(c, b, t, n, bytes);
      var d := t.(ready := t.ready - {n}, buffered := t.buffered - bytes, last := n);
      assert SettledBelow(b, n + 1) by { OneMoreSettled(b, n); }
      ApplyBaseOk(c, b, d);
      ApplyBaseOrdered(d);
      RunFromOk(c, b, Delivered(t, n, bytes), active);
    } else {
      ApplyBaseOk(c, b, t);
      ApplyBaseOrdered(t);
      var u := ApplyBase(t);
      RunFromOk(c, b, u, active);
      if u.last < n && u.drainRequested {
        BeginRoundOk(c, b, u);
        RunFromOk(c, b, BeginRound(u), active);
      }
      WithDrainOk(c, b, u, Idle, u.drainRequested);
    }
  }

  lemma OneMoreSettled(b: Book, n: nat)
    requires Numbered(b) && SettledBelow(b, n) && n in b.queued && Settled(b, n)
    ensures SettledBelow(b, n + 1)
  {
  }
}
