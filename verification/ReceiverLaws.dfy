/** What every run of one receive stream keeps: delivery order, the bounds of its buffers, and their
    byte account; and room for the number the stream waits for. */
module ReceiverLaws {
  import opened Text
  import opened Sums
  import opened Transport
  import opened Receiver

  // ---- Order: holds whatever arrives ----

  /** A handler in flight is always the one for the next number. */
  predicate HeadFirst(s: Stream) {
    s.drain.Awaiting? ==> s.drain.seqNo == s.last + 1
  }

  /** Unless a handler is in flight, the requested baseline has been reached. */
  predicate CaughtUp(s: Stream) {
    s.drain.Awaiting? || s.base <= s.last + 1
  }

  predicate Ordered(s: Stream) {
    HeadFirst(s) && CaughtUp(s)
  }

  /** `t` may follow `s`: nothing already delivered or skipped is taken back. */
  predicate Advances(s: Stream, t: Stream) {
    s.last <= t.last && s.base <= t.base
  }

  lemma ApplyBaseOrdered(s: Stream)
    requires HeadFirst(s)
    ensures var t := ApplyBase(s);
      && Ordered(t) && Advances(s, t) && t.drain == s.drain
      && (s.drain.Awaiting? ==> t == s)
      && t.drainRequested == s.drainRequested
  {
  }

  /** `t` holds different entries, but stands at the same place; a drain may have been asked for. */
  predicate SamePlace(s: Stream, t: Stream) {
    && s.last == t.last && s.base == t.base
    && (t.drain == s.drain || (s.drain == Idle && t.drain == Live))
  }

  lemma {:induction false} EvictSamePlace(s: Stream, k: nat, bytes: nat)
    ensures SamePlace(s, Evict(s, k, bytes).0)
    decreases Slots(s)
  {
    if !HasRoom(s, k, bytes) && Future(s, k) != {} {
      MaxExists(Future(s, k));
      var top :| IsMax(Future(s, k), top) && Evict(s, k, bytes) == Evict(Remove(s, top), k, bytes);
      RemoveShrinks(s, top);
      EvictSamePlace(Remove(s, top), k, bytes);
    }
  }

  lemma CapacitySamePlace(s: Stream, k: nat, bytes: nat)
    ensures SamePlace(s, EnsureCapacity(s, k, bytes).0)
  {
    EvictSamePlace(s, k, bytes);
    hide Evict, HasRoom;
  }

  lemma StoreSingleSamePlace(s: Stream, j: Json, k: nat, header: Header, data: Text)
    ensures var r := StoreSingle(s, j, k, header, data);
      SamePlace(s, r.stream) && forall a <- r.acks :: a == s.last
  {
    hide EnsureCapacity, ByteLength;
    CapacitySamePlace(s, k, ByteLength(data));
    CapacitySamePlace(Remove(s, k), k, ByteLength(data));
  }

  lemma AssembledSamePlace(s: Stream, j: Json, k: nat, header: Header, a: Assembly)
    requires 0 <= a.total
    ensures var r := Assembled(s, j, k, header, a);
      SamePlace(s, r.stream) && forall x <- r.acks :: x == s.last
  {
    hide ByteLength, Join, Pieces;
  }

  lemma AddChunkSamePlace(s: Stream, j: Json, k: nat, header: Header, a: Assembly, index: nat, data: Text)
    requires 0 <= a.total
    ensures var r := AddChunk(s, j, k, header, a, index, data);
      SamePlace(s, r.stream) && forall x <- r.acks :: x == s.last
  {
    hide EnsureCapacity, Assembled, ByteLength, Evict;
    var bytes := ByteLength(data);
    CapacitySamePlace(s, k, bytes);
    var roomy := EnsureCapacity(s, k, bytes).0;
    AssembledSamePlace(roomy.(buffered := roomy.buffered + bytes), j, k, header,
                       a.(chunks := a.chunks[index := data], bytes := a.bytes + bytes));
  }

  lemma StoreSegmentSamePlace(s: Stream, j: Json, k: nat, header: Header, seg: Segment, data: Text)
    requires SegmentAccepted(seg)
    ensures var r := StoreSegment(s, j, k, header, seg, data);
      SamePlace(s, r.stream) && forall a <- r.acks :: a == s.last
  {
    var a := AssemblyOf(s, k, header, seg);
    if a.total == seg.total {
      AssembledSamePlace(s, j, k, header, a);
      AddChunkSamePlace(s, j, k, header, a, seg.index, data);
    }
    hide AddChunk, Assembled;
  }

  /** An arrival never disturbs a handler in flight, never delivers by itself and never moves back. */
  lemma IngestOrdered(s: Stream, j: Json, remoteBase: nat, header: Header, p: Parsed)
    requires p.segment.Some? ==> SegmentAccepted(p.segment.value)
    requires Ordered(s)
    ensures var r := Ingest(s, j, remoteBase, header, p);
      && Ordered(r.stream) && Advances(s, r.stream)
      && (s.drain.Awaiting? ==> r.stream.drain == s.drain && r.stream.last == s.last)
      && r.stream.drain.Awaiting? == s.drain.Awaiting?
      && (forall a <- r.acks :: a == r.stream.last)
  {
    var t := AdvanceBase(s, Max(remoteBase, p.baseSeq));
    ApplyBaseOrdered(s.(base := Max(s.base, Max(remoteBase, p.baseSeq))));
    hide AdvanceBase, StoreSingle, StoreSegment;
    match p.segment
    case None => StoreSingleSamePlace(t, j, p.seqNo, header, p.data);
    case Some(seg) => StoreSegmentSamePlace(t, j, p.seqNo, header, seg, p.data);
  }

  /** The drain loop hands out numbers one after another. */
  lemma {:induction false} RunFromOrdered(s: Stream, j: Json, active: bool)
    requires s.drain == Live && Ordered(s)
    ensures var r := RunFrom(s, j, active);
      && Ordered(r.stream) && Advances(s, r.stream) && r.stream.drain != Live
      && (forall a <- r.acks :: a == r.stream.last)
      && (r.stream.drain.Awaiting? ==> j.valid(r.stream.drain.entry.json) && !j.Skip(r.stream.drain.entry.json))
    decreases if s.drainRequested then 1 else 0, |s.ready|
  {
    var n := s.last + 1;
    if n !in s.ready || !active || !j.valid(s.ready[n].json) {
      if s.drainRequested {
        ApplyBaseOrdered(s.(drainRequested := false));
        RunFromOrdered(BeginRound(s), j, active);
      }
    } else if j.Skip(s.ready[n].json) {
      var bytes := ByteLength(s.ready[n].json);
      ApplyBaseOrdered(s.(ready := s.ready - {n}, buffered := s.buffered - bytes, last := n));
      DeliveredShrinks(s, n, bytes);
      RunFromOrdered(Delivered(s, n, bytes), j, active);
    }
  }

  /** A successful handler is always the one right after everything delivered before, and
      nothing at or below its number can be handled again: delivered numbers only grow. */
  lemma SettleOrdered(s: Stream, j: Json, handled: bool, active: bool)
    requires s.drain.Awaiting? && Ordered(s)
    ensures var r := Settle(s, j, handled, active);
      && Ordered(r.stream) && Advances(s, r.stream) && r.stream.drain != Live
      && (handled ==> r.stream.last >= s.drain.seqNo == s.last + 1)
      && (forall a <- r.acks :: a == r.stream.last)
      && (r.stream.drain.Awaiting? ==> j.valid(r.stream.drain.entry.json) && !j.Skip(r.stream.drain.entry.json))
  {
    var n, bytes := s.drain.seqNo, ByteLength(s.drain.entry.json);
    var t := s.(drain := Live);
    if handled {
      ApplyBaseOrdered(t.(ready := t.ready - {n}, buffered := t.buffered - bytes, last := n));
      RunFromOrdered(Delivered(t, n, bytes), j, active);
    } else {
      var u := ApplyBase(t);
      ApplyBaseOrdered(t);
      if u.last >= n {
        RunFromOrdered(u, j, active);
      } else if u.drainRequested {
        ApplyBaseOrdered(u.(drainRequested := false));
        RunFromOrdered(BeginRound(u), j, active);
      }
    }
  }

  // ---- Buffers ----

  ghost predicate GoodAssembly(a: Assembly) {
    && 2 <= a.total <= MAX_SEGMENTS && a.totalBytes <= MAX_MESSAGE_BYTES
    && (forall i <- a.chunks :: i < a.total)
    && |a.chunks| < a.total
    && a.bytes == Sum(ChunkSizes(a.chunks)) <= a.totalBytes
  }

  predicate InWindow(last: nat, k: nat) {
    last < k <= last + SEQUENCE_WINDOW
  }

  predicate ReadyShaped(last: nat, ready: map<nat, Ready>, j: Json) {
    forall k <- ready :: InWindow(last, k) && j.valid(ready[k].json)
  }

  ghost predicate AssembliesShaped(last: nat, assemblies: map<nat, Assembly>) {
    forall k <- assemblies :: InWindow(last, k) && GoodAssembly(assemblies[k])
  }

  /** Held entries lie in the window, at most sixteen of them, no number held twice. */
  ghost predicate Shaped(s: Stream, j: Json) {
    && ReadyShaped(s.last, s.ready, j)
    && AssembliesShaped(s.last, s.assemblies)
    && s.ready.Keys !! s.assemblies.Keys
    && Slots(s) <= MAX_REASSEMBLIES
  }

  /** What has become of the entry in delivery: it is still held, a skip is held in its place, or a skip
      that found no room has left nothing certain in its place. */
  datatype Head = Kept | Replaced | Dropped

  /** How far the byte counter is off, and the entry in delivery. */
  datatype Slack = Slack(drift: int, head: Head)

  const EXACT := Slack(0, Kept)

  predicate HeadKept(s: Stream, e: Slack) {
    s.drain.Awaiting? ==>
      var n := s.drain.seqNo;
      n !in s.assemblies && (!e.head.Dropped? ==> n in s.ready) && (e.head.Kept? ==> s.ready[n] == s.drain.entry)
  }

  /** `k` is not the number whose handler is in flight. */
  predicate Away(s: Stream, k: nat) {
    s.drain.Awaiting? ==> s.drain.seqNo != k
  }

  /** The byte counter is the bytes held, but for the drift, and within the limit. */
  ghost predicate Accounted(s: Stream, e: Slack) {
    s.buffered == Stored(s) + e.drift && s.buffered <= MAX_REASSEMBLY_BYTES
  }

  ghost predicate Buffers(s: Stream, j: Json, e: Slack) {
    Shaped(s, j) && HeadKept(s, e) && Accounted(s, e)
  }

  lemma RemoveAssemblySize(m: map<nat, Assembly>, k: nat)
    ensures Sum(AssemblySizes(m)) == Sum(AssemblySizes(m - {k})) + (if k in m then m[k].bytes else 0)
    ensures |m - {k}| <= |m|
  {
    SubmapSize(m - {k}, m);
    if k in m {
      SumRemove(AssemblySizes(m), k);
      assert AssemblySizes(m) - {k} == AssemblySizes(m - {k});
    } else {
      assert m - {k} == m;
    }
  }

  lemma RemoveReadySize(m: map<nat, Ready>, k: nat)
    ensures Sum(ReadySizes(m)) == Sum(ReadySizes(m - {k})) + (if k in m then ByteLength(m[k].json) else 0)
    ensures |m - {k}| <= |m|
  {
    SubmapSize(m - {k}, m);
    if k in m {
      SumRemove(ReadySizes(m), k);
      assert ReadySizes(m) - {k} == ReadySizes(m - {k});
    } else {
      assert m - {k} == m;
    }
  }

  lemma RemoveAccounting(s: Stream, k: nat)
    ensures Stored(s) - Stored(Remove(s, k)) == s.buffered - Remove(s, k).buffered
    ensures Stored(Remove(s, k)) <= Stored(s)
    ensures Slots(Remove(s, k)) <= Slots(s)
  {
    RemoveAssemblySize(s.assemblies, k);
    RemoveReadySize(s.ready, k);
  }

  lemma KeepAssemblySizes(m: map<nat, Assembly>, kept: map<nat, Assembly>, base: nat)
    requires kept == map k | k in m && k >= base :: m[k]
    ensures Sum(AssemblySizes(m)) == Sum(Below(AssemblySizes(m), base)) + Sum(AssemblySizes(kept))
    ensures |kept| <= |m|
  {
    SumSplit(AssemblySizes(m), base);
    assert NotBelow(AssemblySizes(m), base) == AssemblySizes(kept);
    SubmapSize(kept, m);
  }

  lemma KeepReadySizes(m: map<nat, Ready>, kept: map<nat, Ready>, base: nat)
    requires kept == map k | k in m && k >= base :: m[k]
    ensures Sum(ReadySizes(m)) == Sum(Below(ReadySizes(m), base)) + Sum(ReadySizes(kept))
    ensures |kept| <= |m|
  {
    SumSplit(ReadySizes(m), base);
    assert NotBelow(ReadySizes(m), base) == ReadySizes(kept);
    SubmapSize(kept, m);
  }

  lemma ApplyBaseShaped(s: Stream, j: Json, e: Slack)
    requires HeadFirst(s) && Shaped(s, j) && HeadKept(s, e)
    ensures Shaped(ApplyBase(s), j) && HeadKept(ApplyBase(s), e)
  {
    var t := ApplyBase(s);
    hide GoodAssembly, Sum, ByteLength;
    if t != s {
      SubmapSize(t.assemblies, s.assemblies);
      SubmapSize(t.ready, s.ready);
    }
  }

  lemma ApplyBaseAccounted(s: Stream)
    ensures var t := ApplyBase(s);
      s.buffered - t.buffered == Stored(s) - Stored(t) && Stored(t) <= Stored(s)
  {
    var t := ApplyBase(s);
    if t != s {
      KeepAssemblySizes(s.assemblies, t.assemblies, s.base);
      KeepReadySizes(s.ready, t.ready, s.base);
      hide AssemblySizes, ReadySizes, Below, Sum;
    }
  }

  lemma ApplyBaseBuffers(s: Stream, j: Json, e: Slack)
    requires HeadFirst(s) && Buffers(s, j, e)
    ensures Buffers(ApplyBase(s), j, e)
  {
    ApplyBaseShaped(s, j, e);
    ApplyBaseAccounted(s);
  }

  /** `t` is `s` with some entries above `k` dropped, the highest ones. */
  ghost predicate Trimmed(s: Stream, t: Stream, k: nat) {
    && t == s.(assemblies := t.assemblies, ready := t.ready, buffered := t.buffered)
    && t.assemblies.Keys <= s.assemblies.Keys && t.ready.Keys <= s.ready.Keys
    && (forall x <- t.assemblies :: t.assemblies[x] == s.assemblies[x])
    && (forall x <- t.ready :: t.ready[x] == s.ready[x])
    && (forall x <- s.assemblies.Keys + s.ready.Keys :: x !in t.assemblies && x !in t.ready ==>
          x > k && forall y <- t.assemblies.Keys + t.ready.Keys :: y < x || y <= k)
    && Slots(t) <= Slots(s)
    && s.buffered - t.buffered == Stored(s) - Stored(t)
    && Stored(t) <= Stored(s)
  }

  lemma TrimOne(s: Stream, top: nat, t: Stream, k: nat)
    requires s.ready.Keys !! s.assemblies.Keys
    requires IsMax(Future(s, k), top) && Trimmed(Remove(s, top), t, k)
    ensures Trimmed(s, t, k)
  {
    RemoveAccounting(s, top);
    var r := Remove(s, top);
    hide Stored, Slots, ByteLength;
    forall x | x in s.assemblies.Keys + s.ready.Keys && x !in t.assemblies && x !in t.ready
      ensures x > k && forall y <- t.assemblies.Keys + t.ready.Keys :: y < x || y <= k
    {
      forall y | y in t.assemblies.Keys + t.ready.Keys && y > k
        ensures x > k && y < x
      {
        assert y in r.assemblies.Keys + r.ready.Keys && y in Future(s, k);
      }
      assert x != top ==> x in r.assemblies.Keys + r.ready.Keys;
    }
  }

  lemma {:induction false} EvictTrims(s: Stream, k: nat, bytes: nat)
    requires s.ready.Keys !! s.assemblies.Keys
    ensures var (t, ok) := Evict(s, k, bytes);
      Trimmed(s, t, k) && (ok <==> HasRoom(t, k, bytes)) && (!ok ==> Future(t, k) == {})
    decreases Slots(s)
  {
    if !HasRoom(s, k, bytes) && Future(s, k) != {} {
      MaxExists(Future(s, k));
      var top :| IsMax(Future(s, k), top) && Evict(s, k, bytes) == Evict(Remove(s, top), k, bytes);
      RemoveShrinks(s, top);
      var (t, ok) := Evict(s, k, bytes);
      EvictTrims(Remove(s, top), k, bytes);
      TrimOne(s, top, t, k);
    }
  }

  lemma TrimmedNothing(s: Stream, k: nat)
    ensures Trimmed(s, s, k)
  {
    hide Stored, Slots;
  }

  lemma CapacityTrims(s: Stream, k: nat, bytes: nat)
    requires s.ready.Keys !! s.assemblies.Keys
    ensures var (t, ok) := EnsureCapacity(s, k, bytes);
      Trimmed(s, t, k) && (ok <==> HasRoom(t, k, bytes))
      && (!ok && k == s.last + 1 ==> Future(t, k) == {})
  {
    hide Evict, HasRoom, Trimmed;
    EvictTrims(s, k, bytes);
    TrimmedNothing(s, k);
  }

  /** Making room for a number not yet delivered keeps every bound and the head in flight. */
  lemma TrimmedBuffers(s: Stream, t: Stream, k: nat, j: Json, e: Slack)
    requires Buffers(s, j, e) && HeadFirst(s) && k > s.last && Trimmed(s, t, k)
    ensures Buffers(t, j, e)
  {
    hide GoodAssembly, Stored, Slots;
  }

  lemma RemoveBuffers(s: Stream, k: nat, j: Json, e: Slack)
    requires Buffers(s, j, e) && (Away(s, k) || k !in s.ready)
    ensures Buffers(Remove(s, k), j, e)
  {
    RemoveAccounting(s, k);
    hide GoodAssembly, Stored, Slots, ByteLength;
  }

  lemma AddReadySize(m: map<nat, Ready>, k: nat, r: Ready)
    requires k !in m
    ensures Sum(ReadySizes(m[k := r])) == Sum(ReadySizes(m)) + ByteLength(r.json)
    ensures |m[k := r]| == |m| + 1
  {
    RemoveReadySize(m[k := r], k);
    assert m[k := r] - {k} == m;
  }

  lemma OneMoreReady(last: nat, m: map<nat, Ready>, k: nat, r: Ready, j: Json)
    requires ReadyShaped(last, m, j) && InWindow(last, k) && j.valid(r.json)
    ensures ReadyShaped(last, m[k := r], j)
  {
  }

  lemma InsertShaped(s: Stream, k: nat, r: Ready, j: Json, buffered: int, e: Slack)
    requires Shaped(s, j) && HeadKept(s, e) && InWindow(s.last, k) && k !in s.ready && k !in s.assemblies
    requires j.valid(r.json) && Slots(s) < MAX_REASSEMBLIES
    ensures var t := s.(ready := s.ready[k := r], buffered := buffered);
      Shaped(t, j) && HeadKept(t, e)
  {
    hide AssembliesShaped, ReadyShaped, InWindow;
    var m := s.ready[k := r];
    assert |m| == |s.ready| + 1 by { AddReadySize(s.ready, k, r); }
    OneMoreReady(s.last, s.ready, k, r, j);
    assert m.Keys == s.ready.Keys + {k};
  }

  /** Putting a text under a number that holds nothing. */
  lemma InsertReady(s: Stream, k: nat, r: Ready, j: Json, e: Slack)
    requires Buffers(s, j, e) && InWindow(s.last, k) && k !in s.ready && k !in s.assemblies
    requires j.valid(r.json) && HasRoom(s, k, ByteLength(r.json))
    ensures Buffers(s.(ready := s.ready[k := r], buffered := s.buffered + ByteLength(r.json)), j, e)
  {
    hide Shaped, HeadKept, ReadySizes, AssemblySizes, ByteLength, Sum;
    AddReadySize(s.ready, k, r);
    InsertShaped(s, k, r, j, s.buffered + ByteLength(r.json), e);
  }

  lemma ScheduleBuffers(s: Stream, j: Json, e: Slack)
    requires Buffers(s, j, e)
    ensures Buffers(Schedule(s), j, e)
  {
    hide GoodAssembly, ReadySizes, AssemblySizes, Sum;
  }

  lemma StoreSingleBuffers(s: Stream, j: Json, k: nat, header: Header, data: Text, e: Slack)
    requires Buffers(s, j, e) && HeadFirst(s) && InWindow(s.last, k)
    requires k in s.ready ==> j.Skip(data)
    requires j.Skip(data) ==> Away(s, k)
    ensures Buffers(StoreSingle(s, j, k, header, data).stream, j, e)
  {
    hide EnsureCapacity, ByteLength, Buffers, HasRoom, Schedule;
    var bytes := ByteLength(data);
    if !(!j.Skip(data) && k in s.assemblies) {
      var cleared := if j.Skip(data) then Remove(s, k) else s;
      if j.Skip(data) {
        RemoveBuffers(s, k, j, e);
      }
      assert k !in cleared.ready && k !in cleared.assemblies;
      StoreCleared(cleared, j, k, header, data, e);
    }
  }

  lemma CapacityBuffers(s: Stream, k: nat, bytes: nat, j: Json, e: Slack)
    requires Buffers(s, j, e) && HeadFirst(s) && InWindow(s.last, k)
    ensures var (t, ok) := EnsureCapacity(s, k, bytes);
      && Buffers(t, j, e) && SamePlace(s, t)
      && (ok <==> HasRoom(t, k, bytes))
      && t.ready.Keys <= s.ready.Keys && t.assemblies.Keys <= s.assemblies.Keys
      && (k in s.assemblies ==> k in t.assemblies && t.assemblies[k] == s.assemblies[k])
  {
    CapacityTrims(s, k, bytes);
    TrimmedBuffers(s, EnsureCapacity(s, k, bytes).0, k, j, e);
    hide EnsureCapacity, HasRoom, Buffers;
  }

  lemma StoreCleared(s: Stream, j: Json, k: nat, header: Header, data: Text, e: Slack)
    requires Buffers(s, j, e) && HeadFirst(s) && InWindow(s.last, k) && k !in s.ready && k !in s.assemblies
    ensures var (roomy, ok) := EnsureCapacity(s, k, ByteLength(data));
      && Buffers(roomy, j, e)
      && (ok && j.valid(data) ==>
            Buffers(Schedule(roomy.(ready := roomy.ready[k := Ready(header, data)],
                                    buffered := roomy.buffered + ByteLength(data))), j, e))
  {
    hide EnsureCapacity, ByteLength, Buffers, HasRoom, Schedule, Trimmed;
    var bytes := ByteLength(data);
    var (roomy, ok) := EnsureCapacity(s, k, bytes);
    CapacityBuffers(s, k, bytes, j, e);
    if ok && j.valid(data) {
      InsertReady(roomy, k, Ready(header, data), j, e);
      ScheduleBuffers(roomy.(ready := roomy.ready[k := Ready(header, data)],
                             buffered := roomy.buffered + bytes), j, e);
    }
  }

  // ---- Segments ----

  /** The chunks laid out in order weigh what they weigh one by one. */
  lemma {:induction false} PiecesTotal(chunks: map<nat, Text>, total: nat)
    requires forall i <- chunks :: i < total
    ensures TotalBytes(Pieces(chunks, total)) == Sum(ChunkSizes(chunks))
  {
    if total == 0 {
      assert chunks == map[];
    } else {
      var n := total - 1;
      var fewer := chunks - {n};
      var last := if n in chunks then chunks[n] else [];
      PiecesTotal(fewer, n);
      assert Pieces(chunks, total) == Pieces(fewer, n) + [last];
      JoinAppend(Pieces(fewer, n), last);
      if n in chunks {
        SumRemove(ChunkSizes(chunks), n);
        assert ChunkSizes(chunks) - {n} == ChunkSizes(fewer);
      } else {
        assert fewer == chunks;
      }
    }
  }

  /** An assembly that may just have become complete. */
  ghost predicate Filling(a: Assembly) {
    && 2 <= a.total <= MAX_SEGMENTS && a.totalBytes <= MAX_MESSAGE_BYTES
    && (forall i <- a.chunks :: i < a.total)
    && |a.chunks| <= a.total
    && a.bytes == Sum(ChunkSizes(a.chunks)) <= a.totalBytes
  }

  lemma AddChunkSize(m: map<nat, Text>, i: nat, t: Text)
    requires i !in m
    ensures Sum(ChunkSizes(m[i := t])) == Sum(ChunkSizes(m)) + ByteLength(t)
    ensures |m[i := t]| == |m| + 1
  {
    hide Sum, ByteLength;
    ChunkSizesInsert(m, i, t);
    SumInsert(ChunkSizes(m), i, ByteLength(t));
  }

  lemma ChunkSizesInsert(m: map<nat, Text>, i: nat, t: Text)
    ensures ChunkSizes(m[i := t]) == ChunkSizes(m)[i := ByteLength(t)]
    ensures i !in m ==> i !in ChunkSizes(m) && |m[i := t]| == |m| + 1
  {
    hide ByteLength;
    assert i !in m ==> m[i := t].Keys - {i} == m.Keys;
  }

  lemma FillChunk(a: Assembly, index: nat, data: Text)
    requires Filling(a) && |a.chunks| < a.total && index < a.total && index !in a.chunks
    requires a.bytes + ByteLength(data) <= a.totalBytes
    ensures Filling(a.(chunks := a.chunks[index := data], bytes := a.bytes + ByteLength(data)))
  {
    hide Sum, ChunkSizes, ByteLength;
    AddChunkSize(a.chunks, index, data);
  }

  lemma AddAssemblySize(m: map<nat, Assembly>, k: nat, a: Assembly)
    requires k !in m
    ensures Sum(AssemblySizes(m[k := a])) == Sum(AssemblySizes(m)) + a.bytes
    ensures |m[k := a]| == |m| + 1
  {
    RemoveAssemblySize(m[k := a], k);
    assert m[k := a] - {k} == m;
  }

  lemma OneMoreShaped(last: nat, m: map<nat, Assembly>, k: nat, a: Assembly)
    requires AssembliesShaped(last, m) && InWindow(last, k) && GoodAssembly(a)
    ensures AssembliesShaped(last, m[k := a])
  {
    hide GoodAssembly;
  }

  lemma InsertAssemblyShaped(s: Stream, k: nat, a: Assembly, j: Json, buffered: int, e: Slack)
    requires Shaped(s, j) && HeadKept(s, e) && InWindow(s.last, k) && k !in s.ready && k !in s.assemblies && Away(s, k)
    requires GoodAssembly(a) && Slots(s) < MAX_REASSEMBLIES
    ensures var t := s.(assemblies := s.assemblies[k := a], buffered := buffered);
      Shaped(t, j) && HeadKept(t, e)
  {
    hide ReadyShaped, GoodAssembly, AssembliesShaped, InWindow, HeadKept, Away;
    var m := s.assemblies[k := a];
    assert |m| == |s.assemblies| + 1 by { AddAssemblySize(s.assemblies, k, a); }
    OneMoreShaped(s.last, s.assemblies, k, a);
    assert m.Keys == s.assemblies.Keys + {k};
    InsertAssemblyHead(s, k, a, buffered, e);
  }

  lemma InsertAssemblyHead(s: Stream, k: nat, a: Assembly, buffered: int, e: Slack)
    requires HeadKept(s, e) && Away(s, k)
    ensures HeadKept(s.(assemblies := s.assemblies[k := a], buffered := buffered), e)
  {
  }

  lemma InsertAssembly(s: Stream, k: nat, a: Assembly, j: Json, e: Slack)
    requires Buffers(s, j, e) && InWindow(s.last, k) && k !in s.ready && k !in s.assemblies && Away(s, k)
    requires GoodAssembly(a) && HasRoom(s, k, a.bytes)
    ensures Buffers(s.(assemblies := s.assemblies[k := a], buffered := s.buffered + a.bytes), j, e)
  {
    hide Shaped, HeadKept, ReadySizes, AssemblySizes, GoodAssembly, Sum;
    AddAssemblySize(s.assemblies, k, a);
    InsertAssemblyShaped(s, k, a, j, s.buffered + a.bytes, e);
  }

  /** `s` holds nothing under `k` but has been charged for `a`: filing `a`, or the message it
      completes, squares the account. A complete message weighs exactly its chunks, because it
      can weigh no more and the declared size lets it weigh no less. */
  lemma FileBuffers(s: Stream, j: Json, k: nat, header: Header, a: Assembly, e: Slack)
    requires Buffers(s.(buffered := s.buffered - a.bytes), j, e) && k !in s.ready && k !in s.assemblies
    requires InWindow(s.last, k) && Away(s, k) && Filling(a) && HasRoom(s, k, 0)
    ensures Buffers(File(s, j, k, header, a).stream, j, e)
  {
    hide Join, Pieces, ByteLength, TotalBytes, Sum, ChunkSizes, Buffers, Schedule;
    var paid := s.(buffered := s.buffered - a.bytes);
    var json := Join(Pieces(a.chunks, a.total));
    JoinBytes(Pieces(a.chunks, a.total));
    PiecesTotal(a.chunks, a.total);
    if |a.chunks| != a.total {
      InsertAssembly(paid, k, a, j, e);
      ScheduleBuffers(s.(assemblies := s.assemblies[k := a]), j, e);
    } else if ByteLength(json) == a.totalBytes && j.valid(json) {
      InsertReady(paid, k, Ready(header, json), j, e);
      ScheduleBuffers(s.(ready := s.ready[k := Ready(header, json)]), j, e);
    }
  }

  /** Taking the assembly out of the way and off the account leaves the account at the rest. */
  lemma SetAside(s: Stream, k: nat, j: Json, e: Slack)
    requires Buffers(s, j, e) && k !in s.ready && k in s.assemblies
    ensures var t := Remove(s, k);
      && Buffers(t, j, e) && Slots(t) < Slots(s) && k !in t.assemblies && k !in t.ready
      && t.last == s.last
      && t.buffered == s.buffered - s.assemblies[k].bytes
      && t == s.(assemblies := s.assemblies - {k}, buffered := t.buffered)
  {
    hide Buffers, Stored, ByteLength, GoodAssembly;
    RemoveBuffers(s, k, j, e);
    RemoveShrinks(s, k);
    assert s.ready - {k} == s.ready;
  }

  lemma FillAndFile(s: Stream, j: Json, k: nat, header: Header, a: Assembly, index: nat, data: Text, e: Slack)
    requires Buffers(s, j, e) && InWindow(s.last, k) && Away(s, k) && k !in s.ready && HasRoom(s, k, ByteLength(data))
    requires GoodAssembly(a) && index < a.total && index !in a.chunks
    requires if k in s.assemblies then a == s.assemblies[k] else a.chunks == map[]
    requires a.bytes + ByteLength(data) <= a.totalBytes
    ensures Buffers(File(Charged(s, k, ByteLength(data)), j, k, header,
                         a.(chunks := a.chunks[index := data], bytes := a.bytes + ByteLength(data))).stream, j, e)
  {
    hide Buffers, ByteLength, File, Filling, GoodAssembly, Charged, HasRoom;
    StillFilling(a);
    if a.chunks == map[] {
      EmptyAssembly(a);
    }
    FillChunk(a, index, data);
    FileCharged(s, j, k, header, a.(chunks := a.chunks[index := data], bytes := a.bytes + ByteLength(data)),
                ByteLength(data), e);
  }

  lemma AddChunkBuffers(s: Stream, j: Json, k: nat, header: Header, a: Assembly, index: nat, data: Text, e: Slack)
    requires Buffers(s, j, e) && HeadFirst(s) && InWindow(s.last, k) && Away(s, k) && k !in s.ready
    requires GoodAssembly(a) && index < a.total && index !in a.chunks
    requires if k in s.assemblies then a == s.assemblies[k] else a.chunks == map[]
    ensures Buffers(AddChunk(s, j, k, header, a, index, data).stream, j, e)
  {
    hide Buffers, ByteLength, EnsureCapacity, File, GoodAssembly, HasRoom;
    var bytes := ByteLength(data);
    if bytes > MAX_CHUNK_BYTES || a.bytes + bytes > a.totalBytes {
      DropBuffers(s, j, k, e);
    } else {
      CapacityBuffers(s, k, bytes, j, e);
      var (roomy, ok) := EnsureCapacity(s, k, bytes);
      if !ok {
        DropBuffers(roomy, j, k, e);
      } else {
        FillAndFile(roomy, j, k, header, a, index, data, e);
        hide Remove;
        assert AddChunk(s, j, k, header, a, index, data)
            == File(Charged(roomy, k, bytes), j, k, header,
                    a.(chunks := a.chunks[index := data], bytes := a.bytes + bytes));
      }
    }
  }

  /** A number that is not ready is not being delivered, and may be dropped. */
  lemma DropBuffers(s: Stream, j: Json, k: nat, e: Slack)
    requires Buffers(s, j, e) && k !in s.ready
    ensures Buffers(Remove(s, k), j, e)
  {
    hide Buffers, Remove;
    RemoveBuffers(s, k, j, e);
  }

  function Charged(s: Stream, k: nat, bytes: nat): Stream {
    s.(buffered := s.buffered + bytes, assemblies := s.assemblies - {k})
  }

  lemma ChargedRest(s: Stream, j: Json, k: nat, bytes: nat, own: nat, e: Slack)
    requires Buffers(s, j, e) && k !in s.ready
    requires own == if k in s.assemblies then s.assemblies[k].bytes else 0
    ensures Buffers(Charged(s, k, bytes).(buffered := s.buffered - own), j, e)
    ensures Slots(Charged(s, k, bytes)) + (if k in s.assemblies then 1 else 0) <= Slots(s)
  {
    hide Buffers, ByteLength;
    if k in s.assemblies {
      SetAside(s, k, j, e);
    } else {
      assert s.assemblies - {k} == s.assemblies;
    }
  }

  /** `more` weighs `bytes` beyond what is already charged for number `k`. */
  lemma FileCharged(s: Stream, j: Json, k: nat, header: Header, more: Assembly, bytes: nat, e: Slack)
    requires Buffers(s, j, e) && InWindow(s.last, k) && Away(s, k) && k !in s.ready && HasRoom(s, k, bytes)
    requires Filling(more) && more.bytes == bytes + (if k in s.assemblies then s.assemblies[k].bytes else 0)
    ensures Buffers(File(Charged(s, k, bytes), j, k, header, more).stream, j, e)
  {
    hide Buffers, File, Filling;
    var t := Charged(s, k, bytes);
    var own := if k in s.assemblies then s.assemblies[k].bytes else 0;
    ChargedRest(s, j, k, bytes, own, e);
    assert t.(buffered := t.buffered - more.bytes) == t.(buffered := s.buffered - own);
    FileBuffers(t, j, k, header, more, e);
  }

  lemma StillFilling(a: Assembly)
    requires GoodAssembly(a)
    ensures Filling(a) && |a.chunks| < a.total
  {
  }

  lemma EmptyAssembly(a: Assembly)
    requires GoodAssembly(a) && a.chunks == map[]
    ensures a.bytes == 0
  {
    assert ChunkSizes(a.chunks) == map[];
  }

  lemma AssemblyFound(s: Stream, k: nat, header: Header, seg: Segment)
    requires SegmentAccepted(seg)
    ensures var a := AssemblyOf(s, k, header, seg);
      if k in s.assemblies then a == s.assemblies[k]
      else a.chunks == map[] && a.header == header && a.total == seg.total && a.totalBytes == seg.totalBytes
  {
  }

  /** A segment that disagrees with the assembly it would join takes that assembly down. */
  lemma MismatchBuffers(s: Stream, j: Json, k: nat, e: Slack)
    requires Buffers(s, j, e) && k !in s.ready && k in s.assemblies
    ensures Buffers(s.(assemblies := s.assemblies - {k}, buffered := s.buffered - s.assemblies[k].bytes), j, e)
  {
    hide Buffers, Remove, Slots;
    SetAside(s, k, j, e);
  }

  lemma RefileBuffers(s: Stream, j: Json, k: nat, header: Header, a: Assembly, e: Slack)
    requires Buffers(s, j, e) && InWindow(s.last, k) && Away(s, k) && k !in s.ready
    requires k in s.assemblies && a == s.assemblies[k] && GoodAssembly(a)
    ensures Buffers(Assembled(s, j, k, header, a).stream, j, e)
  {
    hide Buffers, GoodAssembly, Filling, File, ByteLength;
    StillFilling(a);
    HeldRoom(s, j, e);
    FileCharged(s, j, k, header, a, 0, e);
  }

  lemma StoreSegmentBuffers(s: Stream, j: Json, k: nat, header: Header, seg: Segment, data: Text, e: Slack)
    requires Buffers(s, j, e) && HeadFirst(s) && InWindow(s.last, k) && k !in s.ready && SegmentAccepted(seg)
    requires Away(s, k)
    ensures Buffers(StoreSegment(s, j, k, header, seg, data).stream, j, e)
  {
    hide Buffers, ByteLength, AddChunk, Assembled, GoodAssembly, AssemblyOf, HeadFirst, StoreSegment, InWindow, Away;
    var a := AssemblyOf(s, k, header, seg);
    AssemblyIsGood(s, j, k, header, seg, e);
    AssemblyFound(s, k, header, seg);
    SegmentCases(s, j, k, header, seg, data);
    AcceptedIndex(seg);
    if a.header != header || a.total != seg.total || a.totalBytes != seg.totalBytes {
      MismatchBuffers(s, j, k, e);
    } else if seg.index in a.chunks {
      RefileBuffers(s, j, k, header, a, e);
    } else {
      AddChunkBuffers(s, j, k, header, a, seg.index, data, e);
    }
  }

  lemma SegmentCases(s: Stream, j: Json, k: nat, header: Header, seg: Segment, data: Text)
    requires SegmentAccepted(seg)
    ensures var a := AssemblyOf(s, k, header, seg);
      StoreSegment(s, j, k, header, seg, data) ==
        if a.header != header || a.total != seg.total || a.totalBytes != seg.totalBytes then
          Reaction(s.(assemblies := s.assemblies - {k}, buffered := s.buffered - a.bytes), [s.last])
        else if seg.index in a.chunks then Assembled(s, j, k, header, a)
        else AddChunk(s, j, k, header, a, seg.index, data)
  {
    hide AddChunk, Assembled, AssemblyOf;
  }

  lemma AcceptedIndex(seg: Segment)
    requires SegmentAccepted(seg)
    ensures 0 <= seg.index < seg.total
  {
  }

  lemma HeldRoom(s: Stream, j: Json, e: Slack)
    requires Buffers(s, j, e)
    ensures Slots(s) <= MAX_REASSEMBLIES && s.buffered <= MAX_REASSEMBLY_BYTES
  {
  }

  lemma AssemblyIsGood(s: Stream, j: Json, k: nat, header: Header, seg: Segment, e: Slack)
    requires Buffers(s, j, e) && SegmentAccepted(seg)
    ensures GoodAssembly(AssemblyOf(s, k, header, seg))
  {
    var none: map<nat, Text> := map[];
    assert ChunkSizes(none) == map[];
    assert k in s.assemblies ==> GoodAssembly(s.assemblies[k]);
  }

  /** Every arrival keeps the bounds and the byte account, except possibly a skip that overtakes the very
      number whose handler is in flight, and a segment of it once nothing certain is held there. */
  lemma IngestBuffers(s: Stream, j: Json, remoteBase: nat, header: Header, p: Parsed, e: Slack)
    requires p.segment.Some? ==> SegmentAccepted(p.segment.value)
    requires Ordered(s) && Buffers(s, j, e)
    requires SkipFrame(j, p) || (p.segment.Some? && e.head.Dropped?) ==> Away(s, p.seqNo)
    ensures Buffers(Ingest(s, j, remoteBase, header, p).stream, j, e)
  {
    hide Buffers, StoreSingle, StoreSegment, ApplyBase, ByteLength;
    var raised := s.(base := Max(s.base, Max(remoteBase, p.baseSeq)));
    RaisedBuffers(s, raised.base, j, e);
    ApplyBaseBuffers(raised, j, e);
    ApplyBaseOrdered(raised);
    var t := AdvanceBase(s, Max(remoteBase, p.baseSeq));
    assert t == ApplyBase(raised);
    var k := p.seqNo;
    if k <= t.last || k > t.last + SEQUENCE_WINDOW {
    } else if k in t.ready && !SkipFrame(j, p) {
      ScheduleBuffers(t, j, e);
    } else {
      match p.segment
      case None => StoreSingleBuffers(t, j, k, header, p.data, e);
      case Some(seg) =>
        HeadThere(t, j, k, e);
        StoreSegmentBuffers(t, j, k, header, seg, p.data, e);
    }
  }

  lemma HeadThere(s: Stream, j: Json, k: nat, e: Slack)
    requires Buffers(s, j, e) && k !in s.ready
    ensures Away(s, k) || e.head.Dropped?
  {
  }

  lemma RaisedBuffers(s: Stream, base: nat, j: Json, e: Slack)
    requires Buffers(s, j, e)
    ensures Buffers(s.(base := base), j, e)
  {
    hide Sum, AssemblySizes, ReadySizes, GoodAssembly;
  }

  // ---- Delivery ----

  lemma NextShaped(n: nat, ready: map<nat, Ready>, assemblies: map<nat, Assembly>, j: Json)
    requires n > 0 && ReadyShaped(n - 1, ready, j) && AssembliesShaped(n - 1, assemblies) && n !in assemblies
    ensures ReadyShaped(n, ready - {n}, j) && AssembliesShaped(n, assemblies)
    ensures |ready - {n}| <= |ready|
  {
    hide GoodAssembly;
    SubmapSize(ready - {n}, ready);
  }

  lemma TakeHeadShaped(s: Stream, n: nat, j: Json, buffered: int)
    requires s.drain == Live && Shaped(s, j) && n == s.last + 1 && n !in s.assemblies
    ensures Shaped(s.(ready := s.ready - {n}, buffered := buffered, last := n), j)
  {
    hide ReadyShaped, AssembliesShaped;
    NextShaped(n, s.ready, s.assemblies, j);
    assert (s.ready - {n}).Keys == s.ready.Keys - {n};
  }

  /** What is left to account for once head `n` is believed to have held `bytes`. */
  function Paid(s: Stream, n: nat, bytes: nat, e: Slack): Slack {
    Slack(e.drift + HeldBytes(s, n) - bytes, Kept)
  }

  lemma TakeHead(s: Stream, n: nat, bytes: nat, j: Json, e: Slack)
    requires s.drain == Live && Buffers(s, j, e) && n == s.last + 1 && n !in s.assemblies
    ensures Buffers(s.(ready := s.ready - {n}, buffered := s.buffered - bytes, last := n), j, Paid(s, n, bytes, e))
  {
    hide ByteLength, Shaped, Sum, AssemblySizes, ReadySizes;
    RemoveReadySize(s.ready, n);
    TakeHeadShaped(s, n, j, s.buffered - bytes);
  }

  lemma DeliverHead(s: Stream, n: nat, bytes: nat, j: Json, e: Slack)
    requires s.drain == Live && Buffers(s, j, e) && n == s.last + 1 && n !in s.assemblies
    ensures Buffers(Delivered(s, n, bytes), j, Paid(s, n, bytes, e))
  {
    hide Buffers, ApplyBase, Paid;
    TakeHead(s, n, bytes, j, e);
    ApplyBaseBuffers(s.(ready := s.ready - {n}, buffered := s.buffered - bytes, last := n), j, Paid(s, n, bytes, e));
  }

  lemma BeginRoundBuffers(s: Stream, j: Json, e: Slack)
    requires s.drain == Live && Buffers(s, j, e)
    ensures Buffers(BeginRound(s), j, e)
  {
    hide ByteLength, GoodAssembly, Sum, AssemblySizes, ReadySizes;
    var t := s.(drainRequested := false);
    assert Buffers(t, j, e);
    hide Buffers, ApplyBase;
    ApplyBaseBuffers(t, j, e);
  }

  lemma WithDrain(s: Stream, d: Drain, j: Json, e: Slack)
    requires Buffers(s, j, e)
    requires d.Awaiting? ==> d.seqNo in s.ready && s.ready[d.seqNo] == d.entry
    ensures Buffers(s.(drain := d), j, e.(head := Kept))
  {
    hide ByteLength, GoodAssembly, Sum, AssemblySizes, ReadySizes;
  }

  lemma {:induction false} RunFromBuffers(s: Stream, j: Json, active: bool, e: Slack)
    requires s.drain == Live && Ordered(s) && Buffers(s, j, e) && e.head == Kept
    ensures Buffers(RunFrom(s, j, active).stream, j, e)
    decreases if s.drainRequested then 1 else 0, |s.ready|
  {
    hide Buffers, ByteLength, ApplyBase;
    var n := s.last + 1;
    if n !in s.ready || !active || !j.valid(s.ready[n].json) {
      if s.drainRequested {
        ApplyBaseOrdered(s.(drainRequested := false));
        BeginRoundBuffers(s, j, e);
        RunFromBuffers(BeginRound(s), j, active, e);
      } else {
        WithDrain(s, Idle, j, e);
      }
    } else if j.Skip(s.ready[n].json) {
      var bytes := ByteLength(s.ready[n].json);
      ApplyBaseOrdered(s.(ready := s.ready - {n}, buffered := s.buffered - bytes, last := n));
      DeliveredShrinks(s, n, bytes);
      ReadyIsWhole(s, j, n, e);
      DeliverHead(s, n, bytes, j, e);
      RunFromBuffers(Delivered(s, n, bytes), j, active, e);
    } else {
      WithDrain(s, Awaiting(n, s.ready[n]), j, e);
    }
  }

  lemma ReadyIsWhole(s: Stream, j: Json, n: nat, e: Slack)
    requires Buffers(s, j, e) && n in s.ready
    ensures n !in s.assemblies
  {
  }

  /** The account after a handler has settled: a success pays for the entry it started with. */
  function AfterSettling(s: Stream, handled: bool, e: Slack): Slack
    requires s.drain.Awaiting?
  {
    if handled then Paid(s, s.drain.seqNo, ByteLength(s.drain.entry.json), e) else e.(head := Kept)
  }

  /** Starting a drain and settling a handler keep the bounds; the byte account is kept too, except
      that a success whose entry was replaced moves it by the difference of the two. */
  lemma SettleBuffers(s: Stream, j: Json, handled: bool, active: bool, e: Slack)
    requires s.drain.Awaiting? && Ordered(s) && Buffers(s, j, e)
    ensures Buffers(Settle(s, j, handled, active).stream, j, AfterSettling(s, handled, e))
    ensures AfterSettling(s, handled, e).head.Kept? && (e.head.Kept? ==> AfterSettling(s, handled, e) == e)
  {
    hide ByteLength, ApplyBase, Buffers;
    var n, bytes := s.drain.seqNo, ByteLength(s.drain.entry.json);
    var t := s.(drain := Live);
    KeptHead(s, j, e);
    WithDrain(s, Live, j, e);
    var live := e.(head := Kept);
    if handled {
      ApplyBaseOrdered(t.(ready := t.ready - {n}, buffered := t.buffered - bytes, last := n));
      DeliverHead(t, n, bytes, j, live);
      RunFromBuffers(Delivered(t, n, bytes), j, active, AfterSettling(s, handled, e));
    } else {
      ApplyBaseOrdered(t);
      ApplyBaseBuffers(t, j, live);
      RunOrEnd(ApplyBase(t), j, n, active, live);
    }
  }

  lemma RunOrEnd(u: Stream, j: Json, n: nat, active: bool, e: Slack)
    requires u.drain == Live && Ordered(u) && Buffers(u, j, e) && e.head == Kept
    ensures Buffers((if u.last >= n then RunFrom(u, j, active) else EndRound(u, j, active)).stream, j, e)
  {
    hide Buffers, ApplyBase;
    if u.last >= n {
      RunFromBuffers(u, j, active, e);
    } else if u.drainRequested {
      ApplyBaseOrdered(u.(drainRequested := false));
      BeginRoundBuffers(u, j, e);
      RunFromBuffers(BeginRound(u), j, active, e);
    } else {
      WithDrain(u, Idle, j, e);
    }
  }

  lemma KeptHead(s: Stream, j: Json, e: Slack)
    requires Buffers(s, j, e)
    ensures HeadKept(s, e)
  {
  }

  lemma StartDrainBuffers(s: Stream, j: Json, active: bool, e: Slack)
    requires s.drain == Live && Ordered(s) && Buffers(s, j, e)
    ensures Buffers(StartDrain(s, j, active).stream, j, e.(head := Kept))
  {
    hide Buffers, ApplyBase;
    WithDrain(s, Live, j, e);
    ApplyBaseOrdered(s.(drainRequested := false));
    BeginRoundBuffers(s, j, e.(head := Kept));
    RunFromBuffers(BeginRound(s), j, active, e.(head := Kept));
  }

  // ---- The skip that overtakes its own delivery ----

  /** How far the byte counter is off. */
  ghost function Drift(s: Stream): int {
    s.buffered - Stored(s)
  }

  function HeldBytes(s: Stream, k: nat): nat {
    if k in s.ready then ByteLength(s.ready[k].json) else 0
  }

  lemma DeliveredDrift(s: Stream, n: nat, bytes: nat)
    ensures Drift(Delivered(s, n, bytes)) == Drift(s) + HeldBytes(s, n) - bytes
  {
    hide ByteLength, AssemblySizes, ReadySizes, Sum, ApplyBase;
    RemoveReadySize(s.ready, n);
    ApplyBaseAccounted(s.(ready := s.ready - {n}, buffered := s.buffered - bytes, last := n));
  }

  lemma {:induction false} RunFromDrift(s: Stream, j: Json, active: bool)
    ensures Drift(RunFrom(s, j, active).stream) == Drift(s)
    decreases if s.drainRequested then 1 else 0, |s.ready|
  {
    hide ByteLength, AssemblySizes, ReadySizes, Sum, ApplyBase;
    var n := s.last + 1;
    if n !in s.ready || !active || !j.valid(s.ready[n].json) {
      if s.drainRequested {
        ApplyBaseAccounted(s.(drainRequested := false));
        RunFromDrift(BeginRound(s), j, active);
      }
    } else if j.Skip(s.ready[n].json) {
      var bytes := ByteLength(s.ready[n].json);
      DeliveredShrinks(s, n, bytes);
      DeliveredDrift(s, n, bytes);
      RunFromDrift(Delivered(s, n, bytes), j, active);
    }
  }

  /** Whatever happened while the handler ran: a success leaves the byte counter off by exactly
      what the head holds now minus what it held when the delivery started. */
  lemma SuccessDrift(s: Stream, j: Json, active: bool)
    requires s.drain.Awaiting?
    ensures Drift(Settle(s, j, true, active).stream)
         == Drift(s) + HeldBytes(s, s.drain.seqNo) - ByteLength(s.drain.entry.json)
  {
    hide ByteLength, AssemblySizes, ReadySizes, Sum;
    var n, bytes := s.drain.seqNo, ByteLength(s.drain.entry.json);
    var t := s.(drain := Live);
    DeliveredDrift(t, n, bytes);
    RunFromDrift(Delivered(t, n, bytes), j, active);
  }

  lemma AtMostHead(t: Stream, k: nat)
    requires k == t.last + 1 && k !in t.ready && Future(t, k) == {}
    requires forall x <- t.ready.Keys + t.assemblies.Keys :: x > t.last
    ensures t.ready.Keys == {} && t.assemblies.Keys <= {k}
  {
    forall x | x in t.ready.Keys + t.assemblies.Keys ensures x == k {
      assert x !in Future(t, k);
    }
  }

  lemma NothingWeighs()
    ensures Sum(ReadySizes(map[])) == 0 && Sum(AssemblySizes(map[])) == 0
  {
    assert ReadySizes(map[]) == map[] && AssemblySizes(map[]) == map[];
  }

  /** With nothing above `k` held, at most one assembly, of `k` itself, is held at all. */
  lemma OnlyHead(t: Stream, k: nat)
    requires k == t.last + 1 && k !in t.ready && Future(t, k) == {}
    requires forall x <- t.ready.Keys + t.assemblies.Keys :: x > t.last
    ensures Slots(t) == (if k in t.assemblies then 1 else 0)
    ensures Stored(t) == OwnBytes(t, k)
  {
    hide Future, Sum;
    AtMostHead(t, k);
    assert t.ready == map[];
    NothingWeighs();
    RemoveAssemblySize(t.assemblies, k);
    assert t.assemblies - {k} == map[];
    if k in t.assemblies {
      assert t.assemblies == map[k := t.assemblies[k]];
    } else {
      assert t.assemblies == map[];
    }
  }

  /** What the assembly of `k` weighs. */
  function OwnBytes(s: Stream, k: nat): nat {
    if k in s.assemblies then s.assemblies[k].bytes else 0
  }

  lemma OwnIsStored(s: Stream, k: nat)
    ensures OwnBytes(s, k) <= Stored(s)
  {
    RemoveAssemblySize(s.assemblies, k);
  }

  /** The head of the line finds room for `bytes` more if and only if the drift of the byte counter, what
      its own assembly weighs and the new bytes are within the limit together: everything else that
      stands in its way is above it and can be dropped. */
  lemma HeadRoomIff(s: Stream, j: Json, k: nat, bytes: nat)
    requires Shaped(s, j) && k == s.last + 1 && k !in s.ready
    ensures EnsureCapacity(s, k, bytes).1 <==> Drift(s) + OwnBytes(s, k) + bytes <= MAX_REASSEMBLY_BYTES
  {
    hide EnsureCapacity, Shaped, Trimmed, Future, Stored, Slots;
    ShapedKeys(s, j);
    CapacityTrims(s, k, bytes);
    var (t, ok) := EnsureCapacity(s, k, bytes);
    TrimmedParts(s, t, k);
    ShapedBounds(s, j);
    OwnIsStored(t, k);
    if !ok {
      OnlyHead(t, k);
    }
  }

  /** While the byte counter is less than eleven megabytes off, there is always room. */
  lemma HeadRoom(s: Stream, j: Json, k: nat, bytes: nat)
    requires Shaped(s, j) && k == s.last + 1 && k !in s.ready && bytes <= MAX_CHUNK_BYTES
    requires Drift(s) <= MAX_DRIFT
    ensures EnsureCapacity(s, k, bytes).1
  {
    hide Shaped, EnsureCapacity, Drift;
    HeadRoomIff(s, j, k, bytes);
    ShapedBounds(s, j);
  }

  const MAX_DRIFT := MAX_REASSEMBLY_BYTES - MAX_MESSAGE_BYTES - MAX_CHUNK_BYTES

  lemma ShapedKeys(s: Stream, j: Json)
    requires Shaped(s, j)
    ensures s.ready.Keys !! s.assemblies.Keys
  {
  }

  lemma TrimmedParts(s: Stream, t: Stream, k: nat)
    requires Trimmed(s, t, k)
    ensures t.last == s.last && t.assemblies.Keys <= s.assemblies.Keys && t.ready.Keys <= s.ready.Keys
    ensures forall x <- t.assemblies :: t.assemblies[x] == s.assemblies[x]
    ensures k in s.ready.Keys + s.assemblies.Keys ==> k in t.ready.Keys + t.assemblies.Keys
    ensures Drift(t) == Drift(s)
  {
    hide Stored, Slots;
  }

  lemma ShapedBounds(s: Stream, j: Json)
    requires Shaped(s, j)
    ensures forall x <- s.ready :: x > s.last
    ensures forall x <- s.assemblies :: x > s.last && s.assemblies[x].bytes <= MAX_MESSAGE_BYTES
  {
    hide Sum, ByteLength, Slots;
  }

  /** What an overtaking skip of `bytes` does to the entry in delivery. */
  function Overtaken(e: Slack, bytes: nat): Slack {
    e.(head := if e.drift + bytes <= MAX_REASSEMBLY_BYTES then Replaced else Dropped)
  }

  /** A skip for the number being delivered takes the held entry away, and takes its place just when it
      fits beside the drift; what the drain will settle stays. After the handler succeeds the byte counter
      has moved by what the skip holds less what the message held: it stands where it stood if and only if
      the skip is held and has the message's size. */
  lemma OvertakingSkip(s: Stream, j: Json, remoteBase: nat, header: Header, p: Parsed, active: bool, e: Slack)
    requires Ordered(s) && Buffers(s, j, e) && s.drain.Awaiting? && p.seqNo == s.drain.seqNo
    requires SkipFrame(j, p) && ByteLength(p.data) <= MAX_CHUNK_BYTES
    ensures var t := Ingest(s, j, remoteBase, header, p).stream;
      var fits := e.drift + ByteLength(p.data) <= MAX_REASSEMBLY_BYTES;
      && t.drain == s.drain && Buffers(t, j, Overtaken(e, ByteLength(p.data)))
      && (p.seqNo in t.ready <==> fits)
      && Drift(Settle(t, j, true, active).stream)
           == e.drift + (if fits then ByteLength(p.data) else 0) - ByteLength(s.drain.entry.json)
  {
    hide ByteLength, Buffers, StoreSingle, Settle, ApplyBase, HeldBytes;
    var n := s.drain.seqNo;
    var raised := s.(base := Max(s.base, Max(remoteBase, p.baseSeq)));
    RaisedBuffers(s, raised.base, j, e);
    ApplyBaseOrdered(raised);
    assert AdvanceBase(s, Max(remoteBase, p.baseSeq)) == raised;
    var t := Ingest(s, j, remoteBase, header, p).stream;
    assert t == StoreSingle(raised, j, n, header, p.data).stream;
    StoreOverHead(raised, j, n, header, p.data, e);
    SuccessDrift(t, j, active);
    DriftIs(t, j, Overtaken(e, ByteLength(p.data)));
  }

  /** A skip that does not fit is larger than what it takes away. */
  lemma RefusedIsLarger(s: Stream, j: Json, n: nat, bytes: nat, e: Slack)
    requires Buffers(s, j, e) && n in s.ready && e.drift + bytes > MAX_REASSEMBLY_BYTES
    ensures ByteLength(s.ready[n].json) < bytes
  {
    hide ByteLength, AssemblySizes, Shaped, HeadKept;
    RemoveReadySize(s.ready, n);
  }

  lemma DriftIs(s: Stream, j: Json, e: Slack)
    requires Buffers(s, j, e)
    ensures Drift(s) == e.drift
  {
  }

  lemma TrimmedShaped(s: Stream, t: Stream, k: nat, j: Json)
    requires Shaped(s, j) && Trimmed(s, t, k)
    ensures Shaped(t, j)
  {
    hide GoodAssembly, Stored, Slots;
  }

  lemma StoreOverHead(s: Stream, j: Json, n: nat, header: Header, data: Text, e: Slack)
    requires Buffers(s, j, e) && n == s.last + 1
    requires j.Skip(data) && ByteLength(data) <= MAX_CHUNK_BYTES && s.drain.Awaiting? && s.drain.seqNo == n
    ensures var t := StoreSingle(s, j, n, header, data).stream;
      var fits := e.drift + ByteLength(data) <= MAX_REASSEMBLY_BYTES;
      && Buffers(t, j, Overtaken(e, ByteLength(data))) && t.drain == s.drain
      && (n in t.ready <==> fits) && HeldBytes(t, n) == if fits then ByteLength(data) else 0
  {
    hide ByteLength, EnsureCapacity, Shaped, Trimmed, Remove, Drift, HeldBytes, HasRoom, Buffers;
    var cleared, bytes := Remove(s, n), ByteLength(data);
    BuffersParts(s, j, e);
    RemoveShaped(s, n, j);
    RemovedHead(s, n);
    RemovedDrift(s, n);
    DriftIs(s, j, e);
    HeadRoomIff(cleared, j, n, bytes);
    ShapedKeys(cleared, j);
    CapacityTrims(cleared, n, bytes);
    var roomy := EnsureCapacity(cleared, n, bytes).0;
    TrimmedShaped(cleared, roomy, n, j);
    if e.drift + bytes <= MAX_REASSEMBLY_BYTES {
      PlacedOverHead(cleared, roomy, j, n, Ready(header, data), e);
    } else {
      RemovedLess(s, n);
      EmptiedHead(cleared, roomy, j, n, e);
    }
  }

  lemma RemovedLess(s: Stream, n: nat)
    ensures Remove(s, n).buffered <= s.buffered
  {
    hide ByteLength;
  }

  lemma EmptiedHead(s: Stream, t: Stream, j: Json, n: nat, e: Slack)
    requires Shaped(t, j) && Trimmed(s, t, n) && n !in s.ready && n !in s.assemblies
      && s.buffered <= MAX_REASSEMBLY_BYTES
    requires Drift(s) == e.drift && s.drain.Awaiting? && s.drain.seqNo == n
    ensures Buffers(t, j, e.(head := Dropped)) && HeldBytes(t, n) == 0 && n !in t.ready && t.drain == s.drain
  {
    hide Shaped, Slots, Sum, ByteLength;
    TrimmedFacts(s, t, n);
  }

  lemma PlacedOverHead(s: Stream, t: Stream, j: Json, n: nat, r: Ready, e: Slack)
    requires Shaped(t, j) && Trimmed(s, t, n) && n == s.last + 1 && n !in s.ready && n !in s.assemblies
    requires HasRoom(t, n, ByteLength(r.json)) && j.valid(r.json) && Drift(s) == e.drift
    requires s.drain.Awaiting? && s.drain.seqNo == n
    ensures var u := Schedule(t.(ready := t.ready[n := r], buffered := t.buffered + ByteLength(r.json)));
      && Buffers(u, j, e.(head := Replaced)) && HeldBytes(u, n) == ByteLength(r.json) && u.drain == s.drain
      && n in u.ready
  {
    hide ByteLength, Stored, Shaped, Trimmed, HeldBytes, Slots;
    PlaceReady(s, t, n, r);
    TrimmedFacts(s, t, n);
    PlacedShape(t, j, n, r);
    var u := Schedule(t.(ready := t.ready[n := r], buffered := t.buffered + ByteLength(r.json)));
    ScheduledSame(t.(ready := t.ready[n := r], buffered := t.buffered + ByteLength(r.json)));
    assert HeadKept(u, e.(head := Replaced)) && Accounted(u, e.(head := Replaced));
  }

  lemma TrimmedFacts(s: Stream, t: Stream, n: nat)
    requires Trimmed(s, t, n)
    ensures t.drain == s.drain && t.last == s.last
    ensures (n !in s.ready ==> n !in t.ready) && (n !in s.assemblies ==> n !in t.assemblies)
  {
    hide Stored, Slots;
  }

  lemma ScheduledSame(s: Stream)
    requires s.drain.Awaiting?
    ensures var u := Schedule(s); u.drain == s.drain && Drift(u) == Drift(s)
    ensures Schedule(s) == s.(drainRequested := true) && forall n :: HeldBytes(Schedule(s), n) == HeldBytes(s, n)
  {
    hide ByteLength, Sum, AssemblySizes, ReadySizes;
  }

  /** The head's entry put in its place leaves the buffers in shape. */
  lemma PlacedShape(t: Stream, j: Json, n: nat, r: Ready)
    requires Shaped(t, j) && n == t.last + 1 && n !in t.ready && n !in t.assemblies
    requires HasRoom(t, n, ByteLength(r.json)) && j.valid(r.json)
    ensures Shaped(Schedule(t.(ready := t.ready[n := r], buffered := t.buffered + ByteLength(r.json))), j)
  {
    hide ByteLength, Shaped, Stored, Drift;
    var calm := t.(drain := Idle);
    SameShape(t, calm, j);
    InsertShaped(calm, n, r, j, t.buffered + ByteLength(r.json), EXACT);
    var u := Schedule(t.(ready := t.ready[n := r], buffered := t.buffered + ByteLength(r.json)));
    SameShape(calm.(ready := calm.ready[n := r], buffered := t.buffered + ByteLength(r.json)), u, j);
  }

  lemma SameShape(s: Stream, t: Stream, j: Json)
    requires s.last == t.last && s.ready == t.ready && s.assemblies == t.assemblies
    ensures Shaped(s, j) <==> Shaped(t, j)
  {
    hide GoodAssembly;
  }

  lemma RemovedHead(s: Stream, n: nat)
    ensures var t := Remove(s, n);
      n !in t.ready && n !in t.assemblies && t.last == s.last && t.drain == s.drain && OwnBytes(t, n) == 0
  {
  }

  lemma RemovedDrift(s: Stream, n: nat)
    ensures Drift(Remove(s, n)) == Drift(s)
  {
    hide ByteLength, Sum, AssemblySizes, ReadySizes;
    RemoveAccounting(s, n);
  }

  lemma PlaceReady(s: Stream, t: Stream, n: nat, r: Ready)
    requires Trimmed(s, t, n) && n !in s.ready
    ensures var u := t.(ready := t.ready[n := r], buffered := t.buffered + ByteLength(r.json));
      Drift(u) == Drift(s) && HeldBytes(u, n) == ByteLength(r.json) && u.drain == s.drain
  {
    hide ByteLength, Sum, AssemblySizes, ReadySizes;
    AddReadySize(t.ready, n, r);
  }

  lemma RemoveShaped(s: Stream, k: nat, j: Json)
    requires Shaped(s, j)
    ensures Shaped(Remove(s, k), j)
  {
    hide GoodAssembly, ByteLength;
    SubmapSize(s.ready - {k}, s.ready);
    SubmapSize(s.assemblies - {k}, s.assemblies);
  }

  lemma BuffersParts(s: Stream, j: Json, e: Slack)
    requires Buffers(s, j, e)
    ensures Shaped(s, j) && HeadKept(s, e) && Accounted(s, e)
  {
  }
}
