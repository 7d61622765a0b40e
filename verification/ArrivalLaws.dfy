/** What every frame that arrives leaves in a receive stream, and what is acknowledged for it. */
module ArrivalLaws {
  import opened Text
  import opened Sums
  import opened Transport
  import opened Receiver
  import opened ReceiverLaws
  import opened DrainLaws

  /** A baseline is announced: the stream goes there unless a handler below it is in flight. */
  ghost function Raised(s: Stream, base: nat): Stream {
    var u := s.(base := Max(s.base, base));
    if u.drain.Awaiting? && u.drain.seqNo < u.base then u else Jumped(u)
  }

  /** `s` with a drain to come: now, or after the one under way. */
  function Roused(s: Stream): Stream {
    if s.drain.Idle? then s.(drain := Live) else s.(drainRequested := true)
  }

  function Cleared(s: Stream, k: nat): Stream {
    s.(assemblies := s.assemblies - {k}, ready := s.ready - {k},
       buffered := s.buffered - (if k in s.assemblies then s.assemblies[k].bytes else 0)
                   - if k in s.ready then ByteLength(s.ready[k].json) else 0)
  }

  predicate Fits(s: Stream, k: nat, bytes: nat) {
    && |s.ready| + |s.assemblies| + (if k in s.ready || k in s.assemblies then 0 else 1) <= MAX_REASSEMBLIES
    && s.buffered + bytes <= MAX_REASSEMBLY_BYTES
  }

  /** `t` is `s` with the highest entries above `k` dropped, and one fewer would not have done. */
  ghost predicate FewestDropped(s: Stream, t: Stream, k: nat, bytes: nat) {
    && Trimmed(s, t, k)
    && (t == s || exists u, top :: NeededToo(s, u, top, k, bytes) && t == Cleared(u, top))
  }

  ghost predicate NeededToo(s: Stream, u: Stream, top: nat, k: nat, bytes: nat) {
    Trimmed(s, u, k) && !Fits(u, k, bytes) && IsMax(Future(u, k), top)
  }

  /** What stays of `s` when number `k` asks for room: only for the number that is due next is any made, and
      then as few of the highest entries above it are dropped as are needed, or all of them. */
  ghost predicate RoomFor(s: Stream, k: nat, bytes: nat, roomy: Stream) {
    if Fits(s, k, bytes) || k != s.last + 1 then roomy == s
    else FewestDropped(s, roomy, k, bytes) && (Fits(roomy, k, bytes) || Future(roomy, k) == {})
  }

  lemma {:induction false} EvictsFewest(s: Stream, k: nat, bytes: nat)
    requires s.ready.Keys !! s.assemblies.Keys
    ensures FewestDropped(s, Evict(s, k, bytes).0, k, bytes)
    decreases Slots(s)
  {
    hide Trimmed, Stored, Future, HasRoom, FewestDropped;
    TrimmedNothing(s, k);
    assert FewestDropped(s, s, k, bytes) by { NoneDropped(s, k, bytes); }
    if !HasRoom(s, k, bytes) && Future(s, k) != {} {
      MaxExists(Future(s, k));
      var top :| IsMax(Future(s, k), top) && Evict(s, k, bytes) == Evict(Remove(s, top), k, bytes);
      TopIsHeld(s, k, top);
      RemoveShrinks(s, top);
      EvictTrims(Remove(s, top), k, bytes);
      EvictsFewest(Remove(s, top), k, bytes);
      OneMoreDropped(s, top, Evict(s, k, bytes).0, k, bytes);
    }
  }

  lemma NoneDropped(s: Stream, k: nat, bytes: nat)
    ensures FewestDropped(s, s, k, bytes)
  {
    hide Trimmed;
    TrimmedNothing(s, k);
  }

  lemma OneMoreDropped(s: Stream, top: nat, t: Stream, k: nat, bytes: nat)
    requires s.ready.Keys !! s.assemblies.Keys && !HasRoom(s, k, bytes) && IsMax(Future(s, k), top)
    requires FewestDropped(Remove(s, top), t, k, bytes)
    ensures FewestDropped(s, t, k, bytes)
  {
    hide Trimmed, Stored, Future, IsMax;
    var r := Remove(s, top);
    TrimmedNothing(s, k);
    TrimOne(s, top, t, k);
    assert r == Cleared(s, top);
    if t == r {
      assert NeededToo(s, s, top, k, bytes);
    } else {
      var u, x :| NeededToo(r, u, x, k, bytes) && t == Cleared(u, x);
      TrimOne(s, top, u, k);
      assert NeededToo(s, u, x, k, bytes);
    }
  }

  lemma TopIsHeld(s: Stream, k: nat, top: nat)
    requires IsMax(Future(s, k), top)
    ensures top in s.ready || top in s.assemblies
  {
  }

  /** What becomes of a whole frame of number `k`, in the window of `t` and not a mere repeat. Only for
      the number that is due next is room made; a skip also takes the place of what is held. */
  ghost predicate WholeKept(t: Stream, j: Json, k: nat, header: Header, data: Text, roomy: Stream, r: Reaction) {
    var bytes, cleared := ByteLength(data), if j.Skip(data) then Cleared(t, k) else t;
    if !j.Skip(data) && k in t.assemblies then r == Reaction(t, [t.last])
    else if bytes > MAX_CHUNK_BYTES then r == Reaction(cleared, [t.last])
    else
      && RoomFor(cleared, k, bytes, roomy)
      && r == if !Fits(roomy, k, bytes) then Reaction(roomy, [t.last])
              else if !j.valid(data) then Reaction(roomy, [])
              else Reaction(Roused(roomy.(ready := roomy.ready[k := Ready(header, data)],
                                          buffered := roomy.buffered + bytes)), [])
  }

  lemma CapacityIs(s: Stream, k: nat, bytes: nat)
    requires s.ready.Keys !! s.assemblies.Keys
    ensures var (roomy, ok) := EnsureCapacity(s, k, bytes);
      && (ok <==> Fits(roomy, k, bytes))
      && RoomFor(s, k, bytes, roomy)
  {
    hide Evict, Trimmed, FewestDropped, Future;
    EvictTrims(s, k, bytes);
    EvictsFewest(s, k, bytes);
  }

  lemma WholeKeptIs(t: Stream, j: Json, k: nat, header: Header, data: Text) returns (roomy: Stream)
    requires t.ready.Keys !! t.assemblies.Keys
    ensures WholeKept(t, j, k, header, data, roomy, StoreSingle(t, j, k, header, data))
  {
    hide EnsureCapacity, RoomFor, ByteLength, Fits;
    var bytes, cleared := ByteLength(data), if j.Skip(data) then Cleared(t, k) else t;
    roomy := EnsureCapacity(cleared, k, bytes).0;
    CapacityIs(cleared, k, bytes);
  }

  // ---- Segments ----

  /** The pieces in their order. */
  function InOrder(chunks: map<nat, Text>, total: nat): seq<Text> {
    seq(total, i requires 0 <= i < total => if i in chunks then chunks[i] else [])
  }

  /** The assembly of `k` with one piece more: still waiting for others, or whole and ready, or whole and
      not what was announced, and then given up. */
  predicate PieceKept(u: Stream, j: Json, k: nat, header: Header, a: Assembly, r: Reaction)
    requires 0 <= a.total
  {
    var json, rest := Join(InOrder(a.chunks, a.total)), u.(assemblies := u.assemblies - {k});
    if |a.chunks| != a.total then r == Reaction(Roused(u.(assemblies := u.assemblies[k := a])), [])
    else if ByteLength(json) != a.totalBytes || !j.valid(json) then
      r == Reaction(rest.(buffered := u.buffered - a.bytes), [u.last])
    else r == Reaction(Roused(rest.(ready := u.ready[k := Ready(header, json)])), [])
  }

  function Started(t: Stream, k: nat, header: Header, seg: Segment): Assembly {
    if k in t.assemblies then t.assemblies[k] else Assembly(header, seg.total, seg.totalBytes, map[], 0)
  }

  predicate Belongs(a: Assembly, header: Header, seg: Segment) {
    a.header == header && a.total == seg.total && a.totalBytes == seg.totalBytes
  }

  /** What becomes of a new piece of an assembly: too large, or without room, it takes the assembly away. */
  ghost predicate PieceAdded(t: Stream, j: Json, k: nat, header: Header, a: Assembly, index: nat, data: Text,
                             roomy: Stream, r: Reaction)
    requires 0 <= a.total
  {
    var bytes := ByteLength(data);
    if bytes > MAX_CHUNK_BYTES || a.bytes + bytes > a.totalBytes then r == Reaction(Cleared(t, k), [])
    else
      && RoomFor(t, k, bytes, roomy)
      && if !Fits(roomy, k, bytes) then r == Reaction(Cleared(roomy, k), [])
         else PieceKept(roomy.(buffered := roomy.buffered + bytes), j, k, header,
                        a.(chunks := a.chunks[index := data], bytes := a.bytes + bytes), r)
  }

  /** What becomes of a segment of number `k`, in the window of `t` and not ready there: one that
      contradicts what is held of its message takes that away, one that repeats it adds nothing. */
  ghost predicate SegmentKept(t: Stream, j: Json, k: nat, header: Header, seg: Segment, data: Text, roomy: Stream,
                              r: Reaction)
    requires SegmentAccepted(seg)
  {
    var a := Started(t, k, header, seg);
    if !Belongs(a, header, seg) then r == Reaction(Cleared(t, k), [t.last])
    else if seg.index in a.chunks then r == Reaction(Roused(t), [])
    else PieceAdded(t, j, k, header, a, seg.index, data, roomy, r)
  }

  lemma RepeatedPiece(t: Stream, j: Json, k: nat, header: Header)
    requires k in t.assemblies && 0 <= t.assemblies[k].total && |t.assemblies[k].chunks| < t.assemblies[k].total
    ensures Assembled(t, j, k, header, t.assemblies[k]) == Reaction(Roused(t), [])
  {
    hide Pieces, ByteLength, Join;
    assert (t.assemblies - {k})[k := t.assemblies[k]] == t.assemblies;
  }

  lemma PiecesInOrder(a: Assembly)
    requires 0 <= a.total
    ensures Pieces(a.chunks, a.total) == InOrder(a.chunks, a.total)
  {
  }

  lemma RousedIs(s: Stream)
    ensures Schedule(s) == Roused(s)
  {
  }

  lemma StillWaiting(u: Stream, j: Json, k: nat, header: Header, a: Assembly)
    requires 0 <= a.total && |a.chunks| != a.total
    ensures Assembled(u, j, k, header, a) == Reaction(Roused(u.(assemblies := u.assemblies[k := a])), [])
  {
    hide ByteLength, Join, Pieces, Schedule, Roused;
    assert (u.assemblies - {k})[k := a] == u.assemblies[k := a];
    RousedIs(u.(assemblies := u.assemblies[k := a]));
  }

  lemma NowWhole(u: Stream, j: Json, k: nat, header: Header, a: Assembly)
    requires 0 <= a.total && |a.chunks| == a.total
    ensures var json, rest := Join(Pieces(a.chunks, a.total)), u.(assemblies := u.assemblies - {k});
      Assembled(u, j, k, header, a)
      == if ByteLength(json) != a.totalBytes || !j.valid(json) then
           Reaction(rest.(buffered := u.buffered - a.bytes), [u.last])
         else Reaction(Roused(rest.(ready := u.ready[k := Ready(header, json)])), [])
  {
    hide ByteLength, Join, Pieces, Schedule, Roused;
    var json, rest := Join(Pieces(a.chunks, a.total)), u.(assemblies := u.assemblies - {k});
    RousedIs(rest.(ready := u.ready[k := Ready(header, json)]));
  }

  lemma PieceKeptIs(u: Stream, j: Json, k: nat, header: Header, a: Assembly)
    requires 0 <= a.total
    ensures PieceKept(u, j, k, header, a, Assembled(u, j, k, header, a))
  {
    hide ByteLength, Join, Pieces, InOrder, Roused, Assembled;
    PiecesInOrder(a);
    if |a.chunks| != a.total {
      StillWaiting(u, j, k, header, a);
    } else {
      NowWhole(u, j, k, header, a);
    }
  }

  lemma PieceAddedIs(t: Stream, j: Json, k: nat, header: Header, a: Assembly, index: nat, data: Text)
      returns (roomy: Stream)
    requires 0 <= a.total && t.ready.Keys !! t.assemblies.Keys
    ensures PieceAdded(t, j, k, header, a, index, data, roomy, AddChunk(t, j, k, header, a, index, data))
  {
    hide EnsureCapacity, RoomFor, ByteLength, Fits, Assembled, PieceKept;
    var bytes := ByteLength(data);
    roomy := EnsureCapacity(t, k, bytes).0;
    CapacityIs(t, k, bytes);
    PieceKeptIs(roomy.(buffered := roomy.buffered + bytes), j, k, header,
                a.(chunks := a.chunks[index := data], bytes := a.bytes + bytes));
  }

  lemma SegmentKeptIs(t: Stream, j: Json, k: nat, header: Header, seg: Segment, data: Text) returns (roomy: Stream)
    requires SegmentAccepted(seg) && t.ready.Keys !! t.assemblies.Keys && k !in t.ready
    requires k in t.assemblies ==> |t.assemblies[k].chunks| < t.assemblies[k].total
    ensures SegmentKept(t, j, k, header, seg, data, roomy, StoreSegment(t, j, k, header, seg, data))
  {
    hide StoreSegment, Assembled, PieceAdded, AddChunk, Roused, Cleared, Belongs;
    var a := Started(t, k, header, seg);
    roomy := t;
    StoreSegmentIs(t, j, k, header, seg, data);
    if Belongs(a, header, seg) {
      roomy := PieceAddedIs(t, j, k, header, a, seg.index, data);
      if seg.index in a.chunks {
        RepeatedPiece(t, j, k, header);
      }
    }
  }

  lemma StoreSegmentIs(t: Stream, j: Json, k: nat, header: Header, seg: Segment, data: Text)
    requires SegmentAccepted(seg) && k !in t.ready
    ensures var a := Started(t, k, header, seg);
      if !Belongs(a, header, seg) then StoreSegment(t, j, k, header, seg, data) == Reaction(Cleared(t, k), [t.last])
      else
        && 0 <= a.total && (seg.index in a.chunks ==> k in t.assemblies)
        && StoreSegment(t, j, k, header, seg, data)
           == if seg.index in a.chunks then Assembled(t, j, k, header, a)
              else AddChunk(t, j, k, header, a, seg.index, data)
  {
    hide Assembled, AddChunk, Cleared;
    if k in t.assemblies {
      OnlyAssembly(t, k);
    }
  }

  lemma OnlyAssembly(t: Stream, k: nat)
    requires k in t.assemblies && k !in t.ready
    ensures t.(assemblies := t.assemblies - {k}, buffered := t.buffered - t.assemblies[k].bytes) == Cleared(t, k)
  {
    assert t.ready - {k} == t.ready;
  }

  /** Every arriving frame first moves the stream to the baseline it announces. A number already dealt
      with or too far ahead is only acknowledged; one already held is acknowledged and the drain
      called; any other is kept, if it may be, as `WholeKept` and `SegmentKept` say. */
  lemma IngestIs(s: Stream, j: Json, remoteBase: nat, header: Header, p: Parsed) returns (roomy: Stream)
    requires p.segment.Some? ==> SegmentAccepted(p.segment.value)
    requires s.ready.Keys !! s.assemblies.Keys
    requires forall k <- s.assemblies :: |s.assemblies[k].chunks| < s.assemblies[k].total
    ensures var t, r := Raised(s, Max(remoteBase, p.baseSeq)), Ingest(s, j, remoteBase, header, p);
      if p.seqNo <= t.last || p.seqNo > t.last + SEQUENCE_WINDOW then r == Reaction(t, [t.last])
      else if p.seqNo in t.ready && (p.segment.Some? || !j.Skip(p.data)) then r == Reaction(Roused(t), [t.last])
      else if p.segment.None? then WholeKept(t, j, p.seqNo, header, p.data, roomy, r)
      else SegmentKept(t, j, p.seqNo, header, p.segment.value, p.data, roomy, r)
  {
    hide StoreSingle, StoreSegment, WholeKept, SegmentKept, ApplyBase, Stored;
    ApplyBaseIs(s.(base := Max(s.base, Max(remoteBase, p.baseSeq))));
    var t := Raised(s, Max(remoteBase, p.baseSeq));
    roomy := WholeKeptIs(t, j, p.seqNo, header, p.data);
    if p.segment.Some? && p.seqNo !in t.ready {
      roomy := SegmentKeptIs(t, j, p.seqNo, header, p.segment.value, p.data);
    }
  }

  lemma WholeSpares(t: Stream, j: Json, n: nat, header: Header, data: Text, roomy: Stream, r: Reaction, k: nat)
    requires WholeKept(t, j, n, header, data, roomy, r) && n != t.last + 1 && k in t.ready && k != n
    ensures k in r.stream.ready && r.stream.ready[k] == t.ready[k]
  {
    hide ByteLength, Fits, FewestDropped;
  }

  lemma PieceSpares(u: Stream, j: Json, n: nat, header: Header, a: Assembly, r: Reaction, k: nat)
    requires 0 <= a.total && k in u.ready && k != n
    ensures PieceKept(u, j, n, header, a, r) ==> k in r.stream.ready && r.stream.ready[k] == u.ready[k]
  {
    hide ByteLength, Join, InOrder;
  }

  lemma SegmentSpares(t: Stream, j: Json, n: nat, header: Header, seg: Segment, data: Text, roomy: Stream, r: Reaction,
                      k: nat)
    requires SegmentAccepted(seg) && SegmentKept(t, j, n, header, seg, data, roomy, r)
    requires n != t.last + 1 && k in t.ready && k != n
    ensures k in r.stream.ready && r.stream.ready[k] == t.ready[k]
  {
    hide ByteLength, Fits, FewestDropped, PieceKept;
    var a, bytes := Started(t, n, header, seg), ByteLength(data);
    if Belongs(a, header, seg) && seg.index !in a.chunks && roomy == t && 0 <= seg.index {
      PieceSpares(t.(buffered := t.buffered + bytes), j, n, header,
                  a.(chunks := a.chunks[seg.index := data], bytes := a.bytes + bytes), r, k);
    }
  }

  /** A frame that announces no new baseline takes away what is held under other numbers only
      where it is the number due next and needs the room. */
  lemma HeldStays(s: Stream, j: Json, remoteBase: nat, header: Header, p: Parsed, k: nat)
    requires (p.segment.Some? ==> SegmentAccepted(p.segment.value)) && s.ready.Keys !! s.assemblies.Keys && Ordered(s)
    requires forall x <- s.assemblies :: |s.assemblies[x].chunks| < s.assemblies[x].total
    requires Max(remoteBase, p.baseSeq) <= s.base
    requires k in s.ready && k != p.seqNo && p.seqNo != s.last + 1
    ensures var t := Ingest(s, j, remoteBase, header, p).stream; k in t.ready && t.ready[k] == s.ready[k]
  {
    hide Ingest, WholeKept, SegmentKept, SegmentAccepted;
    var roomy := IngestIs(s, j, remoteBase, header, p);
    var t, r := Raised(s, Max(remoteBase, p.baseSeq)), Ingest(s, j, remoteBase, header, p);
    assert t == s;
    if InWindow(s.last, p.seqNo) && !(p.seqNo in s.ready && (p.segment.Some? || !j.Skip(p.data))) {
      if p.segment.None? {
        WholeSpares(t, j, p.seqNo, header, p.data, roomy, r, k);
      } else {
        SegmentSpares(t, j, p.seqNo, header, p.segment.value, p.data, roomy, r, k);
      }
    }
  }
}
