/** The receiving end of one reliable stream: reassembly, in-order delivery, baseline jumps and
    bounded buffering, as functions on the stream's state. A handler of the host is a step of its own:
    the drain stops where it must be waited for, and goes on when it has settled. `ReceiveStream.dfy`
    is the object that runs them in place. */
module Receiver {
  import opened Text
  import opened Sums
  import opened Transport

  const SEQUENCE_WINDOW := 64
  const MAX_REASSEMBLIES := 16
  const MAX_REASSEMBLY_BYTES := 16 * 1024 * 1024

  /** What the JSON parser says of a text: does it parse, and does it then carry the skip marker. */
  datatype Json = Json(valid: Text -> bool, marked: Text -> bool) {
    predicate Skip(t: Text) {
      valid(t) && marked(t)
    }
  }

  datatype Assembly = Assembly(header: Header, total: int, totalBytes: int, chunks: map<nat, Text>, bytes: nat)

  datatype Ready = Ready(header: Header, json: Text)

  /** `Live`: a drain is scheduled or executing. `Awaiting`: it waits for the host's handler,
      holding on to the entry it started with. */
  datatype Drain = Idle | Live | Awaiting(seqNo: nat, entry: Ready)

  /** `last` is the last delivered number, `base` the baseline the sender has asked for. */
  datatype Stream = Stream(last: nat, base: nat, assemblies: map<nat, Assembly>, ready: map<nat, Ready>,
                           buffered: int, drain: Drain, drainRequested: bool)

  /** A new state and the cumulative ACKs sent on the way. */
  datatype Reaction = Reaction(stream: Stream, acks: seq<nat>)

  function Max(a: nat, b: nat): nat {
    if a >= b then a else b
  }

  function Open(base: nat): Stream {
    Stream(if base == 0 then 0 else base - 1, base, map[], map[], 0, Idle, false)
  }

  // ---- Sizes ----

  function AssemblySizes(m: map<nat, Assembly>): map<nat, nat> {
    map k | k in m :: m[k].bytes
  }

  function ReadySizes(m: map<nat, Ready>): map<nat, nat> {
    map k | k in m :: ByteLength(m[k].json)
  }

  function ChunkSizes(m: map<nat, Text>): map<nat, nat> {
    map i | i in m :: ByteLength(m[i])
  }

  /** The bytes actually held. */
  ghost function Stored(s: Stream): nat {
    Sum(AssemblySizes(s.assemblies)) + Sum(ReadySizes(s.ready))
  }

  // ---- Baseline ----

  /** Everything below the requested baseline is given up, unless a handler for it is in flight. */
  ghost function ApplyBase(s: Stream): Stream {
    if s.base <= s.last + 1 then s
    else if s.drain.Awaiting? && s.drain.seqNo < s.base then s
    else s.(assemblies := map k | k in s.assemblies && k >= s.base :: s.assemblies[k],
            ready := map k | k in s.ready && k >= s.base :: s.ready[k],
            buffered := s.buffered - Sum(Below(AssemblySizes(s.assemblies), s.base))
                                   - Sum(Below(ReadySizes(s.ready), s.base)),
            last := s.base - 1)
  }

  ghost function AdvanceBase(s: Stream, base: nat): Stream {
    ApplyBase(s.(base := Max(s.base, base)))
  }

  // ---- Capacity ----

  function Remove(s: Stream, k: nat): Stream {
    var a := if k in s.assemblies then s.assemblies[k].bytes else 0;
    var r := if k in s.ready then ByteLength(s.ready[k].json) else 0;
    s.(assemblies := s.assemblies - {k}, ready := s.ready - {k}, buffered := s.buffered - a - r)
  }

  function Slots(s: Stream): nat {
    |s.ready| + |s.assemblies|
  }

  predicate HasRoom(s: Stream, k: nat, bytes: nat) {
    && Slots(s) + (if k in s.ready || k in s.assemblies then 0 else 1) <= MAX_REASSEMBLIES
    && s.buffered + bytes <= MAX_REASSEMBLY_BYTES
  }

  function Future(s: Stream, k: nat): set<nat> {
    set x | x in s.ready.Keys + s.assemblies.Keys && x > k
  }

  lemma RemoveShrinks(s: Stream, k: nat)
    requires k in s.ready || k in s.assemblies
    ensures Slots(Remove(s, k)) < Slots(s)
  {
    var r := Remove(s, k);
    assert s.ready.Keys - {k} == r.ready.Keys && s.assemblies.Keys - {k} == r.assemblies.Keys;
  }

  /** Drop the highest-numbered future entry until there is room, or nothing is left to drop. */
  ghost function Evict(s: Stream, k: nat, bytes: nat): (r: (Stream, bool))
    decreases Slots(s)
  {
    if HasRoom(s, k, bytes) then (s, true)
    else if Future(s, k) == {} then (s, false)
    else
      MaxExists(Future(s, k));
      var top :| IsMax(Future(s, k), top);
      RemoveShrinks(s, top);
      Evict(Remove(s, top), k, bytes)
  }

  ghost function EnsureCapacity(s: Stream, k: nat, bytes: nat): (Stream, bool) {
    if HasRoom(s, k, bytes) then (s, true)
    else if k != s.last + 1 then (s, false)
    else Evict(s, k, bytes)
  }

  // ---- Arrival ----

  function Schedule(s: Stream): Stream {
    if s.drain.Idle? then s.(drain := Live) else s.(drainRequested := true)
  }

  ghost function StoreSingle(s: Stream, j: Json, k: nat, header: Header, data: Text): Reaction {
    var bytes := ByteLength(data);
    if !j.Skip(data) && k in s.assemblies then Reaction(s, [s.last])
    else
      var cleared := if j.Skip(data) then Remove(s, k) else s;
      if bytes > MAX_CHUNK_BYTES then Reaction(cleared, [s.last])
      else
        var (roomy, ok) := EnsureCapacity(cleared, k, bytes);
        if !ok then Reaction(roomy, [s.last])
        else if !j.valid(data) then Reaction(roomy, [])
        else Reaction(Schedule(roomy.(ready := roomy.ready[k := Ready(header, data)],
                                      buffered := roomy.buffered + bytes)), [])
  }

  /** The chunks in index order; a missing index counts as empty text. */
  function Pieces(chunks: map<nat, Text>, total: int): seq<Text>
    requires 0 <= total
  {
    seq(total, i requires 0 <= i < total => if i in chunks then chunks[i] else [])
  }

  function AssemblyOf(s: Stream, k: nat, header: Header, seg: Segment): Assembly {
    if k in s.assemblies then s.assemblies[k] else Assembly(header, seg.total, seg.totalBytes, map[], 0)
  }

  /** `a` is the assembly of `k` after this frame; complete assemblies become ready. */
  function Assembled(s: Stream, j: Json, k: nat, header: Header, a: Assembly): Reaction
    requires 0 <= a.total
  {
    File(s.(assemblies := s.assemblies - {k}), j, k, header, a)
  }

  /** `s` no longer holds the assembly of `k`, which is now `a`. */
  function File(s: Stream, j: Json, k: nat, header: Header, a: Assembly): Reaction
    requires 0 <= a.total
  {
    if |a.chunks| != a.total then Reaction(Schedule(s.(assemblies := s.assemblies[k := a])), [])
    else
      var json := Join(Pieces(a.chunks, a.total));
      if ByteLength(json) != a.totalBytes || !j.valid(json) then
        Reaction(s.(buffered := s.buffered - a.bytes), [s.last])
      else Reaction(Schedule(s.(ready := s.ready[k := Ready(header, json)])), [])
  }

  /** Add a chunk not seen before to assembly `a` of `k`. */
  ghost function AddChunk(s: Stream, j: Json, k: nat, header: Header, a: Assembly, index: nat, data: Text): Reaction
    requires 0 <= a.total
  {
    var bytes := ByteLength(data);
    if bytes > MAX_CHUNK_BYTES || a.bytes + bytes > a.totalBytes then Reaction(Remove(s, k), [])
    else
      var (roomy, ok) := EnsureCapacity(s, k, bytes);
      if !ok then Reaction(Remove(roomy, k), [])
      else Assembled(roomy.(buffered := roomy.buffered + bytes), j, k, header,
                     a.(chunks := a.chunks[index := data], bytes := a.bytes + bytes))
  }

  ghost function StoreSegment(s: Stream, j: Json, k: nat, header: Header, seg: Segment, data: Text): Reaction
    requires SegmentAccepted(seg)
  {
    var a := AssemblyOf(s, k, header, seg);
    if a.header != header || a.total != seg.total || a.totalBytes != seg.totalBytes then
      Reaction(s.(assemblies := s.assemblies - {k}, buffered := s.buffered - a.bytes), [s.last])
    else if seg.index in a.chunks then Assembled(s, j, k, header, a)
    else AddChunk(s, j, k, header, a, seg.index, data)
  }

  predicate SkipFrame(j: Json, p: Parsed) {
    p.segment.None? && j.Skip(p.data)
  }

  /** What one arriving frame does to a stream. `remoteBase` is the baseline of the handshake. */
  ghost function Ingest(s: Stream, j: Json, remoteBase: nat, header: Header, p: Parsed): Reaction
    requires p.segment.Some? ==> SegmentAccepted(p.segment.value)
  {
    var t := AdvanceBase(s, Max(remoteBase, p.baseSeq));
    if p.seqNo <= t.last || p.seqNo > t.last + SEQUENCE_WINDOW then Reaction(t, [t.last])
    else if p.seqNo in t.ready && !SkipFrame(j, p) then Reaction(Schedule(t), [t.last])
    else match p.segment
      case None => StoreSingle(t, j, p.seqNo, header, p.data)
      case Some(seg) => StoreSegment(t, j, p.seqNo, header, seg, p.data)
  }

  // ---- Delivery ----

  /** Head `n` has been dealt with; `bytes` is what the drain believes it held. */
  ghost function Delivered(s: Stream, n: nat, bytes: nat): Stream {
    ApplyBase(s.(ready := s.ready - {n}, buffered := s.buffered - bytes, last := n))
  }

  lemma DeliveredShrinks(s: Stream, n: nat, bytes: nat)
    requires n in s.ready
    ensures |Delivered(s, n, bytes).ready| < |s.ready|
    ensures Delivered(s, n, bytes).drainRequested == s.drainRequested
  {
    var without := s.ready - {n};
    assert without.Keys == s.ready.Keys - {n};
    SubmapSize(Delivered(s, n, bytes).ready, without);
  }

  lemma {:induction false} SubmapSize<V>(a: map<nat, V>, b: map<nat, V>)
    requires a.Keys <= b.Keys
    ensures |a| <= |b|
    decreases |a|
  {
    SetSize(a.Keys, b.Keys);
    assert |a| == |a.Keys| && |b| == |b.Keys|;
  }

  lemma {:induction false} SetSize(a: set<nat>, b: set<nat>)
    requires a <= b
    ensures |a| <= |b|
  {
    if a != {} {
      var k :| k in a;
      SetSize(a - {k}, b - {k});
    }
  }

  /** The head of the do-loop: forget earlier requests and catch up with the baseline. */
  ghost function BeginRound(s: Stream): (t: Stream)
    ensures |t.ready| <= |s.ready| && !t.drainRequested
  {
    var t := ApplyBase(s.(drainRequested := false));
    SubmapSize(t.ready, s.ready);
    t
  }

  ghost function EndRound(s: Stream, j: Json, active: bool): Reaction
    decreases if s.drainRequested then 1 else 0, |s.ready|, 0
  {
    if s.drainRequested then RunFrom(BeginRound(s), j, active)
    else Reaction(s.(drain := Idle), if active then [s.last] else [])
  }

  /** The drain loop, up to the point where it waits for the host or ends. */
  ghost function RunFrom(s: Stream, j: Json, active: bool): Reaction
    decreases if s.drainRequested then 1 else 0, |s.ready|, 1
  {
    var n := s.last + 1;
    if n !in s.ready || !active || !j.valid(s.ready[n].json) then EndRound(s, j, active)
    else if j.Skip(s.ready[n].json) then
      DeliveredShrinks(s, n, ByteLength(s.ready[n].json));
      RunFrom(Delivered(s, n, ByteLength(s.ready[n].json)), j, active)
    else Reaction(s.(drain := Awaiting(n, s.ready[n])), [])
  }

  /** The scheduled drain starts. */
  ghost function StartDrain(s: Stream, j: Json, active: bool): Reaction {
    RunFrom(BeginRound(s), j, active)
  }

  /** The host's handler for the head in flight settles. */
  ghost function Settle(s: Stream, j: Json, handled: bool, active: bool): Reaction
    requires s.drain.Awaiting?
  {
    var n, e := s.drain.seqNo, s.drain.entry;
    var t := s.(drain := Live);
    if handled then RunFrom(Delivered(t, n, ByteLength(e.json)), j, active)
    else
      var u := ApplyBase(t);
      if u.last >= n then RunFrom(u, j, active) else EndRound(u, j, active)
  }
}
