/** One receive stream as the object the client keeps: its fields are updated in place, and each
    method does to them exactly what the functions of `Receiver` do to their value. The ACKs a method
    returns are what it sends; the host's handler is called between the methods, which say where the
    drain waits for it. */
module ReceiveStreams {
  import opened Text
  import opened Sums
  import opened Transport
  import opened Receiver

  lemma ReleaseAssembly(m: map<nat, Assembly>, k: nat, base: nat)
    requires k in m && k < base
    ensures Sum(Below(AssemblySizes(m), base)) == Sum(Below(AssemblySizes(m - {k}), base)) + m[k].bytes
  {
    SumRemove(Below(AssemblySizes(m), base), k);
    assert Below(AssemblySizes(m), base) - {k} == Below(AssemblySizes(m - {k}), base);
  }

  lemma ReleaseReady(m: map<nat, Ready>, k: nat, base: nat)
    requires k in m && k < base
    ensures Sum(Below(ReadySizes(m), base)) == Sum(Below(ReadySizes(m - {k}), base)) + ByteLength(m[k].json)
  {
    SumRemove(Below(ReadySizes(m), base), k);
    assert Below(ReadySizes(m), base) - {k} == Below(ReadySizes(m - {k}), base);
  }

  lemma NothingBelow(m: map<nat, nat>, base: nat)
    requires forall k <- m :: k >= base
    ensures Sum(Below(m, base)) == 0
  {
    assert Below(m, base) == map[];
  }

  class ReceiveStream {
    const j: Json
    var last: nat
    var requestedBase: nat
    var assemblies: map<nat, Assembly>
    var ready: map<nat, Ready>
    var bufferedBytes: int
    var drain: Drain
    var drainRequested: bool

    ghost function State(): Stream
      reads this
    {
      Stream(last, requestedBase, assemblies, ready, bufferedBytes, drain, drainRequested)
    }

    constructor (j: Json, baseSeq: nat)
      ensures this.j == j && State() == Open(baseSeq)
    {
      this.j := j;
      last := if baseSeq == 0 then 0 else baseSeq - 1;
      requestedBase := baseSeq;
      assemblies, ready, bufferedBytes := map[], map[], 0;
      drain, drainRequested := Idle, false;
    }

    method DropAssembliesBelow(base: nat)
      modifies this`assemblies, this`bufferedBytes
      ensures assemblies == map k | k in old(assemblies) && k >= base :: old(assemblies)[k]
      ensures bufferedBytes == old(bufferedBytes) - Sum(Below(AssemblySizes(old(assemblies)), base))
    {
      hide AssemblySizes, Sum, Below;
      var todo := assemblies.Keys;
      while todo != {}
        invariant todo <= assemblies.Keys <= old(assemblies).Keys
        invariant forall k <- assemblies :: assemblies[k] == old(assemblies)[k] && (k in todo || k >= base)
        invariant forall k <- old(assemblies) :: k in assemblies || k < base
        invariant bufferedBytes - Sum(Below(AssemblySizes(assemblies), base))
               == old(bufferedBytes) - Sum(Below(AssemblySizes(old(assemblies)), base))
      {
        var k :| k in todo;
        if k < base {
          ReleaseAssembly(assemblies, k, base);
          bufferedBytes := bufferedBytes - assemblies[k].bytes;
          assemblies := assemblies - {k};
        }
        todo := todo - {k};
      }
      AssemblyKeys(assemblies);
      NothingBelow(AssemblySizes(assemblies), base);
    }

    method DropReadyBelow(base: nat)
      modifies this`ready, this`bufferedBytes
      ensures ready == map k | k in old(ready) && k >= base :: old(ready)[k]
      ensures bufferedBytes == old(bufferedBytes) - Sum(Below(ReadySizes(old(ready)), base))
    {
      hide ReadySizes, Sum, Below, ByteLength;
      var todo := ready.Keys;
      while todo != {}
        invariant todo <= ready.Keys <= old(ready).Keys
        invariant forall k <- ready :: ready[k] == old(ready)[k] && (k in todo || k >= base)
        invariant forall k <- old(ready) :: k in ready || k < base
        invariant bufferedBytes - Sum(Below(ReadySizes(ready), base))
               == old(bufferedBytes) - Sum(Below(ReadySizes(old(ready)), base))
      {
        var k :| k in todo;
        if k < base {
          ReleaseReady(ready, k, base);
          bufferedBytes := bufferedBytes - ByteLength(ready[k].json);
          ready := ready - {k};
        }
        todo := todo - {k};
      }
      ReadyKeys(ready);
      NothingBelow(ReadySizes(ready), base);
    }

    static lemma AssemblyKeys(m: map<nat, Assembly>)
      ensures AssemblySizes(m).Keys == m.Keys
    {
    }

    static lemma ReadyKeys(m: map<nat, Ready>)
      ensures ReadySizes(m).Keys == m.Keys
    {
    }

    /** Commit the requested baseline, unless a handler below it is still in flight. */
    method CommitBase()
      modifies this`assemblies, this`ready, this`bufferedBytes, this`last
      ensures State() == ApplyBase(old(State()))
    {
      if requestedBase <= last + 1 {
        return;
      }
      if drain.Awaiting? && drain.seqNo < requestedBase {
        return;
      }
      DropAssembliesBelow(requestedBase);
      DropReadyBelow(requestedBase);
      last := requestedBase - 1;
    }

    method RaiseBase(baseSeq: nat)
      modifies this
      ensures State() == AdvanceBase(old(State()), baseSeq)
    {
      requestedBase := Max(requestedBase, baseSeq);
      CommitBase();
    }

    method RemoveEntry(k: nat)
      modifies this`assemblies, this`ready, this`bufferedBytes
      ensures State() == Remove(old(State()), k)
    {
      if k in assemblies {
        bufferedBytes := bufferedBytes - assemblies[k].bytes;
      }
      assemblies := assemblies - {k};
      if k in ready {
        bufferedBytes := bufferedBytes - ByteLength(ready[k].json);
      }
      ready := ready - {k};
    }

    method Fits(k: nat, bytes: nat) returns (r: bool)
      ensures r == HasRoom(State(), k, bytes)
    {
      var slots := |ready| + |assemblies| + (if k in ready || k in assemblies then 0 else 1);
      r := slots <= MAX_REASSEMBLIES && bufferedBytes + bytes <= MAX_REASSEMBLY_BYTES;
    }

    static lemma EvictTop(s: Stream, k: nat, bytes: nat, top: nat)
      requires !HasRoom(s, k, bytes) && top in Future(s, k) && IsMax(Future(s, k), top)
      ensures Evict(s, k, bytes) == Evict(Remove(s, top), k, bytes) && Slots(Remove(s, top)) < Slots(s)
    {
      hide HasRoom, Remove, Slots;
      RemoveShrinks(s, top);
    }

    /** One turn of the eviction loop: the entry dropped is determined, and it is the highest. */
    static lemma EvictStep(s: Stream, k: nat, bytes: nat, future: set<nat>)
      requires !HasRoom(s, k, bytes)
      requires future == set x | x in s.ready.Keys + s.assemblies.Keys && x > k
      ensures future == {} ==> Evict(s, k, bytes) == (s, false)
      ensures future != {} ==> exists top :: top in future && forall x <- future :: x <= top
      ensures forall top | top in future && (forall x <- future :: x <= top) ::
                Evict(s, k, bytes) == Evict(Remove(s, top), k, bytes) && Slots(Remove(s, top)) < Slots(s)
    {
      hide HasRoom, Remove, Slots;
      assert future == Future(s, k);
      if future == {} {
      } else {
        MaxExists(future);
        var m :| IsMax(future, m);
        hide Evict, Future;
        forall top | top in future && (forall x <- future :: x <= top)
          ensures Evict(s, k, bytes) == Evict(Remove(s, top), k, bytes) && Slots(Remove(s, top)) < Slots(s)
        {
          assert IsMax(future, top);
          EvictTop(s, k, bytes, top);
        }
      }
    }

    /** Make room for `bytes` more under `k`; only the head of the line may push others out. */
    method ReserveCapacity(k: nat, bytes: nat) returns (ok: bool)
      modifies this`assemblies, this`ready, this`bufferedBytes
      ensures (State(), ok) == EnsureCapacity(old(State()), k, bytes)
    {
      ok := Fits(k, bytes);
      if ok {
        return;
      }
      if k != last + 1 {
        return false;
      }
      hide HasRoom, Remove, Slots, ByteLength, Evict, Future;
      while !ok
        invariant last == old(last) && requestedBase == old(requestedBase)
        invariant drain == old(drain) && drainRequested == old(drainRequested)
        invariant ok == HasRoom(State(), k, bytes)
        invariant Evict(State(), k, bytes) == Evict(old(State()), k, bytes)
        decreases Slots(State()), !ok
      {
        var future := set x | x in ready.Keys + assemblies.Keys && x > k;
        EvictStep(State(), k, bytes, future);
        if future == {} {
          return false;
        }
        var top :| top in future && forall x <- future :: x <= top;
        RemoveEntry(top);
        ok := Fits(k, bytes);
      }
    }

    method RequestDrain()
      modifies this`drain, this`drainRequested
      ensures State() == Schedule(old(State()))
    {
      if drain.Idle? {
        drain := Live;
      } else {
        drainRequested := true;
      }
    }

    method IngestSingle(k: nat, header: Header, data: Text) returns (acks: seq<nat>)
      modifies this
      ensures Reaction(State(), acks) == StoreSingle(old(State()), j, k, header, data)
    {
      hide EnsureCapacity, Remove, ByteLength;
      var bytes := MeasureBytes(data);
      var skip := j.Skip(data);
      if skip {
        RemoveEntry(k);
      } else if k in assemblies {
        return [last];
      }
      if bytes > MAX_CHUNK_BYTES {
        return [last];
      }
      var ok := ReserveCapacity(k, bytes);
      if !ok {
        return [last];
      }
      if !j.valid(data) {
        return [];
      }
      ready := ready[k := Ready(header, data)];
      bufferedBytes := bufferedBytes + bytes;
      RequestDrain();
      return [];
    }

    method FileAssembly(k: nat, header: Header, a: Assembly) returns (acks: seq<nat>)
      requires 0 <= a.total
      modifies this
      ensures Reaction(State(), acks) == Assembled(old(State()), j, k, header, a)
    {
      hide ByteLength, Join, Pieces;
      assemblies := assemblies - {k};
      if |a.chunks| == a.total {
        var json := Join(Pieces(a.chunks, a.total));
        var bytes := MeasureBytes(json);
        if bytes != a.totalBytes || !j.valid(json) {
          bufferedBytes := bufferedBytes - a.bytes;
          return [last];
        }
        ready := ready[k := Ready(header, json)];
      } else {
        assemblies := assemblies[k := a];
      }
      RequestDrain();
      return [];
    }

    method IngestSegment(k: nat, header: Header, seg: Segment, data: Text) returns (acks: seq<nat>)
      requires SegmentAccepted(seg)
      modifies this
      ensures Reaction(State(), acks) == StoreSegment(old(State()), j, k, header, seg, data)
    {
      hide ByteLength, EnsureCapacity, Remove, Assembled;
      var a := if k in assemblies then assemblies[k] else Assembly(header, seg.total, seg.totalBytes, map[], 0);
      if a.header != header || a.total != seg.total || a.totalBytes != seg.totalBytes {
        bufferedBytes := bufferedBytes - a.bytes;
        assemblies := assemblies - {k};
        return [last];
      }
      if seg.index !in a.chunks {
        var bytes := MeasureBytes(data);
        if bytes > MAX_CHUNK_BYTES || a.bytes + bytes > a.totalBytes {
          RemoveEntry(k);
          return [];
        }
        var ok := ReserveCapacity(k, bytes);
        if !ok {
          RemoveEntry(k);
          return [];
        }
        a := a.(chunks := a.chunks[seg.index := data], bytes := a.bytes + bytes);
        bufferedBytes := bufferedBytes + bytes;
      }
      acks := FileAssembly(k, header, a);
    }

    /** One frame arrives; the ACKs returned are what is sent at once. */
    method Receive(remoteBase: nat, header: Header, p: Parsed) returns (acks: seq<nat>)
      requires p.segment.Some? ==> SegmentAccepted(p.segment.value)
      modifies this
      ensures Reaction(State(), acks) == Ingest(old(State()), j, remoteBase, header, p)
    {
      hide AdvanceBase, StoreSingle, StoreSegment;
      RaiseBase(Max(remoteBase, p.baseSeq));
      if p.seqNo <= last || p.seqNo > last + SEQUENCE_WINDOW {
        return [last];
      }
      if p.seqNo in ready && !SkipFrame(j, p) {
        acks := [last];
        RequestDrain();
        return;
      }
      match p.segment
      case None => acks := IngestSingle(p.seqNo, header, p.data);
      case Some(seg) => acks := IngestSegment(p.seqNo, header, seg, p.data);
    }

    /** The loop of the drain: hand out consecutive numbers until the host must be waited for or
        nothing deliverable is left; one more round when frames arrived meanwhile. */
    method DrainLoop(active: bool) returns (acks: seq<nat>)
      requires drain == Live
      modifies this
      ensures Reaction(State(), acks) == RunFrom(old(State()), j, active)
    {
      hide ByteLength, ApplyBase, RunFrom;
      while true
        invariant drain == Live
        invariant RunFrom(State(), j, active) == RunFrom(old(State()), j, active)
        decreases if drainRequested then 1 else 0, |ready|
      {
        var n := last + 1;
        RunUnfolds(State(), j, active);
        if n !in ready || !active || !j.valid(ready[n].json) {
          if !drainRequested {
            drain := Idle;
            return if active then [last] else [];
          }
          StartRound();
        } else if j.Skip(ready[n].json) {
          var bytes := MeasureBytes(ready[n].json);
          DeliveredShrinks(State(), n, bytes);
          PassEntry(n, bytes);
        } else {
          drain := Awaiting(n, ready[n]);
          return [];
        }
      }
    }

    /** The head of the do-loop: forget requests made so far and catch up with the baseline. */
    method StartRound()
      requires drain == Live
      modifies this
      ensures State() == ApplyBase(old(State()).(drainRequested := false))
      ensures drain == Live && !drainRequested && |ready| <= old(|ready|)
    {
      hide ApplyBase;
      StayLive(State().(drainRequested := false));
      RoundShrinks(State());
      drainRequested := false;
      CommitBase();
    }

    /** Number `n` is done with: it leaves the buffer and the line moves on. */
    method PassEntry(n: nat, bytes: nat)
      requires drain == Live
      modifies this
      ensures State() == Delivered(old(State()), n, bytes)
      ensures drain == Live && drainRequested == old(drainRequested)
    {
      hide ApplyBase;
      StayLive(State().(ready := ready - {n}, buffered := bufferedBytes - bytes, last := n));
      ready := ready - {n};
      bufferedBytes := bufferedBytes - bytes;
      last := n;
      CommitBase();
    }

    static lemma RoundShrinks(s: Stream)
      ensures |ApplyBase(s.(drainRequested := false)).ready| <= |s.ready|
    {
      SubmapSize(ApplyBase(s.(drainRequested := false)).ready, s.ready);
    }

    static lemma RunUnfolds(s: Stream, j: Json, active: bool)
      ensures var n := s.last + 1;
        RunFrom(s, j, active) ==
          if n !in s.ready || !active || !j.valid(s.ready[n].json) then
            if s.drainRequested then RunFrom(ApplyBase(s.(drainRequested := false)), j, active)
            else Reaction(s.(drain := Idle), if active then [s.last] else [])
          else if j.Skip(s.ready[n].json) then
            RunFrom(Delivered(s, n, ByteLength(s.ready[n].json)), j, active)
          else Reaction(s.(drain := Awaiting(n, s.ready[n])), [])
    {
      hide ByteLength, ApplyBase, Delivered;
    }

    static lemma StayLive(s: Stream)
      ensures ApplyBase(s).drain == s.drain && ApplyBase(s).drainRequested == s.drainRequested
    {
    }

    /** The scheduled drain starts. */
    method BeginDrain(active: bool) returns (acks: seq<nat>)
      requires drain == Live
      modifies this
      ensures Reaction(State(), acks) == StartDrain(old(State()), j, active)
    {
      hide ApplyBase, RunFrom;
      StartRound();
      acks := DrainLoop(active);
    }

    /** The handler the drain waits for has settled. */
    method SettleDelivery(handled: bool, active: bool) returns (acks: seq<nat>)
      requires drain.Awaiting?
      modifies this
      ensures Reaction(State(), acks) == Settle(old(State()), j, handled, active)
    {
      hide ApplyBase, RunFrom, ByteLength;
      var n, entry := drain.seqNo, drain.entry;
      drain := Live;
      if !handled {
        StayLive(State());
        CommitBase();
        if last < n {
          if !drainRequested {
            drain := Idle;
            return if active then [last] else [];
          }
          StartRound();
        }
      } else {
        var bytes := MeasureBytes(entry.json);
        PassEntry(n, bytes);
      }
      acks := DrainLoop(active);
    }
  }
}
