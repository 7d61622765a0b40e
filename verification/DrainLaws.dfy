/** What a drain hands out and where it stops, and what settling a handler leads to. */
module DrainLaws {
  import opened Text
  import opened Sums
  import opened Receiver
  import opened ReceiverLaws

  // ---- The drain ----

  predicate Deliverable(s: Stream, j: Json, n: nat) {
    n in s.ready && j.valid(s.ready[n].json)
  }

  predicate Skipped(s: Stream, j: Json, n: nat) {
    n in s.ready && j.Skip(s.ready[n].json)
  }

  function Without(ready: map<nat, Ready>, last: nat, m: nat): map<nat, Ready> {
    map k | k in ready && !(last < k <= last + m) :: ready[k]
  }

  /** What the entries of the `m` numbers after `last` weigh. */
  function Weight(ready: map<nat, Ready>, last: nat, m: nat): nat
    decreases m
  {
    if m == 0 then 0
    else (if last + 1 in ready then ByteLength(ready[last + 1].json) else 0) + Weight(ready, last + 1, m - 1)
  }

  /** `s` once the next `m` numbers have been dealt with. */
  function Past(s: Stream, m: nat): Stream {
    s.(last := s.last + m, ready := Without(s.ready, s.last, m), buffered := s.buffered - Weight(s.ready, s.last, m))
  }

  /** The drain passed over the `m` skips that come next; a message right after them is now with its
      handler, and otherwise there is none to hand out, the drain is over and has acknowledged all. */
  predicate Drained(s: Stream, j: Json, r: Reaction, m: nat) {
    && (forall k :: s.last < k <= s.last + m ==> Skipped(s, j, k))
    && var t, n := Past(s, m), s.last + m + 1;
       if Deliverable(s, j, n) then
         !Skipped(s, j, n) && r == Reaction(t.(drain := Awaiting(n, s.ready[n])), [])
       else r == Reaction(t.(drain := Idle, drainRequested := false), [t.last])
  }

  lemma {:induction false} WeightElsewhere(ready: map<nat, Ready>, last: nat, m: nat, n: nat)
    requires n <= last
    ensures Weight(ready - {n}, last, m) == Weight(ready, last, m)
    decreases m
  {
    hide ByteLength;
    if m > 0 {
      WeightElsewhere(ready, last + 1, m - 1, n);
    }
  }

  lemma PastMore(s: Stream, m: nat)
    ensures Past(Past(s, 1), m) == Past(s, m + 1)
  {
    hide ByteLength;
    var n := s.last + 1;
    assert Without(s.ready, s.last, 1) == s.ready - {n};
    WeightElsewhere(s.ready, n, m, n);
    assert Weight(s.ready, n, 0) == 0;
    assert Without(s.ready, s.last, m + 1) == Without(s.ready - {n}, n, m);
  }

  lemma PastNone(s: Stream)
    ensures Past(s, 0) == s
  {
    assert Without(s.ready, s.last, 0) == s.ready;
  }

  lemma DrainedMore(s: Stream, j: Json, r: Reaction, m: nat)
    requires Skipped(s, j, s.last + 1) && Drained(Past(s, 1), j, r, m)
    ensures Drained(s, j, r, m + 1)
  {
    PastMore(s, m);
    var u := Past(s, 1);
    assert forall k :: k > s.last + 1 && k in s.ready ==> k in u.ready && u.ready[k] == s.ready[k];
    hide ByteLength, Past;
    assert u.last == s.last + 1;
    forall k | s.last < k <= s.last + m + 1 ensures Skipped(s, j, k) {
      assert k > s.last + 1 ==> Skipped(u, j, k);
    }
  }

  lemma PastOne(s: Stream, n: nat, bytes: nat)
    requires n == s.last + 1 && n in s.ready && bytes == ByteLength(s.ready[n].json)
    requires s.drain == Live && s.base <= s.last + 1
    ensures Delivered(s, n, bytes) == Past(s, 1)
  {
    hide ByteLength;
    assert Without(s.ready, s.last, 1) == s.ready - {n};
    assert Weight(s.ready, n, 0) == 0;
  }

  lemma {:induction false} RunFromIs(s: Stream, j: Json) returns (m: nat)
    requires s.drain == Live && s.base <= s.last + 1
    ensures Drained(s, j, RunFrom(s, j, true), m)
    decreases if s.drainRequested then 1 else 0, |s.ready|
  {
    hide ByteLength, Past;
    PastNone(s);
    m := 0;
    var n := s.last + 1;
    if !Deliverable(s, j, n) {
      if s.drainRequested {
        assert BeginRound(s) == s.(drainRequested := false);
        var k := RunFromIs(s.(drainRequested := false), j);
        PastNone(s.(drainRequested := false));
        assert k == 0 by {
          assert k > 0 ==> Skipped(s.(drainRequested := false), j, n);
        }
      }
    } else if Skipped(s, j, n) {
      var bytes := ByteLength(s.ready[n].json);
      PastOne(s, n, bytes);
      DeliveredShrinks(s, n, bytes);
      PastStands(s);
      var k := RunFromIs(Past(s, 1), j);
      DrainedMore(s, j, RunFrom(Past(s, 1), j, true), k);
      m := k + 1;
    }
  }

  lemma PastStands(s: Stream)
    ensures var t := Past(s, 1); t.drain == s.drain && t.base == s.base && t.last == s.last + 1
  {
  }

  lemma RunIdle(s: Stream, j: Json)
    requires s.drain == Live && s.base <= s.last + 1
    ensures RunFrom(s, j, false) == Reaction(s.(drain := Idle, drainRequested := false), [])
    decreases s.drainRequested
  {
    if s.drainRequested {
      assert BeginRound(s) == s.(drainRequested := false);
      RunIdle(s.(drainRequested := false), j);
    }
  }

  /** A drain of an active end deals with everything that can be dealt with now; one of an inactive end
      does nothing. */
  predicate Round(s: Stream, j: Json, active: bool, r: Reaction, m: nat) {
    if active then Drained(s, j, r, m) else r == Reaction(s.(drain := Idle, drainRequested := false), [])
  }

  lemma RunIs(s: Stream, j: Json, active: bool) returns (m: nat)
    requires s.drain == Live && s.base <= s.last + 1
    ensures Round(s, j, active, RunFrom(s, j, active), m)
  {
    hide Drained, RunFrom;
    m := 0;
    if active {
      m := RunFromIs(s, j);
    } else {
      RunIdle(s, j);
    }
  }

  /** A scheduled drain starts afresh and goes as far as it can. */
  lemma StartDrainIs(s: Stream, j: Json, active: bool) returns (m: nat)
    requires Ordered(s) && s.drain == Live
    ensures Round(s.(drainRequested := false), j, active, StartDrain(s, j, active), m)
  {
    hide RunFrom, Round;
    assert BeginRound(s) == s.(drainRequested := false);
    m := RunIs(s.(drainRequested := false), j, active);
  }

  // ---- The baseline ----

  /** A baseline ahead of the stream moves it there: what is below is gone with its weight, the rest is kept. */
  ghost function Jumped(s: Stream): Stream {
    if s.base <= s.last + 1 then s
    else
      var t := s.(assemblies := map k | k in s.assemblies && k >= s.base :: s.assemblies[k],
                  ready := map k | k in s.ready && k >= s.base :: s.ready[k], last := s.base - 1);
      t.(buffered := s.buffered - (Stored(s) - Stored(t)))
  }

  lemma ApplyBaseIs(s: Stream)
    ensures ApplyBase(s) == if s.drain.Awaiting? && s.drain.seqNo < s.base then s else Jumped(s)
  {
    ApplyBaseAccounted(s);
    hide AssemblySizes, ReadySizes, Below;
  }

  // ---- A handler settles ----

  /** A success takes the number out, a failure leaves it; then the stream catches up with its baseline
      and drains on. Only a failure that nothing has overtaken and nobody has asked again about ends
      the drain where it is. */
  lemma SettleIs(s: Stream, j: Json, handled: bool, active: bool) returns (m: nat)
    requires Ordered(s) && s.drain.Awaiting?
    ensures var r, n, live := Settle(s, j, handled, active), s.drain.seqNo, s.(drain := Live);
      if handled then
        Round(Jumped(live.(ready := s.ready - {n}, buffered := s.buffered - ByteLength(s.drain.entry.json), last := n)),
              j, active, r, m)
      else if s.base > n then Round(Jumped(live), j, active, r, m)
      else if s.drainRequested then Round(live.(drainRequested := false), j, active, r, m)
      else r == Reaction(s.(drain := Idle), if active then [s.last] else [])
  {
    var n, bytes, live := s.drain.seqNo, ByteLength(s.drain.entry.json), s.(drain := Live);
    hide RunFrom, Round, ByteLength, Stored;
    var taken := live.(ready := s.ready - {n}, buffered := s.buffered - bytes, last := n);
    ApplyBaseIs(taken);
    ApplyBaseIs(live);
    ApplyBaseIs(live.(drainRequested := false));
    m := 0;
    if handled {
      m := RunIs(Jumped(taken), j, active);
    } else if s.base > n {
      m := RunIs(Jumped(live), j, active);
    } else if s.drainRequested {
      assert BeginRound(live) == live.(drainRequested := false);
      m := RunIs(live.(drainRequested := false), j, active);
    }
  }

  /** Nothing that could be handed out is left behind: the next message is with its handler, and no ACK
      was sent, or there is none, and the one ACK sent covers all that was handed out. */
  predicate NothingLeft(r: Reaction, j: Json) {
    var t, n := r.stream, r.stream.last + 1;
    if t.drain.Awaiting? then
      && Deliverable(t, j, n) && !j.Skip(t.ready[n].json)
      && t.drain == Awaiting(n, t.ready[n]) && r.acks == []
    else t.drain == Idle && !Deliverable(t, j, n) && !t.drainRequested && r.acks == [t.last]
  }

  lemma DrainedLeavesNothing(s: Stream, j: Json, r: Reaction, m: nat)
    requires Drained(s, j, r, m)
    ensures NothingLeft(r, j)
  {
    hide ByteLength, Weight;
  }

  /** After a drain, or a success, of an active end nothing is left behind; nor after a failure that the
      baseline has passed or after which a drain was asked for. */
  lemma NothingLeftBehind(s: Stream, j: Json)
    requires Ordered(s)
    ensures s.drain == Live ==> NothingLeft(StartDrain(s, j, true), j)
    ensures s.drain.Awaiting? ==> NothingLeft(Settle(s, j, true, true), j)
    ensures s.drain.Awaiting? && (s.base > s.drain.seqNo || s.drainRequested) ==>
      NothingLeft(Settle(s, j, false, true), j)
  {
    hide StartDrain, Settle, Drained, NothingLeft, Jumped, ByteLength;
    if s.drain == Live {
      var m := StartDrainIs(s, j, true);
      DrainedLeavesNothing(s.(drainRequested := false), j, StartDrain(s, j, true), m);
    } else if s.drain.Awaiting? {
      var live := s.(drain := Live);
      var n, bytes := s.drain.seqNo, ByteLength(s.drain.entry.json);
      var m := SettleIs(s, j, true, true);
      DrainedLeavesNothing(Jumped(live.(ready := s.ready - {n}, buffered := s.buffered - bytes, last := n)), j,
                           Settle(s, j, true, true), m);
      var k := SettleIs(s, j, false, true);
      if s.base > n {
        DrainedLeavesNothing(Jumped(live), j, Settle(s, j, false, true), k);
      } else if s.drainRequested {
        DrainedLeavesNothing(live.(drainRequested := false), j, Settle(s, j, false, true), k);
      }
    }
  }
}
