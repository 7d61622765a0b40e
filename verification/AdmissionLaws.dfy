/** Which message is admitted, what goes out of the queue for it, and what of it is written at once. */
module AdmissionLaws {
  import opened Text
  import opened Transport
  import opened Sender
  import opened SenderLaws
  import opened RetryLaws
  import opened AckLaws

  /** A message charged `charge` fits behind the queue without its first `k` messages. */
  predicate Fits(s: Sender, k: nat, charge: nat)
    requires k <= |s.pending|
  {
    |s.pending| - k < MAX_PENDING_MESSAGES && SumBytes(s.pending[k..]) + charge <= MAX_PENDING_BYTES
  }

  predicate Mirror(env: Env, p: Pending) {
    env.j.Skip(p.json) || (p.header.kind.Push? && p.coalescible)
  }

  /** The first `k` messages are mirrors and skips, without fewer of them the message does not fit, and
      they make room for it or are all there are at the front. */
  predicate FewestMirrors(s: Sender, env: Env, charge: nat, k: nat) {
    && k <= |s.pending|
    && (forall i :: 0 <= i < k ==> Mirror(env, s.pending[i]) && !Fits(s, i, charge))
    && (Fits(s, k, charge) || k == |s.pending| || !Mirror(env, s.pending[k]))
  }

  /** What makes way: nothing if the message fits; all that is stale at the front for a result; for
      a mirror the fewest mirrors and skips at the front; for the rest what has expired there. */
  predicate MakesWay(s: Sender, env: Env, m: Sending, charge: nat, k: nat) {
    && k <= |s.pending|
    && if Fits(s, 0, charge) then k == 0
       else if m.header.kind.InvokeResult? then LongestStale(env, s.pending, k)
       else if m.header.kind.Push? && m.coalescible then FewestMirrors(s, env, charge, k)
       else
         && (forall i :: 0 <= i < k ==> Expired(env, m.now, s.pending[i]))
         && (k < |s.pending| ==> !Expired(env, m.now, s.pending[k]))
  }

  function Queued(s: Sender, p: Pending): Sender {
    s.(pending := s.pending + [p], pendingBytes := s.pendingBytes + p.bytes, nextSeq := s.nextSeq + 1)
  }

  /** `n` frames more would overrun the budget of a recovery of which something is still out. */
  predicate OverBudget(s: Sender, env: Env, n: nat) {
    && s.recoveryNeedsAck && (exists i :: 0 <= i < |s.pending| && s.pending[i].sent)
    && (s.recoveryFramesSent >= env.budget || s.recoveryFramesSent + n > env.budget)
  }

  /** The message is the last in the queue, and written as far as the socket takes it unless it has to
      wait; if it should be written and nothing gets out, it was never queued. */
  predicate Joined(u: Sender, env: Env, p: Pending, now: int, writeNow: bool, writable: nat, r: Sent) {
    if !writeNow then r == Sent(Queued(u, p), [], Accepted)
    else
      var frames := FramesAt(env, BaseOf(Queued(u, p)), p);
      var n := Min(writable, |frames|);
      if n == 0 then r == Sent(u, [], Backpressure)
      else
        var t := Queued(u, Again(p, now));
        r == Sent(if u.recoveryNeedsAck then t.(recoveryFramesSent := u.recoveryFramesSent + n) else t,
                  frames[..n], Accepted)
  }

  lemma JoinedIs(u: Sender, env: Env, m: Sending, charge: nat, writeNow: bool)
    ensures Joined(u, env, NewPending(u, m, charge), m.now, writeNow, m.writable, Append(u, env, m, charge, writeNow))
  {
    hide Encode;
    var p := NewPending(u, m, charge);
    var t := Queued(u, p);
    assert t.pending[|u.pending| := Again(p, m.now)] == u.pending + [Again(p, m.now)];
  }

  lemma FitsIff(s: Sender, k: nat, charge: nat)
    requires k <= |s.pending|
    ensures Fits(s, k, charge) <==> HasCapacity(Rest(s, k), charge)
  {
  }

  lemma RestWindow(s: Sender, t: Sender, k: nat)
    requires Window(t) && Shortened(s, t, k)
    ensures t == Rest(s, k)
  {
  }

  lemma OneLess(s: Sender, k: nat, charge: nat)
    requires k < |s.pending|
    ensures Rest(DropHead(s), k) == Rest(s, k + 1)
    ensures Fits(DropHead(s), k, charge) == Fits(s, k + 1, charge)
  {
    assert DropHead(s).pending[k..] == s.pending[k + 1..];
  }

  lemma OneMoreMirror(s: Sender, env: Env, charge: nat, d: nat)
    requires s.pending != [] && Mirror(env, s.pending[0]) && !Fits(s, 0, charge)
    requires FewestMirrors(DropHead(s), env, charge, d)
    ensures FewestMirrors(s, env, charge, d + 1)
  {
    hide Mirror, Fits;
    forall i | 0 <= i < d + 1 ensures Mirror(env, s.pending[i]) && !Fits(s, i, charge) {
      if i > 0 {
        OneLess(s, i - 1, charge);
        assert s.pending[i] == DropHead(s).pending[i - 1];
      }
    }
    OneLess(s, d, charge);
    if d < |DropHead(s).pending| {
      assert s.pending[d + 1] == DropHead(s).pending[d];
    }
  }

  lemma {:induction false} WayForMirror(s: Sender, env: Env, charge: nat) returns (k: nat)
    requires Window(s)
    ensures FewestMirrors(s, env, charge, k) && DropForAdmission(s, env, charge) == Rest(s, k)
    decreases |s.pending|
  {
    assert Rest(s, 0) == s;
    FitsIff(s, 0, charge);
    if HasCapacity(s, charge) || s.pending == [] || !Evictable(env, s.pending[0]) {
      k := 0;
    } else {
      DropHeadWindow(s);
      assert Mirror(env, s.pending[0]);
      hide Window, HasCapacity, Fits, FewestMirrors, Mirror;
      var d := WayForMirror(DropHead(s), env, charge);
      k := d + 1;
      assert d < |s.pending| by { FewestInQueue(DropHead(s), env, charge, d); }
      OneLess(s, d, charge);
      OneMoreMirror(s, env, charge, d);
    }
  }

  lemma FewestInQueue(s: Sender, env: Env, charge: nat, k: nat)
    requires FewestMirrors(s, env, charge, k)
    ensures k <= |s.pending|
  {
  }

  lemma WayForOthers(s: Sender, env: Env, now: int) returns (k: nat)
    requires Window(s)
    ensures k <= |s.pending| && DropPrefix(s, env, now, true) == Rest(s, k)
    ensures forall i :: 0 <= i < k ==> Expired(env, now, s.pending[i])
    ensures k < |s.pending| ==> !Expired(env, now, s.pending[k])
  {
    hide DropPrefix, Expired;
    k := ExpiredPrefix(s, env, now);
    var d := DropPrefixLaw(s, env, now, true);
    RestWindow(s, DropPrefix(s, env, now, true), d);
    assert |s.pending[k..]| == |s.pending[d..]|;
  }

  /** Exactly what `MakesWay` says goes out of the queue for a message, and no more. */
  lemma WayIsMade(s: Sender, env: Env, m: Sending, charge: nat) returns (k: nat)
    requires Window(s)
    ensures MakesWay(s, env, m, charge, k) && MakeRoom(s, env, m, charge) == Rest(s, k)
  {
    hide DropPrefix, DropForAdmission, Expired, FewestMirrors;
    k := 0;
    assert Rest(s, 0) == s;
    FitsIff(s, 0, charge);
    hide Window, Fits, HasCapacity;
    if !HasCapacity(s, charge) {
      if m.header.kind.InvokeResult? {
        k := StaleDropped(s, env, m.now);
      } else if m.header.kind.Push? && m.coalescible {
        k := WayForMirror(s, env, charge);
        FewestInQueue(s, env, charge, k);
      } else {
        k := WayForOthers(s, env, m.now);
      }
    }
  }

  /** The queue has waited longer than it may on a link that is not open. */
  predicate Stalled(s: Sender, env: Env, now: int) {
    s.phase != Open && s.pending != [] && now - s.pending[0].enqueuedAt > env.stalledAge
  }

  /** What becomes of a message that can be encoded, on a queue that is still worth keeping. */
  ghost predicate Admitted(t: Sender, env: Env, m: Sending, charge: nat, frames: nat, k: nat, r: Sent) {
    var writeNow := t.phase == Open && !OverBudget(t, env, frames);
    if writeNow && !m.socketRoom then r == Sent(t, [], Backpressure)
    else
      && MakesWay(t, env, m, charge, k)
      && if Fits(t, k, charge) then
           Joined(Rest(t, k), env, Pending(t.nextSeq, m.header, m.json, m.coalescible, charge, 0, 0, false, m.now),
                  m.now, writeNow, m.writable, r)
         else r == Sent(Rest(t, k), [], Backpressure)
  }

  lemma AdmittedIs(t: Sender, env: Env, m: Sending, charge: nat, frames: nat) returns (k: nat)
    requires Window(t)
    ensures Admitted(t, env, m, charge, frames, k, Admit(t, env, m, charge, frames))
  {
    assert ShouldHold(t, env, frames) == OverBudget(t, env, frames);
    hide Window, MakeRoom, MakesWay, Append, Joined, ShouldHold, OverBudget;
    k := WayIsMade(t, env, m, charge);
    assert k <= |t.pending| by { WayInQueue(t, env, m, charge, k); }
    FitsIff(t, k, charge);
    hide Fits, HasCapacity;
    JoinedIs(Rest(t, k), env, m, charge, t.phase == Open && !OverBudget(t, env, frames));
  }

  lemma WayInQueue(s: Sender, env: Env, m: Sending, charge: nat, k: nat)
    requires MakesWay(s, env, m, charge, k)
    ensures k <= |s.pending|
  {
  }

  /** The whole answer to a message: refused for good on a closed or unwrapped peer or when it cannot
      be encoded, refused for now or admitted as `Admitted` says, on an empty queue if the old one was
      stalled. */
  lemma SendMessageIs(s: Sender, env: Env, m: Sending) returns (k: nat)
    requires Sane(s)
    ensures var r := SendMessage(s, env, m);
      if s.explicitlyClosed && s.phase != Open && !m.legacyAllowed then r == Sent(s, [], Closed)
      else if !s.reliable then r == Sent(s, [], Unwrapped)
      else
        var t := if Stalled(s, env, m.now) then s.(pending := [], pendingBytes := 0) else s;
        var base := if t.pending == [] then s.nextSeq else BaseOf(s);
        var frames := Encode(m.header, env.streamId, m.json, s.nextSeq, base);
        var charge := Reservation(env, m.header, m.json, s.nextSeq);
        if frames.None? || charge.None? then r == Sent(t, [], TooLarge)
        else Admitted(t, env, m, charge.value, |frames.value|, k, r)
  {
    hide Encode, Reservation, Admit, Admitted, SumBytes;
    k := 0;
    if !(s.explicitlyClosed && s.phase != Open && !m.legacyAllowed) && s.reliable {
      var t := GiveUpStalled(s, env, m.now);
      GiveUpStalledLaw(s, env, m.now);
      hide Window;
      var frames := Encode(m.header, env.streamId, m.json, t.nextSeq, BaseOf(t));
      var charge := Reservation(env, m.header, m.json, t.nextSeq);
      if frames.Some? && charge.Some? {
        k := AdmittedIs(t, env, m, charge.value, |frames.value|);
      }
    }
  }

  // ---- Giving up a request ----

  predicate FirstWith(ps: seq<Pending>, id: Text, i: nat) {
    i < |ps| && ps[i].header.id == id && forall x :: 0 <= x < i ==> ps[x].header.id != id
  }

  lemma {:induction false} RequestFound(ps: seq<Pending>, id: Text)
    ensures var i := FindRequest(ps, id);
      if i < |ps| then FirstWith(ps, id, i) else forall p <- ps :: p.header.id != id
  {
    if ps != [] && ps[0].header.id != id {
      RequestFound(ps[1..], id);
      assert ps == [ps[0]] + ps[1..];
    }
  }

  /** A request given up: the first message of its id becomes the skip, not yet tried, in its place and
      under its number, and is written at once when the link is open and the peer is there. */
  lemma SkipRequestIs(s: Sender, env: Env, id: Text, now: int, online: bool, writable: nat) returns (i: nat)
    requires Sane(s)
    ensures var o := SkipRequest(s, env, id, now, online, writable);
      if forall p <- s.pending :: p.header.id != id then o == Outcome(s, [])
      else
        && FirstWith(s.pending, id, i)
        && var p, bytes := s.pending[i], SkipBytes(env, s.pending[i]);
           var q := Pending(p.seqNo, p.header, env.skipJson, p.coalescible, bytes, 0, 0, false, p.enqueuedAt);
           var t := s.(pendingBytes := s.pendingBytes + bytes - p.bytes);
           var frames := FramesAt(env, BaseOf(s), q);
           var n := if s.phase == Open && online then Min(writable, |frames|) else 0;
           o == if n == 0 then Outcome(t.(pending := s.pending[i := q]), [])
                else Outcome(t.(pending := s.pending[i := Again(q, now)]), frames[..n])
  {
    hide Encode, SkipBytes, Window;
    i := FindRequest(s.pending, id);
    RequestFound(s.pending, id);
    if i < |s.pending| {
      assert s.pending[i] in s.pending;
      var t := Skipped(s, env, i);
      var q := t.pending[i];
      assert t.pending[i := Again(q, now)] == s.pending[i := Again(q, now)];
      assert BaseOf(t) == BaseOf(s);
    }
  }
}
