/** What every operation of the sender keeps, and how much one pass may write. */
module SenderLaws {
  import opened Text
  import opened Transport
  import opened Sender

  function SumBytes(ps: seq<Pending>): nat {
    if ps == [] then 0 else ps[0].bytes + SumBytes(ps[1..])
  }

  lemma {:induction false} SumBytesAppend(ps: seq<Pending>, p: Pending)
    ensures SumBytes(ps + [p]) == SumBytes(ps) + p.bytes
  {
    if ps != [] {
      assert (ps + [p])[1..] == ps[1..] + [p];
      SumBytesAppend(ps[1..], p);
    }
  }

  lemma {:induction false} SumBytesUpdate(ps: seq<Pending>, i: nat, p: Pending)
    requires i < |ps|
    ensures SumBytes(ps[i := p]) == SumBytes(ps) - ps[i].bytes + p.bytes
  {
    if i > 0 {
      assert ps[i := p][1..] == ps[1..][i - 1 := p];
      SumBytesUpdate(ps[1..], i - 1, p);
    }
  }

  /** The unacknowledged numbers are exactly the interval from the baseline to the next number,
      and the byte counter is the sum of the entries. */
  ghost predicate Window(s: Sender) {
    && 1 <= BaseOf(s)
    && BaseOf(s) + |s.pending| == s.nextSeq
    && (forall i :: 0 <= i < |s.pending| ==> s.pending[i].seqNo == BaseOf(s) + i)
    && |s.pending| <= MAX_PENDING_MESSAGES
    && s.pendingBytes == SumBytes(s.pending)
    && s.highestAck < s.nextSeq
  }

  /** A confirmation is pending exactly while one is awaited, and only a reliable peer has a link. */
  predicate Linked(s: Sender) {
    && (s.confirmation.Some? <==> s.phase == AwaitingConfirm)
    && (s.phase != Down ==> s.reliable)
  }

  ghost predicate Sane(s: Sender) {
    Window(s) && Linked(s)
  }

  /** `t` is `s` without its first `k` messages; nothing else changed. */
  predicate Shortened(s: Sender, t: Sender, k: nat) {
    k <= |s.pending| && t == s.(pending := s.pending[k..], pendingBytes := t.pendingBytes)
  }

  lemma DropHeadWindow(s: Sender)
    requires Window(s) && s.pending != []
    ensures Window(DropHead(s)) && BaseOf(DropHead(s)) == BaseOf(s) + 1
  {
  }

  lemma {:induction false} DropPrefixLaw(s: Sender, env: Env, now: int, expiredOnly: bool) returns (k: nat)
    requires Window(s)
    ensures var t := DropPrefix(s, env, now, expiredOnly);
      && Window(t) && Shortened(s, t, k)
      && (forall i :: 0 <= i < k ==> Discardable(env, s.pending[i]))
      && (!expiredOnly && t.pending != [] ==> !Discardable(env, t.pending[0]))
    decreases |s.pending|
  {
    hide Window, Discardable;
    if s.pending == [] || !Discardable(env, s.pending[0])
       || (expiredOnly && s.pending[0].header.kind.Push? && now - s.pending[0].enqueuedAt < PUSH_MAX_AGE) {
      k := 0;
    } else {
      DropHeadWindow(s);
      var m := DropPrefixLaw(DropHead(s), env, now, expiredOnly);
      k := m + 1;
    }
  }

  /** A skip that is not a push may always go; a push, turned into a skip or not, only once it is old. */
  predicate Expired(env: Env, now: int, p: Pending) {
    if p.header.kind.Push? then now - p.enqueuedAt >= PUSH_MAX_AGE else IsSkip(env, p)
  }

  /** Sweeping out what has expired removes exactly the longest expired prefix. */
  lemma {:induction false} ExpiredPrefix(s: Sender, env: Env, now: int) returns (k: nat)
    ensures k <= |s.pending| && DropPrefix(s, env, now, true).pending == s.pending[k..]
    ensures forall i :: 0 <= i < k ==> Expired(env, now, s.pending[i])
    ensures k < |s.pending| ==> !Expired(env, now, s.pending[k])
    decreases |s.pending|
  {
    if s.pending == [] || !Expired(env, now, s.pending[0]) {
      k := 0;
    } else {
      var n := ExpiredPrefix(DropHead(s), env, now);
      k := n + 1;
      assert s.pending[k..] == DropHead(s).pending[n..];
    }
  }

  /** A skip at the front is swept out if and only if it is no push or an old one. */
  lemma SkipSweptIff(s: Sender, env: Env, now: int)
    requires s.pending != [] && IsSkip(env, s.pending[0])
    ensures DropPrefix(s, env, now, true).pending != s.pending
       <==> !s.pending[0].header.kind.Push? || now - s.pending[0].enqueuedAt >= PUSH_MAX_AGE
  {
    var k := ExpiredPrefix(s, env, now);
    if k > 0 {
      assert |s.pending[k..]| < |s.pending|;
    }
  }

  lemma {:induction false} DropForAdmissionLaw(s: Sender, env: Env, reserved: nat) returns (k: nat)
    requires Window(s)
    ensures var t := DropForAdmission(s, env, reserved);
      && Window(t) && Shortened(s, t, k)
      && (forall i :: 0 <= i < k ==> Evictable(env, s.pending[i]))
      && (HasCapacity(t, reserved) || t.pending == [] || !Evictable(env, t.pending[0]))
    decreases |s.pending|
  {
    hide Window, Evictable, HasCapacity;
    if HasCapacity(s, reserved) || s.pending == [] || !Evictable(env, s.pending[0]) {
      k := 0;
    } else {
      DropHeadWindow(s);
      var m := DropForAdmissionLaw(DropHead(s), env, reserved);
      k := m + 1;
    }
  }

  lemma {:induction false} DropAckedLaw(s: Sender, ack: nat) returns (k: nat)
    requires Window(s)
    ensures var t := DropAcked(s, ack);
      && Window(t) && Shortened(s, t, k)
      && (forall i :: 0 <= i < k ==> s.pending[i].seqNo <= ack)
      && (forall i :: k <= i < |s.pending| ==> s.pending[i].seqNo > ack)
    decreases |s.pending|
  {
    if s.pending == [] || s.pending[0].seqNo > ack {
      k := 0;
    } else {
      DropHeadWindow(s);
      var m := DropAckedLaw(DropHead(s), ack);
      k := m + 1;
    }
  }

  // ---- Writing does not touch what is queued ----

  predicate SameMessage(p: Pending, q: Pending) {
    && p.seqNo == q.seqNo && p.header == q.header && p.json == q.json
    && p.coalescible == q.coalescible && p.bytes == q.bytes && p.enqueuedAt == q.enqueuedAt
  }

  predicate SameMessages(ps: seq<Pending>, qs: seq<Pending>) {
    |ps| == |qs| && forall i :: 0 <= i < |ps| ==> SameMessage(ps[i], qs[i])
  }

  /** `t` may differ from `s` in its attempt counters, its recovery counters and its link. */
  predicate SameQueue(s: Sender, t: Sender) {
    && SameMessages(s.pending, t.pending)
    && t.pendingBytes == s.pendingBytes && t.nextSeq == s.nextSeq && t.highestAck == s.highestAck
    && t.reliable == s.reliable
    && ((t.phase == s.phase && t.confirmation == s.confirmation) || (t.phase == Down && t.confirmation == None))
  }

  function FramesAt(env: Env, base: nat, p: Pending): seq<Envelope> {
    match Encode(p.header, env.streamId, p.json, p.seqNo, base)
    case None => []
    case Some(frames) => frames
  }

  /** Everything written is a frame of a message in `ps`, announcing baseline `base`. */
  ghost predicate Written(env: Env, ps: seq<Pending>, base: nat, written: seq<Envelope>) {
    forall f <- written :: exists i :: 0 <= i < |ps| && f in FramesAt(env, base, ps[i])
  }

  lemma {:induction false} SameSum(ps: seq<Pending>, qs: seq<Pending>)
    requires SameMessages(ps, qs)
    ensures SumBytes(ps) == SumBytes(qs)
  {
    if ps != [] {
      SameSum(ps[1..], qs[1..]);
    }
  }

  lemma SameQueueWindow(s: Sender, t: Sender)
    requires SameQueue(s, t)
    ensures Window(s) ==> Window(t)
    ensures Linked(s) ==> Linked(t)
    ensures BaseOf(t) == BaseOf(s)
  {
    SameSum(s.pending, t.pending);
    if s.pending != [] {
      assert SameMessage(s.pending[0], t.pending[0]);
    }
  }

  lemma SendAtLaw(s: Sender, env: Env, i: nat, now: int, writable: nat)
    requires i < |s.pending|
    ensures var o := SendAt(s, env, i, now, writable);
      && SameQueue(s, o.sender) && Written(env, s.pending, BaseOf(s), o.written)
      && Link(s, o.sender)
      && (o.written == [] ==> o.sender == s)
      && |o.written| <= |FramesOf(env, s, s.pending[i])|
  {
    hide Encode;
  }

  lemma SameQueueTransitive(s: Sender, t: Sender, u: Sender)
    requires SameQueue(s, t) && SameQueue(t, u)
    ensures SameQueue(s, u)
  {
  }

  lemma WrittenSame(env: Env, ps: seq<Pending>, qs: seq<Pending>, base: nat, written: seq<Envelope>)
    requires SameMessages(ps, qs) && Written(env, qs, base, written)
    ensures Written(env, ps, base, written)
  {
    hide FramesAt;
    forall f <- written ensures exists i :: 0 <= i < |ps| && f in FramesAt(env, base, ps[i]) {
      var i :| 0 <= i < |qs| && f in FramesAt(env, base, qs[i]);
      assert FramesAt(env, base, qs[i]) == FramesAt(env, base, ps[i]) by { FramesOfSame(env, base, ps[i], qs[i]); }
    }
  }

  lemma FramesOfSame(env: Env, base: nat, p: Pending, q: Pending)
    requires SameMessage(p, q)
    ensures FramesAt(env, base, p) == FramesAt(env, base, q)
  {
  }

  lemma SameQueueNoted(s: Sender, t: Sender, n: nat)
    requires SameQueue(s, t)
    ensures SameQueue(s, Note(t, n))
  {
  }

  lemma RetryMore(s: Sender, env: Env, noted: Sender, written: seq<Envelope>, rest: Outcome)
    requires SameQueue(s, noted) && Written(env, s.pending, BaseOf(s), written)
    requires SameQueue(noted, rest.sender) && Written(env, noted.pending, BaseOf(noted), rest.written)
    ensures SameQueue(s, rest.sender) && Written(env, s.pending, BaseOf(s), written + rest.written)
  {
    hide Written;
    SameQueueTransitive(s, noted, rest.sender);
    SameQueueWindow(s, noted);
    WrittenSame(env, s.pending, noted.pending, BaseOf(s), rest.written);
    WrittenMore(env, s.pending, BaseOf(s), written, rest.written);
  }

  lemma RetryIdle(s: Sender, env: Env)
    ensures SameQueue(s, s) && SameQueue(s, Exhausted(s)) && Written(env, s.pending, BaseOf(s), [])
  {
  }

  lemma RetryTurnLaw(s: Sender, env: Env, now: int, ignoreInterval: bool, i: nat, spent: nat, grant: nat)
    requires i < |s.pending|
    ensures var t := RetryTurn(s, env, now, ignoreInterval, i, spent, grant);
      && (!t.NotDue? ==> SameQueue(s, t.sender))
      && (t.Wrote? ==> Written(env, s.pending, BaseOf(s), t.frames) && t.frames != []
                       && |t.frames| <= |FramesOf(env, s, s.pending[i])|
                       && (spent > 0 ==> spent + Estimate(s.pending[i]) <= env.budget))
  {
    RetryIdle(s, env);
    SendAtLaw(s, env, i, now, grant);
    var o := SendAt(s, env, i, now, grant);
    SameQueueNoted(s, o.sender, |o.written|);
    hide SendAt, ShouldHold, Written, SameQueue, Note, Exhausted, FramesOf, Estimate;
  }

  /** A retry pass writes frames of queued messages only and leaves the queue as it is. */
  lemma {:induction false} RetryFromLaw(s: Sender, env: Env, now: int, ignoreInterval: bool, i: nat,
                                        spent: nat, grants: seq<nat>)
    ensures var o := RetryFrom(s, env, now, ignoreInterval, i, spent, grants);
      SameQueue(s, o.sender) && Written(env, s.pending, BaseOf(s), o.written)
    decreases |s.pending| - i
  {
    RetryIdle(s, env);
    hide RetryTurn, Written, SameQueue, Exhausted;
    if i < |s.pending| {
      var grant := if grants == [] then 0 else grants[0];
      RetryTurnLaw(s, env, now, ignoreInterval, i, spent, grant);
      match RetryTurn(s, env, now, ignoreInterval, i, spent, grant)
      case NotDue => RetryFromLaw(s, env, now, ignoreInterval, i + 1, spent, grants);
      case Stop(_) =>
      case Wrote(t, frames) =>
        if spent + |frames| < env.budget {
          var later := if grants == [] then [] else grants[1..];
          RetryFromLaw(t, env, now, ignoreInterval, i + 1, spent + |frames|, later);
          RetryMore(s, env, t, frames, RetryFrom(t, env, now, ignoreInterval, i + 1, spent + |frames|, later));
        }
    }
  }

  lemma WrittenMore(env: Env, ps: seq<Pending>, base: nat, a: seq<Envelope>, b: seq<Envelope>)
    requires Written(env, ps, base, a) && Written(env, ps, base, b)
    ensures Written(env, ps, base, a + b)
  {
  }

  lemma RetryPassLaw(s: Sender, env: Env, now: int, ignoreInterval: bool, grants: seq<nat>)
    ensures var o := RetryPass(s, env, now, ignoreInterval, grants);
      && SameQueue(s, o.sender) && Written(env, s.pending, BaseOf(s), o.written)
      && (o.written != [] ==> s.phase == Open)
  {
    hide RetryFrom;
    RetryFromLaw(s, env, now, ignoreInterval, 0, 0, grants);
  }

  // ---- Sending a message ----

  /** `t`'s queue is `s`'s without its first `k` messages, attempt counters aside. */
  predicate Tail(s: Sender, t: Sender, k: nat) {
    && k <= |s.pending| && SameMessages(s.pending[k..], t.pending)
    && t.nextSeq == s.nextSeq && t.reliable == s.reliable
  }

  predicate Link(s: Sender, t: Sender) {
    t.phase == s.phase && t.confirmation == s.confirmation && t.reliable == s.reliable
  }

  lemma GiveUpStalledLaw(s: Sender, env: Env, now: int)
    requires Window(s)
    ensures var t := GiveUpStalled(s, env, now);
      && Window(t) && Link(s, t) && t.nextSeq == s.nextSeq
      && (t.pending == s.pending || (t.pending == [] && s.phase != Open))
  {
  }

  /** Making room never drops a live invoke or a live result. */
  lemma MakeRoomLaw(s: Sender, env: Env, m: Sending, reserved: nat) returns (k: nat)
    requires Window(s)
    ensures var t := MakeRoom(s, env, m, reserved);
      && Window(t) && Shortened(s, t, k)
      && forall i :: 0 <= i < k ==> Discardable(env, s.pending[i])
  {
    k := 0;
    hide Window, DropPrefix, DropForAdmission;
    if !HasCapacity(s, reserved) {
      if m.header.kind.InvokeResult? {
        k := DropPrefixLaw(s, env, m.now, false);
      } else if m.header.kind.Push? && m.coalescible {
        k := DropForAdmissionLaw(s, env, reserved);
      } else {
        k := DropPrefixLaw(s, env, m.now, true);
      }
    }
  }

  function NewPending(s: Sender, m: Sending, reserved: nat): Pending {
    Pending(s.nextSeq, m.header, m.json, m.coalescible, reserved, 0, 0, false, m.now)
  }

  /** What appending a message leaves: the message last in the queue, or nothing changed. */
  ghost predicate AppendKept(s: Sender, env: Env, m: Sending, reserved: nat, writeNow: bool, r: Sent) {
    && Window(r.sender) && Link(s, r.sender)
    && (r.verdict != Accepted ==> r.sender == s && r.written == [])
    && (r.verdict == Accepted ==>
          && r.sender.nextSeq == s.nextSeq + 1
          && r.sender.pendingBytes == s.pendingBytes + reserved
          && SameMessages(s.pending + [NewPending(s, m, reserved)], r.sender.pending))
    && Written(env, r.sender.pending, BaseOf(r.sender), r.written)
    && (r.written != [] ==> writeNow)
  }

  lemma AppendLaw(s: Sender, env: Env, m: Sending, reserved: nat, writeNow: bool)
    requires Window(s) && HasCapacity(s, reserved)
    ensures AppendKept(s, env, m, reserved, writeNow, Append(s, env, m, reserved, writeNow))
  {
    hide SendAt, Window, Written, SameMessages, SameQueue;
    var t := Appended(s, m, reserved);
    AppendedWindow(s, m, reserved);
    RetryIdle(t, env);
    RetryIdle(s, env);
    if writeNow {
      SendAtLaw(t, env, |s.pending|, m.now, m.writable);
      AfterFirstWrite(t, env, SendAt(t, env, |s.pending|, m.now, m.writable));
    }
  }

  function Appended(s: Sender, m: Sending, reserved: nat): Sender {
    s.(pending := s.pending + [NewPending(s, m, reserved)], pendingBytes := s.pendingBytes + reserved,
       nextSeq := s.nextSeq + 1)
  }

  lemma AppendedWindow(s: Sender, m: Sending, reserved: nat)
    requires Window(s) && HasCapacity(s, reserved)
    ensures Window(Appended(s, m, reserved))
    ensures SameMessages(s.pending + [NewPending(s, m, reserved)], Appended(s, m, reserved).pending)
  {
    SumBytesAppend(s.pending, NewPending(s, m, reserved));
  }

  lemma AfterFirstWrite(t: Sender, env: Env, o: Outcome)
    requires SameQueue(t, o.sender) && Written(env, t.pending, BaseOf(t), o.written) && Window(t)
    requires Link(t, o.sender)
    ensures var u := Note(o.sender, |o.written|);
      && Window(u) && Link(t, u) && SameMessages(t.pending, u.pending) && u.nextSeq == t.nextSeq
      && u.pendingBytes == t.pendingBytes
      && Written(env, u.pending, BaseOf(u), o.written)
  {
    hide Window, Written;
    var u := Note(o.sender, |o.written|);
    SameQueueNoted(t, o.sender, |o.written|);
    SameQueueWindow(t, u);
    WrittenSame(env, u.pending, t.pending, BaseOf(t), o.written);
  }

  /** The queue after a message was offered: the first `k` entries gone, the message appended if
      it was accepted, nothing written if it was not. */
  ghost predicate Offered(s: Sender, env: Env, m: Sending, r: Sent, k: nat) {
    && k <= |s.pending|
    && Window(r.sender) && Link(s, r.sender)
    && (r.verdict != Accepted ==> r.written == [] && Tail(s, r.sender, k))
    && (r.verdict == Accepted ==>
          && r.sender.nextSeq == s.nextSeq + 1 && r.sender.pending != []
          && SameMessages(s.pending[k..], r.sender.pending[..|r.sender.pending| - 1])
          && var p := r.sender.pending[|r.sender.pending| - 1];
             && p.seqNo == s.nextSeq && p.header == m.header && p.json == m.json
             && Reservation(env, m.header, m.json, s.nextSeq) == Some(p.bytes)
             && r.sender.pendingBytes <= MAX_PENDING_BYTES)
    && Written(env, r.sender.pending, BaseOf(r.sender), r.written)
    && (r.written != [] ==> s.phase == Open)
  }

  lemma NothingOffered(s: Sender, t: Sender, env: Env, m: Sending, verdict: Verdict, k: nat)
    requires Window(t) && Link(s, t) && t.nextSeq == s.nextSeq && verdict != Accepted
    requires k <= |s.pending| && t.pending == s.pending[k..]
    ensures Offered(s, env, m, Sent(t, [], verdict), k)
  {
    hide Window;
  }

  lemma AppendOffered(s: Sender, t: Sender, env: Env, m: Sending, reserved: nat, writeNow: bool, k: nat)
    requires Window(t) && Link(s, t) && t.nextSeq == s.nextSeq && HasCapacity(t, reserved)
    requires k <= |s.pending| && t.pending == s.pending[k..]
    requires writeNow ==> s.phase == Open
    requires Reservation(env, m.header, m.json, s.nextSeq) == Some(reserved)
    ensures Offered(s, env, m, Append(t, env, m, reserved, writeNow), k)
  {
    hide Window, Append, Written, Reservation;
    AppendLaw(t, env, m, reserved, writeNow);
    var r := Append(t, env, m, reserved, writeNow);
    if r.verdict == Accepted {
      var all := t.pending + [NewPending(t, m, reserved)];
      assert SameMessage(all[|t.pending|], r.sender.pending[|t.pending|]);
    }
  }

  lemma AdmitLaw(s: Sender, t: Sender, env: Env, m: Sending, reserved: nat, frames: nat, k: nat) returns (n: nat)
    requires Window(t) && Link(s, t) && t.nextSeq == s.nextSeq
    requires k <= |s.pending| && t.pending == s.pending[k..]
    requires Reservation(env, m.header, m.json, s.nextSeq) == Some(reserved)
    ensures Offered(s, env, m, Admit(t, env, m, reserved, frames), n) && n >= k
    ensures forall i :: k <= i < n ==> Discardable(env, s.pending[i])
  {
    hide Window, MakeRoom, Append, ShouldHold, Written, HasCapacity, Discardable, Offered, Reservation;
    n := k;
    NothingOffered(s, t, env, m, Backpressure, k);
    if !(t.phase == Open && !ShouldHold(t, env, frames) && !m.socketRoom) {
      var u := MakeRoom(t, env, m, reserved);
      var d := MakeRoomLaw(t, env, m, reserved);
      n := k + d;
      assert u.pending == s.pending[n..];
      NothingOffered(s, u, env, m, Backpressure, n);
      if HasCapacity(u, reserved) {
        AppendOffered(s, u, env, m, reserved, t.phase == Open && !ShouldHold(t, env, frames), n);
      }
    }
  }

  /** Sending appends one message with the next number or none at all; what it drops to make
      room is a prefix, never a live invoke or result unless a dead link has stalled too long; a
      message not accepted leaves nothing on the wire and its number free. */
  lemma SendMessageLaw(s: Sender, env: Env, m: Sending) returns (k: nat)
    requires Sane(s)
    ensures var r := SendMessage(s, env, m); Offered(s, env, m, r, k) && Sane(r.sender)
    ensures s.phase == Open ==> k <= |s.pending| && forall i :: 0 <= i < k ==> Discardable(env, s.pending[i])
  {
    hide Window, Reservation, GiveUpStalled, Admit, Encode, Discardable, Written;
    k := 0;
    NothingOffered(s, s, env, m, Closed, 0);
    NothingOffered(s, s, env, m, Unwrapped, 0);
    if !(s.explicitlyClosed && s.phase != Open && !m.legacyAllowed) && s.reliable {
      var t := GiveUpStalled(s, env, m.now);
      GiveUpStalledLaw(s, env, m.now);
      k := |s.pending| - |t.pending|;
      assert s.pending[k..] == t.pending;
      NothingOffered(s, t, env, m, TooLarge, k);
      var reserved := Reservation(env, m.header, m.json, t.nextSeq);
      var frames := Encode(m.header, env.streamId, m.json, t.nextSeq, BaseOf(t));
      if reserved.Some? && frames.Some? {
        k := AdmitLaw(s, t, env, m, reserved.value, |frames.value|, k);
      }
    }
  }

  // ---- Acknowledgements and the link ----

  lemma {:induction false} ResetAttemptsSame(ps: seq<Pending>)
    ensures SameMessages(ps, ResetAttempts(ps))
  {
    if ps != [] {
      ResetAttemptsSame(ps[1..]);
    }
  }

  /** What an operation that may drop a prefix and then write leaves: `k` messages gone from the
      front, and everything written announces the new baseline. */
  ghost predicate Moved(s: Sender, env: Env, o: Outcome, k: nat) {
    && Tail(s, o.sender, k) && Window(o.sender) && Linked(o.sender)
    && Written(env, o.sender.pending, BaseOf(o.sender), o.written)
  }

  lemma StillMoved(s: Sender, env: Env, t: Sender, k: nat)
    requires Window(t) && Linked(t) && k <= |s.pending| && SameMessages(s.pending[k..], t.pending)
    requires t.nextSeq == s.nextSeq && t.reliable == s.reliable
    ensures Moved(s, env, Outcome(t, []), k)
  {
    hide Window;
  }

  lemma RetryMoved(s: Sender, env: Env, t: Sender, k: nat, now: int, grants: seq<nat>)
    requires Window(t) && Linked(t) && k <= |s.pending| && SameMessages(s.pending[k..], t.pending)
    requires t.nextSeq == s.nextSeq && t.reliable == s.reliable
    ensures Moved(s, env, RetryPass(t, env, now, true, grants), k)
  {
    hide Window, RetryPass, Written;
    var o := RetryPass(t, env, now, true, grants);
    RetryPassLaw(t, env, now, true, grants);
    SameQueueWindow(t, o.sender);
    WrittenSame(env, o.sender.pending, t.pending, BaseOf(t), o.written);
  }

  lemma ReplayLaw(s: Sender, env: Env, now: int, resumedLink: bool, grants: seq<nat>) returns (k: nat)
    requires Window(s) && Linked(s)
    ensures Moved(s, env, Replay(s, env, now, resumedLink, grants), k)
    ensures forall i :: 0 <= i < k ==> Discardable(env, s.pending[i])
  {
    hide Window, DropPrefix, RetryPass, Moved, Discardable;
    k := 0;
    RetryIdle(s, env);
    assert s.pending[0..] == s.pending;
    StillMoved(s, env, s, 0);
    if s.reliable && s.phase == Open && s.pending != [] {
      k := DropPrefixLaw(s, env, now, false);
      var t := DropPrefix(s, env, now, false);
      RetryIdle(t, env);
      StillMoved(s, env, t, k);
      RetryMoved(s, env, t, k, now, grants);
      ResetAttemptsSame(t.pending);
      var u := t.(pending := ResetAttempts(t.pending));
      SameQueueWindow(t, u);
      RetryMoved(s, env, u, k, now, grants);
    }
  }

  lemma CommitSendLaw(s: Sender, env: Env, resume: Resume, now: int, grants: seq<nat>) returns (k: nat)
    requires Window(s) && s.reliable
    ensures Moved(s, env, CommitSend(s, env, resume, now, grants), k)
    ensures forall i :: 0 <= i < k ==> Discardable(env, s.pending[i])
  {
    hide Replay, Moved, Discardable;
    var t := s.(phase := Open, confirmation := None);
    RetryIdle(s, env);
    assert s.pending[0..] == s.pending;
    StillMoved(s, env, t, 0);
    if resume.duplicateOpen {
      k := 0;
    } else {
      var u := if resume.enterRecovery then t.(recoveryNeedsAck := true, recoveryFramesSent := 0) else t;
      k := ReplayLaw(u, env, now, resume.resumedLink, grants);
      MovedFrom(s, u, env, Replay(u, env, now, resume.resumedLink, grants), k);
    }
  }

  lemma MovedFrom(s: Sender, t: Sender, env: Env, o: Outcome, k: nat)
    requires s.pending == t.pending && s.nextSeq == t.nextSeq && s.reliable == t.reliable
    requires Moved(t, env, o, k)
    ensures Moved(s, env, o, k)
  {
    hide Window, Written;
  }

  lemma AcknowledgedLaw(s: Sender, env: Env, ack: nat, now: int, grants: seq<nat>) returns (k: nat)
    requires Window(s) && Linked(s)
    ensures Moved(s, env, Acknowledged(s, env, ack, now, grants), k)
    ensures forall i :: 0 <= i < k ==> s.pending[i].seqNo <= ack
    ensures k > 0 ==> s.highestAck < ack < s.nextSeq
  {
    hide DropAcked, RetryPass, Moved;
    k := 0;
    RetryIdle(s, env);
    assert s.pending[0..] == s.pending;
    StillMoved(s, env, s, 0);
    if s.phase == Open && ack <= s.nextSeq - 1 && ack > s.highestAck {
      var u := s.(highestAck := ack);
      assert Window(u);
      hide Window;
      k := DropAckedLaw(u, ack);
      var t := DropAcked(u, ack);
      RetryIdle(t, env);
      StillMoved(s, env, t, k);
      var r := t.(recoveryNeedsAck := false, recoveryFramesSent := 0);
      SameQueueWindow(t, r);
      RetryMoved(s, env, r, k, now, grants);
    }
  }

  /** An ACK opens the link only when it answers the pending offer with a number in range; it
      then removes a prefix of acknowledged numbers, and what a resume drops first are only
      discardable messages. */
  lemma HandleAckLaw(s: Sender, env: Env, ack: nat, linkRequestId: Option<Text>, now: int,
                     replayGrants: seq<nat>, grants: seq<nat>) returns (d: nat, k: nat)
    requires Sane(s) && s.reliable
    ensures var c := Confirmed(s, env, ack, linkRequestId, now, replayGrants);
      && Moved(s, env, c, d)
      && Moved(c.sender, env, Acknowledged(c.sender, env, ack, now, grants), k)
      && (forall i :: 0 <= i < d ==> Discardable(env, s.pending[i]))
      && (forall i :: 0 <= i < k ==> c.sender.pending[i].seqNo <= ack)
      && (s.phase != Open && c.sender.phase == Open ==> Confirms(s, ack, linkRequestId))
      && (c.sender == s || Confirms(s, ack, linkRequestId))
  {
    hide CommitSend, Acknowledged, Moved, Window, Discardable;
    var c := Confirmed(s, env, ack, linkRequestId, now, replayGrants);
    d := 0;
    RetryIdle(s, env);
    assert s.pending[0..] == s.pending;
    StillMoved(s, env, s, 0);
    if Confirms(s, ack, linkRequestId) {
      d := CommitSendLaw(s, env, s.confirmation.value.resume, now, replayGrants);
    }
    assert Window(c.sender) && Linked(c.sender) by { MovedSane(s, env, c, d); }
    k := AcknowledgedLaw(c.sender, env, ack, now, grants);
  }

  lemma MovedSane(s: Sender, env: Env, o: Outcome, k: nat)
    requires Moved(s, env, o, k)
    ensures Sane(o.sender)
  {
  }

  lemma SameWindow(s: Sender, t: Sender)
    requires t.pending == s.pending && t.pendingBytes == s.pendingBytes
    requires t.nextSeq == s.nextSeq && t.highestAck == s.highestAck
    ensures Window(s) ==> Window(t)
    ensures Window(s) ==> Window(Abandon(s))
  {
  }

  /** Steps of the handshake and of closing keep the window and the link consistent. */
  lemma LinkStepsLaw(s: Sender, requestId: Text, resume: Resume, reliable: bool)
    requires Sane(s)
    ensures Sane(LinkDown(s)) && Sane(Disconnect(s)) && Sane(Close(s)) && Sane(Abandon(s))
    ensures Sane(SetReliable(s, reliable)) && Sane(CancelConfirm(s))
    ensures s.reliable ==> Sane(BeginConfirm(s, requestId, resume))
  {
    hide Window;
    SameWindow(s, LinkDown(s));
    SameWindow(s, Disconnect(s));
    SameWindow(LinkDown(s), LinkDown(s));
    SameWindow(Abandon(LinkDown(s)), Close(s));
    SameWindow(s, BeginConfirm(s, requestId, resume));
    SameWindow(s, CancelConfirm(s));
    SameWindow(s, s);
    var t := if s.reliable && !reliable then Abandon(s) else s;
    SameWindow(t, SetReliable(s, reliable));
  }

  // ---- Skips ----

  lemma SkipRequestLaw(s: Sender, env: Env, id: Text, now: int, online: bool, writable: nat)
    requires Sane(s)
    ensures var i, o := FindRequest(s.pending, id), SkipRequest(s, env, id, now, online, writable);
      && Sane(o.sender) && o.sender.nextSeq == s.nextSeq
      && (i == |s.pending| ==> o == Outcome(s, []))
      && (i < |s.pending| ==>
            && |o.sender.pending| == |s.pending|
            && (forall x :: 0 <= x < |s.pending| && x != i ==> SameMessage(s.pending[x], o.sender.pending[x]))
            && o.sender.pending[i].seqNo == s.pending[i].seqNo
            && o.sender.pending[i].header == s.pending[i].header
            && o.sender.pending[i].json == env.skipJson
            && o.sender.pending[i].bytes == SkipBytes(env, s.pending[i]))
      && Written(env, o.sender.pending, BaseOf(o.sender), o.written)
      && (o.written != [] ==> s.phase == Open)
  {
    hide SendAt, Window, Written, SkipBytes;
    var i := FindRequest(s.pending, id);
    RetryIdle(s, env);
    if i < |s.pending| {
      var t := Skipped(s, env, i);
      SkippedWindow(s, env, i);
      RetryIdle(t, env);
      var o := SendAt(t, env, i, now, writable);
      SendAtLaw(t, env, i, now, writable);
      SameQueueWindow(t, o.sender);
      WrittenSame(env, o.sender.pending, t.pending, BaseOf(t), o.written);
      assert SkipRequest(s, env, id, now, online, writable)
          == if !t.reliable || t.phase != Open || !online then Outcome(t, []) else o;
    }
  }

  function Skipped(s: Sender, env: Env, i: nat): Sender
    requires i < |s.pending|
  {
    var p := s.pending[i];
    var bytes := SkipBytes(env, p);
    s.(pending := s.pending[i := p.(json := env.skipJson, bytes := bytes, attempts := 0, sentAt := 0, sent := false)],
       pendingBytes := s.pendingBytes + bytes - p.bytes)
  }

  lemma SkippedWindow(s: Sender, env: Env, i: nat)
    requires Window(s) && i < |s.pending|
    ensures Window(Skipped(s, env, i))
  {
    hide SkipBytes;
    SumBytesUpdate(s.pending, i, Skipped(s, env, i).pending[i]);
  }

  // ---- Sizes ----

  /** An entry is charged its reservation, or the size of the skip that replaced it. */
  predicate Priced(env: Env, p: Pending) {
    || Reservation(env, p.header, p.json, p.seqNo) == Some(p.bytes)
    || (p.json == env.skipJson && p.bytes == SkipBytes(env, p))
  }

  predicate AllPriced(env: Env, ps: seq<Pending>) {
    forall i :: 0 <= i < |ps| ==> Priced(env, ps[i])
  }

  /** Printing a frame takes more room than the text it carries: at least the quotes and a key. */
  ghost predicate Wrapping(env: Env) {
    forall f: Envelope :: env.wire(f) >= ByteLength(f.body.data) + 3
  }

  lemma {:induction false} WireCoversText(env: Env, frames: seq<Envelope>)
    requires Wrapping(env)
    ensures WireBytes(env, frames) >= TotalBytes(PartsOf(frames)) + 3 * |frames|
  {
    if frames == [] {
    } else {
      WireCoversText(env, frames[1..]);
      assert PartsOf(frames)[1..] == PartsOf(frames[1..]);
      assert PartsOf(frames)[0] == frames[0].body.data;
      hide ByteLength;
    }
  }

  lemma EnoughForFrames(n: nat, text: nat, wire: nat)
    requires n >= 1 && (n - 1) * (MAX_CHUNK_BYTES - 3) <= text && wire >= text + 3 * n
    ensures (wire + MAX_CHUNK_BYTES - 1) / MAX_CHUNK_BYTES >= n
  {
    assert (n - 1) * MAX_CHUNK_BYTES == (n - 1) * (MAX_CHUNK_BYTES - 3) + 3 * (n - 1);
    assert wire + MAX_CHUNK_BYTES - 1 >= n * MAX_CHUNK_BYTES;
  }

  /** The estimate from the charged size never falls short of the real greedy split. */
  lemma EstimateCovers(env: Env, s: Sender, p: Pending)
    requires Wrapping(env) && Priced(env, p)
    ensures |FramesOf(env, s, p)| <= Estimate(p)
  {
    hide ByteLength, Split, WireBytes;
    SplitMessage(p.json);
    var full := Encode(p.header, env.streamId, p.json, p.seqNo, p.seqNo);
    if full.Some? {
      var n := |full.value|;
      assert PartsOf(full.value) == Split(p.json, MAX_CHUNK_BYTES);
      WireCoversText(env, full.value);
      assert p.bytes >= WireBytes(env, full.value);
      EnoughForFrames(n, ByteLength(p.json), p.bytes);
    }
  }

  lemma PricedSame(env: Env, ps: seq<Pending>, qs: seq<Pending>)
    requires SameMessages(ps, qs) && AllPriced(env, ps)
    ensures AllPriced(env, qs)
  {
    hide Reservation, SkipBytes;
    forall i | 0 <= i < |qs| ensures Priced(env, qs[i]) {
      assert Priced(env, ps[i]) && SameMessage(ps[i], qs[i]);
      SkipBytesSame(env, ps[i], qs[i]);
    }
  }

  lemma SkipBytesSame(env: Env, p: Pending, q: Pending)
    requires p.header == q.header && p.seqNo == q.seqNo
    ensures SkipBytes(env, p) == SkipBytes(env, q)
  {
  }

  /** Once something is on the wire in a pass, the pass stays within its budget. */
  lemma {:induction false} RetryWithinBudget(s: Sender, env: Env, now: int, ignoreInterval: bool, i: nat,
                                             spent: nat, grants: seq<nat>)
    requires Wrapping(env) && AllPriced(env, s.pending) && 0 < spent < env.budget
    ensures spent + |RetryFrom(s, env, now, ignoreInterval, i, spent, grants).written| <= env.budget
    decreases |s.pending| - i
  {
    hide RetryTurn, Priced, Estimate, FramesOf, SameQueue, Wrapping;
    if i < |s.pending| {
      var grant := if grants == [] then 0 else grants[0];
      RetryTurnLaw(s, env, now, ignoreInterval, i, spent, grant);
      EstimateCovers(env, s, s.pending[i]);
      match RetryTurn(s, env, now, ignoreInterval, i, spent, grant)
      case NotDue => RetryWithinBudget(s, env, now, ignoreInterval, i + 1, spent, grants);
      case Stop(_) =>
      case Wrote(t, frames) =>
        if spent + |frames| < env.budget {
          SameQueuePriced(env, s, t);
          RetryWithinBudget(t, env, now, ignoreInterval, i + 1, spent + |frames|,
                            if grants == [] then [] else grants[1..]);
        }
    }
  }

  lemma SameQueuePriced(env: Env, s: Sender, t: Sender)
    requires SameQueue(s, t) && AllPriced(env, s.pending)
    ensures AllPriced(env, t.pending)
  {
    PricedSame(env, s.pending, t.pending);
  }

  /** One retry pass writes at most its budget of frames, or else only frames of the first
      message it reaches, whose segments cannot be spread over passes. */
  lemma {:induction false} RetryPassBound(s: Sender, env: Env, now: int, ignoreInterval: bool, i: nat, grants: seq<nat>)
    requires Wrapping(env) && AllPriced(env, s.pending) && 1 <= env.budget
    ensures var w := RetryFrom(s, env, now, ignoreInterval, i, 0, grants).written;
      |w| <= env.budget || exists k :: i <= k < |s.pending| && w <= FramesOf(env, s, s.pending[k])
    decreases |s.pending| - i
  {
    hide Priced, Estimate, SameQueue, Wrapping, Encode, FramesOf;
    if i < |s.pending| {
      var grant := if grants == [] then 0 else grants[0];
      var turn := RetryTurn(s, env, now, ignoreInterval, i, 0, grant);
      RetryTurnLaw(s, env, now, ignoreInterval, i, 0, grant);
      assert turn.Wrote? ==> turn.frames <= FramesOf(env, s, s.pending[i]);
      hide RetryTurn;
      match turn
      case NotDue => RetryPassBound(s, env, now, ignoreInterval, i + 1, grants);
      case Stop(_) =>
      case Wrote(t, frames) =>
        if |frames| < env.budget {
          SameQueuePriced(env, s, t);
          RetryWithinBudget(t, env, now, ignoreInterval, i + 1, |frames|, if grants == [] then [] else grants[1..]);
        }
    }
  }

  /** An invoke reserved room for its own skip, so replacing it never grows the buffer. */
  lemma SkipNeverGrowsInvoke(s: Sender, env: Env, i: nat)
    requires i < |s.pending| && Priced(env, s.pending[i]) && s.pending[i].header.kind == Invoke
    ensures Skipped(s, env, i).pendingBytes <= s.pendingBytes
    ensures Priced(env, Skipped(s, env, i).pending[i])
  {
    hide Encode, WireBytes;
  }
}
