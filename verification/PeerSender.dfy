/** The sending end as an object that changes in place; each method does to the fields what the
    function of the same step in `Sender` does to the value. Frames that get out are returned; how many
    the socket takes before it fails is a parameter, as is the time. Nothing else of the client is kept
    here. */
module PeerSenders {
  import opened Text
  import opened Transport
  import opened Sender

  class PeerSender {
    const env: Env
    var pending: seq<Pending>
    var pendingBytes: int
    var nextSeq: nat
    var highestAck: nat
    var phase: Phase
    var confirmation: Option<Confirmation>
    var reliable: bool
    var explicitlyClosed: bool
    var peerResettable: bool
    var recoveryNeedsAck: bool
    var recoveryFramesSent: nat

    function State(): Sender
      reads this
    {
      Sender(pending, pendingBytes, nextSeq, highestAck, phase, confirmation, reliable, explicitlyClosed,
             peerResettable, recoveryNeedsAck, recoveryFramesSent)
    }

    constructor (env: Env)
      ensures this.env == env && State() == FRESH
    {
      this.env := env;
      pending, pendingBytes, nextSeq, highestAck := [], 0, 1, 0;
      phase, confirmation, reliable, explicitlyClosed := Down, None, false, false;
      peerResettable, recoveryNeedsAck, recoveryFramesSent := false, false, 0;
    }

    method RemoveHead()
      requires pending != []
      modifies this`pending, this`pendingBytes
      ensures State() == DropHead(old(State()))
    {
      pendingBytes := pendingBytes - pending[0].bytes;
      pending := pending[1..];
    }

    method DropDiscardablePrefix(now: int, expiredOnly: bool)
      modifies this`pending, this`pendingBytes
      ensures State() == DropPrefix(old(State()), env, now, expiredOnly)
    {
      while pending != []
        invariant unchanged(`nextSeq, `highestAck, `phase, `confirmation, `reliable, `explicitlyClosed)
        invariant unchanged(`peerResettable, `recoveryNeedsAck, `recoveryFramesSent)
        invariant DropPrefix(State(), env, now, expiredOnly) == DropPrefix(old(State()), env, now, expiredOnly)
        decreases |pending|
      {
        var head := pending[0];
        if !Discardable(env, head) {
          break;
        }
        if expiredOnly && head.header.kind.Push? && now - head.enqueuedAt < PUSH_MAX_AGE {
          break;
        }
        RemoveHead();
      }
    }

    method DropOldestForAdmission(reserved: nat)
      modifies this`pending, this`pendingBytes
      ensures State() == DropForAdmission(old(State()), env, reserved)
    {
      while |pending| >= MAX_PENDING_MESSAGES || pendingBytes + reserved > MAX_PENDING_BYTES
        invariant unchanged(`nextSeq, `highestAck, `phase, `confirmation, `reliable, `explicitlyClosed)
        invariant unchanged(`peerResettable, `recoveryNeedsAck, `recoveryFramesSent)
        invariant DropForAdmission(State(), env, reserved) == DropForAdmission(old(State()), env, reserved)
        decreases |pending|
      {
        if pending == [] || !Evictable(env, pending[0]) {
          break;
        }
        RemoveHead();
      }
    }

    /** Write the frames of entry `i` one by one; the socket takes `writable` of them, then throws. */
    method SendFrames(i: nat, now: int, writable: nat) returns (written: seq<Envelope>)
      requires i < |pending|
      modifies this`pending
      ensures Outcome(State(), written) == SendAt(old(State()), env, i, now, writable)
      ensures written == [] ==> State() == old(State())
    {
      hide Encode, BaseOf;
      var p := pending[i];
      var frames := FramesOf(env, State(), p);
      written := [];
      while |written| < |frames| && |written| < writable
        invariant |written| <= |frames| && |written| <= writable && written == frames[..|written|]
        invariant pending == if written == [] then old(pending) else old(pending)[i := p.(sent := true)]
      {
        pending := pending[i := pending[i].(sent := true)];
        written := written + [frames[|written|]];
      }
      if written != [] {
        pending := pending[i := pending[i].(attempts := p.attempts + 1, sentAt := now)];
        assert pending == old(pending)[i := p.(sent := true, attempts := p.attempts + 1, sentAt := now)];
      }
    }

    method NoteRecovery(frames: nat)
      modifies this`recoveryFramesSent
      ensures State() == Note(old(State()), frames)
    {
      if recoveryNeedsAck {
        recoveryFramesSent := recoveryFramesSent + frames;
      }
    }

    method MarkLinkDown()
      modifies this`phase, this`confirmation
      ensures State() == LinkDown(old(State()))
    {
      phase, confirmation := Down, None;
    }

    method GiveUpRetrying()
      modifies this
      ensures State() == Exhausted(old(State()))
    {
      MarkLinkDown();
      if !peerResettable {
        recoveryNeedsAck, recoveryFramesSent := true, 0;
      }
    }

    method AbandonPending()
      modifies this`pending, this`pendingBytes
      ensures State() == Abandon(old(State()))
    {
      pending, pendingBytes := [], 0;
    }

    /** Entry `i` has its turn in a pass; the pass may end with it. */
    method TakeTurn(i: nat, now: int, ignoreInterval: bool, spent: nat, grant: nat)
      returns (goOn: bool, frames: seq<Envelope>)
      requires i < |pending|
      modifies this
      ensures match RetryTurn(old(State()), env, now, ignoreInterval, i, spent, grant)
        case NotDue => goOn && frames == [] && State() == old(State())
        case Stop(t) => !goOn && State() == t
        case Wrote(t, written) => goOn && frames == written && frames != [] && State() == t
    {
      hide FramesOf, SendAt, ShouldHold, Exhausted, Note, Estimate;
      var p := pending[i];
      if !ignoreInterval && now - p.sentAt < env.interval {
        return true, [];
      }
      if p.attempts >= env.maxAttempts {
        GiveUpRetrying();
        return false, [];
      }
      if (!p.sent && ShouldHold(State(), env, Estimate(p))) || (spent > 0 && spent + Estimate(p) > env.budget) {
        return false, [];
      }
      frames := SendFrames(i, now, grant);
      if frames != [] && (!p.sent || (recoveryNeedsAck && ignoreInterval)) {
        NoteRecovery(|frames|);
      }
      return frames != [], frames;
    }

    /** One retry pass over the queue, oldest first. Every attempt to write takes the next grant. */
    method RetryPending(now: int, ignoreInterval: bool, grants: seq<nat>) returns (written: seq<Envelope>)
      modifies this
      ensures Outcome(State(), written) == RetryPass(old(State()), env, now, ignoreInterval, grants)
    {
      written := [];
      if !reliable || phase != Open {
        return;
      }
      hide RetryTurn, RetryFrom, Pass;
      PassStarts(State(), env, now, ignoreInterval, grants);
      var i: nat, spent: nat, left := 0, 0, grants;
      while i < |pending|
        invariant Pass(old(State()), env, now, ignoreInterval, grants, State(), i, spent, left, written)
        decreases |pending| - i
      {
        var grant := if left == [] then 0 else left[0];
        ghost var s := State();
        PassUnfolds(old(State()), env, now, ignoreInterval, grants, s, i, spent, left, written);
        var goOn, frames := TakeTurn(i, now, ignoreInterval, spent, grant);
        if !goOn {
          return;
        }
        if frames != [] {
          written, spent := written + frames, spent + |frames|;
          if spent >= env.budget {
            return;
          }
          left := if left == [] then [] else left[1..];
        }
        i := i + 1;
      }
      PassEnds(old(State()), env, now, ignoreInterval, grants, State(), i, spent, left, written);
    }

    static lemma PassStarts(s: Sender, env: Env, now: int, ignoreInterval: bool, grants: seq<nat>)
      ensures Pass(s, env, now, ignoreInterval, grants, s, 0, 0, grants, [])
    {
      hide RetryFrom;
      var r := RetryFrom(s, env, now, ignoreInterval, 0, 0, grants);
      assert [] + r.written == r.written;
    }

    static lemma PassEnds(start: Sender, env: Env, now: int, ignoreInterval: bool, grants: seq<nat>,
                          s: Sender, i: nat, spent: nat, left: seq<nat>, written: seq<Envelope>)
      requires Pass(start, env, now, ignoreInterval, grants, s, i, spent, left, written) && i >= |s.pending|
      ensures RetryFrom(start, env, now, ignoreInterval, 0, 0, grants) == Outcome(s, written)
    {
      hide RetryTurn;
      assert RetryFrom(s, env, now, ignoreInterval, i, spent, left) == Outcome(s, []);
      assert written + [] == written;
    }

    /** What is left of a pass after some turns, put behind what those turns wrote, is the pass. */
    static ghost predicate Pass(start: Sender, env: Env, now: int, ignoreInterval: bool, grants: seq<nat>,
                                s: Sender, i: nat, spent: nat, left: seq<nat>, written: seq<Envelope>) {
      var rest := RetryFrom(s, env, now, ignoreInterval, i, spent, left);
      RetryFrom(start, env, now, ignoreInterval, 0, 0, grants) == Outcome(rest.sender, written + rest.written)
    }

    static lemma PassUnfolds(start: Sender, env: Env, now: int, ignoreInterval: bool, grants: seq<nat>,
                             s: Sender, i: nat, spent: nat, left: seq<nat>, written: seq<Envelope>)
      requires Pass(start, env, now, ignoreInterval, grants, s, i, spent, left, written) && i < |s.pending|
      ensures match RetryTurn(s, env, now, ignoreInterval, i, spent, if left == [] then 0 else left[0])
        case NotDue => Pass(start, env, now, ignoreInterval, grants, s, i + 1, spent, left, written)
        case Stop(t) => RetryFrom(start, env, now, ignoreInterval, 0, 0, grants) == Outcome(t, written)
        case Wrote(t, frames) =>
          && |t.pending| == |s.pending|
          && if spent + |frames| >= env.budget then
               RetryFrom(start, env, now, ignoreInterval, 0, 0, grants) == Outcome(t, written + frames)
             else Pass(start, env, now, ignoreInterval, grants, t, i + 1, spent + |frames|,
                       if left == [] then [] else left[1..], written + frames)
    {
      hide RetryTurn;
      match RetryTurn(s, env, now, ignoreInterval, i, spent, if left == [] then 0 else left[0])
      case NotDue =>
      case Stop(_) =>
      case Wrote(t, frames) =>
        var rest := RetryFrom(t, env, now, ignoreInterval, i + 1, spent + |frames|,
                              if left == [] then [] else left[1..]);
        assert written + (frames + rest.written) == (written + frames) + rest.written;
    }

    method ReplayPending(now: int, resumedLink: bool, grants: seq<nat>) returns (written: seq<Envelope>)
      modifies this
      ensures Outcome(State(), written) == Replay(old(State()), env, now, resumedLink, grants)
    {
      hide RetryPass, DropPrefix;
      if !reliable || phase != Open || pending == [] {
        return [];
      }
      DropDiscardablePrefix(now, false);
      if pending == [] {
        return [];
      }
      if resumedLink {
        ResetAllAttempts();
      }
      written := RetryPending(now, true, grants);
    }

    method ResetAllAttempts()
      modifies this`pending
      ensures State() == old(State()).(pending := ResetAttempts(old(pending)))
    {
      var i := 0;
      while i < |pending|
        invariant i <= |pending| == |old(pending)|
        invariant pending[i..] == old(pending)[i..]
        invariant pending[..i] + ResetAttempts(pending[i..]) == ResetAttempts(old(pending))
      {
        ghost var before := pending;
        pending := pending[i := pending[i].(attempts := 0, sentAt := 0)];
        assert before[i..][1..] == before[i + 1..] == pending[i + 1..];
        assert before[..i] + ResetAttempts(before[i..])
            == before[..i] + ([pending[i]] + ResetAttempts(pending[i + 1..]))
            == pending[..i + 1] + ResetAttempts(pending[i + 1..]);
        i := i + 1;
      }
      assert pending[..i] + ResetAttempts(pending[i..]) == pending;
    }

    /** The sending direction is confirmed. */
    method CommitResume(resume: Resume, now: int, grants: seq<nat>) returns (written: seq<Envelope>)
      modifies this
      ensures Outcome(State(), written) == CommitSend(old(State()), env, resume, now, grants)
    {
      hide Replay;
      phase, confirmation := Open, None;
      if resume.duplicateOpen {
        return [];
      }
      if resume.enterRecovery {
        recoveryNeedsAck, recoveryFramesSent := true, 0;
      }
      written := ReplayPending(now, resume.resumedLink, grants);
    }

    method HandleTransportAck(ack: nat, linkRequestId: Option<Text>, now: int,
                              replayGrants: seq<nat>, grants: seq<nat>) returns (written: seq<Envelope>)
      modifies this
      ensures Outcome(State(), written) == HandleAck(old(State()), env, ack, linkRequestId, now, replayGrants, grants)
    {
      hide CommitSend, RetryPass;
      written := [];
      if !reliable {
        return;
      }
      if phase == AwaitingConfirm && confirmation.Some?
         && linkRequestId == Some(confirmation.value.requestId)
         && confirmation.value.minimumAck <= ack <= nextSeq - 1 {
        written := CommitResume(confirmation.value.resume, now, replayGrants);
      }
      if phase != Open || ack > nextSeq - 1 || ack <= highestAck {
        return;
      }
      highestAck := ack;
      RemoveAcked(ack);
      if recoveryNeedsAck {
        recoveryNeedsAck, recoveryFramesSent := false, 0;
        var more := RetryPending(now, true, grants);
        written := written + more;
      }
    }

    method RemoveAcked(ack: nat)
      modifies this`pending, this`pendingBytes
      ensures State() == DropAcked(old(State()), ack)
    {
      while pending != [] && pending[0].seqNo <= ack
        invariant unchanged(`nextSeq, `highestAck, `phase, `confirmation, `reliable, `explicitlyClosed)
        invariant unchanged(`peerResettable, `recoveryNeedsAck, `recoveryFramesSent)
        invariant DropAcked(State(), ack) == DropAcked(old(State()), ack)
        decreases |pending|
      {
        RemoveHead();
      }
    }

    method BeginLinkConfirmation(requestId: Text, resume: Resume)
      modifies this`phase, this`confirmation
      ensures State() == BeginConfirm(old(State()), requestId, resume)
    {
      var wasOpen := if confirmation.Some? then confirmation.value.wasOpen else phase == Open;
      phase := AwaitingConfirm;
      confirmation := Some(Confirmation(requestId, BaseOf(State()) - 1, resume, wasOpen));
    }

    method CancelLinkConfirmation()
      modifies this`phase, this`confirmation
      ensures State() == CancelConfirm(old(State()))
    {
      if confirmation.None? {
        return;
      }
      if phase == AwaitingConfirm {
        phase := if confirmation.value.wasOpen then Open else Down;
      }
      confirmation := None;
    }

    method FindPending(id: Text) returns (i: nat)
      ensures i == FindRequest(pending, id)
    {
      i := 0;
      while i < |pending| && pending[i].header.id != id
        invariant i <= |pending|
        invariant FindRequest(pending, id) == i + FindRequest(pending[i..], id)
      {
        assert pending[i..][1..] == pending[i + 1..];
        i := i + 1;
      }
    }

    /** A request timed out or was refused for good: its message becomes a skip in place. */
    method DropForRequest(id: Text, now: int, online: bool, writable: nat) returns (written: seq<Envelope>)
      modifies this`pending, this`pendingBytes
      ensures Outcome(State(), written) == SkipRequest(old(State()), env, id, now, online, writable)
    {
      hide SendAt, SkipBytes, FindRequest;
      var i := FindPending(id);
      if i == |pending| {
        return [];
      }
      var p := pending[i];
      var bytes := SkipBytes(env, p);
      pendingBytes := pendingBytes + bytes - p.bytes;
      pending := pending[i := p.(json := env.skipJson, bytes := bytes, attempts := 0, sentAt := 0, sent := false)];
      if !reliable || phase != Open || !online {
        return [];
      }
      written := SendFrames(i, now, writable);
    }

    method Send(m: Sending) returns (written: seq<Envelope>, verdict: Verdict)
      modifies this
      ensures Sent(State(), written, verdict) == SendMessage(old(State()), env, m)
    {
      hide Encode, Reservation, DropPrefix, DropForAdmission, ShouldHold, Append;
      if explicitlyClosed && phase != Open && !m.legacyAllowed {
        return [], Closed;
      }
      if !reliable {
        return [], Unwrapped;
      }
      if phase != Open && pending != [] && m.now - pending[0].enqueuedAt > env.stalledAge {
        AbandonPending();
      }
      var frames := Encode(m.header, env.streamId, m.json, nextSeq, BaseOf(State()));
      var reservation := Reservation(env, m.header, m.json, nextSeq);
      if frames.None? || reservation.None? {
        return [], TooLarge;
      }
      var reserved := reservation.value;
      var sendNow := phase == Open && !ShouldHold(State(), env, |frames.value|);
      if sendNow && !m.socketRoom {
        return [], Backpressure;
      }
      if !HasCapacity(State(), reserved) {
        if m.header.kind.InvokeResult? {
          DropDiscardablePrefix(m.now, false);
        } else if m.header.kind.Push? && m.coalescible {
          DropOldestForAdmission(reserved);
        } else {
          DropDiscardablePrefix(m.now, true);
        }
      }
      if !HasCapacity(State(), reserved) {
        return [], Backpressure;
      }
      written, verdict := Enqueue(m, reserved, sendNow);
    }

    /** Append, and write at once if asked to; a message of which nothing got out is taken back. */
    method Enqueue(m: Sending, reserved: nat, sendNow: bool) returns (written: seq<Envelope>, verdict: Verdict)
      modifies this
      ensures Sent(State(), written, verdict) == Append(old(State()), env, m, reserved, sendNow)
    {
      hide SendAt;
      var at := |pending|;
      var p := Pending(nextSeq, m.header, m.json, m.coalescible, reserved, 0, 0, false, m.now);
      pending, pendingBytes, nextSeq := pending + [p], pendingBytes + reserved, nextSeq + 1;
      if !sendNow {
        return [], Accepted;
      }
      ghost var queued := State();
      Unwritten(queued, env, at, m.now, m.writable);
      written := SendFrames(at, m.now, m.writable);
      if written == [] {
        pending, pendingBytes, nextSeq := pending[..at], pendingBytes - reserved, nextSeq - 1;
        assert pending == old(pending);
        return [], Backpressure;
      }
      NoteRecovery(|written|);
      return written, Accepted;
    }

    static lemma Unwritten(s: Sender, env: Env, i: nat, now: int, writable: nat)
      requires i < |s.pending|
      ensures var o := SendAt(s, env, i, now, writable); o.written == [] ==> o.sender == s
    {
      hide FramesOf;
    }

    method ChangeReliability(wanted: bool)
      modifies this
      ensures State() == SetReliable(old(State()), wanted)
    {
      if reliable && !wanted {
        AbandonPending();
      }
      if !wanted {
        MarkLinkDown();
      }
      reliable, explicitlyClosed := wanted, false;
    }

    method CloseForGood()
      modifies this
      ensures State() == Close(old(State()))
    {
      MarkLinkDown();
      AbandonPending();
      explicitlyClosed, reliable := true, false;
    }
  }
}
