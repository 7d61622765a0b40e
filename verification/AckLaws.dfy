/** What an ACK releases, which ACK opens the link, and what opening it sends again. */
module AckLaws {
  import opened Text
  import opened Sender
  import opened SenderLaws
  import opened RetryLaws

  /** `s` without its first `k` messages. */
  function Rest(s: Sender, k: nat): Sender
    requires k <= |s.pending|
  {
    s.(pending := s.pending[k..], pendingBytes := SumBytes(s.pending[k..]))
  }

  /** The first `k` messages are exactly those numbered up to `ack`. */
  predicate Cut(ps: seq<Pending>, ack: nat, k: nat) {
    && k <= |ps|
    && (forall i :: 0 <= i < k ==> ps[i].seqNo <= ack)
    && (forall i :: k <= i < |ps| ==> ps[i].seqNo > ack)
  }

  /** Numbers of the queue ascend, so some `k` cuts it. */
  lemma CutExists(s: Sender, ack: nat) returns (k: nat)
    requires Window(s)
    ensures Cut(s.pending, ack, k)
  {
    var base := BaseOf(s);
    k := if ack < base then 0 else if ack >= s.nextSeq then |s.pending| else ack + 1 - base;
  }

  lemma CutOnce(ps: seq<Pending>, ack: nat, k: nat, d: nat)
    requires Cut(ps, ack, k) && Cut(ps, ack, d)
    ensures k == d
  {
    var i := Min(k, d);
    var first := if i < |ps| then ps[i].seqNo else 0;
  }

  /** On an open link an ACK that is new and in range releases exactly the numbers it covers, and
      the first such ACK of a recovery ends it and sends the rest again; any other ACK does nothing. */
  lemma AckReleases(s: Sender, env: Env, ack: nat, linkRequestId: Option<Text>, now: int,
                    replayGrants: seq<nat>, grants: seq<nat>) returns (k: nat)
    requires Sane(s) && s.phase == Open
    ensures Cut(s.pending, ack, k)
    ensures var o, released := HandleAck(s, env, ack, linkRequestId, now, replayGrants, grants),
                               Rest(s, k).(highestAck := ack);
      if ack <= s.highestAck || ack >= s.nextSeq then o == Outcome(s, [])
      else if !s.recoveryNeedsAck then o == Outcome(released, [])
      else o == RetryPass(released.(recoveryNeedsAck := false, recoveryFramesSent := 0), env, now, true, grants)
  {
    hide RetryPass, DropAcked;
    k := CutExists(s, ack);
    if s.highestAck < ack < s.nextSeq {
      var u := s.(highestAck := ack);
      var d := DropAckedLaw(u, ack);
      CutOnce(s.pending, ack, k, d);
      assert DropAcked(u, ack) == Rest(s, k).(highestAck := ack);
    }
  }

  /** What an ACK leaves of the queue, whatever the replay of a recovery then writes. */
  lemma AckLeaves(s: Sender, env: Env, ack: nat, linkRequestId: Option<Text>, now: int,
                  replayGrants: seq<nat>, grants: seq<nat>)
    requires Sane(s) && s.phase == Open && s.highestAck < ack < s.nextSeq
    ensures var t := HandleAck(s, env, ack, linkRequestId, now, replayGrants, grants).sender;
      && t.highestAck == ack
      && (forall p <- t.pending :: p.seqNo > ack)
      && (forall p <- s.pending :: p.seqNo > ack ==> exists q <- t.pending :: SameMessage(p, q))
      && (t.recoveryNeedsAck ==> t.phase == Down)
  {
    hide RetryPass, SameMessage;
    var k := AckReleases(s, env, ack, linkRequestId, now, replayGrants, grants);
    var released := Rest(s, k).(highestAck := ack);
    var u := released.(recoveryNeedsAck := false, recoveryFramesSent := 0);
    var t := HandleAck(s, env, ack, linkRequestId, now, replayGrants, grants).sender;
    if s.recoveryNeedsAck {
      RetryPassLaw(u, env, now, true, grants);
      RecoveryStaysOver(u, env, now, grants);
    } else {
      SameMessagesSelf(t.pending);
    }
    assert SameMessages(released.pending, t.pending);
    forall p <- s.pending | p.seqNo > ack ensures exists q <- t.pending :: SameMessage(p, q) {
      var i :| 0 <= i < |s.pending| && s.pending[i] == p;
      assert released.pending[i - k] == p;
      assert SameMessage(p, t.pending[i - k]) && t.pending[i - k] in t.pending;
    }
    forall q <- t.pending ensures q.seqNo > ack {
      var i :| 0 <= i < |t.pending| && t.pending[i] == q;
      assert SameMessage(s.pending[k + i], q);
      NumberOfSame(s.pending[k + i], q);
    }
  }

  lemma NumberOfSame(p: Pending, q: Pending)
    requires SameMessage(p, q)
    ensures p.seqNo == q.seqNo
  {
  }

  lemma SameMessagesSelf(ps: seq<Pending>)
    ensures SameMessages(ps, ps)
  {
  }

  lemma RecoveryStaysOver(s: Sender, env: Env, now: int, grants: seq<nat>)
    requires !s.recoveryNeedsAck && s.phase == Open
    ensures var t := RetryPass(s, env, now, true, grants).sender; t.recoveryNeedsAck ==> t.phase == Down
  {
    hide RetryPass, Served, Waits, FramesAt, Estimate;
    var ks := RetryPassIs(s, env, now, true, grants);
  }

  // ---- Opening the link ----

  predicate Stale(env: Env, p: Pending) {
    p.header.kind.Push? || env.j.Skip(p.json)
  }

  /** The first `k` messages are the longest run of stale ones. */
  predicate LongestStale(env: Env, ps: seq<Pending>, k: nat) {
    && k <= |ps|
    && (forall i :: 0 <= i < k ==> Stale(env, ps[i]))
    && (k < |ps| ==> !Stale(env, ps[k]))
  }

  /** Every message as if it had not been tried on this link. */
  function Untried(ps: seq<Pending>): seq<Pending> {
    seq(|ps|, i requires 0 <= i < |ps| => ps[i].(attempts := 0, sentAt := 0))
  }

  lemma {:induction false} UntriedIs(ps: seq<Pending>)
    ensures ResetAttempts(ps) == Untried(ps)
  {
    if ps != [] {
      UntriedIs(ps[1..]);
      assert Untried(ps) == [ps[0].(attempts := 0, sentAt := 0)] + Untried(ps[1..]);
    }
  }

  lemma StaleDropped(s: Sender, env: Env, now: int) returns (k: nat)
    requires Window(s)
    ensures k <= |s.pending| && LongestStale(env, s.pending, k) && DropPrefix(s, env, now, false) == Rest(s, k)
    ensures s.pending == [] ==> Rest(s, k) == s
  {
    hide DropPrefix;
    k := DropPrefixLaw(s, env, now, false);
  }

  /** A replay drops the stale front of the queue and sends the rest at once, with fresh attempts
      when the link is a resumed one. */
  lemma ReplaySends(s: Sender, env: Env, now: int, resumedLink: bool, grants: seq<nat>) returns (k: nat)
    requires Sane(s) && s.phase == Open
    ensures LongestStale(env, s.pending, k)
    ensures var o, rest := Replay(s, env, now, resumedLink, grants), Rest(s, k);
      if rest.pending == [] then o == Outcome(rest, [])
      else o == RetryPass(if resumedLink then rest.(pending := Untried(rest.pending)) else rest, env, now, true, grants)
  {
    hide RetryPass, DropPrefix, LongestStale, ResetAttempts, Untried, Window;
    k := StaleDropped(s, env, now);
    UntriedIs(s.pending[k..]);
  }

  /** Where the sender stands when the peer has confirmed its offer. */
  function Opened(s: Sender, enterRecovery: bool): Sender {
    var t := s.(phase := Open, confirmation := None);
    if enterRecovery then t.(recoveryNeedsAck := true, recoveryFramesSent := 0) else t
  }

  /** A confirmed link is open; unless it already was, the queue is replayed on it. */
  lemma CommitOpens(s: Sender, env: Env, resume: Resume, now: int, grants: seq<nat>) returns (k: nat)
    requires Sane(s) && s.reliable
    ensures LongestStale(env, s.pending, k)
    ensures var o := CommitSend(s, env, resume, now, grants);
      if resume.duplicateOpen then o == Outcome(Opened(s, false), [])
      else
        var rest := Rest(Opened(s, resume.enterRecovery), k);
        if rest.pending == [] then o == Outcome(rest, [])
        else o == RetryPass(if resume.resumedLink then rest.(pending := Untried(rest.pending)) else rest,
                            env, now, true, grants)
  {
    hide RetryPass, Replay, SumBytes;
    k := ReplaySends(Opened(s, resume.enterRecovery), env, now, resume.resumedLink, grants);
  }

  /** While an offer is out, the ACK that answers it with a number in its range commits it and then
      counts on the link as it now is; any other ACK does nothing. */
  lemma AckAnswers(s: Sender, env: Env, ack: nat, linkRequestId: Option<Text>, now: int,
                   replayGrants: seq<nat>, grants: seq<nat>)
    requires Sane(s) && s.phase == AwaitingConfirm
    ensures var o, offer := HandleAck(s, env, ack, linkRequestId, now, replayGrants, grants), s.confirmation.value;
      if linkRequestId == Some(offer.requestId) && offer.minimumAck <= ack < s.nextSeq then
        var c := CommitSend(s, env, offer.resume, now, replayGrants);
        var r := HandleAck(c.sender, env, ack, None, now, [], grants);
        o == Outcome(r.sender, c.written + r.written)
      else o == Outcome(s, [])
  {
    hide CommitSend, Acknowledged;
    var offer := s.confirmation.value;
    CommitSettles(s, env, offer.resume, now, replayGrants);
    NothingAcknowledged(s, env, ack, now, grants);
  }

  lemma CommitSettles(s: Sender, env: Env, resume: Resume, now: int, grants: seq<nat>)
    requires Sane(s) && s.reliable
    ensures var t := CommitSend(s, env, resume, now, grants).sender; t.phase != AwaitingConfirm && t.reliable
  {
    hide RetryPass, CommitSend, SumBytes;
    var k := CommitOpens(s, env, resume, now, grants);
    var rest := Rest(Opened(s, resume.enterRecovery), k);
    RetryPassLaw(rest, env, now, true, grants);
    RetryPassLaw(rest.(pending := Untried(rest.pending)), env, now, true, grants);
  }

  lemma NothingAcknowledged(s: Sender, env: Env, ack: nat, now: int, grants: seq<nat>)
    requires s.phase != Open
    ensures Acknowledged(s, env, ack, now, grants) == Outcome(s, [])
  {
  }

  /** On a link that is down an ACK does nothing. */
  lemma AckOfDeadLink(s: Sender, env: Env, ack: nat, linkRequestId: Option<Text>, now: int,
                      replayGrants: seq<nat>, grants: seq<nat>)
    requires s.phase == Down || !s.reliable
    ensures HandleAck(s, env, ack, linkRequestId, now, replayGrants, grants) == Outcome(s, [])
  {
  }

  // ---- Offers ----

  /** An offer asks for an ACK from just below the baseline on, and taking it back leaves what there
      was before the first offer that is still out. */
  lemma OfferTakenBack(s: Sender, requestId: Text, resume: Resume)
    requires Sane(s)
    ensures var t := BeginConfirm(s, requestId, resume);
      && t.phase == AwaitingConfirm && t.confirmation.Some?
      && t.confirmation.value.requestId == requestId && t.confirmation.value.resume == resume
      && t.confirmation.value.minimumAck == BaseOf(s) - 1
      && t.pending == s.pending
      && CancelConfirm(t) == CancelConfirm(s)
    ensures s.phase != AwaitingConfirm ==> CancelConfirm(s) == s
  {
  }

  // ---- Losing the link and closing ----

  /** `s` does not write, whatever it is asked. */
  predicate Silent(s: Sender, env: Env, m: Sending, ack: nat, id: Option<Text>, now: int, grants: seq<nat>,
                   more: seq<nat>) {
    && SendMessage(s, env, m).written == []
    && HandleAck(s, env, ack, id, now, grants, more) == Outcome(s, [])
    && RetryPass(s, env, now, false, grants) == Outcome(s, [])
    && Replay(s, env, now, true, grants) == Outcome(s, [])
  }

  /** A closed sender holds nothing, takes nothing and writes nothing until a reliable link is negotiated
      again, and its numbers go on from where they were. */
  lemma ClosedIsSilent(s: Sender, env: Env, m: Sending, ack: nat, id: Option<Text>, now: int, grants: seq<nat>,
                       more: seq<nat>)
    ensures var t := Close(s);
      && Silent(t, env, m, ack, id, now, grants, more)
      && SendMessage(t, env, m) == Sent(t, [], if m.legacyAllowed then Unwrapped else Closed)
      && t.pending == [] && t.pendingBytes == 0
    ensures var u := SetReliable(Close(s), true);
      && u.pending == [] && u.pendingBytes == 0 && u.nextSeq == s.nextSeq && u.highestAck == s.highestAck
      && u.reliable && !u.explicitlyClosed && u.phase == Down && u.confirmation.None?
  {
    hide RetryFrom, DropPrefix, Reservation;
  }

  /** A lost link keeps the whole queue and writes nothing until it is opened again; after a lost connection
      that will be a recovery. */
  lemma LostLinkKeepsQueue(s: Sender, env: Env, m: Sending, ack: nat, now: int, grants: seq<nat>, more: seq<nat>)
    requires s.reliable
    ensures var t := Disconnect(s);
      && Silent(t, env, m, ack, None, now, grants, more)
      && t.pending == s.pending && t.pendingBytes == s.pendingBytes && t.nextSeq == s.nextSeq
      && t.highestAck == s.highestAck && t.reliable && t.confirmation.None?
      && t.recoveryNeedsAck && t.recoveryFramesSent == 0
    ensures var t := LinkDown(s);
      && Silent(t, env, m, ack, None, now, grants, more)
      && t.pending == s.pending && t.recoveryNeedsAck == s.recoveryNeedsAck
      && t.recoveryFramesSent == s.recoveryFramesSent
  {
    hide RetryFrom, DropPrefix, Reservation, MakeRoom, ShouldHold;
  }

  /** A peer that no longer speaks the reliable transport gives up the queue; one that does keeps it, and its
      link as it is. */
  lemma NegotiationKeepsOrDrops(s: Sender)
    requires Sane(s)
    ensures var t := SetReliable(s, true); t == s.(reliable := true, explicitlyClosed := false)
    ensures var t := SetReliable(s, false);
      t.phase == Down && t.confirmation.None? && !t.reliable && t.nextSeq == s.nextSeq
      && (s.reliable ==> t.pending == [] && t.pendingBytes == 0)
  {
  }
}
