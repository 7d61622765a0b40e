/** The sending end of one reliable stream: the window of unacknowledged messages, the link
    phase that gates writing, prefix eviction, skips, retries and rollback, as functions on the
    sender's state. What the socket takes and what the clock says are arguments. `PeerSender.dfy` is
    the object that runs them in place. */
module Sender {
  import opened Text
  import opened Transport
  import opened Receiver

  const MAX_PENDING_MESSAGES := 64
  const MAX_PENDING_BYTES := 16 * 1024 * 1024
  const PUSH_MAX_AGE := 5 * 60_000

  /** One unacknowledged message. `coalescible` tells the mirror channels apart. */
  datatype Pending = Pending(seqNo: nat, header: Header, json: Text, coalescible: bool, bytes: nat,
                             attempts: nat, sentAt: int, sent: bool, enqueuedAt: int)

  datatype Phase = Down | AwaitingConfirm | Open

  datatype Resume = Resume(duplicateOpen: bool, resumedLink: bool, enterRecovery: bool)

  datatype Confirmation = Confirmation(requestId: Text, minimumAck: int, resume: Resume, wasOpen: bool)

  datatype Sender = Sender(pending: seq<Pending>, pendingBytes: int, nextSeq: nat, highestAck: nat,
                           phase: Phase, confirmation: Option<Confirmation>, reliable: bool,
                           explicitlyClosed: bool, peerResettable: bool,
                           recoveryNeedsAck: bool, recoveryFramesSent: nat)

  /** What the sender is run with: its stream id, the JSON parser, the printed size of a frame,
      the printed skip marker, and the retry settings. */
  datatype Env = Env(streamId: Text, j: Json, wire: Envelope -> nat, skipJson: Text,
                     budget: nat, maxAttempts: nat, interval: int, stalledAge: int)

  datatype Outcome = Outcome(sender: Sender, written: seq<Envelope>)

  const FRESH := Sender([], 0, 1, 0, Down, None, false, false, false, false, 0)

  // ---- Window ----

  function BaseOf(s: Sender): nat {
    if s.pending == [] then s.nextSeq else s.pending[0].seqNo
  }

  predicate IsSkip(env: Env, p: Pending) {
    env.j.Skip(p.json)
  }

  predicate Discardable(env: Env, p: Pending) {
    p.header.kind.Push? || IsSkip(env, p)
  }

  /** The narrower test for making room for a mirror push. */
  predicate Evictable(env: Env, p: Pending) {
    IsSkip(env, p) || (p.header.kind.Push? && p.coalescible)
  }

  function DropHead(s: Sender): Sender
    requires s.pending != []
  {
    s.(pending := s.pending[1..], pendingBytes := s.pendingBytes - s.pending[0].bytes)
  }

  /** Drop the discardable prefix; with `expiredOnly`, stop at the first push still young. */
  function DropPrefix(s: Sender, env: Env, now: int, expiredOnly: bool): Sender
    decreases |s.pending|
  {
    if s.pending == [] || !Discardable(env, s.pending[0]) then s
    else if expiredOnly && s.pending[0].header.kind.Push? && now - s.pending[0].enqueuedAt < PUSH_MAX_AGE then s
    else DropPrefix(DropHead(s), env, now, expiredOnly)
  }

  predicate HasCapacity(s: Sender, reserved: nat) {
    |s.pending| < MAX_PENDING_MESSAGES && s.pendingBytes + reserved <= MAX_PENDING_BYTES
  }

  /** Drop evictable heads only until `reserved` bytes fit. */
  function DropForAdmission(s: Sender, env: Env, reserved: nat): Sender
    decreases |s.pending|
  {
    if HasCapacity(s, reserved) || s.pending == [] || !Evictable(env, s.pending[0]) then s
    else DropForAdmission(DropHead(s), env, reserved)
  }

  function Abandon(s: Sender): Sender {
    s.(pending := [], pendingBytes := 0)
  }

  // ---- Frames and their size ----

  function FramesOf(env: Env, s: Sender, p: Pending): seq<Envelope> {
    match Encode(p.header, env.streamId, p.json, p.seqNo, BaseOf(s))
    case None => []
    case Some(frames) => frames
  }

  function WireBytes(env: Env, frames: seq<Envelope>): nat {
    if frames == [] then 0 else env.wire(frames[0]) + WireBytes(env, frames[1..])
  }

  /** The size a message is charged: encoded with the largest baseline it can ever carry, and for
      an invoke no less than the skip that may replace it. None where encoding throws. */
  function Reservation(env: Env, header: Header, json: Text, seqNo: nat): Option<nat> {
    match Encode(header, env.streamId, json, seqNo, seqNo)
    case None => None
    case Some(frames) =>
      var own := WireBytes(env, frames);
      if header.kind != Invoke then Some(own)
      else match Encode(header, env.streamId, env.skipJson, seqNo, seqNo)
        case None => None
        case Some(skip) => Some(if WireBytes(env, skip) > own then WireBytes(env, skip) else own)
  }

  function Estimate(p: Pending): nat {
    var n := (p.bytes + MAX_CHUNK_BYTES - 1) / MAX_CHUNK_BYTES;
    if n < 1 then 1 else n
  }

  // ---- Writing ----

  /** Write the frames of `pending[i]`; the socket takes `writable` of them before it throws. */
  function SendAt(s: Sender, env: Env, i: nat, now: int, writable: nat): Outcome
    requires i < |s.pending|
  {
    var p := s.pending[i];
    var frames := FramesOf(env, s, p);
    var k := if writable < |frames| then writable else |frames|;
    if k == 0 then Outcome(s, [])
    else Outcome(s.(pending := s.pending[i := p.(sent := true, attempts := p.attempts + 1, sentAt := now)]),
                 frames[..k])
  }

  predicate ProbeOut(ps: seq<Pending>) {
    exists i :: 0 <= i < |ps| && ps[i].sent
  }

  /** While a recovery probe is out and its budget is used up, nothing new is put on the wire. */
  predicate ShouldHold(s: Sender, env: Env, frames: nat) {
    s.recoveryNeedsAck && ProbeOut(s.pending)
    && (env.budget <= s.recoveryFramesSent || frames > env.budget - s.recoveryFramesSent)
  }

  function Note(s: Sender, frames: nat): Sender {
    if s.recoveryNeedsAck then s.(recoveryFramesSent := s.recoveryFramesSent + frames) else s
  }

  function LinkDown(s: Sender): Sender {
    s.(phase := Down, confirmation := None)
  }

  /** The connection is lost or torn down: the link is down and recovery starts over. */
  function Disconnect(s: Sender): Sender {
    LinkDown(s).(recoveryNeedsAck := true, recoveryFramesSent := 0)
  }

  function Exhausted(s: Sender): Sender {
    if s.peerResettable then LinkDown(s) else Disconnect(s)
  }

  datatype Turn = NotDue | Stop(sender: Sender) | Wrote(sender: Sender, frames: seq<Envelope>)

  /** What a retry pass does with entry `i`, `spent` frames already written in it; the socket
      takes `grant` frames. */
  function RetryTurn(s: Sender, env: Env, now: int, ignoreInterval: bool, i: nat, spent: nat, grant: nat): (t: Turn)
    requires i < |s.pending|
    ensures t.Wrote? ==> |t.sender.pending| == |s.pending|
  {
    var p := s.pending[i];
    if !ignoreInterval && now - p.sentAt < env.interval then NotDue
    else if p.attempts >= env.maxAttempts then Stop(Exhausted(s))
    else if !p.sent && ShouldHold(s, env, Estimate(p)) then Stop(s)
    else if spent > 0 && spent + Estimate(p) > env.budget then Stop(s)
    else
      var o := SendAt(s, env, i, now, grant);
      if o.written == [] then Stop(s)
      else Wrote(if !p.sent || (s.recoveryNeedsAck && ignoreInterval) then Note(o.sender, |o.written|)
                 else o.sender, o.written)
  }

  /** One retry pass from entry `i` on. Every attempt to write takes the next of `grants`; when
      they run out the socket is full. */
  function RetryFrom(s: Sender, env: Env, now: int, ignoreInterval: bool, i: nat, spent: nat,
                     grants: seq<nat>): Outcome
    decreases |s.pending| - i
  {
    if i >= |s.pending| then Outcome(s, [])
    else match RetryTurn(s, env, now, ignoreInterval, i, spent, if grants == [] then 0 else grants[0])
      case NotDue => RetryFrom(s, env, now, ignoreInterval, i + 1, spent, grants)
      case Stop(t) => Outcome(t, [])
      case Wrote(t, frames) =>
        if spent + |frames| >= env.budget then Outcome(t, frames)
        else
          var rest := RetryFrom(t, env, now, ignoreInterval, i + 1, spent + |frames|,
                                if grants == [] then [] else grants[1..]);
          Outcome(rest.sender, frames + rest.written)
  }

  function RetryPass(s: Sender, env: Env, now: int, ignoreInterval: bool, grants: seq<nat>): Outcome {
    if !s.reliable || s.phase != Open then Outcome(s, [])
    else RetryFrom(s, env, now, ignoreInterval, 0, 0, grants)
  }

  // ---- Sending a message ----

  datatype Verdict = Accepted | Closed | Unwrapped | TooLarge | Backpressure

  datatype Sending = Sending(header: Header, json: Text, coalescible: bool, legacyAllowed: bool,
                             now: int, socketRoom: bool, writable: nat)

  datatype Sent = Sent(sender: Sender, written: seq<Envelope>, verdict: Verdict)

  /** A queue that has waited too long on a dead link is given up before anything is added. */
  function GiveUpStalled(s: Sender, env: Env, now: int): Sender {
    if s.phase != Open && s.pending != [] && now - s.pending[0].enqueuedAt > env.stalledAge then Abandon(s) else s
  }

  function MakeRoom(s: Sender, env: Env, m: Sending, reserved: nat): Sender {
    if HasCapacity(s, reserved) then s
    else if m.header.kind.InvokeResult? then DropPrefix(s, env, m.now, false)
    else if m.header.kind.Push? && m.coalescible then DropForAdmission(s, env, reserved)
    else DropPrefix(s, env, m.now, true)
  }

  /** Append the message; if it is to be written now and not one frame gets out, take it back. */
  function Append(s: Sender, env: Env, m: Sending, reserved: nat, writeNow: bool): Sent {
    var p := Pending(s.nextSeq, m.header, m.json, m.coalescible, reserved, 0, 0, false, m.now);
    var t := s.(pending := s.pending + [p], pendingBytes := s.pendingBytes + reserved, nextSeq := s.nextSeq + 1);
    if !writeNow then Sent(t, [], Accepted)
    else
      var o := SendAt(t, env, |s.pending|, m.now, m.writable);
      if o.written == [] then Sent(s, [], Backpressure)
      else Sent(Note(o.sender, |o.written|), o.written, Accepted)
  }

  /** Capacity checks, eviction and admission of a message that encodes to `frames` frames. */
  function Admit(s: Sender, env: Env, m: Sending, reserved: nat, frames: nat): Sent {
    var writeNow := s.phase == Open && !ShouldHold(s, env, frames);
    if writeNow && !m.socketRoom then Sent(s, [], Backpressure)
    else
      var t := MakeRoom(s, env, m, reserved);
      if !HasCapacity(t, reserved) then Sent(t, [], Backpressure)
      else Append(t, env, m, reserved, writeNow)
  }

  function SendMessage(s: Sender, env: Env, m: Sending): Sent {
    if s.explicitlyClosed && s.phase != Open && !m.legacyAllowed then Sent(s, [], Closed)
    else if !s.reliable then Sent(s, [], Unwrapped)
    else
      var t := GiveUpStalled(s, env, m.now);
      var frames := Encode(m.header, env.streamId, m.json, t.nextSeq, BaseOf(t));
      var reserved := Reservation(env, m.header, m.json, t.nextSeq);
      if frames.None? || reserved.None? then Sent(t, [], TooLarge)
      else Admit(t, env, m, reserved.value, |frames.value|)
  }

  // ---- Acknowledgements and the link ----

  function DropAcked(s: Sender, ack: nat): Sender
    decreases |s.pending|
  {
    if s.pending == [] || s.pending[0].seqNo > ack then s else DropAcked(DropHead(s), ack)
  }

  function ResetAttempts(ps: seq<Pending>): (r: seq<Pending>)
    ensures |r| == |ps|
  {
    if ps == [] then [] else [ps[0].(attempts := 0, sentAt := 0)] + ResetAttempts(ps[1..])
  }

  /** Replay after a link came back: stale mirrors at the front are dropped, never replayed. */
  function Replay(s: Sender, env: Env, now: int, resumedLink: bool, grants: seq<nat>): Outcome {
    if !s.reliable || s.phase != Open || s.pending == [] then Outcome(s, [])
    else
      var t := DropPrefix(s, env, now, false);
      if t.pending == [] then Outcome(t, [])
      else RetryPass(if resumedLink then t.(pending := ResetAttempts(t.pending)) else t, env, now, true, grants)
  }

  /** The sending direction is confirmed. */
  function CommitSend(s: Sender, env: Env, resume: Resume, now: int, grants: seq<nat>): Outcome {
    var t := s.(phase := Open, confirmation := None);
    if resume.duplicateOpen then Outcome(t, [])
    else Replay(if resume.enterRecovery then t.(recoveryNeedsAck := true, recoveryFramesSent := 0) else t,
                env, now, resume.resumedLink, grants)
  }

  predicate Confirms(s: Sender, ack: nat, linkRequestId: Option<Text>) {
    && s.phase == AwaitingConfirm && s.confirmation.Some?
    && linkRequestId == Some(s.confirmation.value.requestId)
    && s.confirmation.value.minimumAck <= ack <= s.nextSeq - 1
  }

  /** An ACK that answers the pending link offer first opens the sending direction. */
  function Confirmed(s: Sender, env: Env, ack: nat, linkRequestId: Option<Text>, now: int, grants: seq<nat>): Outcome {
    if Confirms(s, ack, linkRequestId) then CommitSend(s, env, s.confirmation.value.resume, now, grants)
    else Outcome(s, [])
  }

  /** The cumulative part of an ACK; the first one after a recovery releases the rest of the queue. */
  function Acknowledged(s: Sender, env: Env, ack: nat, now: int, grants: seq<nat>): Outcome {
    if s.phase != Open || ack > s.nextSeq - 1 || ack <= s.highestAck then Outcome(s, [])
    else
      var t := DropAcked(s.(highestAck := ack), ack);
      if t.recoveryNeedsAck then
        RetryPass(t.(recoveryNeedsAck := false, recoveryFramesSent := 0), env, now, true, grants)
      else Outcome(t, [])
  }

  function HandleAck(s: Sender, env: Env, ack: nat, linkRequestId: Option<Text>, now: int,
                     replayGrants: seq<nat>, grants: seq<nat>): Outcome {
    if !s.reliable then Outcome(s, [])
    else
      var c := Confirmed(s, env, ack, linkRequestId, now, replayGrants);
      var a := Acknowledged(c.sender, env, ack, now, grants);
      Outcome(a.sender, c.written + a.written)
  }

  function BeginConfirm(s: Sender, requestId: Text, resume: Resume): Sender {
    s.(phase := AwaitingConfirm,
       confirmation := Some(Confirmation(requestId, BaseOf(s) - 1, resume,
                              if s.confirmation.Some? then s.confirmation.value.wasOpen else s.phase == Open)))
  }

  function CancelConfirm(s: Sender): Sender {
    match s.confirmation
    case None => s
    case Some(c) =>
      var t := s.(confirmation := None);
      if t.phase == AwaitingConfirm then t.(phase := if c.wasOpen then Open else Down) else t
  }

  function SetReliable(s: Sender, reliable: bool): Sender {
    var t := if s.reliable && !reliable then Abandon(s) else s;
    var u := if reliable then t else LinkDown(t);
    u.(reliable := reliable, explicitlyClosed := false)
  }

  /** A permanent close, from either side. */
  function Close(s: Sender): Sender {
    Abandon(LinkDown(s)).(explicitlyClosed := true, reliable := false)
  }

  // ---- Replacing a message by a skip ----

  function FindRequest(ps: seq<Pending>, id: Text): (i: nat)
    ensures i <= |ps|
    ensures i < |ps| ==> ps[i].header.id == id
  {
    if ps == [] || ps[0].header.id == id then 0 else 1 + FindRequest(ps[1..], id)
  }

  function SkipBytes(env: Env, p: Pending): nat {
    match Encode(p.header, env.streamId, env.skipJson, p.seqNo, p.seqNo)
    case None => 0
    case Some(frames) => WireBytes(env, frames)
  }

  /** The message of a request that timed out or was refused keeps its number, but not its
      content. It is written at once when the link is open. */
  function SkipRequest(s: Sender, env: Env, id: Text, now: int, online: bool, writable: nat): Outcome {
    var i := FindRequest(s.pending, id);
    if i == |s.pending| then Outcome(s, [])
    else
      var p := s.pending[i];
      var bytes := SkipBytes(env, p);
      var t := s.(pending := s.pending[i := p.(json := env.skipJson, bytes := bytes, attempts := 0,
                                               sentAt := 0, sent := false)],
                  pendingBytes := s.pendingBytes + bytes - p.bytes);
      if !t.reliable || t.phase != Open || !online then Outcome(t, [])
      else SendAt(t, env, i, now, writable)
  }
}
