/** The two ends of one reliable stream and the relay between them, as a system of steps. */
module DeviceLink {
  import opened Text
  import opened Transport
  import opened Receiver
  import opened ReceiverLaws
  import opened Sender
  import opened SenderLaws
  import opened Book
  import opened BookLaws

  datatype Sys = Sys(
    s: Sender,                  // the sending end
    rx: Option<Stream>,         // the receiving end's stream, while it has one
    active: bool,               // the receiving end has the link open
    remoteBase: nat,            // the baseline of the last handshake it saw
    frames: set<Envelope>,      // every frame ever written
    acks: set<nat>,             // every cumulative ACK ever written
    bases: set<nat>,            // every baseline ever announced in a handshake
    book: Book,                 // history
    log: seq<(nat, Text)>,      // successful deliveries of the present receive stream, in order
    orphans: set<nat>)          // handlers still in flight on streams since forgotten

  const START := Sys(FRESH, None, false, 1, {}, {}, {}, Book(map[], 1, {}, {}), [], {})

  datatype Step =
    // at the sending end
    | Send(m: Sending)
    | TakeAck(ack: nat, linkRequestId: Option<Text>, ackAt: int, replayGrants: seq<nat>, grants: seq<nat>)
    | RetryTimer(retryAt: int, retryGrants: seq<nat>)
    | GiveUpRequest(id: Text, skipAt: int, online: bool, writable: nat)
    | AbandonQueue
    | LoseLink(disconnect: bool)
    | DropStale(dropAt: int)
    | Announce
    | Negotiate(reliable: bool)
    | AwaitConfirm(requestId: Text, resume: Resume)
    | OpenSending(plan: Resume, openAt: int, openGrants: seq<nat>)
    | CancelAwait
    | CloseSending
    // at the receiving end
    | Arrive(f: Envelope)
    | StartDraining
    | HandlerSettles(ok: bool)
    | SetActive(up: bool)
    | ResumeStream
    | InstallBase(base: nat)
    | ForgetStream
    | OrphanSettles(n: nat, okay: bool)
    | RepeatAck

  function CodecOf(env: Env): Codec {
    Codec(env.streamId, env.j, env.skipJson)
  }

  /** The numbers from `lo` up to, not including, `hi`. */
  function Gone(lo: nat, hi: nat): (r: set<nat>)
    ensures forall k: nat :: k in r <==> lo <= k < hi
    decreases if lo < hi then hi - lo else 0
  {
    if lo >= hi then {} else {lo} + Gone(lo + 1, hi)
  }

  /** The sender moved to `t`; numbers its window moved past were given up, except acknowledged ones. */
  function SenderMoves(y: Sys, t: Sender, written: seq<Envelope>, given: set<nat>): Sys {
    y.(s := t, frames := y.frames + (set f | f in written),
       book := y.book.(discarded := y.book.discarded + given))
  }

  ghost function SendStep(y: Sys, env: Env, m: Sending): Sys {
    var r := SendMessage(y.s, env, m);
    var z := SenderMoves(y, r.sender, r.written, Gone(BaseOf(y.s), BaseOf(r.sender)));
    if r.verdict != Accepted then z
    else z.(book := Book(z.book.queued[y.s.nextSeq := Message(m.header, m.json)], r.sender.nextSeq, z.book.handled,
                         z.book.discarded + (if env.j.Skip(m.json) then {y.s.nextSeq} else {})))
  }

  ghost function AckStep(y: Sys, env: Env, ack: nat, linkRequestId: Option<Text>, now: int,
                         replayGrants: seq<nat>, grants: seq<nat>): Sys {
    var c := Confirmed(y.s, env, ack, linkRequestId, now, replayGrants);
    var o := HandleAck(y.s, env, ack, linkRequestId, now, replayGrants, grants);
    SenderMoves(y, o.sender, o.written, Gone(BaseOf(y.s), BaseOf(c.sender)))
  }

  ghost function SkipStep(y: Sys, env: Env, id: Text, now: int, online: bool, writable: nat): Sys {
    var i := FindRequest(y.s.pending, id);
    var o := SkipRequest(y.s, env, id, now, online, writable);
    SenderMoves(y, o.sender, o.written, if i < |y.s.pending| then {y.s.pending[i].seqNo} else {})
  }

  ghost function ArriveStep(y: Sys, env: Env, f: Envelope): Sys
    requires var p := Parse(f.body); p.Some? && (p.value.segment.Some? ==> SegmentAccepted(p.value.segment.value))
  {
    var p := Parse(f.body).value;
    var s := if y.rx.Some? then y.rx.value else Receiver.Open(Max(y.remoteBase, p.baseSeq));
    var r := Ingest(s, env.j, y.remoteBase, f.header, p);
    y.(rx := Some(r.stream), acks := y.acks + (set a | a in r.acks))
  }

  ghost function SettleStep(y: Sys, env: Env, ok: bool): Sys
    requires y.rx.Some? && y.rx.value.drain.Awaiting?
  {
    var n, e := y.rx.value.drain.seqNo, y.rx.value.drain.entry;
    var r := Settle(y.rx.value, env.j, ok, y.active);
    var z := y.(rx := Some(r.stream), acks := y.acks + (set a | a in r.acks));
    if ok then z.(book := y.book.(handled := y.book.handled + {n}), log := y.log + [(n, e.json)]) else z
  }

  ghost function Resumed(s: Stream): Stream {
    var t := ApplyBase(s);
    if t.last + 1 in t.ready then Schedule(t) else t
  }

  /** One step; a step whose guard does not hold changes nothing. */
  ghost function Do(y: Sys, env: Env, step: Step): Sys {
    match step
    case Send(m) => if env.j.valid(m.json) then SendStep(y, env, m) else y
    case TakeAck(ack, id, now, g, h) =>
      if ack in y.acks && y.s.reliable then AckStep(y, env, ack, id, now, g, h) else y
    case RetryTimer(now, grants) =>
      var o := RetryPass(y.s, env, now, false, grants);
      SenderMoves(y, o.sender, o.written, {})
    case GiveUpRequest(id, now, online, writable) => SkipStep(y, env, id, now, online, writable)
    case AbandonQueue => SenderMoves(y, Abandon(y.s), [], Gone(BaseOf(y.s), y.s.nextSeq))
    case LoseLink(disconnect) => y.(s := if disconnect then Disconnect(y.s) else LinkDown(y.s))
    case DropStale(now) =>
      var t := DropPrefix(y.s, env, now, false);
      SenderMoves(y, t, [], Gone(BaseOf(y.s), BaseOf(t)))
    case Announce => y.(bases := y.bases + {BaseOf(y.s)})
    case Negotiate(reliable) =>
      var t := SetReliable(y.s, reliable);
      SenderMoves(y, t, [], Gone(BaseOf(y.s), BaseOf(t)))
    case AwaitConfirm(id, resume) => if y.s.reliable then y.(s := BeginConfirm(y.s, id, resume)) else y
    case OpenSending(resume, now, grants) =>
      if !y.s.reliable then y
      else
        var o := CommitSend(y.s, env, resume, now, grants);
        SenderMoves(y, o.sender, o.written, Gone(BaseOf(y.s), BaseOf(o.sender)))
    case CancelAwait => y.(s := CancelConfirm(y.s))
    case CloseSending => SenderMoves(y, Close(y.s), [], Gone(BaseOf(y.s), y.s.nextSeq))
    case Arrive(f) =>
      if f in y.frames && y.active && Parse(f.body).Some?
         && (Parse(f.body).value.segment.Some? ==> SegmentAccepted(Parse(f.body).value.segment.value))
      then ArriveStep(y, env, f) else y
    case StartDraining =>
      if y.rx.Some? && y.rx.value.drain == Live then
        var r := StartDrain(y.rx.value, env.j, y.active);
        y.(rx := Some(r.stream), acks := y.acks + (set a | a in r.acks))
      else y
    case HandlerSettles(ok) =>
      if y.rx.Some? && y.rx.value.drain.Awaiting? then SettleStep(y, env, ok) else y
    case SetActive(up) => y.(active := up)
    case ResumeStream => if y.rx.Some? then y.(rx := Some(Resumed(y.rx.value))) else y
    case InstallBase(base) =>
      if base == 1 || base in y.bases then
        y.(remoteBase := base,
           rx := Some(if y.rx.Some? then AdvanceBase(y.rx.value, base) else Receiver.Open(base)))
      else y
    case ForgetStream =>
      y.(rx := None, remoteBase := 1, log := [],
         orphans := if y.rx.Some? && y.rx.value.drain.Awaiting? then y.orphans + {y.rx.value.drain.seqNo}
                    else y.orphans)
    case OrphanSettles(n, ok) =>
      if n in y.orphans then
        y.(orphans := y.orphans - {n},
           book := if ok then y.book.(handled := y.book.handled + {n}) else y.book)
      else y
    case RepeatAck => if y.rx.Some? then y.(acks := y.acks + {y.rx.value.last}) else y
  }

  ghost function Run(y: Sys, env: Env, steps: seq<Step>): Sys
    decreases |steps|
  {
    if steps == [] then y else Run(Do(y, env, steps[0]), env, steps[1..])
  }

  // ---- The invariant ----

  ghost predicate QueueOk(c: Codec, b: Book, ps: seq<Pending>) {
    forall i :: 0 <= i < |ps| ==> Genuine(c, b, ps[i].seqNo, ps[i].header, ps[i].json)
  }

  ghost predicate SenderOk(c: Codec, b: Book, s: Sender) {
    Sane(s) && s.nextSeq == b.nextSeq && QueueOk(c, b, s.pending) && SettledBelow(b, BaseOf(s))
  }

  ghost predicate WireOk(c: Codec, b: Book, frames: set<Envelope>, acks: set<nat>, bases: set<nat>) {
    && (forall f <- frames :: FrameOk(c, b, f))
    && (forall a <- acks :: SettledBelow(b, a + 1))
    && (forall n <- bases :: SettledBelow(b, n))
  }

  /** Delivered numbers strictly increase, and each delivery is the message queued under its number. */
  ghost predicate LogOk(b: Book, log: seq<(nat, Text)>, last: nat) {
    && (forall i, k :: 0 <= i < k < |log| ==> log[i].0 < log[k].0)
    && (forall i :: 0 <= i < |log| ==>
          log[i].0 <= last && log[i].0 in b.queued && log[i].0 in b.handled && log[i].1 == b.queued[log[i].0].json)
  }

  ghost predicate Inv(y: Sys, env: Env) {
    var c := CodecOf(env);
    && Numbered(y.book) && SkipsDiscarded(c, y.book)
    && SenderOk(c, y.book, y.s)
    && WireOk(c, y.book, y.frames, y.acks, y.bases)
    && SettledBelow(y.book, y.remoteBase)
    && (y.rx.Some? ==> StreamOk(c, y.book, y.rx.value))
    && LogOk(y.book, y.log, if y.rx.Some? then y.rx.value.last else 0)
  }

  // ---- Steps of the sender ----

  lemma HeaderOfFrame(c: Codec, header: Header, json: Text, k: nat, base: nat, f: Envelope)
    requires FrameFrom(c, header, json, k, base, f)
    ensures f.header == header
  {
    EncodeRoundTrip(header, c.streamId, json, k, base);
    hide Encode;
  }

  /** Whatever is written from a sound queue, with a settled baseline, is a sound frame. */
  lemma WrittenOk(env: Env, b: Book, t: Sender, written: seq<Envelope>)
    requires SenderOk(CodecOf(env), b, t) && Written(env, t.pending, BaseOf(t), written)
    ensures forall f <- written :: FrameOk(CodecOf(env), b, f)
  {
    var c := CodecOf(env);
    hide Encode, Genuine, SettledBelow, FrameOk;
    forall f <- written ensures FrameOk(c, b, f) {
      var i :| 0 <= i < |t.pending| && f in FramesAt(env, BaseOf(t), t.pending[i]);
      var p := t.pending[i];
      assert FrameFrom(c, p.header, p.json, p.seqNo, BaseOf(t), f);
      HeaderOfFrame(c, p.header, p.json, p.seqNo, BaseOf(t), f);
      FrameIsOk(c, b, f, p.seqNo, BaseOf(t), p.json);
    }
  }

  lemma FrameIsOk(c: Codec, b: Book, f: Envelope, k: nat, base: nat, json: Text)
    requires Genuine(c, b, k, f.header, json) && FrameFrom(c, f.header, json, k, base, f)
    requires SettledBelow(b, base) && base <= k < base + SEQUENCE_WINDOW
    ensures FrameOk(c, b, f)
  {
  }

  lemma GrowWire(c: Codec, b: Book, d: Book, frames: set<Envelope>, acks: set<nat>, bases: set<nat>)
    requires Extends(b, d) && WireOk(c, b, frames, acks, bases)
    ensures WireOk(c, d, frames, acks, bases)
  {
    hide FrameOk, SettledBelow, Extends;
    forall f <- frames ensures FrameOk(c, d, f) { FrameGrows(c, b, d, f); }
    forall a <- acks ensures SettledBelow(d, a + 1) { SettledGrows(b, d, a + 1); }
    forall n <- bases ensures SettledBelow(d, n) { SettledGrows(b, d, n); }
  }

  lemma GrowLog(b: Book, d: Book, log: seq<(nat, Text)>, last: nat)
    requires Extends(b, d) && LogOk(b, log, last)
    ensures LogOk(d, log, last)
  {
  }

  /** The frame rule of the invariant: a step that leaves the receiving end alone is judged by its
      sender, its history and its new frames. */
  lemma SenderStepOk(y: Sys, env: Env, t: Sender, d: Book, written: set<Envelope>)
    requires Inv(y, env) && Extends(y.book, d)
    requires Numbered(d) && SkipsDiscarded(CodecOf(env), d) && SenderOk(CodecOf(env), d, t)
    requires forall f <- written :: FrameOk(CodecOf(env), d, f)
    ensures Inv(y.(s := t, frames := y.frames + written, book := d), env)
  {
    var c := CodecOf(env);
    hide FrameOk, SettledBelow, StreamOk, SenderOk, Extends, Numbered, SkipsDiscarded, LogOk;
    GrowWire(c, y.book, d, y.frames, y.acks, y.bases);
    SettledGrows(y.book, d, y.remoteBase);
    if y.rx.Some? {
      StreamGrows(c, y.book, d, y.rx.value);
    }
    GrowLog(y.book, d, y.log, if y.rx.Some? then y.rx.value.last else 0);
  }

  lemma GaveUp(c: Codec, b: Book, lo: nat, hi: nat)
    requires Numbered(b) && SkipsDiscarded(c, b) && SettledBelow(b, lo) && hi <= b.nextSeq
    ensures var d := b.(discarded := b.discarded + Gone(lo, hi));
      Extends(b, d) && Numbered(d) && SkipsDiscarded(c, d) && SettledBelow(d, hi)
  {
    var d := b.(discarded := b.discarded + Gone(lo, hi));
    forall k: nat | 1 <= k < hi ensures Settled(d, k) {
      if k < lo {
        assert Settled(b, k);
      }
    }
  }

  lemma QueueGrows(c: Codec, b: Book, d: Book, ps: seq<Pending>)
    requires Extends(b, d) && QueueOk(c, b, ps)
    ensures QueueOk(c, d, ps)
  {
    forall i | 0 <= i < |ps| ensures Genuine(c, d, ps[i].seqNo, ps[i].header, ps[i].json) {
      assert Genuine(c, b, ps[i].seqNo, ps[i].header, ps[i].json);
    }
  }

  lemma QueueSame(c: Codec, b: Book, ps: seq<Pending>, qs: seq<Pending>)
    requires QueueOk(c, b, ps) && SameMessages(ps, qs)
    ensures QueueOk(c, b, qs)
  {
    forall i | 0 <= i < |qs| ensures Genuine(c, b, qs[i].seqNo, qs[i].header, qs[i].json) {
      assert SameMessage(ps[i], qs[i]);
    }
  }

  lemma QueueTail(c: Codec, b: Book, ps: seq<Pending>, k: nat)
    requires QueueOk(c, b, ps) && k <= |ps|
    ensures QueueOk(c, b, ps[k..])
  {
  }

  /** A sender that dropped a prefix, explicitly, and then wrote. */
  lemma MovedOk(y: Sys, env: Env, o: Outcome, k: nat)
    requires Inv(y, env) && Moved(y.s, env, o, k)
    ensures BaseOf(o.sender) <= y.book.nextSeq
    ensures Inv(SenderMoves(y, o.sender, o.written, Gone(BaseOf(y.s), BaseOf(o.sender))), env)
  {
    var c := CodecOf(env);
    var d := y.book.(discarded := y.book.discarded + Gone(BaseOf(y.s), BaseOf(o.sender)));
    hide FrameOk, SettledBelow, StreamOk, SkipsDiscarded, Genuine, WireOk, LogOk, SameMessages, Written, Gone;
    assert BaseOf(o.sender) <= y.book.nextSeq;
    GaveUp(c, y.book, BaseOf(y.s), BaseOf(o.sender));
    QueueTail(c, y.book, y.s.pending, k);
    QueueSame(c, y.book, y.s.pending[k..], o.sender.pending);
    QueueGrows(c, y.book, d, o.sender.pending);
    WrittenOk(env, d, o.sender, o.written);
    SenderStepOk(y, env, o.sender, d, set f | f in o.written);
  }

  /** A sender that kept or lost part of its queue without writing. */
  lemma SteppedOk(y: Sys, env: Env, t: Sender)
    requires Inv(y, env) && Sane(t) && t.nextSeq == y.s.nextSeq
    requires t.pending == y.s.pending || t.pending == []
    ensures Inv(SenderMoves(y, t, [], Gone(BaseOf(y.s), BaseOf(t))), env)
    ensures t.pending == y.s.pending ==> Inv(y.(s := t), env)
  {
    var c := CodecOf(env);
    var d := y.book.(discarded := y.book.discarded + Gone(BaseOf(y.s), BaseOf(t)));
    assert BaseOf(t) <= t.nextSeq;
    hide FrameOk, SettledBelow, StreamOk, SkipsDiscarded, Genuine, WireOk, LogOk, Gone, Window;
    GaveUp(c, y.book, BaseOf(y.s), BaseOf(t));
    QueueGrows(c, y.book, d, y.s.pending);
    SenderStepOk(y, env, t, d, {});
    assert (set f: Envelope | f in []) == {};
  }

  lemma SendOk(y: Sys, env: Env, m: Sending)
    requires Inv(y, env)
    ensures Inv(SendStep(y, env, m), env)
  {
    var c := CodecOf(env);
    var r := SendMessage(y.s, env, m);
    var k := SendMessageLaw(y.s, env, m);
    var z := SendStep(y, env, m);
    hide SendMessage, FrameOk, SettledBelow, StreamOk, WireOk, LogOk, Window, Written;
    if r.verdict != Accepted {
      MovedOk(y, env, Outcome(r.sender, r.written), k);
    } else {
      AcceptedOk(y, env, m, r, k);
      WrittenOk(env, z.book, r.sender, r.written);
      SenderStepOk(y, env, r.sender, z.book, set f | f in r.written);
    }
  }

  /** The history after a message was accepted behind a dropped prefix. */
  function Booked(b: Book, j: Json, m: Sending, lo: nat, hi: nat, next: nat): Book {
    Book(b.queued[b.nextSeq := Message(m.header, m.json)], next, b.handled,
         b.discarded + Gone(lo, hi) + (if j.Skip(m.json) then {b.nextSeq} else {}))
  }

  lemma BookedOk(c: Codec, b: Book, m: Sending, lo: nat, hi: nat)
    requires Numbered(b) && SkipsDiscarded(c, b) && SettledBelow(b, lo) && hi <= b.nextSeq
    ensures var d := Booked(b, c.j, m, lo, hi, b.nextSeq + 1);
      Extends(b, d) && Numbered(d) && SkipsDiscarded(c, d) && SettledBelow(d, hi)
  {
    var d := Booked(b, c.j, m, lo, hi, b.nextSeq + 1);
    hide Gone, SettledBelow;
    GaveUp(c, b, lo, hi);
    SettledGrows(b.(discarded := b.discarded + Gone(lo, hi)), d, hi);
  }

  lemma AcceptedQueue(c: Codec, b: Book, d: Book, s: Sender, t: Sender, m: Sending, k: nat)
    requires QueueOk(c, b, s.pending) && Extends(b, d) && k <= |s.pending| && t.pending != []
    requires SameMessages(s.pending[k..], t.pending[..|t.pending| - 1])
    requires var p := t.pending[|t.pending| - 1];
      p.header == m.header && p.json == m.json && p.seqNo in d.queued && d.queued[p.seqNo] == Message(m.header, m.json)
    ensures QueueOk(c, d, t.pending)
  {
    hide Extends, SameMessages;
    var ps, n := t.pending, |t.pending| - 1;
    QueueTail(c, b, s.pending, k);
    QueueSame(c, b, s.pending[k..], ps[..n]);
    QueueGrows(c, b, d, ps[..n]);
    QueuedIsGenuine(c, d, ps[n]);
    hide Genuine;
    forall i | 0 <= i < |ps| ensures Genuine(c, d, ps[i].seqNo, ps[i].header, ps[i].json) {
      if i < n {
        assert ps[..n][i] == ps[i];
      }
    }
  }

  lemma OfferedBase(s: Sender, env: Env, m: Sending, r: Sent, k: nat)
    requires Window(s) && Offered(s, env, m, r, k) && r.verdict == Accepted
    ensures BaseOf(r.sender) == BaseOf(s) + k <= s.nextSeq
  {
    hide Written;
    var qs := r.sender.pending;
    assert |qs| - 1 == |s.pending| - k;
  }

  lemma AcceptedOk(y: Sys, env: Env, m: Sending, r: Sent, k: nat)
    requires Inv(y, env) && Offered(y.s, env, m, r, k) && Sane(r.sender) && r.verdict == Accepted
    requires r == SendMessage(y.s, env, m)
    ensures var d := SendStep(y, env, m).book;
      && Extends(y.book, d) && Numbered(d) && SkipsDiscarded(CodecOf(env), d)
      && SenderOk(CodecOf(env), d, r.sender)
  {
    var c := CodecOf(env);
    hide SendMessage, FrameOk, StreamOk, WireOk, LogOk, Written, SettledBelow, Numbered, SkipsDiscarded, Extends,
         Gone, Window, SameMessages, QueueOk;
    OfferedBase(y.s, env, m, r, k);
    BookedOk(c, y.book, m, BaseOf(y.s), BaseOf(r.sender));
    var d := Booked(y.book, c.j, m, BaseOf(y.s), BaseOf(r.sender), y.book.nextSeq + 1);
    assert SendStep(y, env, m).book == d;
    AcceptedQueue(c, y.book, d, y.s, r.sender, m, k);
  }

  lemma QueuedIsGenuine(c: Codec, b: Book, p: Pending)
    requires p.seqNo in b.queued && b.queued[p.seqNo] == Message(p.header, p.json)
    ensures Genuine(c, b, p.seqNo, p.header, p.json)
  {
  }

  lemma SenderSane(y: Sys, env: Env)
    requires Inv(y, env)
    ensures Sane(y.s)
  {
    hide FrameOk, SettledBelow, StreamOk, LogOk, WireOk, QueueOk, Window, Linked, Numbered, SkipsDiscarded;
  }

  /** Taking an ACK is opening the link, if it confirms an offer, and then removing a prefix. */
  lemma AckStepSplit(y: Sys, env: Env, ack: nat, linkRequestId: Option<Text>, now: int,
                     replayGrants: seq<nat>, grants: seq<nat>)
    requires y.s.reliable
    ensures var c := Confirmed(y.s, env, ack, linkRequestId, now, replayGrants);
      var a := Acknowledged(c.sender, env, ack, now, grants);
      var z := SenderMoves(y, c.sender, c.written, Gone(BaseOf(y.s), BaseOf(c.sender)));
      AckStep(y, env, ack, linkRequestId, now, replayGrants, grants)
        == z.(s := a.sender, frames := z.frames + (set f | f in a.written))
  {
    hide Confirmed, Acknowledged, Gone;
    var c := Confirmed(y.s, env, ack, linkRequestId, now, replayGrants);
    var a := Acknowledged(c.sender, env, ack, now, grants);
    assert y.frames + (set f | f in c.written) + (set f | f in a.written)
        == y.frames + (set f | f in c.written + a.written);
  }

  /** What an ACK removes was settled before the ACK arrived. */
  lemma AckOk(y: Sys, env: Env, ack: nat, linkRequestId: Option<Text>, now: int,
              replayGrants: seq<nat>, grants: seq<nat>)
    requires Inv(y, env) && ack in y.acks && y.s.reliable
    ensures Inv(AckStep(y, env, ack, linkRequestId, now, replayGrants, grants), env)
  {
    hide Confirmed, Acknowledged, Moved, Inv, Gone, Sane, AckStep;
    var c := Confirmed(y.s, env, ack, linkRequestId, now, replayGrants);
    var a := Acknowledged(c.sender, env, ack, now, grants);
    SenderSane(y, env);
    var d, k := HandleAckLaw(y.s, env, ack, linkRequestId, now, replayGrants, grants);
    MovedOk(y, env, c, d);
    var z := SenderMoves(y, c.sender, c.written, Gone(BaseOf(y.s), BaseOf(c.sender)));
    AckedOk(z, env, a, ack, k);
    AckStepSplit(y, env, ack, linkRequestId, now, replayGrants, grants);
  }

  lemma AckedOk(y: Sys, env: Env, o: Outcome, ack: nat, k: nat)
    requires Inv(y, env) && ack in y.acks && Moved(y.s, env, o, k)
    requires forall i :: 0 <= i < k ==> y.s.pending[i].seqNo <= ack
    ensures Inv(y.(s := o.sender, frames := y.frames + (set f | f in o.written)), env)
  {
    var c := CodecOf(env);
    hide FrameOk, StreamOk, SkipsDiscarded, Genuine, LogOk, SameMessages, Written, Numbered;
    QueueTail(c, y.book, y.s.pending, k);
    QueueSame(c, y.book, y.s.pending[k..], o.sender.pending);
    assert SettledBelow(y.book, BaseOf(o.sender)) by { AckedSettled(y, env, o, ack, k); }
    hide SettledBelow, WireOk;
    WrittenOk(env, y.book, o.sender, o.written);
    SenderStepOk(y, env, o.sender, y.book, set f | f in o.written);
  }

  lemma AckedSettled(y: Sys, env: Env, o: Outcome, ack: nat, k: nat)
    requires SenderOk(CodecOf(env), y.book, y.s) && SettledBelow(y.book, ack + 1) && Moved(y.s, env, o, k)
    requires forall i :: 0 <= i < k ==> y.s.pending[i].seqNo <= ack
    ensures SettledBelow(y.book, BaseOf(o.sender))
  {
    hide Written;
    var from, to := BaseOf(y.s), BaseOf(o.sender);
    assert to == from + k;
    forall n: nat | 1 <= n < to ensures Settled(y.book, n) {
      if n >= from {
        assert y.s.pending[n - from].seqNo == n;
      }
    }
  }

  lemma SkipOk(y: Sys, env: Env, id: Text, now: int, online: bool, writable: nat)
    requires Inv(y, env)
    ensures Inv(SkipStep(y, env, id, now, online, writable), env)
  {
    var c := CodecOf(env);
    var i := FindRequest(y.s.pending, id);
    var o := SkipRequest(y.s, env, id, now, online, writable);
    SkipRequestLaw(y.s, env, id, now, online, writable);
    var given: set<nat> := if i < |y.s.pending| then {y.s.pending[i].seqNo} else {};
    var d := y.book.(discarded := y.book.discarded + given);
    hide SkipRequest, FrameOk, StreamOk, WireOk, LogOk, Written, SkipsDiscarded;
    assert SkipsDiscarded(c, d) by { MoreDiscarded(c, y.book, given); }
    SkipQueueOk(c, y.book, d, y.s, o.sender, i, env.skipJson);
    WrittenOk(env, d, o.sender, o.written);
    SenderStepOk(y, env, o.sender, d, set f | f in o.written);
  }

  lemma MoreDiscarded(c: Codec, b: Book, given: set<nat>)
    requires SkipsDiscarded(c, b)
    ensures SkipsDiscarded(c, b.(discarded := b.discarded + given))
  {
  }

  lemma SkipQueueOk(c: Codec, b: Book, d: Book, s: Sender, t: Sender, i: nat, skipJson: Text)
    requires SenderOk(c, b, s) && Sane(t) && t.nextSeq == s.nextSeq && skipJson == c.skipJson
    requires d == b.(discarded := b.discarded + if i < |s.pending| then {s.pending[i].seqNo} else {})
    requires i >= |s.pending| ==> t == s
    requires i < |s.pending| ==>
      && |t.pending| == |s.pending|
      && (forall x :: 0 <= x < |s.pending| && x != i ==> SameMessage(s.pending[x], t.pending[x]))
      && t.pending[i].seqNo == s.pending[i].seqNo && t.pending[i].header == s.pending[i].header
      && t.pending[i].json == skipJson
    ensures SenderOk(c, d, t) && Extends(b, d)
  {
    assert BaseOf(t) == BaseOf(s);
    SettledGrows(b, d, BaseOf(s));
    hide Window, SettledBelow;
    forall x | 0 <= x < |t.pending| ensures Genuine(c, d, t.pending[x].seqNo, t.pending[x].header, t.pending[x].json) {
      assert Genuine(c, b, s.pending[x].seqNo, s.pending[x].header, s.pending[x].json);
      assert x != i ==> SameMessage(s.pending[x], t.pending[x]);
    }
  }

  // ---- Steps of the receiver ----

  /** The frame rule for steps that leave the sender and the history alone. */
  lemma ReceiverStepOk(y: Sys, env: Env, s: Stream, acks: seq<nat>)
    requires Inv(y, env) && StreamOk(CodecOf(env), y.book, s)
    requires y.rx.Some? ==> y.rx.value.last <= s.last
    requires forall a <- acks :: a == s.last
    ensures Inv(y.(rx := Some(s), acks := y.acks + (set a | a in acks)), env)
  {
    hide FrameOk, Held, SenderOk, SkipsDiscarded, Numbered, Ordered;
  }

  lemma OpenOk(c: Codec, b: Book, base: nat)
    requires Numbered(b) && SettledBelow(b, base)
    ensures StreamOk(c, b, Receiver.Open(base))
  {
  }

  lemma ArriveOk(y: Sys, env: Env, f: Envelope)
    requires GoodCodec(CodecOf(env)) && Inv(y, env) && f in y.frames
    requires var p := Parse(f.body); p.Some? && (p.value.segment.Some? ==> SegmentAccepted(p.value.segment.value))
    ensures Inv(ArriveStep(y, env, f), env)
  {
    var c := CodecOf(env);
    var p := Parse(f.body).value;
    hide FrameOk, StreamOk, SenderOk, SkipsDiscarded, Numbered, LogOk, Parse, GoodCodec;
    assert FrameOk(c, y.book, f);
    if y.rx.Some? {
      IngestOk(c, y.book, y.rx.value, y.remoteBase, f);
      assert Ordered(y.rx.value) by { StreamOrdered(c, y.book, y.rx.value); }
      IngestOrdered(y.rx.value, env.j, y.remoteBase, f.header, p);
      ReceiverStepOk(y, env, Ingest(y.rx.value, env.j, y.remoteBase, f.header, p).stream,
                     Ingest(y.rx.value, env.j, y.remoteBase, f.header, p).acks);
    } else {
      var s := Receiver.Open(Max(y.remoteBase, p.baseSeq));
      assert SettledBelow(y.book, p.baseSeq) by { BaseOfFrame(c, y.book, f); }
      OpenOk(c, y.book, Max(y.remoteBase, p.baseSeq));
      IngestOk(c, y.book, s, y.remoteBase, f);
      assert Ordered(s) by { StreamOrdered(c, y.book, s); }
      IngestOrdered(s, env.j, y.remoteBase, f.header, p);
      ReceiverStepOk(y, env, Ingest(s, env.j, y.remoteBase, f.header, p).stream,
                     Ingest(s, env.j, y.remoteBase, f.header, p).acks);
    }
  }

  lemma StreamOrdered(c: Codec, b: Book, s: Stream)
    requires StreamOk(c, b, s)
    ensures Ordered(s) && Held(c, b, s)
  {
  }

  lemma BaseOfFrame(c: Codec, b: Book, f: Envelope)
    requires GoodCodec(c) && FrameOk(c, b, f) && Parse(f.body).Some?
    ensures SettledBelow(b, Parse(f.body).value.baseSeq)
  {
    hide FrameFrom, Parse, SettledBelow;
    var k: nat, base: nat, json :|
      && Genuine(c, b, k, f.header, json) && FrameFrom(c, f.header, json, k, base, f)
      && SettledBelow(b, base) && base <= k < base + SEQUENCE_WINDOW;
    ReadBack(c, f.header, json, k, base, f);
  }

  /** A success is recorded once, after everything recorded before it. */
  lemma HandledOk(y: Sys, env: Env)
    requires GoodCodec(CodecOf(env)) && Inv(y, env) && y.rx.Some? && y.rx.value.drain.Awaiting?
    ensures Inv(SettleStep(y, env, true), env)
  {
    var c := CodecOf(env);
    var s := y.rx.value;
    var n, e := s.drain.seqNo, s.drain.entry;
    var d := y.book.(handled := y.book.handled + {n});
    var r := Settle(s, env.j, true, y.active);
    hide FrameOk, SenderOk, SettledBelow, Settle;
    assert Genuine(c, y.book, n, e.header, e.json) && !c.j.Skip(e.json);
    StreamGrows(c, y.book, d, s);
    SettleOk(c, d, s, true, y.active);
    SettleOrdered(s, env.j, true, y.active);
    hide StreamOk, SkipsDiscarded;
    assert Inv(y.(book := d), env) by { BookStepOk(y, env, d); }
    var log := y.log + [(n, e.json)];
    assert LogOk(d, log, n);
    assert LogOk(d, log, r.stream.last);
    hide LogOk;
    ReceiverStepOk(y.(book := d, log := []), env, r.stream, r.acks);
  }

  lemma BookStepOk(y: Sys, env: Env, d: Book)
    requires Inv(y, env) && Extends(y.book, d) && d.queued == y.book.queued && d.nextSeq == y.book.nextSeq
    ensures Inv(y.(book := d), env) && Inv(y.(book := d, log := []), env)
  {
    var c := CodecOf(env);
    hide FrameOk, SettledBelow, StreamOk, LogOk, Window;
    QueueGrows(c, y.book, d, y.s.pending);
    SettledGrows(y.book, d, BaseOf(y.s));
    SenderStepOk(y, env, y.s, d, {});
    assert y.frames + {} == y.frames;
    EmptyLogOk(d, if y.rx.Some? then y.rx.value.last else 0);
  }

  lemma EmptyLogOk(b: Book, last: nat)
    ensures LogOk(b, [], last)
  {
  }

  lemma FailedOk(y: Sys, env: Env)
    requires Inv(y, env) && y.rx.Some? && y.rx.value.drain.Awaiting?
    ensures Inv(SettleStep(y, env, false), env)
  {
    var c := CodecOf(env);
    var r := Settle(y.rx.value, env.j, false, y.active);
    hide FrameOk, SenderOk, Settle, StreamOk, SkipsDiscarded, LogOk;
    assert y.rx.value.drain.Awaiting?;
    StreamOrdered(c, y.book, y.rx.value);
    SettleOk(c, y.book, y.rx.value, false, y.active);
    SettleOrdered(y.rx.value, env.j, false, y.active);
    ReceiverStepOk(y, env, r.stream, r.acks);
  }

  lemma DrainOk(y: Sys, env: Env)
    requires Inv(y, env) && y.rx.Some? && y.rx.value.drain == Live
    ensures Inv(Do(y, env, StartDraining), env)
  {
    var c := CodecOf(env);
    var s := y.rx.value;
    var r := StartDrain(s, env.j, y.active);
    hide FrameOk, SenderOk, StreamOk, SkipsDiscarded, LogOk, RunFrom;
    StreamOrdered(c, y.book, s);
    StartDrainOk(c, y.book, s, y.active);
    ApplyBaseOrdered(s.(drainRequested := false));
    RunFromOrdered(BeginRound(s), env.j, y.active);
    ReceiverStepOk(y, env, r.stream, r.acks);
  }

  lemma RebasedOk(y: Sys, env: Env, base: nat)
    requires Inv(y, env) && y.rx.Some? && SettledBelow(y.book, base)
    ensures Inv(y.(rx := Some(AdvanceBase(y.rx.value, base))), env)
    ensures Inv(y.(rx := Some(Resumed(y.rx.value))), env)
  {
    var c := CodecOf(env);
    var s := y.rx.value;
    hide FrameOk, SenderOk, SkipsDiscarded, LogOk, ApplyBase, Held;
    var raised := s.(base := Max(s.base, base));
    RaisedHeld(c, y.book, s, raised.base);
    ApplyBaseOk(c, y.book, raised);
    ApplyBaseOrdered(raised);
    ApplyBaseOk(c, y.book, s);
    ApplyBaseOrdered(s);
    ScheduleOk(c, y.book, ApplyBase(s));
    hide StreamOk;
    ReceiverStepOk(y, env, AdvanceBase(s, base), []);
    ReceiverStepOk(y, env, Resumed(s), []);
    assert y.acks + (set a: nat | a in []) == y.acks;
  }

  lemma ForgottenOk(y: Sys, env: Env, step: Step)
    requires Inv(y, env) && (step == ForgetStream || step.SetActive? || step == RepeatAck || step == Announce)
    ensures Inv(Do(y, env, step), env)
  {
    hide FrameOk, StreamOk, SenderOk, SkipsDiscarded;
    var c := CodecOf(env);
    assert SettledBelow(y.book, 1) && SettledBelow(y.book, BaseOf(y.s)) by { BaseSettled(y, env); }
    if y.rx.Some? {
      assert SettledBelow(y.book, y.rx.value.last + 1) by { LastSettled(c, y.book, y.rx.value); }
    }
  }

  lemma BaseSettled(y: Sys, env: Env)
    requires Inv(y, env)
    ensures SettledBelow(y.book, 1) && SettledBelow(y.book, BaseOf(y.s))
  {
  }

  lemma LastSettled(c: Codec, b: Book, s: Stream)
    requires StreamOk(c, b, s)
    ensures SettledBelow(b, s.last + 1)
  {
  }

  lemma InstallOk(y: Sys, env: Env, base: nat)
    requires Inv(y, env) && (base == 1 || base in y.bases)
    ensures Inv(Do(y, env, InstallBase(base)), env)
  {
    var c := CodecOf(env);
    hide FrameOk, StreamOk, SenderOk, SkipsDiscarded, ApplyBase, LogOk;
    BaseSettled(y, env);
    assert SettledBelow(y.book, base);
    assert Inv(y.(remoteBase := base), env);
    if y.rx.Some? {
      RebasedOk(y.(remoteBase := base), env, base);
    } else {
      OpenOk(c, y.book, base);
      ReceiverStepOk(y.(remoteBase := base), env, Receiver.Open(base), []);
      assert y.acks + (set a: nat | a in []) == y.acks;
    }
  }

  // ---- Every step, every run ----

  predicate LinkStep(step: Step) {
    step.AbandonQueue? || step.LoseLink? || step.Negotiate? || step.AwaitConfirm? || step.CancelAwait?
      || step.CloseSending?
  }

  lemma LinkStepOk(y: Sys, env: Env, step: Step)
    requires Inv(y, env) && LinkStep(step)
    ensures Inv(Do(y, env, step), env)
  {
    hide Do, Inv;
    if step.LoseLink? || step.AwaitConfirm? || step.CancelAwait? {
      PhaseStepOk(y, env, step);
    } else {
      QueueStepOk(y, env, step);
    }
  }

  lemma PhaseStepOk(y: Sys, env: Env, step: Step)
    requires Inv(y, env) && (step.LoseLink? || step.AwaitConfirm? || step.CancelAwait?)
    ensures Inv(Do(y, env, step), env)
  {
    SenderSane(y, env);
    hide Sane, Inv, Gone;
    var noResume := Resume(false, false, false);
    match step
    case LoseLink(disconnect) =>
      LinkStepsLaw(y.s, [], noResume, true);
      SteppedOk(y, env, if disconnect then Disconnect(y.s) else LinkDown(y.s));
    case AwaitConfirm(id, resume) =>
      if y.s.reliable {
        LinkStepsLaw(y.s, id, resume, true);
        SteppedOk(y, env, BeginConfirm(y.s, id, resume));
      }
    case CancelAwait =>
      LinkStepsLaw(y.s, [], noResume, true);
      SteppedOk(y, env, CancelConfirm(y.s));
  }

  lemma QueueStepOk(y: Sys, env: Env, step: Step)
    requires Inv(y, env) && (step.AbandonQueue? || step.Negotiate? || step.CloseSending?)
    ensures Inv(Do(y, env, step), env)
  {
    hide Sane, Inv, Gone, SetReliable, Abandon, Close, BaseOf, SenderMoves;
    SenderSane(y, env);
    match step
    case AbandonQueue => DroppedOk(y, env);
    case Negotiate(reliable) =>
      LinkStepsLaw(y.s, [], Resume(false, false, false), reliable);
      NegotiatedQueue(y.s, reliable);
      SteppedOk(y, env, SetReliable(y.s, reliable));
    case CloseSending => DroppedOk(y, env);
  }

  lemma NegotiatedQueue(s: Sender, reliable: bool)
    ensures var t := SetReliable(s, reliable); t.nextSeq == s.nextSeq && (t.pending == s.pending || t.pending == [])
  {
  }

  /** The whole queue is given up. */
  lemma DroppedOk(y: Sys, env: Env)
    requires Inv(y, env) && Sane(y.s)
    ensures Inv(SenderMoves(y, Abandon(y.s), [], Gone(BaseOf(y.s), y.s.nextSeq)), env)
    ensures Inv(SenderMoves(y, Close(y.s), [], Gone(BaseOf(y.s), y.s.nextSeq)), env)
  {
    hide Sane, Inv, Gone, SenderMoves;
    LinkStepsLaw(y.s, [], Resume(false, false, false), true);
    SteppedOk(y, env, Abandon(y.s));
    SteppedOk(y, env, Close(y.s));
  }

  lemma DroppedMoved(s: Sender, env: Env, now: int) returns (k: nat)
    requires Sane(s)
    ensures Moved(s, env, Outcome(DropPrefix(s, env, now, false), []), k)
  {
    hide Window, DropPrefix, Moved, Discardable;
    k := DropPrefixLaw(s, env, now, false);
    var t := DropPrefix(s, env, now, false);
    RetryIdle(t, env);
    StillMoved(s, env, t, k);
  }

  lemma DropStaleOk(y: Sys, env: Env, now: int)
    requires Inv(y, env)
    ensures Inv(Do(y, env, DropStale(now)), env)
  {
    hide Window, FrameOk, StreamOk, WireOk, LogOk, SkipsDiscarded, QueueOk, SettledBelow, DropPrefix, Moved;
    var k := DroppedMoved(y.s, env, now);
    MovedOk(y, env, Outcome(DropPrefix(y.s, env, now, false), []), k);
  }

  lemma OpenSendingOk(y: Sys, env: Env, resume: Resume, now: int, grants: seq<nat>)
    requires Inv(y, env) && y.s.reliable
    ensures Inv(Do(y, env, OpenSending(resume, now, grants)), env)
  {
    hide FrameOk, StreamOk, WireOk, LogOk, SkipsDiscarded, QueueOk, SettledBelow, CommitSend, Moved;
    var k := CommitSendLaw(y.s, env, resume, now, grants);
    MovedOk(y, env, CommitSend(y.s, env, resume, now, grants), k);
  }

  lemma SenderStepsOk(y: Sys, env: Env, step: Step)
    requires Inv(y, env) && !LinkStep(step)
    requires !step.Arrive? && !step.StartDraining? && !step.HandlerSettles? && !step.InstallBase?
             && !step.ResumeStream? && !step.OrphanSettles?
    ensures Inv(Do(y, env, step), env)
  {
    hide Inv, SendStep, AckStep, SkipStep, SenderMoves;
    match step
    case Send(m) => if env.j.valid(m.json) { SendOk(y, env, m); }
    case TakeAck(ack, id, now, g, h) =>
      if ack in y.acks && y.s.reliable {
        AckOk(y, env, ack, id, now, g, h);
      }
    case RetryTimer(now, grants) => TimerOk(y, env, now, grants);
    case GiveUpRequest(id, now, online, writable) => SkipOk(y, env, id, now, online, writable);
    case DropStale(now) => DropStaleOk(y, env, now);
    case OpenSending(resume, now, grants) => if y.s.reliable { OpenSendingOk(y, env, resume, now, grants); }
    case _ => ForgottenOk(y, env, step);
  }

  lemma TimerOk(y: Sys, env: Env, now: int, grants: seq<nat>)
    requires Inv(y, env)
    ensures Inv(Do(y, env, RetryTimer(now, grants)), env)
  {
    hide Window, FrameOk, StreamOk, WireOk, LogOk, SkipsDiscarded, SettledBelow, RetryPass, Written;
    var o := RetryPass(y.s, env, now, false, grants);
    RetryPassLaw(y.s, env, now, false, grants);
    SameQueueWindow(y.s, o.sender);
    WrittenSame(env, o.sender.pending, y.s.pending, BaseOf(y.s), o.written);
    assert y.s.pending[0..] == y.s.pending;
    MovedOk(y, env, o, 0);
    assert Gone(BaseOf(y.s), BaseOf(o.sender)) == {};
  }

  predicate ReceiverStep(step: Step) {
    step.StartDraining? || step.HandlerSettles? || step.InstallBase? || step.ResumeStream? || step.OrphanSettles?
  }

  lemma ArriveStepOk(y: Sys, env: Env, f: Envelope)
    requires GoodCodec(CodecOf(env)) && Inv(y, env)
    ensures Inv(Do(y, env, Arrive(f)), env)
  {
    hide Inv, ArriveStep, Parse;
    if f in y.frames && y.active && Parse(f.body).Some?
       && (Parse(f.body).value.segment.Some? ==> SegmentAccepted(Parse(f.body).value.segment.value)) {
      ArriveOk(y, env, f);
    }
  }

  lemma RemoteBaseSettled(y: Sys, env: Env)
    requires Inv(y, env)
    ensures SettledBelow(y.book, y.remoteBase)
  {
    hide SettledBelow;
  }

  lemma ReceiverStepsOk(y: Sys, env: Env, step: Step)
    requires GoodCodec(CodecOf(env)) && Inv(y, env) && ReceiverStep(step)
    ensures Inv(Do(y, env, step), env)
  {
    hide Inv, StartDrain, SettleStep, AdvanceBase, Resumed;
    match step
    case StartDraining =>
      if y.rx.Some? && y.rx.value.drain == Live {
        DrainOk(y, env);
      }
    case HandlerSettles(ok) =>
      if y.rx.Some? && y.rx.value.drain.Awaiting? {
        if ok {
          HandledOk(y, env);
        } else {
          FailedOk(y, env);
        }
      }
    case InstallBase(base) =>
      if base == 1 || base in y.bases {
        InstallOk(y, env, base);
      }
    case ResumeStream =>
      if y.rx.Some? {
        RemoteBaseSettled(y, env);
        RebasedOk(y, env, y.remoteBase);
      }
    case OrphanSettles(n, ok) => OrphanOk(y, env, n, ok);
  }

  lemma OrphanOk(y: Sys, env: Env, n: nat, ok: bool)
    requires Inv(y, env)
    ensures Inv(Do(y, env, OrphanSettles(n, ok)), env)
  {
    hide Inv;
    var d := if ok then y.book.(handled := y.book.handled + {n}) else y.book;
    BookStepOk(y, env, d);
    OrphansFree(y.(book := d), env, y.orphans - {n});
  }

  lemma StepOk(y: Sys, env: Env, step: Step)
    requires GoodCodec(CodecOf(env)) && Inv(y, env)
    ensures Inv(Do(y, env, step), env)
  {
    hide Do, Inv;
    if step.Arrive? {
      ArriveStepOk(y, env, step.f);
    } else if ReceiverStep(step) {
      ReceiverStepsOk(y, env, step);
    } else if LinkStep(step) {
      LinkStepOk(y, env, step);
    } else {
      SenderStepsOk(y, env, step);
    }
  }

  lemma OrphansFree(y: Sys, env: Env, orphans: set<nat>)
    requires Inv(y, env)
    ensures Inv(y.(orphans := orphans), env)
  {
    hide FrameOk, StreamOk, SenderOk, WireOk, LogOk, SkipsDiscarded, SettledBelow;
  }

  lemma StartOk(env: Env)
    ensures Inv(START, env)
  {
  }

  /** The invariant holds after every run. */
  lemma {:induction false} RunOk(y: Sys, env: Env, steps: seq<Step>)
    requires GoodCodec(CodecOf(env)) && Inv(y, env)
    ensures Inv(Run(y, env, steps), env)
    decreases |steps|
  {
    hide Inv, Do;
    if steps != [] {
      StepOk(y, env, steps[0]);
      RunOk(Do(y, env, steps[0]), env, steps[1..]);
    }
  }

  // ---- What it means ----

  /** No silent loss: after any run over any loss, repetition and reordering, every number the
      sender has assigned is still in its window, was handled by the receiving host, or was
      explicitly given up by the sender. */
  lemma NoSilentLoss(env: Env, steps: seq<Step>, k: nat)
    requires GoodCodec(CodecOf(env))
    requires var y := Run(START, env, steps); 1 <= k < y.s.nextSeq
    ensures var y := Run(START, env, steps);
      (exists i :: 0 <= i < |y.s.pending| && y.s.pending[i].seqNo == k) || k in y.book.handled || k in y.book.discarded
  {
    StartOk(env);
    RunOk(START, env, steps);
    hide Run, START;
    var y := Run(START, env, steps);
    var base := BaseOf(y.s);
    if k < base {
      assert Settled(y.book, k);
    } else {
      assert y.s.pending[k - base].seqNo == k;
    }
  }

  /** Delivery after any run: numbers strictly increase, so nothing is handled twice by one
      receive stream, and every handled text is the text queued under that number, however its
      segments travelled. */
  lemma DeliveredInOrder(env: Env, steps: seq<Step>)
    requires GoodCodec(CodecOf(env))
    ensures var y := Run(START, env, steps);
      && (forall i, k :: 0 <= i < k < |y.log| ==> y.log[i].0 < y.log[k].0)
      && (forall i :: 0 <= i < |y.log| ==>
            y.log[i].0 in y.book.queued && y.log[i].1 == y.book.queued[y.log[i].0].json)
  {
    StartOk(env);
    RunOk(START, env, steps);
    hide Run, START, WireOk, StreamOk, SenderOk;
  }

  /** An acknowledged number was settled at the receiving end, or given up, before it was
      acknowledged: an ACK on the wire never runs ahead of the host. */
  lemma AcksAreEarned(env: Env, steps: seq<Step>, ack: nat, k: nat)
    requires GoodCodec(CodecOf(env))
    requires var y := Run(START, env, steps); ack in y.acks && 1 <= k <= ack
    ensures var y := Run(START, env, steps); k in y.book.handled || k in y.book.discarded
  {
    StartOk(env);
    RunOk(START, env, steps);
    hide Run, START;
    assert Settled(Run(START, env, steps).book, k);
  }
}
