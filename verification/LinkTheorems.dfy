/** What holds over whole runs of the two ends: writing, windows, charges, and the frame at the head. */
module LinkTheorems {
  import opened Text
  import opened Transport
  import opened Receiver
  import opened ReceiverLaws
  import opened Sender
  import opened SenderLaws
  import opened Book
  import opened DeviceLink

  // ---- Link phase ----

  /** The step answers the pending offer, or the host commits the link. */
  predicate OpensLink(y: Sys, step: Step) {
    || (step.TakeAck? && Confirms(y.s, step.ack, step.linkRequestId))
    || (step.OpenSending? && y.s.reliable)
  }

  lemma NothingWritten(y: Sys)
    ensures y.frames + (set f: Envelope | f in []) == y.frames
  {
  }

  lemma AckWritesOpen(s: Sender, env: Env, ack: nat, linkRequestId: Option<Text>, now: int,
                      replayGrants: seq<nat>, grants: seq<nat>)
    requires Sane(s) && s.phase != Open && !Confirms(s, ack, linkRequestId)
    ensures var o := HandleAck(s, env, ack, linkRequestId, now, replayGrants, grants); o == Outcome(s, [])
  {
    hide CommitSend, RetryPass, DropAcked, Window;
  }

  /** No wrapped frame is written while the link is down or unconfirmed; and the sending direction
      opens only through an ACK that names the pending offer and lies between its baseline and the
      last number assigned, through the host's own commit, or by taking back an offer made while it
      was open. */
  lemma WritesNeedOpenLink(y: Sys, env: Env, step: Step)
    requires Inv(y, env) && y.s.phase != Open && !OpensLink(y, step)
    ensures Do(y, env, step).frames == y.frames
    ensures Do(y, env, step).s.phase == Open ==>
      step.CancelAwait? && y.s.confirmation.Some? && y.s.confirmation.value.wasOpen
  {
    hide Inv, DropPrefix, RetryFrom, Ingest, AdvanceBase, ApplyBase, Settle, StartDrain, Parse, Encode, FindRequest,
         SegmentAccepted, Reservation;
    SenderSane(y, env);
    NothingWritten(y);
    hide Window;
    match step
    case Send(m) =>
      var k := SendMessageLaw(y.s, env, m);
      hide SendMessage, Written;
    case TakeAck(ack, id, now, g, h) =>
      if y.s.reliable {
        AckWritesOpen(y.s, env, ack, id, now, g, h);
      }
      hide HandleAck;
    case GiveUpRequest(id, now, online, writable) =>
      SkipRequestLaw(y.s, env, id, now, online, writable);
      SkipKeepsLink(y.s, env, id, now, online, writable);
      hide SkipRequest, Written;
    case DropStale(now) =>
      var k := DropPrefixLaw(y.s, env, now, false);
    case _ =>
  }

  lemma SkipKeepsLink(s: Sender, env: Env, id: Text, now: int, online: bool, writable: nat)
    ensures SkipRequest(s, env, id, now, online, writable).sender.phase == s.phase
  {
    hide FindRequest, SkipBytes, FramesOf;
  }

  /** After any run the unacknowledged numbers are the interval from the baseline to the next
      number, at most sixty-four of them, charged exactly; and an offer is pending exactly while
      its confirmation is awaited. */
  lemma WindowHolds(env: Env, steps: seq<Step>)
    requires GoodCodec(CodecOf(env))
    ensures var s := Run(START, env, steps).s;
      && |s.pending| <= MAX_PENDING_MESSAGES && s.nextSeq == BaseOf(s) + |s.pending|
      && (forall i :: 0 <= i < |s.pending| ==> s.pending[i].seqNo == BaseOf(s) + i)
      && s.pendingBytes == SumBytes(s.pending)
      && (s.confirmation.Some? <==> s.phase == AwaitingConfirm)
  {
    StartOk(env);
    RunOk(START, env, steps);
    hide Run, START, Inv;
    SenderSane(Run(START, env, steps), env);
  }

  // ---- Numbers on the wire ----

  /** A number that reached the wire is never given to another message: any two frames ever
      written under one number are frames of one message, or of the skip that took its place. */
  lemma OneMessagePerNumber(env: Env, steps: seq<Step>, f: Envelope, g: Envelope)
    requires GoodCodec(CodecOf(env))
    requires var y := Run(START, env, steps); f in y.frames && g in y.frames
    requires Parse(f.body).Some? && Parse(g.body).Some? && Parse(f.body).value.seqNo == Parse(g.body).value.seqNo
    ensures f.header == g.header
    ensures exists json :: Carries(env, f, json) && Carries(env, g, json)
  {
    StartOk(env);
    RunOk(START, env, steps);
    hide Run, START, Carries;
    var y := Run(START, env, steps);
    FrameCarries(y, env, f);
    FrameCarries(y, env, g);
  }

  /** `f` carries `json` whole, or one chunk of it, or the skip. */
  ghost predicate Carries(env: Env, f: Envelope, json: Text) {
    var p := Parse(f.body);
    && p.Some?
    && (p.value.segment.None? ==> p.value.data == json || p.value.data == env.skipJson)
    && (p.value.segment.Some? ==>
          var parts := Split(json, MAX_CHUNK_BYTES);
          && 0 <= p.value.segment.value.index < |parts| == p.value.segment.value.total
          && p.value.data == parts[p.value.segment.value.index])
  }

  lemma SkipIsWhole(c: Codec)
    requires GoodCodec(c)
    ensures |Split(c.skipJson, MAX_CHUNK_BYTES)| == 1
  {
    SplitMessage(c.skipJson);
  }

  lemma FrameCarries(y: Sys, env: Env, f: Envelope)
    requires GoodCodec(CodecOf(env)) && Inv(y, env) && f in y.frames
    ensures Parse(f.body).Some?
    ensures var k := Parse(f.body).value.seqNo;
      && k in y.book.queued && f.header == y.book.queued[k].header
      && Carries(env, f, y.book.queued[k].json)
      && (env.j.Skip(y.book.queued[k].json) ==> k in y.book.discarded)
  {
    var c := CodecOf(env);
    hide StreamOk, SenderOk, LogOk, Numbered, SettledBelow, FrameFrom, Parse, GoodCodec;
    assert FrameOk(c, y.book, f);
    var k: nat, base: nat, json :|
      && Genuine(c, y.book, k, f.header, json) && FrameFrom(c, f.header, json, k, base, f)
      && SettledBelow(y.book, base) && base <= k < base + SEQUENCE_WINDOW;
    ReadBack(c, f.header, json, k, base, f);
    if json != y.book.queued[k].json {
      SkipIsWhole(c);
    }
  }

  // ---- The frame the receiver waits for ----

  /** A frame on the wire never lies beyond the receive window, unless a handler below the
      baseline it announces is still in flight. */
  lemma FrameInWindow(y: Sys, env: Env, f: Envelope, s: Stream)
    requires GoodCodec(CodecOf(env)) && Inv(y, env) && f in y.frames && Parse(f.body).Some?
    ensures var p := Parse(f.body).value;
      var t := AdvanceBase(s, Max(y.remoteBase, p.baseSeq));
      p.seqNo <= t.last + SEQUENCE_WINDOW || (s.drain.Awaiting? && s.drain.seqNo < t.base)
  {
    var c := CodecOf(env);
    hide StreamOk, SenderOk, LogOk, Numbered, SettledBelow, FrameFrom, Parse, SkipsDiscarded, Genuine;
    assert FrameOk(c, y.book, f);
    var k: nat, base: nat, json :|
      && Genuine(c, y.book, k, f.header, json) && FrameFrom(c, f.header, json, k, base, f)
      && SettledBelow(y.book, base) && base <= k < base + SEQUENCE_WINDOW;
    ReadBack(c, f.header, json, k, base, f);
  }

  // ---- The receiver's buffers over whole runs ----

  predicate Acceptable(f: Envelope) {
    Parse(f.body).Some? && (Parse(f.body).value.segment.Some? ==> SegmentAccepted(Parse(f.body).value.segment.value))
  }

  /** A skip arrives for the very number whose handler is in flight. */
  predicate Overtakes(y: Sys, env: Env, step: Step) {
    && step.Arrive? && step.f in y.frames && y.active && Acceptable(step.f)
    && SkipFrame(env.j, Parse(step.f.body).value)
    && y.rx.Some? && y.rx.value.drain.Awaiting? && y.rx.value.drain.seqNo == Parse(step.f.body).value.seqNo
  }

  /** How a step moves the account of the receiver: a skip that overtakes takes the entry in delivery away
      and its place if it fits, and a success pays for the entry it began with. */
  ghost function SlackAfter(y: Sys, env: Env, step: Step, e: Slack): Slack {
    if y.rx.None? || step.ForgetStream? then EXACT
    else if Overtakes(y, env, step) then Overtaken(e, ByteLength(Parse(step.f.body).value.data))
    else if step.HandlerSettles? && y.rx.value.drain.Awaiting? then AfterSettling(y.rx.value, step.ok, e)
    else if step.StartDraining? && y.rx.value.drain == Live then e.(head := Kept)
    else e
  }

  ghost function SlackOf(y: Sys, env: Env, steps: seq<Step>, e: Slack): Slack
    decreases |steps|
  {
    if steps == [] then e else SlackOf(Do(y, env, steps[0]), env, steps[1..], SlackAfter(y, env, steps[0], e))
  }

  /** What was dropped from under its handler was small enough to come in one frame. */
  predicate Slim(s: Stream, e: Slack) {
    s.drain.Awaiting? && e.head.Dropped? ==> ByteLength(s.drain.entry.json) <= MAX_CHUNK_BYTES
  }

  ghost predicate Buffered(y: Sys, env: Env, e: Slack) {
    if y.rx.Some? then Buffers(y.rx.value, env.j, e) && Slim(y.rx.value, e) else e == EXACT
  }

  lemma OpenBuffers(base: nat, j: Json)
    ensures Buffers(Receiver.Open(base), j, EXACT) && Ordered(Receiver.Open(base))
  {
    var t := Receiver.Open(base);
    assert AssemblySizes(t.assemblies) == map[] && ReadySizes(t.ready) == map[];
  }

  lemma StreamIsOrdered(y: Sys, env: Env)
    requires Inv(y, env) && y.rx.Some?
    ensures Ordered(y.rx.value) && HeadFirst(y.rx.value)
  {
    hide SenderOk, WireOk, LogOk, Numbered, SettledBelow, SkipsDiscarded, Held, HeadFirst, CaughtUp;
  }

  lemma ChunkOnWire(y: Sys, env: Env, f: Envelope)
    requires GoodCodec(CodecOf(env)) && Inv(y, env) && f in y.frames
    ensures Parse(f.body).Some? && ByteLength(Parse(f.body).value.data) <= MAX_CHUNK_BYTES
  {
    var c := CodecOf(env);
    hide StreamOk, SenderOk, LogOk, Numbered, SettledBelow, FrameFrom, Parse, GoodCodec, SkipsDiscarded, ByteLength;
    assert FrameOk(c, y.book, f);
    var k: nat, base: nat, json :|
      && Genuine(c, y.book, k, f.header, json) && FrameFrom(c, f.header, json, k, base, f)
      && SettledBelow(y.book, base) && base <= k < base + SEQUENCE_WINDOW;
    ReadBack(c, f.header, json, k, base, f);
  }

  lemma SegmentedIsLarge(y: Sys, env: Env, f: Envelope)
    requires GoodCodec(CodecOf(env)) && Inv(y, env) && f in y.frames
    ensures Parse(f.body).Some? && Parse(f.body).value.seqNo in y.book.queued
    ensures var p := Parse(f.body).value;
      p.segment.Some? ==> ByteLength(y.book.queued[p.seqNo].json) > MAX_CHUNK_BYTES
  {
    var c := CodecOf(env);
    hide StreamOk, SenderOk, LogOk, Numbered, SettledBelow, FrameFrom, Parse, SkipsDiscarded, ByteLength;
    assert FrameOk(c, y.book, f);
    var k: nat, base: nat, json :|
      && Genuine(c, y.book, k, f.header, json) && FrameFrom(c, f.header, json, k, base, f)
      && SettledBelow(y.book, base) && base <= k < base + SEQUENCE_WINDOW;
    ReadBack(c, f.header, json, k, base, f);
    SplitMessage(json);
    if json != y.book.queued[k].json {
      SkipIsWhole(c);
    }
  }

  /** What is being handled is what was queued. */
  lemma HandlesQueued(y: Sys, env: Env)
    requires GoodCodec(CodecOf(env)) && Inv(y, env) && y.rx.Some? && y.rx.value.drain.Awaiting?
    ensures var s, n := y.rx.value, y.rx.value.drain.seqNo;
      && n in y.book.queued && s.drain.entry.json == y.book.queued[n].json
      && !env.j.Skip(s.drain.entry.json)
      && (n in s.ready ==> s.ready[n].json == y.book.queued[n].json || s.ready[n].json == env.skipJson)
  {
    hide SenderOk, WireOk, LogOk, Numbered, SettledBelow, SkipsDiscarded, AssemblyOk, Ordered;
  }

  /** An overtaking skip that does not fit takes away something smaller than itself. */
  lemma OvertakenSlim(y: Sys, env: Env, f: Envelope, e: Slack)
    requires GoodCodec(CodecOf(env)) && Inv(y, env) && Buffered(y, env, e) && Overtakes(y, env, Arrive(f))
    ensures Slim(y.rx.value, Overtaken(e, ByteLength(Parse(f.body).value.data)))
  {
    hide Inv, Parse, Buffers, Ordered, SegmentAccepted, ByteLength, GoodCodec;
    var s, p := y.rx.value, Parse(f.body).value;
    var n, bytes := s.drain.seqNo, ByteLength(p.data);
    FrameCarries(y, env, f);
    ChunkOnWire(y, env, f);
    HandlesQueued(y, env);
    assert p.data == env.skipJson;
    if e.drift + bytes > MAX_REASSEMBLY_BYTES && !e.head.Dropped? {
      HeadHeld(s, env.j, e);
      RefusedIsLarger(s, env.j, n, bytes, e);
    }
  }

  lemma HeadHeld(s: Stream, j: Json, e: Slack)
    requires Buffers(s, j, e) && s.drain.Awaiting? && !e.head.Dropped?
    ensures s.drain.seqNo in s.ready
  {
  }

  lemma ArriveBuffers(y: Sys, env: Env, f: Envelope, e: Slack)
    requires GoodCodec(CodecOf(env)) && Inv(y, env) && Buffered(y, env, e) && Acceptable(f) && f in y.frames && y.active
    ensures Buffered(ArriveStep(y, env, f), env, SlackAfter(y, env, Arrive(f), e))
  {
    hide Inv, Parse, Ingest, Buffers, Ordered, SegmentAccepted, ByteLength, GoodCodec;
    var p := Parse(f.body).value;
    if y.rx.None? {
      OpenBuffers(Max(y.remoteBase, p.baseSeq), env.j);
      var s := Receiver.Open(Max(y.remoteBase, p.baseSeq));
      IngestBuffers(s, env.j, y.remoteBase, f.header, p, EXACT);
    } else {
      StreamIsOrdered(y, env);
      var s := y.rx.value;
      IngestOrdered(s, env.j, y.remoteBase, f.header, p);
      if Overtakes(y, env, Arrive(f)) {
        ChunkOnWire(y, env, f);
        OvertakenSlim(y, env, f, e);
        OvertakingSkip(s, env.j, y.remoteBase, f.header, p, y.active, e);
      } else {
        if s.drain.Awaiting? && s.drain.seqNo == p.seqNo {
          SegmentedIsLarge(y, env, f);
          HandlesQueued(y, env);
        }
        IngestBuffers(s, env.j, y.remoteBase, f.header, p, e);
      }
    }
  }

  lemma RebasedBuffers(s: Stream, j: Json, base: nat, e: Slack)
    requires Buffers(s, j, e) && HeadFirst(s)
    ensures Buffers(AdvanceBase(s, base), j, e) && Buffers(Resumed(s), j, e)
    ensures AdvanceBase(s, base).drain == s.drain && (Resumed(s).drain.Awaiting? ==> Resumed(s).drain == s.drain)
  {
    ApplyBaseOrdered(s);
    ApplyBaseOrdered(s.(base := Max(s.base, base)));
    hide Buffers, ApplyBase;
    var raised := s.(base := Max(s.base, base));
    RaisedBuffers(s, raised.base, j, e);
    ApplyBaseBuffers(raised, j, e);
    ApplyBaseBuffers(s, j, e);
    ScheduleBuffers(ApplyBase(s), j, e);
  }

  /** A step that does not touch the receiving stream. */
  predicate Elsewhere(step: Step) {
    && !step.Arrive? && !step.StartDraining? && !step.HandlerSettles? && !step.ResumeStream? && !step.InstallBase?
    && !step.ForgetStream?
  }

  lemma ElsewhereSame(y: Sys, env: Env, step: Step)
    requires Elsewhere(step)
    ensures var z := Do(y, env, step); z.rx == y.rx && z.remoteBase == y.remoteBase && z.log == y.log
  {
    hide SendMessage, HandleAck, RetryPass, SkipRequest, Confirmed, DropPrefix, CommitSend, FindRequest, Abandon,
         SetReliable, Gone;
  }

  lemma StepBuffered(y: Sys, env: Env, step: Step, e: Slack)
    requires GoodCodec(CodecOf(env)) && Inv(y, env) && Buffered(y, env, e)
    ensures Buffered(Do(y, env, step), env, SlackAfter(y, env, step, e))
  {
    if Elsewhere(step) {
      hide Inv, Buffers, Do, Overtakes, GoodCodec, Slim;
      ElsewhereSame(y, env, step);
    } else {
      StreamStepBuffered(y, env, step, e);
    }
  }

  lemma StreamStepBuffered(y: Sys, env: Env, step: Step, e: Slack)
    requires GoodCodec(CodecOf(env)) && Inv(y, env) && Buffered(y, env, e) && !Elsewhere(step)
    ensures Buffered(Do(y, env, step), env, SlackAfter(y, env, step, e))
  {
    hide Inv, Buffers, Ingest, StartDrain, Settle, AdvanceBase, Resumed, ArriveStep, Parse, Ordered, HeadFirst,
         SegmentAccepted, GoodCodec, ByteLength, AfterSettling;
    if y.rx.Some? {
      StreamIsOrdered(y, env);
    }
    match step
    case Arrive(f) => if Acceptable(f) && f in y.frames && y.active { ArriveBuffers(y, env, f, e); }
    case StartDraining =>
      if y.rx.Some? && y.rx.value.drain == Live { StartDrainBuffers(y.rx.value, env.j, y.active, e); }
    case HandlerSettles(ok) =>
      if y.rx.Some? && y.rx.value.drain.Awaiting? { SettleBuffers(y.rx.value, env.j, ok, y.active, e); }
    case ResumeStream => if y.rx.Some? { RebasedBuffers(y.rx.value, env.j, 0, e); }
    case InstallBase(base) =>
      OpenBuffers(base, env.j);
      if y.rx.Some? { RebasedBuffers(y.rx.value, env.j, base, e); }
    case ForgetStream =>
  }

  lemma {:induction false} RunBuffered(y: Sys, env: Env, steps: seq<Step>, e: Slack)
    requires GoodCodec(CodecOf(env)) && Inv(y, env) && Buffered(y, env, e)
    ensures Buffered(Run(y, env, steps), env, SlackOf(y, env, steps, e))
    decreases |steps|
  {
    hide Inv, Do, Buffered, Overtakes, SlackAfter, GoodCodec, ByteLength;
    if steps != [] {
      StepOk(y, env, steps[0]);
      StepBuffered(y, env, steps[0], e);
      RunBuffered(Do(y, env, steps[0]), env, steps[1..], SlackAfter(y, env, steps[0], e));
    }
  }

  /** What is always held within bounds, and by how much the byte counter is off. */
  ghost predicate HeldWithin(s: Stream, drift: int) {
    && (forall k <- s.ready.Keys + s.assemblies.Keys :: s.last < k <= s.last + SEQUENCE_WINDOW)
    && s.ready.Keys !! s.assemblies.Keys
    && Slots(s) <= MAX_REASSEMBLIES
    && s.buffered == Stored(s) + drift && s.buffered <= MAX_REASSEMBLY_BYTES
  }

  /** Over any run: held numbers lie in the window above the last delivered one, none is held twice, at
      most sixteen are held, the byte counter is within its limit, and it is off by exactly what overtaken
      successes have left, for better or worse. */
  lemma BuffersHold(env: Env, steps: seq<Step>)
    requires GoodCodec(CodecOf(env))
    ensures var y := Run(START, env, steps);
      y.rx.Some? ==> HeldWithin(y.rx.value, SlackOf(START, env, steps, EXACT).drift)
  {
    StartOk(env);
    assert Buffered(START, env, EXACT);
    hide *;
    RunBuffered(START, env, steps, EXACT);
    BufferedSays(Run(START, env, steps), env, SlackOf(START, env, steps, EXACT));
  }

  lemma BufferedSays(y: Sys, env: Env, e: Slack)
    requires Buffered(y, env, e)
    ensures y.rx.Some? ==> HeldWithin(y.rx.value, e.drift)
  {
    hide Stored;
  }

  ghost predicate NoneOvertakes(y: Sys, env: Env, steps: seq<Step>)
    decreases |steps|
  {
    steps != [] ==> !Overtakes(y, env, steps[0]) && NoneOvertakes(Do(y, env, steps[0]), env, steps[1..])
  }

  lemma {:induction false} NeverOff(y: Sys, env: Env, steps: seq<Step>)
    requires NoneOvertakes(y, env, steps) && GoodCodec(CodecOf(env)) && Inv(y, env) && Buffered(y, env, EXACT)
    ensures SlackOf(y, env, steps, EXACT) == EXACT
    decreases |steps|
  {
    hide Inv, Do, Buffers, Overtakes, GoodCodec;
    if steps != [] {
      StepOk(y, env, steps[0]);
      StepBuffered(y, env, steps[0], EXACT);
      assert SlackAfter(y, env, steps[0], EXACT) == EXACT by { StaysExact(y, env, steps[0]); }
      NeverOff(Do(y, env, steps[0]), env, steps[1..]);
    }
  }

  lemma StaysExact(y: Sys, env: Env, step: Step)
    requires Buffered(y, env, EXACT) && !Overtakes(y, env, step)
    ensures SlackAfter(y, env, step, EXACT) == EXACT
  {
    hide Overtakes, Shaped, Accounted;
  }

  /** Without an overtaking skip the byte counter is exactly what is held. */
  lemma BuffersExact(env: Env, steps: seq<Step>)
    requires GoodCodec(CodecOf(env)) && NoneOvertakes(START, env, steps)
    ensures var y := Run(START, env, steps);
      y.rx.Some? ==> HeldWithin(y.rx.value, 0)
  {
    StartOk(env);
    assert Buffered(START, env, EXACT);
    hide *;
    NeverOff(START, env, steps);
    BuffersHold(env, steps);
  }
}
