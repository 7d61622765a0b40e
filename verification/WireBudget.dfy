/** What queued messages are charged over whole runs, and the bound this puts on a retry pass. */
module WireBudget {
  import opened Text
  import opened Transport
  import opened Receiver
  import opened Sender
  import opened SenderLaws
  import opened Book
  import opened DeviceLink

  // ---- What every entry is charged ----

  lemma {:induction false} TailBytes(ps: seq<Pending>, k: nat)
    requires k <= |ps|
    ensures SumBytes(ps[k..]) <= SumBytes(ps)
  {
    if k > 0 {
      TailBytes(ps[1..], k - 1);
      assert ps[1..][k - 1..] == ps[k..];
    } else {
      assert ps[0..] == ps;
    }
  }

  lemma TailPriced(env: Env, s: Sender, t: Sender, k: nat)
    requires AllPriced(env, s.pending) && k <= |s.pending| && SameMessages(s.pending[k..], t.pending)
    ensures AllPriced(env, t.pending)
  {
    hide SameMessages, Priced;
    assert AllPriced(env, s.pending[k..]);
    PricedSame(env, s.pending[k..], t.pending);
  }

  lemma TailWithin(s: Sender, t: Sender, k: nat)
    requires Window(s) && Window(t) && k <= |s.pending| && SameMessages(s.pending[k..], t.pending)
    ensures t.pendingBytes <= s.pendingBytes
  {
    hide SameMessages;
    SameSum(s.pending[k..], t.pending);
    TailBytes(s.pending, k);
  }

  /** Moving on from a queue keeps what its entries are charged, and charges no more. */
  ghost predicate Kept(env: Env, s: Sender, t: Sender) {
    (AllPriced(env, s.pending) ==> AllPriced(env, t.pending))
      && (s.pendingBytes <= MAX_PENDING_BYTES ==> t.pendingBytes <= MAX_PENDING_BYTES)
  }

  lemma MovedKept(env: Env, s: Sender, o: Outcome, k: nat)
    requires Window(s) && Moved(s, env, o, k)
    ensures Kept(env, s, o.sender)
  {
    hide Window, Written, SameMessages, AllPriced;
    TailWithin(s, o.sender, k);
    if AllPriced(env, s.pending) {
      TailPriced(env, s, o.sender, k);
    }
  }

  lemma OfferedPriced(env: Env, s: Sender, m: Sending, r: Sent, k: nat)
    requires AllPriced(env, s.pending) && Offered(s, env, m, r, k)
    ensures AllPriced(env, r.sender.pending)
  {
    hide Window, Written, SameMessages, Priced;
    if r.verdict != Accepted {
      TailPriced(env, s, r.sender, k);
    } else {
      var ps, n := r.sender.pending, |r.sender.pending| - 1;
      assert AllPriced(env, s.pending[k..]);
      PricedSame(env, s.pending[k..], ps[..n]);
      LastPriced(env, ps[n]);
      forall i | 0 <= i < |ps| ensures Priced(env, ps[i]) {
        assert i < n ==> ps[..n][i] == ps[i];
      }
    }
  }

  lemma LastPriced(env: Env, p: Pending)
    ensures Reservation(env, p.header, p.json, p.seqNo) == Some(p.bytes) ==> Priced(env, p)
  {
  }

  lemma OfferedKept(env: Env, s: Sender, m: Sending, r: Sent, k: nat)
    requires Window(s) && Offered(s, env, m, r, k)
    ensures Kept(env, s, r.sender)
  {
    hide Window, Written, SameMessages, AllPriced;
    if AllPriced(env, s.pending) {
      OfferedPriced(env, s, m, r, k);
    }
    if r.verdict != Accepted {
      TailWithin(s, r.sender, k);
    }
  }

  // ---- Giving a request up ----

  /** The change of the charge if the message of request `id` becomes a skip. */
  function SkipGrowth(env: Env, s: Sender, id: Text): int {
    var i := FindRequest(s.pending, id);
    if i == |s.pending| then 0 else SkipBytes(env, s.pending[i]) - s.pending[i].bytes
  }

  lemma SkippedPriced(env: Env, s: Sender, i: nat)
    requires AllPriced(env, s.pending) && i < |s.pending|
    ensures AllPriced(env, Skipped(s, env, i).pending)
  {
    hide SkipBytes, Reservation;
    var ps := Skipped(s, env, i).pending;
    SkipBytesSame(env, s.pending[i], ps[i]);
    forall x | 0 <= x < |ps| ensures Priced(env, ps[x]) {
      assert x != i ==> ps[x] == s.pending[x] && Priced(env, s.pending[x]);
    }
  }

  /** Whatever kind of message is replaced by its skip, the skip is charged its own size. */
  lemma GivenUpPriced(env: Env, s: Sender, id: Text, now: int, online: bool, writable: nat)
    requires AllPriced(env, s.pending) && Sane(s)
    ensures AllPriced(env, SkipRequest(s, env, id, now, online, writable).sender.pending)
  {
    hide Window, Written, Reservation, SendAt, SkipBytes;
    var i := FindRequest(s.pending, id);
    var t := SkipRequest(s, env, id, now, online, writable).sender;
    if i < |s.pending| {
      var u := Skipped(s, env, i);
      SkippedPriced(env, s, i);
      SkippedWindow(s, env, i);
      SendAtLaw(u, env, i, now, writable);
      assert SameQueue(u, t) by { RetryIdle(u, env); }
      hide Priced, Skipped;
      PricedSame(env, u.pending, t.pending);
    }
  }

  /** Giving a request up changes the charge by the growth, known before. */
  lemma GivenUpBytes(env: Env, s: Sender, id: Text, now: int, online: bool, writable: nat)
    ensures SkipRequest(s, env, id, now, online, writable).sender.pendingBytes
      == s.pendingBytes + SkipGrowth(env, s, id)
  {
    hide SkipBytes, FramesOf;
  }

  /** An invoke has room reserved for its skip: it never grows. */
  lemma InvokesNeverGrow(env: Env, s: Sender, id: Text)
    requires AllPriced(env, s.pending)
    requires var i := FindRequest(s.pending, id); i < |s.pending| ==> s.pending[i].header.kind == Invoke
    ensures SkipGrowth(env, s, id) <= 0
  {
    hide SkipBytes, Reservation;
    var i := FindRequest(s.pending, id);
    if i < |s.pending| {
      SkipNeverGrowsInvoke(s, env, i);
    }
  }

  // ---- Every step ----

  lemma QueueKept(env: Env, s: Sender, t: Sender)
    requires (t.pending == s.pending && t.pendingBytes == s.pendingBytes) || (t.pending == [] && t.pendingBytes == 0)
    ensures Kept(env, s, t)
  {
    hide Priced;
  }

  lemma RetriedKept(env: Env, s: Sender, t: Sender)
    requires SameQueue(s, t)
    ensures Kept(env, s, t)
  {
    hide Priced, SameMessages;
    if AllPriced(env, s.pending) {
      PricedSame(env, s.pending, t.pending);
    }
  }

  lemma AckKept(env: Env, s: Sender, ack: nat, id: Option<Text>, now: int, g: seq<nat>, h: seq<nat>)
    requires Sane(s) && s.reliable
    ensures Kept(env, s, HandleAck(s, env, ack, id, now, g, h).sender)
  {
    hide AllPriced, Moved, Window, Confirmed, Acknowledged;
    var d, k := HandleAckLaw(s, env, ack, id, now, g, h);
    var c := Confirmed(s, env, ack, id, now, g);
    MovedKept(env, s, c, d);
    MovedSane(s, env, c, d);
    MovedKept(env, c.sender, Acknowledged(c.sender, env, ack, now, h), k);
  }

  lemma StepKept(y: Sys, env: Env, step: Step)
    requires Inv(y, env) && !step.GiveUpRequest?
    ensures Kept(env, y.s, Do(y, env, step).s)
  {
    hide Inv, Kept, SendMessage, SkipRequest, DropPrefix, CommitSend, Moved, Offered, RetryPass,
         Confirmed, Acknowledged, Ingest, AdvanceBase, ApplyBase, Settle, StartDrain, Resumed,
         Parse, SegmentAccepted, Window, FindRequest;
    SenderSane(y, env);
    match step
    case Send(m) =>
      QueueKept(env, y.s, y.s);
      var k := SendMessageLaw(y.s, env, m);
      OfferedKept(env, y.s, m, SendMessage(y.s, env, m), k);
    case TakeAck(ack, id, now, g, h) =>
      QueueKept(env, y.s, y.s);
      if y.s.reliable {
        AckKept(env, y.s, ack, id, now, g, h);
      }
      hide HandleAck;
    case RetryTimer(now, grants) =>
      RetryPassLaw(y.s, env, now, false, grants);
      RetriedKept(env, y.s, RetryPass(y.s, env, now, false, grants).sender);
    case DropStale(now) =>
      var k := DroppedMoved(y.s, env, now);
      MovedKept(env, y.s, Outcome(DropPrefix(y.s, env, now, false), []), k);
    case OpenSending(resume, now, grants) =>
      QueueKept(env, y.s, y.s);
      if y.s.reliable {
        var k := CommitSendLaw(y.s, env, resume, now, grants);
        MovedKept(env, y.s, CommitSend(y.s, env, resume, now, grants), k);
      }
    case _ => QueueKept(env, y.s, Do(y, env, step).s);
  }

  // ---- Retry passes ----

  lemma {:induction false} RunPriced(y: Sys, env: Env, steps: seq<Step>)
    requires GoodCodec(CodecOf(env)) && Inv(y, env) && AllPriced(env, y.s.pending)
    ensures AllPriced(env, Run(y, env, steps).s.pending)
    decreases |steps|
  {
    hide Inv, Do, AllPriced;
    if steps != [] {
      StepOk(y, env, steps[0]);
      StepPriced(y, env, steps[0]);
      RunPriced(Do(y, env, steps[0]), env, steps[1..]);
    }
  }

  lemma StepPriced(y: Sys, env: Env, step: Step)
    requires Inv(y, env) && AllPriced(env, y.s.pending)
    ensures AllPriced(env, Do(y, env, step).s.pending)
  {
    hide Inv, AllPriced, SkipRequest, FindRequest;
    if step.GiveUpRequest? {
      SenderSane(y, env);
      GivenUpPriced(env, y.s, step.id, step.skipAt, step.online, step.writable);
      GiveUpIs(y, env, step);
    } else {
      hide Do;
      StepKept(y, env, step);
    }
  }

  lemma GiveUpIs(y: Sys, env: Env, step: Step)
    requires step.GiveUpRequest?
    ensures Do(y, env, step).s == SkipRequest(y.s, env, step.id, step.skipAt, step.online, step.writable).sender
  {
    hide SkipRequest, FindRequest;
  }

  /** Over any run at all, whatever pass comes next writes at most its budget of frames, or else only
      frames of a single message, which cannot be spread over passes. */
  lemma PassesStayInBudget(env: Env, steps: seq<Step>, now: int, ignoreInterval: bool, grants: seq<nat>)
    requires GoodCodec(CodecOf(env)) && Wrapping(env) && 1 <= env.budget
    ensures var s := Run(START, env, steps).s;
      var w := RetryPass(s, env, now, ignoreInterval, grants).written;
      |w| <= env.budget || exists k :: 0 <= k < |s.pending| && w <= FramesOf(env, s, s.pending[k])
  {
    StartOk(env);
    assert AllPriced(env, START.s.pending);
    RunPriced(START, env, steps);
    hide Run, START, RetryFrom, Wrapping, Priced, FramesOf;
    var s := Run(START, env, steps).s;
    RetryPassBound(s, env, now, ignoreInterval, 0, grants);
  }

  // ---- Sixteen megabytes ----

  /** The queue is within its limit at every moment of the run. */
  ghost predicate AlwaysWithin(y: Sys, env: Env, steps: seq<Step>)
    decreases |steps|
  {
    y.s.pendingBytes <= MAX_PENDING_BYTES && (steps == [] || AlwaysWithin(Do(y, env, steps[0]), env, steps[1..]))
  }

  /** Whenever a request is given up, its skip fits in the place of its message: what is charged, and
      the sizes of message and skip, say so before the step. */
  ghost predicate GiveUpsFit(y: Sys, env: Env, steps: seq<Step>)
    decreases |steps|
  {
    steps != [] ==>
      && (steps[0].GiveUpRequest? ==> y.s.pendingBytes + SkipGrowth(env, y.s, steps[0].id) <= MAX_PENDING_BYTES)
      && GiveUpsFit(Do(y, env, steps[0]), env, steps[1..])
  }

  lemma StepWithin(y: Sys, env: Env, step: Step)
    requires Inv(y, env) && y.s.pendingBytes <= MAX_PENDING_BYTES
    ensures Do(y, env, step).s.pendingBytes <= MAX_PENDING_BYTES
       <==> (step.GiveUpRequest? ==> y.s.pendingBytes + SkipGrowth(env, y.s, step.id) <= MAX_PENDING_BYTES)
  {
    hide Inv, AllPriced, SkipRequest, SkipGrowth, Do;
    if step.GiveUpRequest? {
      GivenUpBytes(env, y.s, step.id, step.skipAt, step.online, step.writable);
      GiveUpIs(y, env, step);
    } else {
      StepKept(y, env, step);
    }
  }

  lemma {:induction false} RunWithinIff(y: Sys, env: Env, steps: seq<Step>)
    requires GoodCodec(CodecOf(env)) && Inv(y, env) && y.s.pendingBytes <= MAX_PENDING_BYTES
    ensures AlwaysWithin(y, env, steps) <==> GiveUpsFit(y, env, steps)
    decreases |steps|
  {
    hide Inv, Do, SkipGrowth;
    if steps != [] {
      StepOk(y, env, steps[0]);
      StepWithin(y, env, steps[0]);
      if Do(y, env, steps[0]).s.pendingBytes <= MAX_PENDING_BYTES {
        RunWithinIff(Do(y, env, steps[0]), env, steps[1..]);
      }
    }
  }

  /** The queue stays within sixteen megabytes throughout a run if and only if every skip fits in the
      place of its message when that is given up. */
  lemma QueueStaysWithinIff(env: Env, steps: seq<Step>)
    requires GoodCodec(CodecOf(env))
    ensures AlwaysWithin(START, env, steps) <==> GiveUpsFit(START, env, steps)
  {
    StartOk(env);
    RunWithinIff(START, env, steps);
  }

  /** Only invokes are given up. */
  ghost predicate OnlyInvokesGivenUp(y: Sys, env: Env, steps: seq<Step>)
    decreases |steps|
  {
    steps != [] ==>
      && (steps[0].GiveUpRequest? ==>
            var i := FindRequest(y.s.pending, steps[0].id); i < |y.s.pending| ==> y.s.pending[i].header.kind == Invoke)
      && OnlyInvokesGivenUp(Do(y, env, steps[0]), env, steps[1..])
  }

  lemma {:induction false} InvokesFit(y: Sys, env: Env, steps: seq<Step>)
    requires GoodCodec(CodecOf(env)) && Inv(y, env) && AllPriced(env, y.s.pending)
    requires y.s.pendingBytes <= MAX_PENDING_BYTES && OnlyInvokesGivenUp(y, env, steps)
    ensures GiveUpsFit(y, env, steps)
    decreases |steps|
  {
    hide Inv, Do, SkipGrowth, AllPriced;
    if steps != [] {
      if steps[0].GiveUpRequest? {
        InvokesNeverGrow(env, y.s, steps[0].id);
      }
      StepOk(y, env, steps[0]);
      StepPriced(y, env, steps[0]);
      StepWithin(y, env, steps[0]);
      InvokesFit(Do(y, env, steps[0]), env, steps[1..]);
    }
  }

  /** The skip of an invoke always fits, so with nothing else given up the limit holds throughout. */
  lemma QueueStaysWithinForInvokes(env: Env, steps: seq<Step>)
    requires GoodCodec(CodecOf(env)) && OnlyInvokesGivenUp(START, env, steps)
    ensures AlwaysWithin(START, env, steps)
  {
    StartOk(env);
    assert AllPriced(env, START.s.pending);
    InvokesFit(START, env, steps);
    QueueStaysWithinIff(env, steps);
  }
}
