/** What a queued message is charged covers what it takes on the wire, whatever baseline it announces. */
module ChargeLaws {
  import opened Text
  import opened Transport
  import opened Sender
  import opened SenderLaws
  import opened Book
  import opened DeviceLink
  import opened LinkTheorems
  import opened WireBudget

  function BaseNumber(f: Envelope): int {
    if f.body.baseSeq.Some? then f.body.baseSeq.value else 1
  }

  /** Two frames that differ at most in the baseline they announce. */
  predicate SameButBase(f: Envelope, g: Envelope) {
    f.header == g.header && f.body == g.body.(baseSeq := f.body.baseSeq)
  }

  /** A larger baseline never makes a frame shorter; that of 1 is left out. */
  ghost predicate Sized(env: Env) {
    forall f, g :: SameButBase(f, g) && BaseNumber(f) <= BaseNumber(g) ==> env.wire(f) <= env.wire(g)
  }

  lemma {:induction false} FramesNoLarger(env: Env, fs: seq<Envelope>, gs: seq<Envelope>)
    requires Sized(env) && |fs| == |gs|
    requires forall i :: 0 <= i < |fs| ==> SameButBase(fs[i], gs[i]) && BaseNumber(fs[i]) <= BaseNumber(gs[i])
    ensures WireBytes(env, fs) <= WireBytes(env, gs)
  {
    hide SameButBase, BaseNumber;
    if fs != [] {
      assert SameButBase(fs[0], gs[0]) && BaseNumber(fs[0]) <= BaseNumber(gs[0]);
      FramesNoLarger(env, fs[1..], gs[1..]);
    }
  }

  /** Encoding with a smaller baseline gives the same frames, none of them larger. */
  lemma EncodedNoLarger(env: Env, header: Header, json: Text, seqNo: nat, base: nat)
    requires Sized(env) && base <= seqNo
    requires Encode(header, env.streamId, json, seqNo, seqNo).Some?
    ensures var r := Encode(header, env.streamId, json, seqNo, base);
      r.Some? ==> WireBytes(env, r.value) <= WireBytes(env, Encode(header, env.streamId, json, seqNo, seqNo).value)
  {
    hide ByteLength, Split, Sized, WireBytes;
    var r, full := Encode(header, env.streamId, json, seqNo, base), Encode(header, env.streamId, json, seqNo, seqNo);
    if r.Some? {
      FramesNoLarger(env, r.value, full.value);
    }
  }

  /** The charge of a message, or of the skip in its place, covers its frames. */
  lemma ChargeCovers(env: Env, p: Pending, base: nat)
    requires Sized(env) && Priced(env, p) && base <= p.seqNo
    ensures WireBytes(env, FramesAt(env, base, p)) <= p.bytes
  {
    hide Sized, Encode, WireBytes;
    assert WireBytes(env, []) == 0 by { NothingOnWire(env); }
    var full := Encode(p.header, env.streamId, p.json, p.seqNo, p.seqNo);
    if full.Some? {
      EncodedNoLarger(env, p.header, p.json, p.seqNo, base);
    } else {
      NeverEncoded(env, p, base);
    }
  }

  lemma NothingOnWire(env: Env)
    ensures WireBytes(env, []) == 0
  {
  }

  lemma NeverEncoded(env: Env, p: Pending, base: nat)
    requires Encode(p.header, env.streamId, p.json, p.seqNo, p.seqNo).None? && base <= p.seqNo
    ensures FramesAt(env, base, p) == []
  {
    hide ByteLength, Split;
  }

  function QueueOnWire(env: Env, base: nat, ps: seq<Pending>): nat {
    if ps == [] then 0 else WireBytes(env, FramesAt(env, base, ps[0])) + QueueOnWire(env, base, ps[1..])
  }

  lemma {:induction false} QueueCovered(env: Env, base: nat, ps: seq<Pending>)
    requires Sized(env) && AllPriced(env, ps) && forall i :: 0 <= i < |ps| ==> base <= ps[i].seqNo
    ensures QueueOnWire(env, base, ps) <= SumBytes(ps)
  {
    hide Sized, Priced, FramesAt;
    if ps != [] {
      ChargeCovers(env, ps[0], base);
      assert forall i :: 0 <= i < |ps[1..]| ==> ps[1..][i] == ps[i + 1];
      QueueCovered(env, base, ps[1..]);
    }
  }

  /** After any run, writing the whole queue takes no more than its byte counter says. */
  lemma CounterCoversQueue(env: Env, steps: seq<Step>)
    requires GoodCodec(CodecOf(env)) && Sized(env)
    ensures var s := Run(START, env, steps).s; QueueOnWire(env, BaseOf(s), s.pending) <= s.pendingBytes
  {
    StartOk(env);
    assert AllPriced(env, START.s.pending);
    RunPriced(START, env, steps);
    hide Run, START, Sized, Priced;
    WindowHolds(env, steps);
    var s := Run(START, env, steps).s;
    QueueCovered(env, BaseOf(s), s.pending);
  }
}
