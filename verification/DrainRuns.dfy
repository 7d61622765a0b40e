/** After any run, a drain or a success leaves no deliverable message behind. */
module DrainRuns {
  import opened Text
  import opened Receiver
  import opened ReceiverLaws
  import opened Sender
  import opened Book
  import opened DeviceLink
  import opened LinkTheorems
  import DrainLaws

  /** A drain starts, or a handler has succeeded, or one has failed that the baseline has passed or while
      a drain was asked for. */
  predicate Continues(s: Stream, step: Step) {
    || (step.StartDraining? && s.drain == Live)
    || (step.HandlerSettles? && s.drain.Awaiting?
        && (step.ok || s.base > s.drain.seqNo || s.drainRequested))
  }

  /** The next number is with its handler and no ACK was sent, or it is not deliverable and exactly all
      numbers before it were acknowledged. */
  ghost predicate NextIsInHand(y: Sys, z: Sys, env: Env) {
    && z.rx.Some?
    && var t := z.rx.value;
       var n := t.last + 1;
       if t.drain.Awaiting? then
         && n in t.ready && env.j.valid(t.ready[n].json) && !env.j.Skip(t.ready[n].json)
         && t.drain == Awaiting(n, t.ready[n]) && z.acks == y.acks
       else t.drain == Idle && !(n in t.ready && env.j.valid(t.ready[n].json)) && z.acks == y.acks + {t.last}
  }

  lemma ReactionInHand(y: Sys, z: Sys, env: Env, r: Reaction)
    requires DrainLaws.NothingLeft(r, env.j)
    requires z.rx == Some(r.stream) && z.acks == y.acks + (set a | a in r.acks)
    ensures NextIsInHand(y, z, env)
  {
    assert r.acks == [] ==> y.acks + (set a | a in r.acks) == y.acks;
    assert r.acks == [r.stream.last] ==> (set a | a in r.acks) == {r.stream.last};
  }

  lemma StartInHand(y: Sys, env: Env)
    requires y.active && y.rx.Some? && Ordered(y.rx.value) && y.rx.value.drain == Live
    ensures NextIsInHand(y, Do(y, env, StartDraining), env)
  {
    hide NextIsInHand, StartDrain, Settle, Ordered, DrainLaws.NothingLeft;
    DrainLaws.NothingLeftBehind(y.rx.value, env.j);
    ReactionInHand(y, Do(y, env, StartDraining), env, StartDrain(y.rx.value, env.j, true));
  }

  lemma SettleInHand(y: Sys, env: Env, ok: bool)
    requires y.active && y.rx.Some? && Ordered(y.rx.value) && Continues(y.rx.value, HandlerSettles(ok))
    ensures NextIsInHand(y, Do(y, env, HandlerSettles(ok)), env)
  {
    hide NextIsInHand, StartDrain, Settle, Ordered, DrainLaws.NothingLeft;
    DrainLaws.NothingLeftBehind(y.rx.value, env.j);
    ReactionInHand(y, Do(y, env, HandlerSettles(ok)), env, Settle(y.rx.value, env.j, ok, true));
  }

  /** After any run of the two ends, whatever of these an open receiving end does next. */
  lemma NothingLeftWaiting(env: Env, steps: seq<Step>, step: Step)
    requires GoodCodec(CodecOf(env))
    requires var y := Run(START, env, steps); y.active && y.rx.Some? && Continues(y.rx.value, step)
    ensures var y := Run(START, env, steps); NextIsInHand(y, Do(y, env, step), env)
  {
    StartOk(env);
    RunOk(START, env, steps);
    var y := Run(START, env, steps);
    StreamIsOrdered(y, env);
    hide *;
    if step.StartDraining? {
      assert y.rx.value.drain == Live by { ContinuesStart(y.rx.value, step); }
      StartInHand(y, env);
    } else {
      ContinuesSettle(y.rx.value, step);
      SettleInHand(y, env, step.ok);
    }
  }

  lemma ContinuesStart(s: Stream, step: Step)
    requires Continues(s, step) && step.StartDraining?
    ensures s.drain == Live
  {
  }

  lemma ContinuesSettle(s: Stream, step: Step)
    requires Continues(s, step) && !step.StartDraining?
    ensures step.HandlerSettles?
  {
  }

  /** A failure with none of that leaves its number where it is, deliverable or not, and acknowledges
      what came before. */
  lemma FailureStops(env: Env, steps: seq<Step>)
    requires GoodCodec(CodecOf(env))
    requires var y := Run(START, env, steps);
      y.active && y.rx.Some? && y.rx.value.drain.Awaiting? && !Continues(y.rx.value, HandlerSettles(false))
    ensures var y := Run(START, env, steps);
      var s, z := y.rx.value, Do(y, env, HandlerSettles(false));
      && z.rx == Some(s.(drain := Idle)) && s.last + 1 == s.drain.seqNo
      && z.acks == y.acks + {s.last} && z.book == y.book
  {
    StartOk(env);
    RunOk(START, env, steps);
    hide Run, START;
    var y := Run(START, env, steps);
    StreamIsOrdered(y, env);
    hide Inv, Settle;
    var m := DrainLaws.SettleIs(y.rx.value, env.j, false, true);
  }
}
