/** In a translated stream the blocks of calls and reasoning items stand in the order in which those items were done. */
module StreamOrder {
  import opened Text
  import opened Translate
  import opened TranslateShape
  import opened TranslateItems
  import opened OwnerSteps
  import opened BlockOwners
  import J = TranslateJson

  // ---- Orders ----

  /** The items in the order in which they are declared done. */
  function DoneOrder(log: seq<Upstream>): seq<int> {
    if log == [] then [] else DoneOf(log[0]) + DoneOrder(log[1..])
  }

  function DoneOf(e: Upstream): seq<int> {
    if e.OfItem? && e.k.Some? && e.body.Done? then [e.k.value] else []
  }

  /** The items of `s` among `ks`, in their places. */
  function Among(ks: seq<int>, s: set<int>): seq<int> {
    if ks == [] then [] else (if ks[0] in s then [ks[0]] else []) + Among(ks[1..], s)
  }

  lemma {:induction false} AmongAppend(a: seq<int>, b: seq<int>, s: set<int>)
    ensures Among(a + b, s) == Among(a, s) + Among(b, s)
  {
    if a == [] {
      assert a + b == b;
    } else {
      assert (a + b)[0] == a[0] && (a + b)[1..] == a[1..] + b;
      AmongAppend(a[1..], b, s);
    }
  }

  lemma {:induction false} AmongNone(ks: seq<int>, s: set<int>)
    requires forall k <- ks :: k !in s
    ensures Among(ks, s) == []
  {
    if ks != [] {
      var k := ks[0];
      assert k in ks && k !in s;
      assert forall j <- ks[1..] :: j in ks;
      AmongNone(ks[1..], s);
    }
  }

  /** Only `j` of the set occurs, and once. */
  lemma {:induction false} AmongOne(ks: seq<int>, s: set<int>, j: int)
    requires (forall k <- ks :: k in s ==> k == j) && j in s && multiset(ks)[j] == 1
    ensures Among(ks, s) == [j]
  {
    assert j in multiset(ks) && j in ks;
    assert ks == [ks[0]] + ks[1..];
    if ks[0] == j {
      assert multiset(ks[1..])[j] == 0;
      AmongNone(ks[1..], s);
    } else {
      AmongOne(ks[1..], s, j);
    }
  }

  /** The owners of the blocks that `out` closes, in order. */
  function Closers(out: seq<Emission>): seq<int> {
    if out == [] then [] else CloserOf(out[0]) + Closers(out[1..])
  }

  function CloserOf(e: Emission): seq<int> {
    if e.event.BlockStop? && e.owner.Some? then [e.owner.value] else []
  }

  lemma {:induction false} ClosersAppend(a: seq<Emission>, b: seq<Emission>)
    ensures Closers(a + b) == Closers(a) + Closers(b)
  {
    if a == [] {
      assert a + b == b;
    } else {
      assert (a + b)[0] == a[0] && (a + b)[1..] == a[1..] + b;
      ClosersAppend(a[1..], b);
    }
  }

  function Closings(ms: seq<Mark>): nat {
    if ms == [] then 0 else (if ms[0].Closes? then 1 else 0) + Closings(ms[1..])
  }

  lemma {:induction false} ClosingsAppend(a: seq<Mark>, b: seq<Mark>)
    ensures Closings(a + b) == Closings(a) + Closings(b)
  {
    if a == [] {
      assert a + b == b;
    } else {
      assert (a + b)[0] == a[0] && (a + b)[1..] == a[1..] + b;
      ClosingsAppend(a[1..], b);
    }
  }

  lemma {:induction false} CountClosers(out: seq<Emission>, k: int)
    ensures multiset(Closers(out))[k] == Closings(Marks(out, k))
  {
    if out != [] {
      CountClosers(out[1..], k);
      ClosingsAppend(MarkOf(out[0], k), Marks(out[1..], k));
      CloserCount(out[0], k);
      assert multiset(CloserOf(out[0]) + Closers(out[1..])) == multiset(CloserOf(out[0])) + multiset(Closers(out[1..]));
    }
  }

  lemma CloserCount(e: Emission, k: int)
    ensures multiset(CloserOf(e))[k] == Closings(MarkOf(e, k))
  {
    var ms := MarkOf(e, k);
    assert ms == [] || (|ms| == 1 && ms[1..] == []);
  }

  // ---- Blocks close in the order in which they began ----

  function Pending(s: Shape, ow: seq<int>): seq<int> {
    if s.open.Some? && ow != [] then [ow[|ow| - 1]] else []
  }

  /** The reader and the owners agree on how many blocks there were, and the open one is the last. */
  predicate Level(s: Shape, ow: seq<int>) {
    s.next == |ow| && (s.open.Some? ==> |ow| > 0 && s.open.value.0 == |ow| - 1)
  }

  lemma OneCloses(s: Shape, ow: seq<int>, e: Emission, done: seq<int>)
    requires Level(s, ow) && Fitting(ow, e) && Next(s, e.event).Some? && ow == done + Pending(s, ow)
    ensures var u, ow2 := Next(s, e.event).value, Grown(ow, e);
      Level(u, ow2) && ow2 == done + CloserOf(e) + Pending(u, ow2)
  {
  }

  lemma {:induction false} ClosedInOrder(s: Shape, ow: seq<int>, out: seq<Emission>, done: seq<int>)
    requires Level(s, ow) && AllFit(ow, out) && ow == done + Pending(s, ow)
    requires Reading(s, out).Some? && !Reading(s, out).value.ended
    ensures Level(Reading(s, out).value, OwnersAfter(ow, out))
    ensures OwnersAfter(ow, out) == done + Closers(out) + Pending(Reading(s, out).value, OwnersAfter(ow, out))
    decreases |out|
  {
    hide Next, Grown, Fitting, CloserOf, Level, Pending;
    if out == [] {
      assert done + [] == done;
    } else {
      OneCloses(s, ow, out[0], done);
      var u := Next(s, out[0].event).value;
      ClosedInOrder(u, Grown(ow, out[0]), out[1..], done + CloserOf(out[0]));
      assert done + CloserOf(out[0]) + Closers(out[1..]) == done + Closers(out);
    }
  }

  // ---- An item closes its block when it is done ----

  /** Alone, the item closes one block with each event that declares it done, and none otherwise. */
  predicate Tidy(cfg: Config, a: Alone, bodies: seq<Body>)
    decreases |bodies|
  {
    bodies == [] ||
    (Closings(AloneOn(cfg, a, bodies[0]).1) == (if bodies[0].Done? then 1 else 0)
     && Tidy(cfg, AloneOn(cfg, a, bodies[0]).0, bodies[1..]))
  }

  /** What is known of item `k` before `log` is handled. */
  predicate Ready(cfg: Config, t: Translator, log: seq<Upstream>, k: int) {
    && NeverMessage(log, k) && (k in t.slots ==> !t.slots[k].kind.Message?)
    && Tidy(cfg, AloneOf(t, k), Of(log, k))
  }

  lemma ReadyStep(cfg: Config, t: Translator, log: seq<Upstream>, k: int)
    requires log != [] && OneOpen(t) && Usual(log) && !ShouldDefer(t, log[0]) && Ready(cfg, t, log, k)
    ensures var e, a := log[0], HandleOne(cfg, t, log[0]);
      && Ready(cfg, a.t, log[1..], k)
      && Closings(Marks(a.out, k)) == if e.OfItem? && e.k == Some(k) && e.body.Done? then 1 else 0
  {
    hide HandleOne, AloneOn, AloneOf, OneOpen, ShouldDefer, Named, Marks;
    var e := log[0];
    assert e in log && NoMessage(t, e, k);
    StepAlone(cfg, t, e, k);
    assert NeverMessage(log[1..], k) by { assert forall f <- log[1..] :: f in log; }
    OfStep(log, k);
    if e.OfItem? && e.k == Some(k) {
      assert Of(log, k)[0] == e.body && Of(log, k)[1..] == Of(log[1..], k);
    } else {
      assert [] + Of(log[1..], k) == Of(log[1..], k);
    }
  }

  /** What one step closes of the items of `s`: the item that is done, if it is one of them. */
  lemma StepCloses(cfg: Config, t: Translator, log: seq<Upstream>, s: set<int>)
    requires log != [] && OneOpen(t) && Usual(log) && !ShouldDefer(t, log[0])
    requires forall k <- s :: Ready(cfg, t, log, k)
    ensures Among(Closers(HandleOne(cfg, t, log[0]).out), s) == Among(DoneOf(log[0]), s)
    ensures forall k <- s :: Ready(cfg, HandleOne(cfg, t, log[0]).t, log[1..], k)
  {
    hide HandleOne, OneOpen, ShouldDefer, Named, Ready, Closings, Marks, Closers, Among;
    var e, a := log[0], HandleOne(cfg, t, log[0]);
    var ks := Closers(a.out);
    forall k <- s
      ensures Ready(cfg, a.t, log[1..], k)
      ensures multiset(ks)[k] == if DoneOf(e) == [k] then 1 else 0
    {
      ReadyStep(cfg, t, log, k);
      CountClosers(a.out, k);
      NamedOf(log, e);
    }
    assert forall k <- ks :: k in multiset(ks);
    if DoneOf(e) != [] && DoneOf(e)[0] in s {
      var j := DoneOf(e)[0];
      assert DoneOf(e) == [j];
      AmongOne(ks, s, j);
      AmongOne([j], s, j);
    } else {
      AmongNone(ks, s);
      AmongNone(DoneOf(e), s);
    }
  }

  lemma NamedOf(log: seq<Upstream>, e: Upstream)
    requires Usual(log) && e in log
    ensures e.OfItem? ==> e.k.Some?
  {
  }

  lemma {:induction false} SerialCloses(cfg: Config, t: Translator, log: seq<Upstream>, s: set<int>)
    requires OneOpen(t) && Usual(log) && Calm(cfg, t, log) && forall k <- s :: Ready(cfg, t, log, k)
    ensures Among(Closers(Serial(cfg, t, log).out), s) == Among(DoneOrder(log), s)
    decreases |log|
  {
    hide HandleOne, OneOpen, ShouldDefer, Ready, Named, DoneOf, CloserOf;
    if log != [] {
      var a := HandleOne(cfg, t, log[0]);
      StepCloses(cfg, t, log, s);
      OneKeepsOpen(cfg, t, log[0]);
      SerialCloses(cfg, a.t, log[1..], s);
      var b := Serial(cfg, a.t, log[1..]);
      ClosersAppend(a.out, b.out);
      AmongAppend(Closers(a.out), Closers(b.out), s);
      AmongAppend(DoneOf(log[0]), DoneOrder(log[1..]), s);
    }
  }

  // ---- The whole stream ----

  lemma {:induction false} SerialKeeps(cfg: Config, t: Translator, log: seq<Upstream>)
    requires forall e <- log :: Plain(e)
    ensures Serial(cfg, t, log).t.finished == t.finished
    decreases |log|
  {
    hide HandleItem, EnsureStart;
    if log != [] {
      SerialKeeps(cfg, HandleOne(cfg, t, log[0]).t, log[1..]);
    }
  }

  /** `log` is an order in which the events of `es` may have been handled, every one of them. */
  ghost predicate HandledAs(cfg: Config, model: Text, es: seq<Upstream>, log: seq<Upstream>) {
    var r := PushAll(cfg, Fresh(model), es);
    && LogOf(cfg, Fresh(model), log, r)
    && forall k :: Of(log, k) == Of(es, k)
  }

  /** Once everything is done, no item is in the open place. */
  lemma NoneOpen(cfg: Config, model: Text, es: seq<Upstream>, log: seq<Upstream>)
    requires Usual(es) && (forall k :: AllDone(es, k)) && HandledAs(cfg, model, es, log)
    ensures var r := PushAll(cfg, Fresh(model), es); r.t.open == None && r.t.deferred == [] && !r.t.finished
  {
    hide PushAll, Serial, Calm, OneOpen, Of;
    var r := PushAll(cfg, Fresh(model), es);
    FreshOpen(model);
    NothingHeldAtTheEnd(cfg, model, es);
    SerialKeeps(cfg, Fresh(model), log);
    if r.t.open.Some? {
      var k := r.t.open.value;
      assert AllDone(es, k) && Of(log, k) == Of(es, k);
      SerialReleases(cfg, Fresh(model), log, k);
    }
  }

  /** When everything is done, every block was closed, in the order in which the blocks began. */
  lemma AllClosed(cfg: Config, model: Text, es: seq<Upstream>, log: seq<Upstream>)
    requires Usual(es) && (forall k :: AllDone(es, k)) && HandledAs(cfg, model, es, log)
    ensures var out := PushAll(cfg, Fresh(model), es).out; Owners(out) == Closers(out)
  {
    hide PushAll, AllFit, Reading, LogOf, OneOpen, Of;
    var r := PushAll(cfg, Fresh(model), es);
    NoneOpen(cfg, model, es, log);
    FreshOpen(model);
    PushAllLegal(cfg, Fresh(model), BLANK, es);
    OneOwnerPerBlock(cfg, model, es);
    ClosedInOrder(BLANK, [], r.out, []);
    assert [] + Closers(r.out) + [] == Closers(r.out);
  }

  /** Whatever the interleaving, the blocks of tidy items stand in the stream in the order in which those
      items were done. */
  lemma BlocksInDoneOrder(cfg: Config, model: Text, es: seq<Upstream>, log: seq<Upstream>, s: set<int>)
    requires Usual(es) && (forall k :: AllDone(es, k)) && HandledAs(cfg, model, es, log)
    requires forall k <- s :: NeverMessage(es, k) && Tidy(cfg, Unknown, Of(es, k))
    ensures Among(Owners(PushAll(cfg, Fresh(model), es).out), s) == Among(DoneOrder(log), s)
  {
    hide PushAll, Serial, Calm, OneOpen, Of, AllDone, Tidy, NeverMessage, Usual, OwnersAfter;
    var t := Fresh(model);
    AllClosed(cfg, model, es, log);
    FreshOpen(model);
    forall k <- s ensures Ready(cfg, t, log, k) {
      NothingElseIn(log, es, k);
    }
    SerialCloses(cfg, t, log, s);
  }

  lemma NothingElseIn(log: seq<Upstream>, es: seq<Upstream>, k: int)
    requires NeverMessage(es, k) && Of(log, k) == Of(es, k)
    ensures NeverMessage(log, k)
  {
    hide NeverMessage, Of;
    OfNothing(k);
    assert Of(log, k) + [] == Of(log, k);
    NeverInLog(log, es, [], k);
  }

  /** There is such an order. */
  lemma SomeOrder(cfg: Config, model: Text, es: seq<Upstream>) returns (log: seq<Upstream>)
    requires Usual(es) && forall k :: AllDone(es, k)
    ensures HandledAs(cfg, model, es, log)
  {
    hide PushAll, LogOf, Of, AllDone;
    log := PushAllLog(cfg, Fresh(model), es);
    NothingHeldAtTheEnd(cfg, model, es);
    forall k ensures Of(log, k) == Of(es, k) {
      assert InTurn([], es, log, [], k);
      OfNothing(k);
      assert Of(log, k) + [] == Of(log, k) && [] + Of(es, k) == Of(es, k);
    }
  }

  // ---- One item after the other ----

  /** Between two events of an item there is no event of another. */
  predicate OneAtATime(es: seq<Upstream>) {
    forall i, j, l ::
      0 <= i < j < l < |es| && es[i].OfItem? && es[j].OfItem? && es[l].OfItem? && es[i].k == es[l].k ==>
        es[j].k == es[i].k
  }

  lemma {:induction false} OfSome(es: seq<Upstream>, k: int) returns (i: nat)
    requires Of(es, k) != []
    ensures i < |es| && es[i].OfItem? && es[i].k == Some(k)
  {
    if es[0].OfItem? && es[0].k == Some(k) {
      i := 0;
    } else {
      var j := OfSome(es[1..], k);
      i := j + 1;
    }
  }

  /** An item that began before place `i` and is not done there has an event later on. */
  lemma EventsAround(es: seq<Upstream>, i: nat, k: int) returns (a: nat, b: nat)
    requires i <= |es| && AllDone(es, k)
    requires Of(es[..i], k) != [] && !Of(es[..i], k)[|Of(es[..i], k)| - 1].Done?
    ensures a < i <= b < |es| && es[a].OfItem? && es[a].k == Some(k) && es[b].OfItem? && es[b].k == Some(k)
  {
    hide Of;
    OfAppend(es[..i], es[i..], k);
    assert es == es[..i] + es[i..];
    a := OfSome(es[..i], k);
    b := OfSome(es[i..], k);
    b := i + b;
  }

  /** The open item is not done yet, and its next event comes before any other item's. */
  lemma NeverMustWait(cfg: Config, model: Text, es: seq<Upstream>, i: nat)
    requires Usual(es) && (forall k :: AllDone(es, k)) && OneAtATime(es) && i < |es|
    requires LogOf(cfg, Fresh(model), es[..i], PushAll(cfg, Fresh(model), es[..i]))
    ensures !ShouldDefer(PushAll(cfg, Fresh(model), es[..i]).t, es[i])
  {
    hide PushAll, Serial, Calm, OneOpen, Of, AllDone;
    var t := PushAll(cfg, Fresh(model), es[..i]).t;
    if ShouldDefer(t, es[i]) {
      var k := t.open.value;
      FreshOpen(model);
      SerialReleases(cfg, Fresh(model), es[..i], k);
      var a, b := EventsAround(es, i, k);
    }
  }

  lemma {:induction false} PrefixInOrder(cfg: Config, model: Text, es: seq<Upstream>, i: nat)
    requires Usual(es) && (forall k :: AllDone(es, k)) && OneAtATime(es) && i <= |es|
    ensures var r := PushAll(cfg, Fresh(model), es[..i]);
      LogOf(cfg, Fresh(model), es[..i], r) && r.t.deferred == []
  {
    hide PushAll, LogOf, AllDone, OneAtATime, ShouldDefer, Usual;
    if i == 0 {
      NothingPushed(cfg, Fresh(model));
      PushedNone(cfg, Fresh(model));
      assert es[..0] == [];
    } else {
      PrefixInOrder(cfg, model, es, i - 1);
      NeverMustWait(cfg, model, es, i - 1);
      var r := PushAll(cfg, Fresh(model), es[..i - 1]);
      var e := es[i - 1];
      UsualOne(es, e);
      HandledAtOnce(cfg, r.t, e);
      LogAppend(cfg, Fresh(model), es[..i - 1], r, [e], Push(cfg, r.t, e));
      J.PushAllAppend(cfg, Fresh(model), es[..i - 1], [e]);
      J.PushAllOne(cfg, r.t, e);
      assert es[..i] == es[..i - 1] + [e];
    }
  }

  lemma PushedNone(cfg: Config, t: Translator)
    requires HoldsItems(t)
    ensures PushAll(cfg, t, []) == Step(t, [])
  {
  }

  lemma UsualOne(es: seq<Upstream>, e: Upstream)
    requires Usual(es) && e in es
    ensures Plain(e) && Named(e)
  {
  }

  lemma HandledAtOnce(cfg: Config, t: Translator, e: Upstream)
    requires t.deferred == [] && Plain(e) && Named(e) && !ShouldDefer(t, e)
    ensures LogOf(cfg, t, [e], Push(cfg, t, e)) && Push(cfg, t, e).t.deferred == []
  {
    hide Handle, HandleOne, LogOf, ShouldDefer;
    var a := Handle(cfg, t, e);
    HandledAside(cfg, t, e);
    assert Drain(cfg, a.t, false) == Step(a.t, []);
    NothingPushed(cfg, a.t);
    LogCons(cfg, t, e, a, [], Step(a.t, []));
    assert [e] + [] == [e] && a.out + [] == a.out;
  }

  /** Items that do not interleave are handled as they arrive. */
  lemma ArrivalOrder(cfg: Config, model: Text, es: seq<Upstream>)
    requires Usual(es) && (forall k :: AllDone(es, k)) && OneAtATime(es)
    ensures HandledAs(cfg, model, es, es)
  {
    hide PushAll, LogOf, AllDone, OneAtATime, Usual, Of;
    PrefixInOrder(cfg, model, es, |es|);
    assert es[..|es|] == es;
  }
}
