/** The translated stream read against the owners of its blocks. A block belongs to the item that begins
    it, and the translator's own books agree with that: the live block of an item is the item's. Every
    step of the translator is followed to see that what it says about a block it says about the block's
    owner, and that it says nothing of an item outside its blocks. */
module OwnerSteps {
  import opened Text
  import opened Translate
  import opened TranslateItems

  /** The number of the block an event is about. */
  function BlockOf(e: Out): Option<int> {
    match e
    case BlockStart(i, _) => Some(i)
    case BlockDelta(i, _) => Some(i)
    case BlockStop(i) => Some(i)
    case _ => None
  }

  /** One event, read against the owners of the blocks begun so far: a block begins with the next number
      and belongs to the item that began it; anything further in it is about that item. */
  predicate Fitting(ow: seq<int>, e: Emission) {
    match BlockOf(e.event)
    case None => e.owner.None?
    case Some(i) =>
      e.owner.Some? && if e.event.BlockStart? then i == |ow| else 0 <= i < |ow| && ow[i] == e.owner.value
  }

  function Grown(ow: seq<int>, e: Emission): seq<int> {
    if e.event.BlockStart? && e.owner.Some? then ow + [e.owner.value] else ow
  }

  /** The owners of the blocks, by number, once `out` has been read. */
  function OwnersAfter(ow: seq<int>, out: seq<Emission>): seq<int>
    decreases |out|
  {
    if out == [] then ow else OwnersAfter(Grown(ow, out[0]), out[1..])
  }

  predicate AllFit(ow: seq<int>, out: seq<Emission>)
    decreases |out|
  {
    out == [] || (Fitting(ow, out[0]) && AllFit(Grown(ow, out[0]), out[1..]))
  }

  /** Reading `out` after `ow` goes well and leaves `ow2`. */
  predicate Reads(ow: seq<int>, out: seq<Emission>, ow2: seq<int>) {
    AllFit(ow, out) && OwnersAfter(ow, out) == ow2
  }

  lemma {:induction false} ReadsOn(ow: seq<int>, a: seq<Emission>, ow2: seq<int>, b: seq<Emission>, ow3: seq<int>)
    requires Reads(ow, a, ow2) && Reads(ow2, b, ow3)
    ensures Reads(ow, a + b, ow3)
    decreases |a|
  {
    hide Fitting, Grown;
    if a == [] {
      assert a + b == b;
    } else {
      assert (a + b)[0] == a[0] && (a + b)[1..] == a[1..] + b;
      ReadsOn(Grown(ow, a[0]), a[1..], ow2, b, ow3);
    }
  }

  lemma ReadsNothing(ow: seq<int>)
    ensures Reads(ow, [], ow)
  {
  }

  lemma ReadsOne(ow: seq<int>, e: Emission)
    requires Fitting(ow, e)
    ensures Reads(ow, [e], Grown(ow, e))
  {
    hide Fitting, Grown;
    var one, none := [e], [e][1..];
    assert none == [] && AllFit(Grown(ow, e), none) && OwnersAfter(Grown(ow, e), none) == Grown(ow, e);
    assert AllFit(ow, one) && OwnersAfter(ow, one) == OwnersAfter(Grown(ow, e), none);
  }

  // ---- What the translator knows of its blocks ----

  /** The live block of an item is the item's. */
  ghost predicate Owns(t: Translator, ow: seq<int>) {
    |ow| == t.next && forall k <- t.slots :: t.slots[k].live ==>
      0 <= t.slots[k].index < |ow| && ow[t.slots[k].index] == k
  }

  /** A step reads well and leaves the books in order. */
  ghost predicate Tells(t: Translator, ow: seq<int>, r: Step) {
    Reads(ow, r.out, OwnersAfter(ow, r.out)) && Owns(r.t, OwnersAfter(ow, r.out))
  }

  lemma Silent(t: Translator, ow: seq<int>, u: Translator)
    requires Owns(u, ow)
    ensures Tells(t, ow, Step(u, []))
  {
  }

  lemma Then(t: Translator, ow: seq<int>, a: Step, b: Step)
    requires Tells(t, ow, a) && Tells(a.t, OwnersAfter(ow, a.out), b)
    ensures Tells(t, ow, Step(b.t, a.out + b.out))
  {
    hide AllFit, OwnersAfter, Owns;
    ReadsOn(ow, a.out, OwnersAfter(ow, a.out), b.out, OwnersAfter(OwnersAfter(ow, a.out), b.out));
  }

  /** A delta or the end of item `k`'s live block. */
  lemma SaysOwn(t: Translator, ow: seq<int>, k: int, e: Emission, u: Translator)
    requires Owns(t, ow) && k in t.slots && t.slots[k].live && e.owner == Some(k)
    requires (e.event.BlockDelta? || e.event.BlockStop?) && BlockOf(e.event) == Some(t.slots[k].index)
    requires Owns(u, ow)
    ensures Tells(t, ow, Step(u, [e]))
  {
    ReadsOne(ow, e);
  }

  lemma StartTells(cfg: Config, t: Translator, ow: seq<int>, r: Response)
    requires Owns(t, ow)
    ensures Tells(t, ow, EnsureStart(cfg, t, r))
  {
    if t.started {
      ReadsNothing(ow);
    } else {
      ReadsOne(ow, EnsureStart(cfg, t, r).out[0]);
    }
  }

  lemma CloseOtherTells(t: Translator, ow: seq<int>, k: int)
    requires Owns(t, ow)
    ensures Tells(t, ow, CloseOther(t, k)) && OwnersAfter(ow, CloseOther(t, k).out) == ow
  {
    ReadsNothing(ow);
    var r := CloseOther(t, k);
    if r.out != [] {
      ReadsOne(ow, r.out[0]);
      assert r.out == [r.out[0]];
    }
  }

  /** A new block for item `k` begins. */
  lemma BeginTells(t: Translator, ow: seq<int>, k: int, start: Start, u: Translator)
    requires |ow| == t.next && u.next == t.next + 1
    requires forall j <- u.slots :: u.slots[j].live ==>
      if j == k then u.slots[j].index == t.next
      else j in t.slots && t.slots[j].live && u.slots[j].index == t.slots[j].index
    requires Owns(t, ow)
    ensures Tells(t, ow, Step(u, [Emission(Some(k), BlockStart(t.next, start))]))
  {
    var e := Emission(Some(k), BlockStart(t.next, start));
    ReadsOne(ow, e);
    assert OwnersAfter(ow, [e]) == ow + [k];
  }

  lemma OpenWithTells(t: Translator, ow: seq<int>, k: int, start: Start, piece: Piece)
    requires Owns(t, ow) && k in t.slots
    ensures Tells(t, ow, OpenWith(t, k, start, piece))
  {
    hide Tells, OwnersAfter;
    CloseOtherTells(t, ow, k);
    TellsOwns(t, ow, CloseOther(t, k));
    var a := CloseOther(t, k);
    var i := a.t.next;
    assert k in a.t.slots;
    var u := a.t.(slots := a.t.slots[k := a.t.slots[k].(index := i, live := true, pending := [])], open := Some(k),
                  next := i + 1);
    var e, f := Emission(Some(k), BlockStart(i, start)), Emission(Some(k), BlockDelta(i, piece));
    BeginTells(a.t, ow, k, start, u);
    TellsOwns(a.t, ow, Step(u, [e]));
    SaysOwn(u, OwnersAfter(ow, [e]), k, f, u);
    Then(a.t, ow, Step(u, [e]), Step(u, [f]));
    assert [e] + [f] == [e, f];
    Then(t, ow, a, Step(u, [e, f]));
    assert OpenWith(t, k, start, piece) == Step(u, a.out + [e, f]);
  }

  lemma TellsOwns(t: Translator, ow: seq<int>, r: Step)
    requires Tells(t, ow, r)
    ensures Owns(r.t, OwnersAfter(ow, r.out))
  {
  }

  lemma AddedTells(cfg: Config, t: Translator, ow: seq<int>, key: Option<int>, item: Item, r: Response)
    requires Owns(t, ow)
    ensures Tells(t, ow, OnAdded(cfg, t, key, item, r))
  {
    hide Tells, OwnersAfter, EnsureStart, CloseOther, ToolId;
    StartTells(cfg, t, ow, r);
    var a := EnsureStart(cfg, t, r);
    StartKeeps(cfg, t, r, ow);
    var k := if key.Some? then key.value else |a.t.slots|;
    if k !in a.t.slots && !item.kind.OtherItem? {
      if !item.kind.CallItem? {
        var u := OnAdded(cfg, t, key, item, r).t;
        Silent(a.t, ow, u);
        Then(t, ow, a, Step(u, []));
        assert a.out + [] == a.out;
      } else {
        CloseOtherTells(a.t, ow, k);
        TellsOwns(a.t, ow, CloseOther(a.t, k));
        var b := CloseOther(a.t, k);
        var i := b.t.next;
        var start := ToolUseBlock(ToolId(item, i), item.name);
        var u := b.t.(slots := b.t.slots[k := Slot(i, Tool, true, 0, [])], open := Some(k), hasTool := true,
                      next := i + 1);
        BeginTells(b.t, ow, k, start, u);
        Then(a.t, ow, b, Step(u, [Emission(Some(k), BlockStart(i, start))]));
        Then(t, ow, a, Step(u, b.out + [Emission(Some(k), BlockStart(i, start))]));
        assert a.out + (b.out + [Emission(Some(k), BlockStart(i, start))])
            == a.out + b.out + [Emission(Some(k), BlockStart(i, start))];
      }
    }
  }

  lemma StartKeeps(cfg: Config, t: Translator, r: Response, ow: seq<int>)
    requires Owns(t, ow)
    ensures OwnersAfter(ow, EnsureStart(cfg, t, r).out) == ow && Owns(EnsureStart(cfg, t, r).t, ow)
  {
    if !t.started {
      var e := EnsureStart(cfg, t, r).out[0];
      assert [e][1..] == [] && OwnersAfter(ow, [e]) == OwnersAfter(Grown(ow, e), []);
    }
  }

  lemma DeltaTells(cfg: Config, t: Translator, ow: seq<int>, k: int, delta: Text)
    requires Owns(t, ow)
    ensures Tells(t, ow, OnText(cfg, t, k, delta)) && Tells(t, ow, OnSummary(cfg, t, k, delta))
      && Tells(t, ow, OnArgs(t, k, delta))
  {
    hide Tells, OwnersAfter, OpenWith, CloseOther;
    Silent(t, ow, t);
    if k in t.slots {
      var slot := t.slots[k];
      if slot.live {
        SaysOwn(t, ow, k, Emission(Some(k), BlockDelta(slot.index, Words(delta))), t);
        SaysOwn(t, ow, k, Emission(Some(k), BlockDelta(slot.index, Thought(delta))), t);
        SaysOwn(t, ow, k, Emission(Some(k), BlockDelta(slot.index, Json(delta))), OnArgs(t, k, delta).t);
      } else {
        var text := slot.pending + delta;
        OpenWithTells(t, ow, k, TextBlock, Words(text));
        OpenWithTells(t, ow, k, ThinkingBlock, Thought(text));
        Silent(t, ow, t.(slots := t.slots[k := slot.(pending := text)]));
        ClaimTells(t, ow, k, text);
      }
    }
  }

  /** The open place is claimed without a block. */
  lemma ClaimTells(t: Translator, ow: seq<int>, k: int, text: Text)
    requires Owns(t, ow) && k in t.slots && !t.slots[k].live
    ensures var a := CloseOther(t, k);
      && k in a.t.slots
      && Tells(t, ow, Step(a.t.(open := Some(k), slots := a.t.slots[k := a.t.slots[k].(pending := text)]), a.out))
  {
    hide OwnersAfter, Reads;
    CloseOtherTells(t, ow, k);
  }

  lemma DoneTells(cfg: Config, t: Translator, ow: seq<int>, k: int, item: Item)
    requires Owns(t, ow)
    ensures Tells(t, ow, OnDone(cfg, t, k, item))
  {
    hide Tells, OwnersAfter, CloseOther, Blob, Tail, OnThinkingDone;
    Silent(t, ow, t);
    if k in t.slots {
      var slot := t.slots[k];
      if slot.kind.Thinking? {
        ThinkingDoneTells(cfg, t, ow, k, item);
      } else if slot.live {
        var tail := Tail(slot, item);
        LastWords(t, ow, k, if tail == [] then [] else [Emission(Some(k), BlockDelta(slot.index, Json(tail)))],
                  OnDone(cfg, t, k, item).t);
      }
    }
  }

  /** A last delta, or none, and the end of item `k`'s block. */
  lemma LastWords(t: Translator, ow: seq<int>, k: int, last: seq<Emission>, u: Translator)
    requires Owns(t, ow) && k in t.slots && t.slots[k].live && Owns(u, ow) && |last| <= 1
    requires last != [] ==>
      last[0].owner == Some(k) && last[0].event.BlockDelta? && last[0].event.index == t.slots[k].index
    ensures Tells(t, ow, Step(u, last + [Emission(Some(k), BlockStop(t.slots[k].index))]))
  {
    var stop := Emission(Some(k), BlockStop(t.slots[k].index));
    SaysOwn(t, ow, k, stop, u);
    if last == [] {
      assert last + [stop] == [stop];
    } else {
      SaysOwn(t, ow, k, last[0], t);
      assert last == [last[0]] && OwnersAfter(ow, [last[0]]) == ow;
      Then(t, ow, Step(t, last), Step(u, [stop]));
    }
  }

  lemma ThinkingDoneTells(cfg: Config, t: Translator, ow: seq<int>, k: int, item: Item)
    requires Owns(t, ow) && k in t.slots
    ensures Tells(t, ow, OnThinkingDone(cfg, t, k, item))
  {
    hide Tells, OwnersAfter, CloseOther, Blob;
    var slot, blob := t.slots[k], Blob(cfg, Thinking, item);
    var r := OnThinkingDone(cfg, t, k, item);
    if slot.live {
      LastWords(t, ow, k, if blob == [] then [] else [Emission(Some(k), BlockDelta(slot.index, Signature(blob)))], r.t);
    } else if blob == [] {
      Silent(t, ow, r.t);
    } else {
      CloseOtherTells(t, ow, k);
      TellsOwns(t, ow, CloseOther(t, k));
      var a := CloseOther(t, k);
      RedactedTells(a.t, ow, k, blob, r.t, slot);
      var i := a.t.next;
      var e, f := Emission(Some(k), BlockStart(i, RedactedBlock(blob))), Emission(Some(k), BlockStop(i));
      Then(t, ow, a, Step(r.t, [e, f]));
    }
  }

  /** A block that begins and ends at once. */
  lemma RedactedTells(t: Translator, ow: seq<int>, k: int, blob: Text, u: Translator, slot: Slot)
    requires Owns(t, ow) && !slot.live && u.next == t.next + 1
    requires u.slots == t.slots[k := slot.(index := t.next, pending := [])]
    ensures var e, f := Emission(Some(k), BlockStart(t.next, RedactedBlock(blob))),
      Emission(Some(k), BlockStop(t.next));
      Tells(t, ow, Step(u, [e, f]))
  {
    var e, f := Emission(Some(k), BlockStart(t.next, RedactedBlock(blob))), Emission(Some(k), BlockStop(t.next));
    ReadsOne(ow, e);
    assert OwnersAfter(ow, [e]) == ow + [k];
    ReadsOne(ow + [k], f);
    ReadsOn(ow, [e], ow + [k], [f], ow + [k]);
    assert [e] + [f] == [e, f];
  }

  lemma ItemTells(cfg: Config, t: Translator, ow: seq<int>, key: Option<int>, body: Body)
    requires Owns(t, ow)
    ensures Tells(t, ow, HandleItem(cfg, t, key, body))
  {
    hide Tells, Owns, OnAdded, OnText, OnSummary, OnArgs, OnDone;
    var k := if key.Some? then key.value else -1;
    match body
    case Added(item, r) => AddedTells(cfg, t, ow, key, item, r);
    case TextDelta(delta) => DeltaTells(cfg, t, ow, k, delta);
    case SummaryDelta(delta) => DeltaTells(cfg, t, ow, k, delta);
    case ArgsDelta(delta) => DeltaTells(cfg, t, ow, k, delta);
    case Done(item) => DoneTells(cfg, t, ow, k, item);
  }

  lemma {:induction false} DrainTells(cfg: Config, t: Translator, ow: seq<int>, force: bool)
    requires Owns(t, ow) && HoldsItems(t)
    ensures Tells(t, ow, Drain(cfg, t, force))
    decreases |t.deferred|
  {
    hide Tells, HandleItem, FirstReady, OwnersAfter;
    var i := if force then 0 else FirstReady(t, t.deferred);
    if i >= |t.deferred| {
      Silent(t, ow, t);
    } else {
      var held := t.(deferred := t.deferred[..i] + t.deferred[i + 1..]);
      var a := HandleHeld(cfg, t, i);
      ItemTells(cfg, held, ow, t.deferred[i].k, t.deferred[i].body);
      TellsOwns(held, ow, a);
      DrainTells(cfg, a.t, OwnersAfter(ow, a.out), force);
      Then(t, ow, a, Drain(cfg, a.t, force)) by { SameTells(held, t, ow, a); }
    }
  }

  lemma SameTells(t: Translator, u: Translator, ow: seq<int>, r: Step)
    requires Tells(t, ow, r)
    ensures Tells(u, ow, r)
  {
  }

  lemma CloseAllTells(t: Translator, ow: seq<int>)
    requires Owns(t, ow)
    ensures Tells(t, ow, CloseAll(t))
  {
    var r := CloseAll(t);
    if r.out == [] {
      Silent(t, ow, r.t);
    } else {
      SaysOwn(t, ow, t.open.value, r.out[0], r.t);
    }
  }

  lemma EndTells(t: Translator, ow: seq<int>, e: Emission, u: Translator)
    requires Owns(u, ow) && e.owner.None? && BlockOf(e.event).None?
    ensures Tells(t, ow, Step(u, [e]))
  {
    ReadsOne(ow, e);
  }

  lemma FailTells(cfg: Config, t: Translator, ow: seq<int>, message: Text)
    requires Owns(t, ow) && HoldsItems(t)
    ensures Tells(t, ow, Fail(cfg, t, message))
  {
    hide Tells, Drain, CloseAll, OwnersAfter;
    if t.finished {
      Silent(t, ow, t);
    } else {
      var b := Drain(cfg, t, true);
      DrainTells(cfg, t, ow, true);
      TellsOwns(t, ow, b);
      var ow2 := OwnersAfter(ow, b.out);
      CloseAllTells(b.t, ow2);
      var c := CloseAll(b.t);
      TellsOwns(b.t, ow2, c);
      var ow3 := OwnersAfter(ow2, c.out);
      EndTells(c.t, ow3, Emission(None, Error(message)), c.t.(finished := true));
      Then(b.t, ow2, c, Step(c.t.(finished := true), [Emission(None, Error(message))]));
      Then(t, ow, b, Step(c.t.(finished := true), c.out + [Emission(None, Error(message))]));
      assert b.out + (c.out + [Emission(None, Error(message))]) == b.out + c.out + [Emission(None, Error(message))];
    }
  }

  lemma CompleteTells(cfg: Config, t: Translator, ow: seq<int>, r: Response)
    requires Owns(t, ow) && HoldsItems(t)
    ensures Tells(t, ow, Complete(cfg, t, r))
  {
    hide Tells, Drain, CloseAll, OwnersAfter, EnsureStart, Reason;
    if t.finished {
      Silent(t, ow, t);
    } else {
      var a := EnsureStart(cfg, t, r);
      StartTells(cfg, t, ow, r);
      StartKeeps(cfg, t, r, ow);
      var b := Drain(cfg, a.t, true);
      DrainTells(cfg, a.t, ow, true);
      TellsOwns(a.t, ow, b);
      var ow2 := OwnersAfter(ow, b.out);
      CloseAllTells(b.t, ow2);
      var c := CloseAll(b.t);
      TellsOwns(b.t, ow2, c);
      var ow3 := OwnersAfter(ow2, c.out);
      var d, m, u := Emission(None, MessageDelta(Reason(c.t, r), r.usage)), Emission(None, MessageStop),
        c.t.(finished := true);
      EndTells(c.t, ow3, d, u);
      EndKeeps(ow3, d);
      EndTells(u, ow3, m, u);
      Then(c.t, ow3, Step(u, [d]), Step(u, [m]));
      assert [d] + [m] == [d, m];
      Then(b.t, ow2, c, Step(u, [d, m]));
      Then(a.t, ow, b, Step(u, c.out + [d, m]));
      Then(t, ow, a, Step(u, b.out + (c.out + [d, m])));
      assert a.out + (b.out + (c.out + [d, m])) == a.out + b.out + c.out + [d, m];
    }
  }

  lemma EndKeeps(ow: seq<int>, e: Emission)
    requires e.owner.None? && BlockOf(e.event).None?
    ensures OwnersAfter(ow, [e]) == ow
  {
    assert [e][1..] == [];
  }

  lemma HandleTells(cfg: Config, t: Translator, ow: seq<int>, e: Upstream)
    requires Owns(t, ow) && HoldsItems(t)
    ensures Tells(t, ow, Handle(cfg, t, e))
  {
    hide Tells, Owns, HandleItem, Complete, Fail, EnsureStart;
    match e
    case Begun(r) => StartTells(cfg, t, ow, r);
    case OfItem(k, body) => ItemTells(cfg, t, ow, k, body);
    case Ended(r) => CompleteTells(cfg, t, ow, r);
    case Broke(message) => FailTells(cfg, t, ow, message);
    case Ignored => Silent(t, ow, t);
  }

  lemma PushTells(cfg: Config, t: Translator, ow: seq<int>, e: Upstream)
    requires Owns(t, ow) && HoldsItems(t)
    ensures Tells(t, ow, Push(cfg, t, e))
  {
    hide Tells, Handle, Drain, ShouldDefer, OwnersAfter;
    if ShouldDefer(t, e) {
      Silent(t, ow, t.(deferred := t.deferred + [e]));
    } else {
      var a := Handle(cfg, t, e);
      HandleTells(cfg, t, ow, e);
      TellsOwns(t, ow, a);
      DrainTells(cfg, a.t, OwnersAfter(ow, a.out), false);
      Then(t, ow, a, Drain(cfg, a.t, false));
    }
  }

  lemma {:induction false} PushAllTells(cfg: Config, t: Translator, ow: seq<int>, es: seq<Upstream>)
    requires Owns(t, ow) && HoldsItems(t)
    ensures Tells(t, ow, PushAll(cfg, t, es))
    decreases |es|
  {
    hide Tells, Push, OwnersAfter;
    if es == [] {
      Silent(t, ow, t);
    } else {
      var a := Push(cfg, t, es[0]);
      PushTells(cfg, t, ow, es[0]);
      TellsOwns(t, ow, a);
      PushAllTells(cfg, a.t, OwnersAfter(ow, a.out), es[1..]);
      Then(t, ow, a, PushAll(cfg, a.t, es[1..]));
    }
  }
}
