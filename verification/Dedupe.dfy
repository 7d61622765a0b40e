/** Unique tool ids: later calls of an id get new ids, and the n-th result follows the n-th call. */
module Dedupe {
  import opened Text
  import opened Suffix
  import opened History
  import opened Exchange

  function IdsOf(bs: seq<Block>): seq<Id> {
    if bs == [] then []
    else IdsOf(bs[..|bs| - 1]) + if bs[|bs| - 1].Call? then [bs[|bs| - 1].id] else []
  }

  /** The ids called, in order, once per call. */
  function AllCalls(ms: seq<Message>): seq<Id> {
    if ms == [] then [] else AllCalls(ms[..|ms| - 1]) + IdsOf(CallBlocks(ms[|ms| - 1]))
  }

  function Occurs(ids: seq<Id>, x: Id): nat {
    if ids == [] then 0 else Occurs(ids[..|ids| - 1], x) + if ids[|ids| - 1] == x then 1 else 0
  }

  ghost predicate HasDuplicate(ids: seq<Id>) {
    exists x :: Occurs(ids, x) > 1
  }

  /** Which occurrence of its id the k-th call is, from 1. */
  function Turn(ids: seq<Id>, k: nat): nat
    requires k < |ids|
  {
    Occurs(ids[..k], ids[k]) + 1
  }

  function Key(x: Id, n: nat): Text {
    Numbered(x, SPACE, n)
  }

  datatype Names = Names(used: set<Text>, renamed: map<Text, Id>)

  /** New ids for the first `k` calls: the first call of an id keeps it. */
  function Allot(ids: seq<Id>, k: nat): Names
    requires k <= |ids|
    decreases k
  {
    if k == 0 then Names(set x | x in ids, map[])
    else
      var s := Allot(ids, k - 1);
      var x, n := ids[k - 1], Turn(ids, k - 1);
      if n == 1 then s
      else
        var t := FreeName(s.used, x, UNDERSCORE, n);
        Names(s.used + {t}, s.renamed[Key(x, n) := t])
  }

  function NewId(renamed: map<Text, Id>, x: Id, n: nat): Id {
    if Key(x, n) in renamed then renamed[Key(x, n)] else x
  }

  /** The id the k-th call ends up with. */
  function NameOf(ids: seq<Id>, k: nat): Id
    requires k < |ids|
  {
    NewId(Allot(ids, |ids|).renamed, ids[k], Turn(ids, k))
  }

  /** Block `b` of message `i`, with the id of its turn. */
  function NewBlock(ms: seq<Message>, renamed: map<Text, Id>, i: nat, b: nat): Block
    requires i < |ms| && ms[i].content.Blocks? && b < |ms[i].content.blocks|
  {
    var m, bs := ms[i], ms[i].content.blocks;
    if m.role.Assistant? && bs[b].Call? then
      Call(NewId(renamed, bs[b].id, Occurs(AllCalls(ms[..i]), bs[b].id) + Calls(bs[..b], bs[b].id) + 1), bs[b].body)
    else if m.role.User? && bs[b].Result? then
      Result(NewId(renamed, bs[b].id, RepliesBetween(ms, 0, i, bs[b].id) + Results(bs[..b], bs[b].id) + 1), bs[b].body)
    else bs[b]
  }

  function NewBlocks(ms: seq<Message>, renamed: map<Text, Id>, i: nat, k: nat): (r: seq<Block>)
    requires i < |ms| && ms[i].content.Blocks? && k <= |ms[i].content.blocks|
    ensures |r| == k && forall b :: 0 <= b < k ==> r[b] == NewBlock(ms, renamed, i, b)
    decreases k
  {
    if k == 0 then [] else NewBlocks(ms, renamed, i, k - 1) + [NewBlock(ms, renamed, i, k - 1)]
  }

  function NewMessage(ms: seq<Message>, renamed: map<Text, Id>, i: nat): Message
    requires i < |ms|
  {
    var m := ms[i];
    if m.content.Blocks? then m.(content := Blocks(NewBlocks(ms, renamed, i, |m.content.blocks|))) else m
  }

  function NewMessages(ms: seq<Message>, renamed: map<Text, Id>, k: nat): (r: seq<Message>)
    requires k <= |ms|
    ensures |r| == k && forall i :: 0 <= i < k ==> r[i] == NewMessage(ms, renamed, i)
    decreases k
  {
    if k == 0 then [] else NewMessages(ms, renamed, k - 1) + [NewMessage(ms, renamed, k - 1)]
  }

  function Deduped(ms: seq<Message>): seq<Message> {
    var ids := AllCalls(ms);
    NewMessages(ms, Allot(ids, |ids|).renamed, |ms|)
  }

  /** None where every id is called once at most. */
  ghost function Dedup(ms: seq<Message>): Option<seq<Message>> {
    if HasDuplicate(AllCalls(ms)) then Some(Deduped(ms)) else None
  }

  // ---- New ids are pairwise distinct ----

  lemma {:induction false} OccursAppend(a: seq<Id>, b: seq<Id>, x: Id)
    ensures Occurs(a + b, x) == Occurs(a, x) + Occurs(b, x)
  {
    if b == [] {
      assert a + b == a;
    } else {
      OccursAppend(a, b[..|b| - 1], x);
      assert (a + b)[..|a + b| - 1] == a + b[..|b| - 1];
    }
  }

  lemma TurnsGrow(ids: seq<Id>, j: nat, k: nat)
    requires j < k < |ids| && ids[j] == ids[k]
    ensures Turn(ids, j) < Turn(ids, k)
  {
    var x := ids[j];
    assert ids[..j + 1][..j] == ids[..j];
    OccursAppend(ids[..j + 1], ids[j + 1..k], x);
    assert ids[..j + 1] + ids[j + 1..k] == ids[..k];
  }

  /** A key names one turn of one id. */
  lemma KeysDiffer(ids: seq<Id>, j: nat, k: nat)
    requires j < k < |ids|
    ensures Key(ids[j], Turn(ids, j)) != Key(ids[k], Turn(ids, k))
  {
    if Key(ids[j], Turn(ids, j)) == Key(ids[k], Turn(ids, k)) {
      NumberedInjective(ids[j], Turn(ids, j), ids[k], Turn(ids, k), SPACE);
      TurnsGrow(ids, j, k);
    }
  }

  /** The id of call `j` while the first `k` calls have theirs. */
  function NameSoFar(ids: seq<Id>, k: nat, j: nat): Id
    requires j < k <= |ids|
  {
    NewId(Allot(ids, k).renamed, ids[j], Turn(ids, j))
  }

  /** Names so far: all in use; a later turn's name is no id of the history; no two alike; and only
      later turns are renamed. */
  ghost predicate Distinct(ids: seq<Id>, k: nat)
    requires k <= |ids|
  {
    var s := Allot(ids, k);
    && (forall x <- ids :: x in s.used)
    && (forall j :: 0 <= j < k ==> NameSoFar(ids, k, j) in s.used)
    && (forall j :: 0 <= j < k ==>
          if Turn(ids, j) == 1 then NameSoFar(ids, k, j) == ids[j] else NameSoFar(ids, k, j) !in ids)
    && (forall i, j :: 0 <= i < j < k ==> NameSoFar(ids, k, i) != NameSoFar(ids, k, j))
    && OnlyLaterTurns(ids, k, s.renamed)
  }

  ghost predicate OnlyLaterTurns(ids: seq<Id>, k: nat, renamed: map<Text, Id>)
    requires k <= |ids|
  {
    forall t <- renamed :: exists j :: 0 <= j < k && Turn(ids, j) > 1 && t == Key(ids[j], Turn(ids, j))
  }

  lemma NameKept(ids: seq<Id>, k: nat, j: nat)
    requires j < k < |ids|
    ensures NameSoFar(ids, k + 1, j) == NameSoFar(ids, k, j)
  {
    hide Key;
    KeysDiffer(ids, j, k);
  }

  lemma NameAdded(ids: seq<Id>, k: nat)
    requires k < |ids| && Distinct(ids, k)
    ensures NameSoFar(ids, k + 1, k)
      == if Turn(ids, k) == 1 then ids[k] else FreeName(Allot(ids, k).used, ids[k], UNDERSCORE, Turn(ids, k))
  {
    hide Key, FreeName;
    if Turn(ids, k) == 1 {
      var t := Key(ids[k], Turn(ids, k));
      if t in Allot(ids, k).renamed {
        var j :| 0 <= j < k && Turn(ids, j) > 1 && t == Key(ids[j], Turn(ids, j));
        KeysDiffer(ids, j, k);
      }
    }
  }

  lemma KeysAre(ids: seq<Id>, k: nat)
    requires k < |ids| && Distinct(ids, k)
    ensures OnlyLaterTurns(ids, k + 1, Allot(ids, k + 1).renamed)
  {
    hide Key, FreeName, NameSoFar;
    var s, r := Allot(ids, k), Allot(ids, k + 1);
    forall t <- r.renamed ensures exists j :: 0 <= j < k + 1 && Turn(ids, j) > 1 && t == Key(ids[j], Turn(ids, j)) {
      if t in s.renamed {
        var j :| 0 <= j < k && Turn(ids, j) > 1 && t == Key(ids[j], Turn(ids, j));
      } else {
        assert t == Key(ids[k], Turn(ids, k));
      }
    }
  }

  lemma {:induction false} AllotDistinct(ids: seq<Id>, k: nat)
    requires k <= |ids|
    ensures Distinct(ids, k)
    decreases k
  {
    if k > 0 {
      AllotDistinct(ids, k - 1);
      AllotStep(ids, k - 1);
    }
  }

  lemma AllotStep(ids: seq<Id>, k: nat)
    requires k < |ids| && Distinct(ids, k)
    ensures Distinct(ids, k + 1)
  {
    hide Key, NameSoFar, OnlyLaterTurns, FreeName, Turn;
    var s, r := Allot(ids, k), Allot(ids, k + 1);
    KeysAre(ids, k);
    NameAdded(ids, k);
    assert s.used <= r.used && NameSoFar(ids, k + 1, k) in r.used;
    forall j | 0 <= j < k ensures NameSoFar(ids, k + 1, j) == NameSoFar(ids, k, j) { NameKept(ids, k, j); }
    forall j | 0 <= j < k && Turn(ids, k) == 1 ensures NameSoFar(ids, k, j) != ids[k] {
      if ids[j] == ids[k] {
        TurnsGrow(ids, j, k);
      }
    }
    var next := k + 1;
    forall j | 0 <= j < next ensures NameSoFar(ids, next, j) in r.used {
      assert j < k ==> NameSoFar(ids, k, j) in s.used;
    }
    forall i, j | 0 <= i < j < next ensures NameSoFar(ids, next, i) != NameSoFar(ids, next, j) {
      if j == k {
        assert NameSoFar(ids, k, i) in s.used;
      } else {
        assert NameSoFar(ids, k, i) != NameSoFar(ids, k, j);
      }
    }
  }

  /** All calls end up with different ids; first calls keep theirs. */
  lemma NamesDiffer(ids: seq<Id>, j: nat, k: nat)
    requires j < k < |ids|
    ensures NameOf(ids, j) != NameOf(ids, k)
  {
    AllotDistinct(ids, |ids|);
    assert NameSoFar(ids, |ids|, j) != NameSoFar(ids, |ids|, k);
  }

  lemma FirstKeepsName(ids: seq<Id>, k: nat)
    requires k < |ids| && Turn(ids, k) == 1
    ensures NameOf(ids, k) == ids[k]
  {
    AllotDistinct(ids, |ids|);
    assert NameSoFar(ids, |ids|, k) == ids[k];
  }
}
