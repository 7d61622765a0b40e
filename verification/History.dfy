/** A chat history as the proxy reads it, and how tool calls and tool results are counted in it. */
module History {
  import opened Text

  /** Tool ids are non-empty: a block with an empty id counts as plain. */
  type Id = t: Text | t != [] witness [0]

  datatype Role = Assistant | User | OtherRole

  /** Everything a block holds besides its kind and its id is kept as `body`. */
  datatype Block = Call(id: Id, body: Text) | Result(id: Id, body: Text) | Words(text: Text) | Plain(body: Text)

  datatype Content = Str(text: Text) | Blocks(blocks: seq<Block>)

  datatype Message = Message(role: Role, content: Content, extra: Text)

  /** Where calls count: blocks of an assistant message. */
  function CallBlocks(m: Message): seq<Block> {
    if m.role.Assistant? && m.content.Blocks? then m.content.blocks else []
  }

  /** Where results count: blocks of a user message. */
  function ReplyBlocks(m: Message): seq<Block> {
    if m.role.User? && m.content.Blocks? then m.content.blocks else []
  }

  function Calls(bs: seq<Block>, x: Id): nat {
    if bs == [] then 0
    else Calls(bs[..|bs| - 1], x) + if bs[|bs| - 1].Call? && bs[|bs| - 1].id == x then 1 else 0
  }

  function Results(bs: seq<Block>, x: Id): nat {
    if bs == [] then 0
    else Results(bs[..|bs| - 1], x) + if bs[|bs| - 1].Result? && bs[|bs| - 1].id == x then 1 else 0
  }

  /** How many results a message starts with. */
  function Lead(bs: seq<Block>): (k: nat)
    ensures k <= |bs|
    ensures forall b :: 0 <= b < k ==> bs[b].Result?
    ensures k < |bs| ==> !bs[k].Result?
  {
    if bs == [] || !bs[0].Result? then 0 else 1 + Lead(bs[1..])
  }

  /** The conversation moves on at an assistant message, at any string, and at a user message with
      more than results. */
  predicate Moves(m: Message) {
    m.role.Assistant? || m.content.Str? || (m.role.User? && exists b <- m.content.blocks :: !b.Result?)
  }

  /** The last message at which the conversation moved on, or -1. */
  function LastMove(ms: seq<Message>): (n: int)
    ensures -1 <= n < |ms|
    ensures n >= 0 ==> Moves(ms[n])
    ensures forall j :: n < j < |ms| ==> !Moves(ms[j])
  {
    if ms == [] then -1
    else if Moves(ms[|ms| - 1]) then |ms| - 1
    else LastMove(ms[..|ms| - 1])
  }

  method FindLastMove(ms: seq<Message>) returns (n: int)
    ensures n == LastMove(ms)
  {
    n := |ms| - 1;
    while n >= 0
      invariant -1 <= n < |ms|
      invariant LastMove(ms) == LastMove(ms[..n + 1])
    {
      var m := ms[n];
      if m.role.Assistant? || m.content.Str? {
        return;
      }
      if m.role.User? && exists b <- m.content.blocks :: !b.Result? {
        return;
      }
      assert ms[..n + 1][..n] == ms[..n];
      n := n - 1;
    }
  }

  method CountLeading(bs: seq<Block>) returns (k: nat)
    ensures k == Lead(bs)
  {
    k := 0;
    while k < |bs| && bs[k].Result?
      invariant k <= |bs|
      invariant Lead(bs) == k + Lead(bs[k..])
    {
      assert bs[k..][1..] == bs[k + 1..];
      k := k + 1;
    }
  }

  // ---- Counting ----

  lemma {:induction false} CallsAppend(a: seq<Block>, b: seq<Block>, x: Id)
    ensures Calls(a + b, x) == Calls(a, x) + Calls(b, x)
  {
    if b == [] {
      assert a + b == a;
    } else {
      CallsAppend(a, b[..|b| - 1], x);
      assert (a + b)[..|a + b| - 1] == a + b[..|b| - 1];
    }
  }

  lemma {:induction false} ResultsAppend(a: seq<Block>, b: seq<Block>, x: Id)
    ensures Results(a + b, x) == Results(a, x) + Results(b, x)
  {
    if b == [] {
      assert a + b == a;
    } else {
      ResultsAppend(a, b[..|b| - 1], x);
      assert (a + b)[..|a + b| - 1] == a + b[..|b| - 1];
    }
  }

  /** The count grows by one right behind a call of `x`, and never falls. */
  lemma CallsStep(bs: seq<Block>, k: nat, x: Id)
    requires k < |bs|
    ensures Calls(bs[..k + 1], x) == Calls(bs[..k], x) + if bs[k].Call? && bs[k].id == x then 1 else 0
  {
    assert bs[..k + 1][..k] == bs[..k];
  }

  lemma ResultsStep(bs: seq<Block>, k: nat, x: Id)
    requires k < |bs|
    ensures Results(bs[..k + 1], x) == Results(bs[..k], x) + if bs[k].Result? && bs[k].id == x then 1 else 0
  {
    assert bs[..k + 1][..k] == bs[..k];
  }

  lemma CallsMono(bs: seq<Block>, i: nat, k: nat, x: Id)
    requires i <= k <= |bs|
    ensures Calls(bs[..i], x) <= Calls(bs[..k], x) <= Calls(bs, x)
  {
    hide Calls;
    CallsAppend(bs[..i], bs[i..k], x);
    assert bs[..i] + bs[i..k] == bs[..k];
    CallsAppend(bs[..k], bs[k..], x);
    assert bs[..k] + bs[k..] == bs;
  }

  lemma ResultsMono(bs: seq<Block>, i: nat, k: nat, x: Id)
    requires i <= k <= |bs|
    ensures Results(bs[..i], x) <= Results(bs[..k], x) <= Results(bs, x)
  {
    hide Results;
    ResultsAppend(bs[..i], bs[i..k], x);
    assert bs[..i] + bs[i..k] == bs[..k];
    ResultsAppend(bs[..k], bs[k..], x);
    assert bs[..k] + bs[k..] == bs;
  }

  /** The place of the result of `x` that has `r` results of `x` before it. */
  function Nth(bs: seq<Block>, x: Id, r: nat): (b: nat)
    requires r < Results(bs, x)
    ensures b < |bs| && bs[b].Result? && bs[b].id == x && Results(bs[..b], x) == r
  {
    var k := |bs| - 1;
    if bs[k].Result? && bs[k].id == x && Results(bs[..k], x) == r then k
    else
      var b := Nth(bs[..k], x, r);
      assert bs[..k][..b] == bs[..b];
      b
  }

  /** Two results of one id have different ranks. */
  lemma RankOrder(bs: seq<Block>, a: nat, b: nat, x: Id)
    requires a < b <= |bs| && bs[a].Result? && bs[a].id == x
    ensures Results(bs[..a], x) < Results(bs[..b], x) <= Results(bs, x)
  {
    ResultsStep(bs, a, x);
    ResultsMono(bs, a + 1, b, x);
  }

  lemma RankBelow(bs: seq<Block>, b: nat)
    requires b < |bs| && bs[b].Result?
    ensures Results(bs[..b], bs[b].id) < Results(bs, bs[b].id)
    ensures Nth(bs, bs[b].id, Results(bs[..b], bs[b].id)) == b
  {
    var x := bs[b].id;
    RankOrder(bs, b, |bs|, x);
    assert bs[..|bs|] == bs;
    var c := Nth(bs, x, Results(bs[..b], x));
    if c < b {
      RankOrder(bs, c, b, x);
    } else if b < c {
      RankOrder(bs, b, c, x);
    }
  }
}
