/** Repair of broken tool exchanges: which result answers which call, and the history with every
    answer moved, made up or dropped accordingly. A call is answered by the result of its id that has
    as many results of that id before it, in its stretch, as the call has calls of that id before it in
    its message. `ExchangeRepair.dfy` is the program that finds the answers in passes over the history. */
module Exchange {
  import opened Text
  import opened History

  /** What the program is run with: which strings are blank, and the text of a made-up result. */
  datatype Wording = Wording(blank: Text -> bool, placeholder: Text)

  type Pos = (nat, nat)

  function Synthetic(w: Wording, x: Id): Block {
    Result(x, w.placeholder)
  }

  // ---- Which result answers a call ----

  /** The result of `x` with `r` results of `x` before it, from message `j` on and before the next
      message that calls `x` again. */
  function Find(ms: seq<Message>, j: nat, x: Id, r: nat): (f: Option<Pos>)
    ensures f.Some? ==> j <= f.value.0 && IsReply(ms, f.value.0, f.value.1)
                        && ReplyBlocks(ms[f.value.0])[f.value.1].id == x
    decreases |ms| - j
  {
    if j >= |ms| || Calls(CallBlocks(ms[j]), x) > 0 then None
    else
      var d := Results(ReplyBlocks(ms[j]), x);
      if r < d then Some((j, Nth(ReplyBlocks(ms[j]), x, r))) else Find(ms, j + 1, x, r - d)
  }

  predicate IsReply(ms: seq<Message>, j: nat, b: nat) {
    j < |ms| && b < |ReplyBlocks(ms[j])| && ReplyBlocks(ms[j])[b].Result?
  }

  predicate IsCall(ms: seq<Message>, i: nat, cb: nat) {
    i < |ms| && cb < |CallBlocks(ms[i])| && CallBlocks(ms[i])[cb].Call?
  }

  /** The n-th call of an id in a message is answered by the n-th result of that id in the stretch
      up to the next message that calls the id. */
  function Answer(ms: seq<Message>, i: nat, cb: nat): Option<Pos>
    requires IsCall(ms, i, cb)
  {
    var bs := CallBlocks(ms[i]);
    Find(ms, i + 1, bs[cb].id, Calls(bs[..cb], bs[cb].id))
  }

  // ---- Which results stay ----

  function RepliesBetween(ms: seq<Message>, lo: nat, hi: nat, x: Id): nat
    requires lo <= hi <= |ms|
    decreases hi
  {
    if lo == hi then 0 else RepliesBetween(ms, lo, hi - 1, x) + Results(ReplyBlocks(ms[hi - 1]), x)
  }

  /** Up to the last move, a result stays if it is among the leading ones and the message before
      still has a call for it; after it, if the last message still has a call for it. */
  predicate Kept(ms: seq<Message>, j: nat, b: nat)
    requires IsReply(ms, j, b)
  {
    var n := LastMove(ms);
    var bs := ReplyBlocks(ms[j]);
    var x := bs[b].id;
    if j <= n then
      j > 0 && b < Lead(bs) && Results(bs[..b], x) < Calls(CallBlocks(ms[j - 1]), x)
    else
      n >= 0 && RepliesBetween(ms, n + 1, j, x) + Results(bs[..b], x) < Calls(CallBlocks(ms[n]), x)
  }

  function Dropped(ms: seq<Message>, j: nat): (s: set<nat>)
    requires j < |ms|
    ensures forall b :: b in s <==> IsReply(ms, j, b) && !Kept(ms, j, b)
  {
    set b: nat | b < |ReplyBlocks(ms[j])| && IsReply(ms, j, b) && !Kept(ms, j, b)
  }

  // ---- What is put in front of the next message ----

  /** The block to insert for a call: its answer if that is not in place, or a made-up one. */
  function Fill(ms: seq<Message>, w: Wording, i: nat, cb: nat): seq<Block>
    requires i < |ms| && cb < |CallBlocks(ms[i])|
  {
    if !CallBlocks(ms[i])[cb].Call? then []
    else match Answer(ms, i, cb)
      case None => [Synthetic(w, CallBlocks(ms[i])[cb].id)]
      case Some(p) =>
        if p.0 == i + 1 && p.1 < Lead(ReplyBlocks(ms[p.0])) then [] else [ReplyBlocks(ms[p.0])[p.1]]
  }

  function Fills(ms: seq<Message>, w: Wording, i: nat, cb: nat): seq<Block>
    requires i < |ms| && cb <= |CallBlocks(ms[i])|
    decreases cb
  {
    if cb == 0 then [] else Fills(ms, w, i, cb - 1) + Fill(ms, w, i, cb - 1)
  }

  /** The exchange of the last move is left alone: its answers may still be under way. */
  function Inserts(ms: seq<Message>, w: Wording, i: nat): seq<Block>
    requires i < |ms|
  {
    if i < LastMove(ms) then Fills(ms, w, i, |CallBlocks(ms[i])|) else []
  }

  // ---- The repaired history ----

  function Without(bs: seq<Block>, drop: set<nat>): seq<Block> {
    if bs == [] then []
    else Without(bs[..|bs| - 1], drop) + if |bs| - 1 in drop then [] else [bs[|bs| - 1]]
  }

  function Place(bs: seq<Block>, pre: seq<Block>): seq<Block> {
    bs[..Lead(bs)] + pre + bs[Lead(bs)..]
  }

  function TextBlocks(w: Wording, t: Text): seq<Block> {
    if w.blank(t) then [] else [Words(t)]
  }

  predicate TakesFront(ms: seq<Message>, i: nat) {
    i < |ms| && ms[i].role.User?
  }

  /** What message `i - 1` has inserted into message `i`. */
  function Front(ms: seq<Message>, w: Wording, i: nat): seq<Block>
    requires i < |ms|
  {
    if i > 0 && TakesFront(ms, i) then Inserts(ms, w, i - 1) else []
  }

  function Mended(m: Message, w: Wording, drop: set<nat>, pre: seq<Block>): seq<Message> {
    if !m.role.User? then [m]
    else match m.content
      case Str(t) => if pre == [] then [m] else [m.(content := Blocks(pre + TextBlocks(w, t)))]
      case Blocks(bs) =>
        if drop == {} && pre == [] then [m]
        else
          var cs := Place(Without(bs, drop), pre);
          if cs == [] then [] else [m.(content := Blocks(cs))]
  }

  /** What stands in the repaired history for message `i`, with the message made up behind it when
      the next one cannot take its answers. */
  function Piece(ms: seq<Message>, w: Wording, i: nat): seq<Message>
    requires i < |ms|
  {
    Mended(ms[i], w, Dropped(ms, i), Front(ms, w, i))
    + if Inserts(ms, w, i) != [] && !TakesFront(ms, i + 1) then [Message(User, Blocks(Inserts(ms, w, i)), [])] else []
  }

  function Rebuilt(ms: seq<Message>, w: Wording, i: nat): seq<Message>
    requires i <= |ms|
    decreases |ms| - i
  {
    if i == |ms| then [] else Piece(ms, w, i) + Rebuilt(ms, w, i + 1)
  }

  ghost predicate Broken(ms: seq<Message>, w: Wording) {
    exists i :: 0 <= i < |ms| && (Dropped(ms, i) != {} || Inserts(ms, w, i) != [])
  }

  /** None where there is nothing to repair. */
  ghost function Repair(ms: seq<Message>, w: Wording): Option<seq<Message>> {
    if Broken(ms, w) then Some(Rebuilt(ms, w, 0)) else None
  }

  // ---- A well-paired history ----

  /** How many answers to `x` message `j` owes: the calls of the message before it, where `due` are
      the blocks of the message before the whole history. */
  function Due(ms: seq<Message>, due: seq<Block>, j: nat, x: Id): nat
    requires j <= |ms|
  {
    Calls(if j == 0 then due else CallBlocks(ms[j - 1]), x)
  }

  /** Answers to `x`, and answers still owed, after the last move. */
  function LateReplies(ms: seq<Message>, x: Id): nat {
    RepliesBetween(ms, LastMove(ms) + 1, |ms|, x)
  }

  function LateDue(ms: seq<Message>, due: seq<Block>, x: Id): nat {
    Due(ms, due, LastMove(ms) + 1, x)
  }

  predicate AllLead(bs: seq<Block>) {
    forall b :: 0 <= b < |bs| && bs[b].Result? ==> b < Lead(bs)
  }

  ghost predicate PairedAfter(ms: seq<Message>, due: seq<Block>) {
    var n := LastMove(ms);
    && (forall j, x :: 0 <= j <= n && ReplyBlocks(ms[j]) != [] ==> Results(ReplyBlocks(ms[j]), x) == Due(ms, due, j, x))
    && (forall j :: 0 <= j <= n ==> AllLead(ReplyBlocks(ms[j])))
    && (forall j, x :: 0 <= j <= n && Due(ms, due, j, x) > 0 ==> ReplyBlocks(ms[j]) != [])
    && (forall x :: LateReplies(ms, x) <= LateDue(ms, due, x))
  }

  /** Up to the last move every user message answers, call for call, the calls of the message
      before it, answers first, and every calling message is followed by one; after it, no id has
      more answers than the last message made calls. */
  ghost predicate WellPaired(ms: seq<Message>) {
    PairedAfter(ms, [])
  }
}
