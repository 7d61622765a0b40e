/** What one retry pass writes and what it leaves behind, entry by entry. */
module RetryLaws {
  import opened Text
  import opened Transport
  import opened Sender
  import opened SenderLaws

  function Total(ks: seq<nat>): nat {
    if ks == [] then 0 else ks[0] + Total(ks[1..])
  }

  /** A pass of the timer is for entries whose interval is over; a replay is for all. */
  predicate Due(env: Env, now: int, ignoreInterval: bool, p: Pending) {
    ignoreInterval || now - p.sentAt >= env.interval
  }

  function DueCount(env: Env, now: int, ignoreInterval: bool, ps: seq<Pending>): nat {
    if ps == [] then 0
    else (if Due(env, now, ignoreInterval, ps[0]) then 1 else 0) + DueCount(env, now, ignoreInterval, ps[1..])
  }

  /** What the socket takes at the `n`-th attempt to write. */
  function Taken(grants: seq<nat>, n: nat): nat {
    if n < |grants| then grants[n] else 0
  }

  function Min(a: nat, b: nat): nat {
    if a < b then a else b
  }

  /** The first `ks[x]` frames of every entry `ps[x]`, one entry after the other. */
  function Laid(env: Env, base: nat, ps: seq<Pending>, ks: seq<nat>): seq<Envelope>
    requires |ks| <= |ps|
  {
    if ks == [] then []
    else
      var frames := FramesAt(env, base, ps[0]);
      frames[..Min(ks[0], |frames|)] + Laid(env, base, ps[1..], ks[1..])
  }

  /** The frames that count against the budget of a recovery: first writes, and all of a replay. */
  function Counted(ps: seq<Pending>, ignoreInterval: bool, ks: seq<nat>): nat
    requires |ks| <= |ps|
  {
    if ks == [] then 0
    else (if !ps[0].sent || ignoreInterval then ks[0] else 0) + Counted(ps[1..], ignoreInterval, ks[1..])
  }

  function Again(p: Pending, now: int): Pending {
    p.(sent := true, attempts := p.attempts + 1, sentAt := now)
  }

  /** The queue once the entries from `i` on were written with `ks` frames each, none meaning not at all. */
  function Rewritten(ps: seq<Pending>, now: int, i: nat, ks: seq<nat>): (r: seq<Pending>)
    ensures |r| == |ps|
    ensures forall x :: 0 <= x < |ps| ==>
      r[x] == if i <= x < i + |ks| && ks[x - i] > 0 then Again(ps[x], now) else ps[x]
  {
    seq(|ps|, x requires 0 <= x < |ps| => if i <= x < i + |ks| && ks[x - i] > 0 then Again(ps[x], now) else ps[x])
  }

  /** And the sender. */
  function After(s: Sender, now: int, ignoreInterval: bool, i: nat, ks: seq<nat>): (t: Sender)
    requires i + |ks| <= |s.pending|
  {
    s.(pending := Rewritten(s.pending, now, i, ks),
       recoveryFramesSent := s.recoveryFramesSent
                             + if s.recoveryNeedsAck then Counted(s.pending[i..], ignoreInterval, ks) else 0)
  }

  /** A first write waits while something is out unacknowledged since the recovery began and its
      budget does not cover the message. */
  predicate Waits(s: Sender, env: Env, p: Pending) {
    && !p.sent && s.recoveryNeedsAck
    && (exists x :: 0 <= x < |s.pending| && s.pending[x].sent)
    && s.recoveryFramesSent + Estimate(p) > env.budget
  }

  /** `t` with its link given up: where the peer cannot be reset, as if the connection was lost. */
  function GivenUp(t: Sender): Sender {
    var u := t.(phase := Down, confirmation := None);
    if t.peerResettable then u else u.(recoveryNeedsAck := true, recoveryFramesSent := 0)
  }

  /** Entry `p` may be written, with `before` frames of the pass before it, and got `k` of its `n` frames. */
  predicate Fed(env: Env, p: Pending, t: Sender, before: nat, taken: nat, n: nat, k: nat) {
    && p.attempts < env.maxAttempts && !Waits(t, env, p)
    && (before == 0 || (before < env.budget && before + Estimate(p) <= env.budget))
    && 1 <= k == Min(taken, n)
  }

  /** The entry `x` places after `i` was passed over because it was not due, or was due, allowed and written. */
  predicate Served(s: Sender, env: Env, now: int, ignoreInterval: bool, i: nat, spent: nat, grants: seq<nat>,
                   ks: seq<nat>, x: nat)
    requires i + |ks| <= |s.pending| && x < |ks|
  {
    var p := s.pending[i + x];
    if !Due(env, now, ignoreInterval, p) then ks[x] == 0
    else Fed(env, p, After(s, now, ignoreInterval, i, ks[..x]), spent + Total(ks[..x]),
             Taken(grants, DueCount(env, now, ignoreInterval, s.pending[i..i + x])),
             |FramesAt(env, BaseOf(s), p)|, ks[x])
  }

  /** Entry `p`, with `total` frames written before it, ends the pass in `last`: it is out of attempts,
      or it may not or cannot be written. */
  predicate Stuck(env: Env, p: Pending, t: Sender, total: nat, taken: nat, frames: seq<Envelope>, last: Sender) {
    if p.attempts >= env.maxAttempts then last == GivenUp(t)
    else
      && last == t
      && (Waits(t, env, p) || (total > 0 && total + Estimate(p) > env.budget) || taken == 0 || frames == [])
  }

  /** The pass ends with the queue, with its budget, or with the first entry not served, which is due. */
  predicate Ends(s: Sender, env: Env, now: int, ignoreInterval: bool, i: nat, spent: nat, grants: seq<nat>,
                 ks: seq<nat>, last: Sender)
    requires i + |ks| <= |s.pending|
  {
    var n, t, total := i + |ks|, After(s, now, ignoreInterval, i, ks), spent + Total(ks);
    if n == |s.pending| || (total > 0 && total >= env.budget) then last == t
    else
      && Due(env, now, ignoreInterval, s.pending[n])
      && Stuck(env, s.pending[n], t, total, Taken(grants, DueCount(env, now, ignoreInterval, s.pending[i..n])),
               FramesAt(env, BaseOf(s), s.pending[n]), last)
  }

  /** The whole account of a pass: entry `i + x` was written with `ks[x]` frames. */
  predicate Passed(s: Sender, env: Env, now: int, ignoreInterval: bool, i: nat, spent: nat, grants: seq<nat>,
                   o: Outcome, ks: seq<nat>)
  {
    && i + |ks| <= |s.pending|
    && (forall x :: 0 <= x < |ks| ==> Served(s, env, now, ignoreInterval, i, spent, grants, ks, x))
    && Ends(s, env, now, ignoreInterval, i, spent, grants, ks, o.sender)
    && o.written == Laid(env, BaseOf(s), s.pending[i..], ks)
  }

  // ---- One entry, then the rest ----

  function Later(grants: seq<nat>): seq<nat> {
    if grants == [] then [] else grants[1..]
  }

  lemma TakenLater(grants: seq<nat>, n: nat)
    ensures Taken(Later(grants), n) == Taken(grants, n + 1)
  {
  }

  lemma AfterOne(s: Sender, now: int, ignoreInterval: bool, i: nat, w: nat)
    requires i < |s.pending|
    ensures var t := After(s, now, ignoreInterval, i, [w]);
      && |t.pending| == |s.pending| && BaseOf(t) == BaseOf(s) && t.pending[i + 1..] == s.pending[i + 1..]
      && t.pending == (if w > 0 then s.pending[i := Again(s.pending[i], now)] else s.pending)
      && (w == 0 ==> t == s)
  {
    assert Counted(s.pending[i..], ignoreInterval, [w])
        == if !s.pending[i].sent || ignoreInterval then w else 0;
  }

  lemma CountedMore(s: Sender, ignoreInterval: bool, i: nat, w: nat, ks: seq<nat>)
    requires i + 1 + |ks| <= |s.pending|
    ensures Counted(s.pending[i..], ignoreInterval, [w] + ks)
         == Counted(s.pending[i..], ignoreInterval, [w]) + Counted(s.pending[i + 1..], ignoreInterval, ks)
  {
    assert ([w] + ks)[1..] == ks && [w][1..] == [] && s.pending[i..][1..] == s.pending[i + 1..];
  }

  lemma AfterMore(s: Sender, now: int, ignoreInterval: bool, i: nat, w: nat, ks: seq<nat>)
    requires i + 1 + |ks| <= |s.pending|
    ensures |After(s, now, ignoreInterval, i, [w]).pending| == |s.pending|
    ensures After(s, now, ignoreInterval, i, [w] + ks)
         == After(After(s, now, ignoreInterval, i, [w]), now, ignoreInterval, i + 1, ks)
  {
    hide Counted, Rewritten;
    AfterOne(s, now, ignoreInterval, i, w);
    CountedMore(s, ignoreInterval, i, w, ks);
    RewrittenMore(s.pending, now, i, w, ks);
  }

  lemma RewrittenMore(ps: seq<Pending>, now: int, i: nat, w: nat, ks: seq<nat>)
    requires i + 1 + |ks| <= |ps|
    ensures Rewritten(ps, now, i, [w] + ks) == Rewritten(Rewritten(ps, now, i, [w]), now, i + 1, ks)
  {
    var q, a := Rewritten(ps, now, i, [w]), Rewritten(ps, now, i, [w] + ks);
    var b := Rewritten(q, now, i + 1, ks);
    hide Rewritten;
    forall x | 0 <= x < |ps| ensures a[x] == b[x] {
      assert q[x] == if x == i && w > 0 then Again(ps[x], now) else ps[x];
      assert i < x <= i + |ks| ==> ([w] + ks)[x - i] == ks[x - i - 1];
    }
  }

  lemma DueLater(s: Sender, env: Env, now: int, ignoreInterval: bool, i: nat, w: nat, grants: seq<nat>, n: nat)
    requires i + 1 <= n <= |s.pending|
    requires |After(s, now, ignoreInterval, i, [w]).pending| == |s.pending|
    ensures var t, due := After(s, now, ignoreInterval, i, [w]), Due(env, now, ignoreInterval, s.pending[i]);
      Taken(grants, DueCount(env, now, ignoreInterval, s.pending[i..n]))
      == Taken(if due then Later(grants) else grants, DueCount(env, now, ignoreInterval, t.pending[i + 1..n]))
  {
    AfterOne(s, now, ignoreInterval, i, w);
    var t := After(s, now, ignoreInterval, i, [w]);
    assert t.pending[i + 1..n] == t.pending[i + 1..][..n - i - 1];
    assert s.pending[i + 1..n] == s.pending[i + 1..][..n - i - 1];
    assert s.pending[i..n][1..] == s.pending[i + 1..n] && s.pending[i..n][0] == s.pending[i];
    TakenLater(grants, DueCount(env, now, ignoreInterval, s.pending[i + 1..n]));
    hide After, Taken;
  }

  lemma ServedFirst(s: Sender, env: Env, now: int, ignoreInterval: bool, i: nat, spent: nat, grants: seq<nat>,
                    w: nat, ks: seq<nat>)
    requires i + 1 + |ks| <= |s.pending|
    requires Served(s, env, now, ignoreInterval, i, spent, grants, [w], 0)
    ensures Served(s, env, now, ignoreInterval, i, spent, grants, [w] + ks, 0)
  {
    assert ([w] + ks)[..0] == [w][..0];
  }

  lemma TotalMore(w: nat, ks: seq<nat>)
    ensures Total([w] + ks) == w + Total(ks)
  {
    assert ([w] + ks)[1..] == ks;
  }

  lemma ServedLater(s: Sender, env: Env, now: int, ignoreInterval: bool, i: nat, spent: nat, grants: seq<nat>,
                    w: nat, ks: seq<nat>, x: nat)
    requires i + 1 + |ks| <= |s.pending| && x < |ks|
    requires |After(s, now, ignoreInterval, i, [w]).pending| == |s.pending|
    requires var rest := if Due(env, now, ignoreInterval, s.pending[i]) then Later(grants) else grants;
      Served(After(s, now, ignoreInterval, i, [w]), env, now, ignoreInterval, i + 1, spent + w, rest, ks, x)
    ensures Served(s, env, now, ignoreInterval, i, spent, grants, [w] + ks, x + 1)
  {
    hide After, Fed, FramesAt, Taken, DueCount, Due, Total, Later;
    AfterOne(s, now, ignoreInterval, i, w);
    AfterMore(s, now, ignoreInterval, i, w, ks[..x]);
    assert ([w] + ks)[..x + 1] == [w] + ks[..x];
    TotalMore(w, ks[..x]);
    var t := After(s, now, ignoreInterval, i, [w]);
    DueLater(s, env, now, ignoreInterval, i, w, grants, i + 1 + x);
    assert t.pending[i + 1..][x] == s.pending[i + 1..][x];
    assert t.pending[i + 1 + x] == s.pending[i + 1 + x] && ([w] + ks)[x + 1] == ks[x];
  }

  lemma EndsLater(s: Sender, env: Env, now: int, ignoreInterval: bool, i: nat, spent: nat, grants: seq<nat>,
                  w: nat, ks: seq<nat>, last: Sender)
    requires i + 1 + |ks| <= |s.pending|
    requires |After(s, now, ignoreInterval, i, [w]).pending| == |s.pending|
    requires var rest := if Due(env, now, ignoreInterval, s.pending[i]) then Later(grants) else grants;
      Ends(After(s, now, ignoreInterval, i, [w]), env, now, ignoreInterval, i + 1, spent + w, rest, ks, last)
    ensures Ends(s, env, now, ignoreInterval, i, spent, grants, [w] + ks, last)
  {
    hide After, Stuck, FramesAt, Taken, DueCount, Due, Total, Later;
    AfterOne(s, now, ignoreInterval, i, w);
    AfterMore(s, now, ignoreInterval, i, w, ks);
    TotalMore(w, ks);
    var n := i + 1 + |ks|;
    var t := After(s, now, ignoreInterval, i, [w]);
    DueLater(s, env, now, ignoreInterval, i, w, grants, n);
    if n < |s.pending| {
      assert t.pending[i + 1..][|ks|] == s.pending[i + 1..][|ks|];
      assert t.pending[n] == s.pending[n];
    }
  }

  lemma LaidLater(s: Sender, env: Env, i: nat, w: nat, ks: seq<nat>)
    requires i + 1 + |ks| <= |s.pending|
    ensures Laid(env, BaseOf(s), s.pending[i..], [w] + ks)
         == FramesAt(env, BaseOf(s), s.pending[i])[..Min(w, |FramesAt(env, BaseOf(s), s.pending[i])|)]
            + Laid(env, BaseOf(s), s.pending[i + 1..], ks)
  {
    assert s.pending[i..][1..] == s.pending[i + 1..] && ([w] + ks)[1..] == ks;
    hide FramesAt;
  }

  /** An entry passed over or written, then the account of the rest, is the account of both. */
  lemma PassedMore(s: Sender, env: Env, now: int, ignoreInterval: bool, i: nat, spent: nat, grants: seq<nat>,
                   w: nat, ks: seq<nat>, o: Outcome, written: seq<Envelope>)
    requires i < |s.pending| && Served(s, env, now, ignoreInterval, i, spent, grants, [w], 0)
    requires var rest := if Due(env, now, ignoreInterval, s.pending[i]) then Later(grants) else grants;
      Passed(After(s, now, ignoreInterval, i, [w]), env, now, ignoreInterval, i + 1, spent + w, rest, o, ks)
    requires var frames := FramesAt(env, BaseOf(s), s.pending[i]);
      w <= |frames| && written == frames[..w] + o.written
    ensures Passed(s, env, now, ignoreInterval, i, spent, grants, Outcome(o.sender, written), [w] + ks)
  {
    hide After, FramesAt, Served, Ends, Laid, Later, Due, Estimate;
    AfterOne(s, now, ignoreInterval, i, w);
    ServedFirst(s, env, now, ignoreInterval, i, spent, grants, w, ks);
    EndsLater(s, env, now, ignoreInterval, i, spent, grants, w, ks, o.sender);
    LaidLater(s, env, i, w, ks);
    var t := After(s, now, ignoreInterval, i, [w]);
    var rest := if Due(env, now, ignoreInterval, s.pending[i]) then Later(grants) else grants;
    forall x | 0 <= x < |[w] + ks| ensures Served(s, env, now, ignoreInterval, i, spent, grants, [w] + ks, x) {
      if x > 0 {
        assert Served(t, env, now, ignoreInterval, i + 1, spent + w, rest, ks, x - 1);
        ServedLater(s, env, now, ignoreInterval, i, spent, grants, w, ks, x - 1);
      }
    }
  }

  lemma WaitsIffHeld(s: Sender, env: Env, p: Pending)
    ensures Waits(s, env, p) <==> !p.sent && ShouldHold(s, env, Estimate(p))
  {
  }

  /** A write and its note, in the terms of the account. */
  lemma WriteIs(s: Sender, env: Env, now: int, ignoreInterval: bool, i: nat, grant: nat)
    requires i < |s.pending|
    ensures var p, o, frames := s.pending[i], SendAt(s, env, i, now, grant), FramesAt(env, BaseOf(s), s.pending[i]);
      && o.written == frames[..Min(grant, |frames|)]
      && (o.written != [] ==>
            (if !p.sent || (s.recoveryNeedsAck && ignoreInterval) then Note(o.sender, |o.written|) else o.sender)
            == After(s, now, ignoreInterval, i, [|o.written|]))
  {
    hide Encode;
    var o := SendAt(s, env, i, now, grant);
    AfterOne(s, now, ignoreInterval, i, |o.written|);
    assert Counted(s.pending[i..], ignoreInterval, [|o.written|])
        == if !s.pending[i].sent || ignoreInterval then |o.written| else 0;
  }

  lemma TurnPasses(s: Sender, env: Env, now: int, ignoreInterval: bool, i: nat, spent: nat, grants: seq<nat>)
    requires i < |s.pending| && RetryTurn(s, env, now, ignoreInterval, i, spent, Taken(grants, 0)).NotDue?
    ensures !Due(env, now, ignoreInterval, s.pending[i])
    ensures Served(s, env, now, ignoreInterval, i, spent, grants, [0], 0)
  {
    hide SendAt, ShouldHold, Waits, Estimate, FramesAt;
    assert s.pending[i + 0] == s.pending[i];
  }

  lemma TurnStops(s: Sender, env: Env, now: int, ignoreInterval: bool, i: nat, spent: nat, grants: seq<nat>)
    requires i < |s.pending| && (spent == 0 || spent < env.budget)
    requires RetryTurn(s, env, now, ignoreInterval, i, spent, Taken(grants, 0)).Stop?
    ensures Ends(s, env, now, ignoreInterval, i, spent, grants, [],
                 RetryTurn(s, env, now, ignoreInterval, i, spent, Taken(grants, 0)).sender)
  {
    WaitsIffHeld(s, env, s.pending[i]);
    WriteIs(s, env, now, ignoreInterval, i, Taken(grants, 0));
    assert After(s, now, ignoreInterval, i, []) == s;
    assert s.pending[i..i] == [];
    hide SendAt, ShouldHold, Waits, Estimate, FramesAt, After;
  }

  lemma TurnWrites(s: Sender, env: Env, now: int, ignoreInterval: bool, i: nat, spent: nat, grants: seq<nat>)
    requires i < |s.pending| && (spent == 0 || spent < env.budget)
    requires RetryTurn(s, env, now, ignoreInterval, i, spent, Taken(grants, 0)).Wrote?
    ensures var t := RetryTurn(s, env, now, ignoreInterval, i, spent, Taken(grants, 0));
      && Due(env, now, ignoreInterval, s.pending[i]) && t.frames != []
      && Served(s, env, now, ignoreInterval, i, spent, grants, [|t.frames|], 0)
      && t.sender == After(s, now, ignoreInterval, i, [|t.frames|])
      && |t.frames| <= |FramesAt(env, BaseOf(s), s.pending[i])|
      && t.frames == FramesAt(env, BaseOf(s), s.pending[i])[..|t.frames|]
  {
    WaitsIffHeld(s, env, s.pending[i]);
    WriteIs(s, env, now, ignoreInterval, i, Taken(grants, 0));
    assert After(s, now, ignoreInterval, i, []) == s;
    assert s.pending[i + 0] == s.pending[i] && s.pending[i..i + 0] == [];
    var w := |SendAt(s, env, i, now, Taken(grants, 0)).written|;
    assert [w][..0] == [];
    hide SendAt, ShouldHold, Waits, Estimate, FramesAt, After;
  }

  lemma PassedOne(s: Sender, env: Env, now: int, ignoreInterval: bool, i: nat, spent: nat, grants: seq<nat>,
                  t: Sender, frames: seq<Envelope>)
    requires i < |s.pending| && frames != [] && spent + |frames| >= env.budget
    requires Served(s, env, now, ignoreInterval, i, spent, grants, [|frames|], 0)
    requires t == After(s, now, ignoreInterval, i, [|frames|])
    requires |frames| <= |FramesAt(env, BaseOf(s), s.pending[i])|
    requires frames == FramesAt(env, BaseOf(s), s.pending[i])[..|frames|]
    ensures Passed(s, env, now, ignoreInterval, i, spent, grants, Outcome(t, frames), [|frames|])
  {
    LaidLater(s, env, i, |frames|, []);
    assert [|frames|] == [|frames|] + [];
    assert Total([|frames|]) == |frames|;
    hide Served, FramesAt, After;
  }

  lemma PassedNone(s: Sender, env: Env, now: int, ignoreInterval: bool, i: nat, spent: nat, grants: seq<nat>,
                   t: Sender)
    requires i <= |s.pending|
    requires Ends(s, env, now, ignoreInterval, i, spent, grants, [], t) || (i == |s.pending| && t == s)
    ensures Passed(s, env, now, ignoreInterval, i, spent, grants, Outcome(t, []), [])
  {
    assert After(s, now, ignoreInterval, i, []) == s;
  }

  lemma {:induction false} RetryFromIs(s: Sender, env: Env, now: int, ignoreInterval: bool, i: nat, spent: nat,
                                       grants: seq<nat>) returns (ks: seq<nat>)
    requires i <= |s.pending| && (spent == 0 || spent < env.budget)
    ensures Passed(s, env, now, ignoreInterval, i, spent, grants,
                   RetryFrom(s, env, now, ignoreInterval, i, spent, grants), ks)
    decreases |s.pending| - i
  {
    hide RetryTurn, Passed, After, FramesAt;
    ks := [];
    if i == |s.pending| {
      PassedNone(s, env, now, ignoreInterval, i, spent, grants, s);
    } else {
      hide Served, Ends;
      match RetryTurn(s, env, now, ignoreInterval, i, spent, Taken(grants, 0)) {
        case NotDue =>
          TurnPasses(s, env, now, ignoreInterval, i, spent, grants);
          AfterOne(s, now, ignoreInterval, i, 0);
          ks := RetryFromIs(s, env, now, ignoreInterval, i + 1, spent, grants);
          PassedMore(s, env, now, ignoreInterval, i, spent, grants, 0, ks,
                     RetryFrom(s, env, now, ignoreInterval, i + 1, spent, grants),
                     RetryFrom(s, env, now, ignoreInterval, i + 1, spent, grants).written);
          ks := [0] + ks;
        case Stop(t) =>
          TurnStops(s, env, now, ignoreInterval, i, spent, grants);
          PassedNone(s, env, now, ignoreInterval, i, spent, grants, t);
        case Wrote(t, frames) =>
          TurnWrites(s, env, now, ignoreInterval, i, spent, grants);
          AfterOne(s, now, ignoreInterval, i, |frames|);
          if spent + |frames| >= env.budget {
            PassedOne(s, env, now, ignoreInterval, i, spent, grants, t, frames);
            ks := [|frames|];
          } else {
            var rest := RetryFrom(t, env, now, ignoreInterval, i + 1, spent + |frames|, Later(grants));
            ks := RetryFromIs(t, env, now, ignoreInterval, i + 1, spent + |frames|, Later(grants));
            PassedMore(s, env, now, ignoreInterval, i, spent, grants, |frames|, ks, rest, frames + rest.written);
            ks := [|frames|] + ks;
          }
      }
    }
  }

  /** A pass of an open link serves its entries oldest first, until one stops it. */
  lemma RetryPassIs(s: Sender, env: Env, now: int, ignoreInterval: bool, grants: seq<nat>) returns (ks: seq<nat>)
    ensures var o := RetryPass(s, env, now, ignoreInterval, grants);
      if s.reliable && s.phase == Open then Passed(s, env, now, ignoreInterval, 0, 0, grants, o, ks)
      else o == Outcome(s, [])
  {
    hide RetryFrom, Passed;
    ks := RetryFromIs(s, env, now, ignoreInterval, 0, 0, grants);
  }

  // ---- What follows for one entry ----

  predicate Zeros(ks: seq<nat>) {
    forall x :: 0 <= x < |ks| ==> ks[x] == 0
  }

  lemma {:induction false} NothingLaid(env: Env, base: nat, ps: seq<Pending>, ignoreInterval: bool, ks: seq<nat>)
    requires |ks| <= |ps| && Zeros(ks)
    ensures Total(ks) == 0 && Laid(env, base, ps, ks) == [] && Counted(ps, ignoreInterval, ks) == 0
  {
    if ks != [] {
      NothingLaid(env, base, ps[1..], ignoreInterval, ks[1..]);
    }
  }

  lemma NothingServed(s: Sender, env: Env, now: int, ignoreInterval: bool, ks: seq<nat>)
    requires |ks| <= |s.pending| && Zeros(ks)
    ensures Total(ks) == 0 && Laid(env, BaseOf(s), s.pending[0..], ks) == []
    ensures After(s, now, ignoreInterval, 0, ks) == s
  {
    NothingLaid(env, BaseOf(s), s.pending[0..], ignoreInterval, ks);
    assert After(s, now, ignoreInterval, 0, ks).pending == s.pending;
  }

  lemma {:induction false} LaidFirst(env: Env, base: nat, ps: seq<Pending>, ks: seq<nat>, i: nat)
    requires i < |ks| <= |ps| && Zeros(ks[..i]) && ks[i] <= |FramesAt(env, base, ps[i])|
    ensures FramesAt(env, base, ps[i])[..ks[i]] <= Laid(env, base, ps, ks)
  {
    hide FramesAt;
    if i > 0 {
      assert ks[..i][0] == 0;
      assert ks[1..][..i - 1] == ks[..i][1..];
      LaidFirst(env, base, ps[1..], ks[1..], i - 1);
    }
  }

  lemma {:induction false} LaidFrom(env: Env, base: nat, ps: seq<Pending>, ks: seq<nat>, f: Envelope) returns (x: nat)
    requires |ks| <= |ps| && f in Laid(env, base, ps, ks)
    ensures x < |ks| && ks[x] > 0 && f in FramesAt(env, base, ps[x])
  {
    var frames := FramesAt(env, base, ps[0]);
    hide FramesAt;
    if f in frames[..Min(ks[0], |frames|)] {
      x := 0;
    } else {
      var y := LaidFrom(env, base, ps[1..], ks[1..], f);
      x := y + 1;
    }
  }

  /** Entry `i` is the first one that is due. */
  predicate FirstDue(s: Sender, env: Env, now: int, ignoreInterval: bool, i: nat)
    requires i < |s.pending|
  {
    && Due(env, now, ignoreInterval, s.pending[i])
    && forall x :: 0 <= x < i ==> !Due(env, now, ignoreInterval, s.pending[x])
  }

  /** Only entries that are due and not out of attempts are written: those keep one attempt more
      and the time of the pass; all others keep theirs. */
  lemma OnlyTheDue(s: Sender, env: Env, now: int, ignoreInterval: bool, grants: seq<nat>)
    ensures var o := RetryPass(s, env, now, ignoreInterval, grants);
      && |o.sender.pending| == |s.pending|
      && (forall i :: 0 <= i < |s.pending| && o.sender.pending[i] != s.pending[i] ==>
            && Due(env, now, ignoreInterval, s.pending[i]) && s.pending[i].attempts < env.maxAttempts
            && o.sender.pending[i] == s.pending[i].(sent := true, attempts := s.pending[i].attempts + 1, sentAt := now))
      && (forall f <- o.written ::
            exists i :: 0 <= i < |s.pending| && o.sender.pending[i] != s.pending[i]
                        && f in FramesAt(env, BaseOf(s), s.pending[i]))
  {
    hide RetryPass, FramesAt, Waits, Estimate;
    var o := RetryPass(s, env, now, ignoreInterval, grants);
    var ks := RetryPassIs(s, env, now, ignoreInterval, grants);
    if s.reliable && s.phase == Open {
      assert s.pending[0..] == s.pending;
      forall f <- o.written
        ensures exists i :: 0 <= i < |s.pending| && o.sender.pending[i] != s.pending[i]
                            && f in FramesAt(env, BaseOf(s), s.pending[i])
      {
        var x := LaidFrom(env, BaseOf(s), s.pending, ks, f);
        assert Served(s, env, now, ignoreInterval, 0, 0, grants, ks, x);
      }
      forall i | 0 <= i < |s.pending| && o.sender.pending[i] != s.pending[i]
        ensures Due(env, now, ignoreInterval, s.pending[i]) && s.pending[i].attempts < env.maxAttempts
        ensures o.sender.pending[i] == Again(s.pending[i], now)
      {
        assert Served(s, env, now, ignoreInterval, 0, 0, grants, ks, i);
      }
    }
  }

  /** The first entry that is due decides: out of attempts it takes the link down, held back by a
      recovery it leaves everything as it is, and otherwise what the socket takes of its frames is
      written first. */
  lemma FirstDueDecides(s: Sender, env: Env, now: int, ignoreInterval: bool, grants: seq<nat>, i: nat)
    requires s.reliable && s.phase == Open && i < |s.pending| && FirstDue(s, env, now, ignoreInterval, i)
    ensures var o, p, frames := RetryPass(s, env, now, ignoreInterval, grants), s.pending[i],
                                FramesAt(env, BaseOf(s), s.pending[i]);
      if p.attempts >= env.maxAttempts then o == Outcome(GivenUp(s), [])
      else if Waits(s, env, p) || frames == [] || grants == [] || grants[0] == 0 then o == Outcome(s, [])
      else
        && frames[..Min(grants[0], |frames|)] <= o.written
        && |o.sender.pending| == |s.pending|
        && o.sender.pending[i] == p.(sent := true, attempts := p.attempts + 1, sentAt := now)
  {
    hide RetryPass, FramesAt, Estimate;
    var ks := RetryPassIs(s, env, now, ignoreInterval, grants);
    assert s.pending[0..] == s.pending;
    var m := Min(i, |ks|);
    forall x | 0 <= x < m ensures ks[..m][x] == 0 {
      assert Served(s, env, now, ignoreInterval, 0, 0, grants, ks, x);
    }
    NothingServed(s, env, now, ignoreInterval, ks[..m]);
    NoneDue(env, now, ignoreInterval, s.pending[0..m]);
    hide After, Waits, GivenUp;
    if |ks| <= i {
      assert ks[..m] == ks;
    } else {
      assert Served(s, env, now, ignoreInterval, 0, 0, grants, ks, i);
      LaidFirst(env, BaseOf(s), s.pending, ks, i);
      WrittenEntry(s, env, now, ignoreInterval, grants, ks, i);
    }
  }

  lemma WrittenEntry(s: Sender, env: Env, now: int, ignoreInterval: bool, grants: seq<nat>, ks: seq<nat>, i: nat)
    requires i < |ks| && ks[i] > 0
    requires var o := RetryPass(s, env, now, ignoreInterval, grants);
      Passed(s, env, now, ignoreInterval, 0, 0, grants, o, ks)
    ensures var o := RetryPass(s, env, now, ignoreInterval, grants);
      |o.sender.pending| == |s.pending| && o.sender.pending[i] == Again(s.pending[i], now)
  {
    hide RetryPass, Waits, Estimate, FramesAt, Served;
  }

  lemma {:induction false} NoneDue(env: Env, now: int, ignoreInterval: bool, ps: seq<Pending>)
    requires forall x :: 0 <= x < |ps| ==> !Due(env, now, ignoreInterval, ps[x])
    ensures DueCount(env, now, ignoreInterval, ps) == 0
  {
    if ps != [] {
      NoneDue(env, now, ignoreInterval, ps[1..]);
    }
  }

  // ---- All that is due ----

  /** All frames of every due entry, in the order of the queue. */
  function DueFrames(env: Env, base: nat, now: int, ignoreInterval: bool, ps: seq<Pending>): seq<Envelope> {
    if ps == [] then []
    else (if Due(env, now, ignoreInterval, ps[0]) then FramesAt(env, base, ps[0]) else [])
         + DueFrames(env, base, now, ignoreInterval, ps[1..])
  }

  function DueEstimate(env: Env, now: int, ignoreInterval: bool, ps: seq<Pending>): nat {
    if ps == [] then 0
    else (if Due(env, now, ignoreInterval, ps[0]) then Estimate(ps[0]) else 0)
         + DueEstimate(env, now, ignoreInterval, ps[1..])
  }

  /** Nothing stands in the way of `p`: it has attempts left and frames, and the socket takes them all. */
  predicate Writable(env: Env, base: nat, p: Pending, taken: nat) {
    var frames := FramesAt(env, base, p);
    p.attempts < env.maxAttempts && frames != [] && |frames| <= taken && |frames| <= Estimate(p)
  }

  predicate AllWritable(s: Sender, env: Env, now: int, ignoreInterval: bool, grants: seq<nat>) {
    forall x :: 0 <= x < |s.pending| && Due(env, now, ignoreInterval, s.pending[x]) ==>
      Writable(env, BaseOf(s), s.pending[x], Taken(grants, DueCount(env, now, ignoreInterval, s.pending[..x])))
  }

  /** `ks` gives a due entry all its frames and any other none. */
  predicate Full(env: Env, base: nat, now: int, ignoreInterval: bool, ps: seq<Pending>, ks: seq<nat>)
    requires |ks| <= |ps|
  {
    forall x :: 0 <= x < |ks| ==>
      var n := |FramesAt(env, base, ps[x])|;
      if Due(env, now, ignoreInterval, ps[x]) then ks[x] == n <= Estimate(ps[x]) && n > 0 else ks[x] == 0
  }

  lemma {:induction false} FullLaid(env: Env, base: nat, now: int, ignoreInterval: bool, ps: seq<Pending>, ks: seq<nat>)
    requires |ks| <= |ps| && Full(env, base, now, ignoreInterval, ps, ks)
    ensures Laid(env, base, ps, ks) + DueFrames(env, base, now, ignoreInterval, ps[|ks|..])
         == DueFrames(env, base, now, ignoreInterval, ps)
    ensures Total(ks) + DueEstimate(env, now, ignoreInterval, ps[|ks|..]) <= DueEstimate(env, now, ignoreInterval, ps)
  {
    hide FramesAt, Estimate;
    if ks == [] {
      assert ps[0..] == ps;
    } else {
      assert Full(env, base, now, ignoreInterval, ps[1..], ks[1..]) by {
        forall x | 0 <= x < |ks[1..]|
          ensures var n := |FramesAt(env, base, ps[1..][x])|;
            if Due(env, now, ignoreInterval, ps[1..][x]) then ks[1..][x] == n <= Estimate(ps[1..][x]) && n > 0
            else ks[1..][x] == 0
        {
          assert ps[1..][x] == ps[x + 1] && ks[1..][x] == ks[x + 1];
        }
      }
      FullLaid(env, base, now, ignoreInterval, ps[1..], ks[1..]);
      assert ps[1..][|ks[1..]|..] == ps[|ks|..];
      var all := DueFrames(env, base, now, ignoreInterval, ps[|ks|..]);
      var frames := FramesAt(env, base, ps[0]);
      var first := frames[..Min(ks[0], |frames|)];
      assert (first + Laid(env, base, ps[1..], ks[1..])) + all == first + (Laid(env, base, ps[1..], ks[1..]) + all);
      assert Due(env, now, ignoreInterval, ps[0]) ==> first == frames;
    }
  }

  lemma {:induction false} NothingDue(env: Env, base: nat, now: int, ignoreInterval: bool, ps: seq<Pending>)
    requires DueEstimate(env, now, ignoreInterval, ps) == 0
    ensures DueFrames(env, base, now, ignoreInterval, ps) == []
    ensures forall x :: 0 <= x < |ps| ==> !Due(env, now, ignoreInterval, ps[x])
  {
    if ps != [] {
      NothingDue(env, base, now, ignoreInterval, ps[1..]);
      forall x | 0 <= x < |ps| ensures !Due(env, now, ignoreInterval, ps[x]) {
        assert x > 0 ==> ps[x] == ps[1..][x - 1];
      }
    }
  }

  lemma ServedFully(s: Sender, env: Env, now: int, ignoreInterval: bool, grants: seq<nat>, o: Outcome, ks: seq<nat>)
    requires AllWritable(s, env, now, ignoreInterval, grants)
    requires Passed(s, env, now, ignoreInterval, 0, 0, grants, o, ks)
    ensures Full(env, BaseOf(s), now, ignoreInterval, s.pending, ks)
  {
    hide FramesAt, Estimate, Waits, Taken, After;
    forall x | 0 <= x < |ks|
      ensures var n := |FramesAt(env, BaseOf(s), s.pending[x])|;
        if Due(env, now, ignoreInterval, s.pending[x]) then ks[x] == n <= Estimate(s.pending[x]) && n > 0
        else ks[x] == 0
    {
      assert Served(s, env, now, ignoreInterval, 0, 0, grants, ks, x);
      assert s.pending[0..0 + x] == s.pending[..x];
    }
  }

  lemma {:induction false} EstimateAt(env: Env, now: int, ignoreInterval: bool, ps: seq<Pending>, x: nat)
    requires x < |ps| && Due(env, now, ignoreInterval, ps[x])
    ensures DueEstimate(env, now, ignoreInterval, ps) >= Estimate(ps[x])
  {
    hide Estimate;
    if x > 0 {
      EstimateAt(env, now, ignoreInterval, ps[1..], x - 1);
    }
  }

  /** The estimate is the least positive number of full chunks that hold what the message is charged. */
  lemma EstimateIsLeast(p: Pending)
    ensures Estimate(p) >= 1 && p.bytes <= Estimate(p) * MAX_CHUNK_BYTES
    ensures Estimate(p) == 1 || (Estimate(p) - 1) * MAX_CHUNK_BYTES < p.bytes
  {
  }

  lemma NotStuck(env: Env, base: nat, p: Pending, t: Sender, total: nat, taken: nat, last: Sender)
    requires Writable(env, base, p, taken) && !t.recoveryNeedsAck && total + Estimate(p) <= env.budget
    ensures !Stuck(env, p, t, total, taken, FramesAt(env, base, p), last)
  {
    hide FramesAt, Estimate;
  }

  lemma NothingDueLeft(s: Sender, env: Env, now: int, ignoreInterval: bool, grants: seq<nat>, o: Outcome, ks: seq<nat>)
    requires AllWritable(s, env, now, ignoreInterval, grants) && !s.recoveryNeedsAck
    requires Passed(s, env, now, ignoreInterval, 0, 0, grants, o, ks)
    requires Total(ks) + DueEstimate(env, now, ignoreInterval, s.pending[|ks|..]) <= env.budget
    ensures DueEstimate(env, now, ignoreInterval, s.pending[|ks|..]) == 0
  {
    hide FramesAt, Estimate, Taken, Stuck, Served, Laid, Total, Writable;
    var n, t := |ks|, After(s, now, ignoreInterval, 0, ks);
    if n < |s.pending| && Due(env, now, ignoreInterval, s.pending[n]) {
      var p, taken := s.pending[n], Taken(grants, DueCount(env, now, ignoreInterval, s.pending[..n]));
      assert s.pending[0..n] == s.pending[..n] && s.pending[n..][0] == p;
      EstimateAt(env, now, ignoreInterval, s.pending[n..], 0);
      EstimateIsLeast(p);
      NotStuck(env, BaseOf(s), p, t, Total(ks), taken, o.sender);
    }
  }

  /** With attempts, socket and budget for all that is due, outside a recovery, a pass leaves nothing out. */
  lemma AllDueWritten(s: Sender, env: Env, now: int, ignoreInterval: bool, grants: seq<nat>)
    requires s.reliable && s.phase == Open && !s.recoveryNeedsAck
    requires AllWritable(s, env, now, ignoreInterval, grants)
    requires DueEstimate(env, now, ignoreInterval, s.pending) <= env.budget
    ensures var o := RetryPass(s, env, now, ignoreInterval, grants);
      && o.written == DueFrames(env, BaseOf(s), now, ignoreInterval, s.pending)
      && |o.sender.pending| == |s.pending|
      && forall x :: 0 <= x < |s.pending| ==>
           o.sender.pending[x] == if Due(env, now, ignoreInterval, s.pending[x]) then Again(s.pending[x], now)
                                  else s.pending[x]
  {
    hide RetryPass, FramesAt, Estimate, Taken;
    var o := RetryPass(s, env, now, ignoreInterval, grants);
    var ks := RetryPassIs(s, env, now, ignoreInterval, grants);
    assert s.pending[0..] == s.pending;
    ServedFully(s, env, now, ignoreInterval, grants, o, ks);
    FullLaid(env, BaseOf(s), now, ignoreInterval, s.pending, ks);
    NothingDueLeft(s, env, now, ignoreInterval, grants, o, ks);
    NothingDue(env, BaseOf(s), now, ignoreInterval, s.pending[|ks|..]);
    hide DueFrames, DueEstimate, Laid, Total;
    forall x | 0 <= x < |s.pending|
      ensures o.sender.pending[x]
           == if Due(env, now, ignoreInterval, s.pending[x]) then Again(s.pending[x], now) else s.pending[x]
    {
      if x >= |ks| {
        assert s.pending[x] == s.pending[|ks|..][x - |ks|];
      }
    }
  }
}
