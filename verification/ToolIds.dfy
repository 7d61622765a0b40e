/** Tool ids of a response stream, renamed where seen before; streams of one thread share a cache. */
module ToolIds {
  import opened Text
  import opened Suffix

  const MAX_IDS_PER_THREAD := 8192

  const DUP_STEM: Text := [95, 100, 117]
  const DUP_MARK: NonDigit := 112

  /** The ids a thread has seen, oldest first; beyond the limit the oldest is forgotten. */
  function Remember(cache: seq<Text>, id: Text): seq<Text> {
    if id in cache then cache
    else
      var more := cache + [id];
      if |more| > MAX_IDS_PER_THREAD then more[1..] else more
  }

  /** One stream's rewriter; `cache` is the thread's, if the stream belongs to one. */
  datatype Rewriter = Rewriter(used: set<Text>, renames: nat, cache: Option<seq<Text>>)

  function Elements(cache: Option<seq<Text>>): set<Text> {
    if cache.None? then {} else set t | t in cache.value
  }

  function Taken(r: Rewriter): set<Text> {
    r.used + Elements(r.cache)
  }

  /** `id_dup2`, `id_dup3`, … */
  function Again(id: Text, k: nat): Text {
    Numbered(id + DUP_STEM, DUP_MARK, k)
  }

  function NewName(taken: set<Text>, id: Text): Text {
    if id !in taken then id else FreeName(taken, id + DUP_STEM, DUP_MARK, 2)
  }

  datatype Resolved = Resolved(rewriter: Rewriter, id: Text)

  function Resolve(r: Rewriter, id: Text): Resolved {
    var name := NewName(Taken(r), id);
    var cache := if r.cache.None? then None else Some(Remember(r.cache.value, name));
    Resolved(Rewriter(r.used + {name}, if name == id then r.renames else r.renames + 1, cache), name)
  }

  // ---- Names are new ----

  /** An unseen id is kept; a seen one gets the smallest number of 2 or more that is free. */
  lemma NewNameIs(taken: set<Text>, id: Text)
    ensures NewName(taken, id) !in taken
    ensures NewName(taken, id) == id <==> id !in taken
    ensures id in taken ==>
      exists k: nat :: NewName(taken, id) == Again(id, k) && FirstFree(taken, id + DUP_STEM, DUP_MARK, 2, k)
  {
    if id in taken {
      var k := FreeFrom(taken, id + DUP_STEM, DUP_MARK, 2, 2);
      assert NewName(taken, id) == Again(id, k) && FirstFree(taken, id + DUP_STEM, DUP_MARK, 2, k);
    }
  }

  function ResolveAll(r: Rewriter, ids: seq<Text>): seq<Text>
    decreases |ids|
  {
    if ids == [] then [] else [Resolve(r, ids[0]).id] + ResolveAll(Resolve(r, ids[0]).rewriter, ids[1..])
  }

  ghost predicate Distinct(names: seq<Text>) {
    forall i, j :: 0 <= i < j < |names| ==> names[i] != names[j]
  }

  ghost predicate Apart(names: seq<Text>, s: set<Text>) {
    forall t <- names :: t !in s
  }

  lemma DistinctCons(t: Text, names: seq<Text>)
    requires t !in names && Distinct(names)
    ensures Distinct([t] + names)
  {
  }

  /** One stream never gives the same name twice, nor a name from its history. */
  lemma {:induction false} StreamNamesAreNew(r: Rewriter, ids: seq<Text>)
    ensures Distinct(ResolveAll(r, ids)) && Apart(ResolveAll(r, ids), r.used) && |ResolveAll(r, ids)| == |ids|
    decreases |ids|
  {
    hide NewName, Remember;
    if ids != [] {
      var h := Resolve(r, ids[0]);
      NewNameIs(Taken(r), ids[0]);
      StreamNamesAreNew(h.rewriter, ids[1..]);
      assert h.id in h.rewriter.used;
      DistinctCons(h.id, ResolveAll(h.rewriter, ids[1..]));
    }
  }

  // ---- Streams of one thread ----

  /** `used[n]` are the ids stream `n` has in its history or has given. */
  datatype Thread = Thread(used: seq<set<Text>>, cache: seq<Text>)

  datatype Ask = Ask(stream: nat, id: Text)

  predicate Known(th: Thread, asks: seq<Ask>) {
    forall a <- asks :: a.stream < |th.used|
  }

  function ServeOne(th: Thread, a: Ask): Resolved
    requires a.stream < |th.used|
    ensures ServeOne(th, a).rewriter.cache.Some?
  {
    Resolve(Rewriter(th.used[a.stream], 0, Some(th.cache)), a.id)
  }

  function After(th: Thread, a: Ask): Thread
    requires a.stream < |th.used|
  {
    var x := ServeOne(th, a).rewriter;
    Thread(th.used[a.stream := x.used], x.cache.value)
  }

  /** The names given, whatever order the streams ask in. */
  function Serve(th: Thread, asks: seq<Ask>): seq<Text>
    requires Known(th, asks)
    decreases |asks|
  {
    if asks == [] then [] else [ServeOne(th, asks[0]).id] + Serve(After(th, asks[0]), asks[1..])
  }

  /** Until the cache has had to forget, and for one name more, no two streams of a thread are given
      the same name, and none is given a name the thread has seen. */
  lemma {:induction false} ThreadNamesAreNew(th: Thread, asks: seq<Ask>)
    requires Known(th, asks) && |th.cache| + |asks| <= MAX_IDS_PER_THREAD + 1
    ensures Distinct(Serve(th, asks)) && Apart(Serve(th, asks), Elements(Some(th.cache)))
    decreases |asks|
  {
    hide NewName;
    if asks != [] {
      var h := ServeOne(th, asks[0]);
      NewNameIs(Taken(Rewriter(th.used[asks[0].stream], 0, Some(th.cache))), asks[0].id);
      assert h.id !in th.cache;
      var next := After(th, asks[0]);
      if |th.cache| == MAX_IDS_PER_THREAD {
        assert asks[1..] == [];
      } else {
        assert next.cache == th.cache + [h.id];
        ThreadNamesAreNew(next, asks[1..]);
        assert h.id in Elements(Some(next.cache)) && forall t <- th.cache :: t in Elements(Some(next.cache));
        DistinctCons(h.id, Serve(next, asks[1..]));
      }
    }
  }

  /** A full cache forgets: after one new name on stream 0, the oldest id of the thread is handed out
      again to a stream that does not have it in its own history. */
  lemma ForgottenIdComesBack(th: Thread, id: Text)
    requires |th.used| >= 2 && |th.cache| == MAX_IDS_PER_THREAD && Distinct(th.cache) && th.cache[0] !in th.used[1]
    ensures var asks := [Ask(0, id), Ask(1, th.cache[0])];
      Serve(th, asks) == [ServeOne(th, asks[0]).id, th.cache[0]]
  {
    hide NewName;
    var asks := [Ask(0, id), Ask(1, th.cache[0])];
    assert asks[1..] == [Ask(1, th.cache[0])] && asks[1..][1..] == [];
    var next := After(th, asks[0]);
    var given := ServeOne(th, asks[0]).id;
    NewNameIs(Taken(Rewriter(th.used[0], 0, Some(th.cache))), id);
    assert next.cache == th.cache[1..] + [given];
    assert th.cache[0] !in next.cache;
    NewNameIs(Taken(Rewriter(next.used[1], 0, Some(next.cache))), th.cache[0]);
    assert Serve(next, asks[1..]) == [th.cache[0]] + [];
  }

  // ---- Exactly how many names are new ----

  function AfterAll(th: Thread, asks: seq<Ask>): Thread
    requires Known(th, asks)
    decreases |asks|
  {
    if asks == [] then th else AfterAll(After(th, asks[0]), asks[1..])
  }

  lemma {:induction false} ServeAppend(th: Thread, a: seq<Ask>, b: seq<Ask>)
    requires Known(th, a) && Known(th, b)
    ensures |AfterAll(th, a).used| == |th.used| && |Serve(th, a)| == |a|
    ensures Known(th, a + b) && Known(AfterAll(th, a), b)
    ensures Serve(th, a + b) == Serve(th, a) + Serve(AfterAll(th, a), b)
    decreases |a|
  {
    hide Resolve;
    if a == [] {
      assert a + b == b;
    } else {
      assert (a + b)[0] == a[0] && (a + b)[1..] == a[1..] + b;
      ServeAppend(After(th, a[0]), a[1..], b);
    }
  }

  /** `n` requests on stream 0. */
  function Asking(n: nat): seq<Ask> {
    if n == 0 then [] else [Ask(0, [])] + Asking(n - 1)
  }

  lemma {:induction false} AskingKnown(th: Thread, n: nat)
    requires |th.used| >= 1
    ensures Known(th, Asking(n)) && |Asking(n)| == n
  {
    if n > 0 {
      AskingKnown(th, n - 1);
    }
  }

  /** While there is room the cache remembers every name given. */
  lemma {:induction false} CacheFills(th: Thread, n: nat)
    requires |th.used| >= 2 && |th.cache| + n <= MAX_IDS_PER_THREAD
    ensures Known(th, Asking(n))
    ensures var end := AfterAll(th, Asking(n));
      end.cache == th.cache + Serve(th, Asking(n)) && |end.used| == |th.used| && end.used[1] == th.used[1]
    decreases n
  {
    hide NewName;
    AskingKnown(th, n);
    if n > 0 {
      var h := ServeOne(th, Ask(0, []));
      NewNameIs(Taken(Rewriter(th.used[0], 0, Some(th.cache))), []);
      var next := After(th, Ask(0, []));
      assert next.cache == th.cache + [h.id];
      assert Asking(n)[1..] == Asking(n - 1);
      CacheFills(next, n - 1);
      assert th.cache + ([h.id] + Serve(next, Asking(n - 1))) == (th.cache + [h.id]) + Serve(next, Asking(n - 1));
    }
  }

  lemma DistinctJoined(a: seq<Text>, b: seq<Text>)
    requires Distinct(a) && Distinct(b) && forall t <- b :: t !in a
    ensures Distinct(a + b)
  {
    forall i, j | 0 <= i < j < |a + b| ensures (a + b)[i] != (a + b)[j] {
      assert j >= |a| ==> (a + b)[j] in b;
    }
  }

  /** One request more than that, and the oldest id of all can be had a second time. */
  lemma OldestComesBack(th: Thread, n: nat) returns (asks: seq<Ask>)
    requires Distinct(th.cache) && |th.cache| <= MAX_IDS_PER_THREAD && |th.used| >= 2 && th.used[1] == {}
    requires |th.cache| + n >= MAX_IDS_PER_THREAD + 2
    ensures Known(th, asks) && |asks| == n && !Distinct(th.cache + Serve(th, asks))
  {
    hide Serve, AfterAll, Asking;
    var room := MAX_IDS_PER_THREAD - |th.cache|;
    AskingKnown(th, room);
    var first, full := Asking(room), AfterAll(th, Asking(room));
    CacheFills(th, room);
    ThreadNamesAreNew(th, first);
    ServeAppend(th, first, []);
    DistinctJoined(th.cache, Serve(th, first));
    var oldest := full.cache[0];
    var last := [Ask(0, []), Ask(1, oldest)];
    ForgottenIdComesBack(full, []);
    ServeAppend(th, first, last);
    var rest := Asking(n - room - 2);
    AskingKnown(th, n - room - 2);
    asks := first + last + rest;
    ServeAppend(th, first + last, rest);
    var names := th.cache + Serve(th, asks);
    assert names == full.cache + Serve(full, last) + Serve(AfterAll(th, first + last), rest);
    assert names[0] == oldest && names[MAX_IDS_PER_THREAD + 1] == oldest;
  }

  /** Among the names a thread has seen and the next `n` it gives, none occurs twice whatever is asked
      for, if and only if the cache can hold all but one of them. */
  lemma ThreadNamesAreNewIff(th: Thread, n: nat)
    requires Distinct(th.cache) && |th.cache| <= MAX_IDS_PER_THREAD && |th.used| >= 2 && th.used[1] == {}
    ensures (forall asks | Known(th, asks) && |asks| == n :: Distinct(th.cache + Serve(th, asks)))
       <==> |th.cache| + n <= MAX_IDS_PER_THREAD + 1
  {
    hide Serve;
    if |th.cache| + n <= MAX_IDS_PER_THREAD + 1 {
      forall asks | Known(th, asks) && |asks| == n ensures Distinct(th.cache + Serve(th, asks)) {
        ThreadNamesAreNew(th, asks);
        DistinctJoined(th.cache, Serve(th, asks));
      }
    } else {
      var asks := OldestComesBack(th, n);
    }
  }
}
