/** Renaming tool ids in a byte stream, line by line, however the bytes are cut into chunks. */
module ToolIdStream {
  import opened Text
  import opened ToolIds

  type Byte = b: int | 0 <= b < 256
  type Bytes = seq<Byte>

  const LF: Byte := 10
  const CR: Byte := 13
  const BRACE: Byte := 123
  const MAX_PENDING_LINE := 4 * 1024 * 1024
  const SCAN_WINDOW := 512

  /** `data:`, and with the space the rewriter puts behind it. */
  const DATA: Bytes := [100, 97, 116, 97, 58]
  const DATA_SPACE: Bytes := DATA + [32]

  /** `"content_block_start"`, quotes included. */
  const MARKER: Bytes :=
    [34, 99, 111, 110, 116, 101, 110, 116, 95, 98, 108, 111, 99, 107, 95, 115, 116, 97, 114, 116, 34]

  /** `idOf`: the id of the tool use block a JSON text starts, if it is one; `put`: the JSON printed
      with another id. */
  datatype Codec = Codec(idOf: Bytes -> Option<Text>, put: (Bytes, Text) -> Bytes)

  /** A printed object has the id that was put in, and no raw line break. */
  ghost predicate Puts(c: Codec, json: Bytes, id: Text) {
    c.idOf(json).Some? ==>
      var printed := c.put(json, id);
      c.idOf(printed) == Some(id) && printed != [] && printed[0] == BRACE && LF !in printed && CR !in printed
  }

  ghost predicate GoodCodec(c: Codec) {
    forall json, id :: Puts(c, json, id)
  }

  // ---- One line ----

  /** The line break at the end: none, `\n` or `\r\n`. */
  function Break(line: Bytes): (b: Bytes)
    ensures |b| <= |line| && line[|line| - |b|..] == b
  {
    if line == [] || line[|line| - 1] != LF then []
    else if |line| > 1 && line[|line| - 2] == CR then [CR, LF]
    else [LF]
  }

  function Body(line: Bytes): Bytes {
    line[..|line| - |Break(line)|]
  }

  /** The first position from `i` on that is neither a space nor a tab. */
  function SkipBlanks(body: Bytes, i: nat): (r: nat)
    requires i <= |body|
    ensures i <= r <= |body|
    decreases |body| - i
  {
    if i < |body| && (body[i] == 32 || body[i] == 9) then SkipBlanks(body, i + 1) else i
  }

  function SkipBom(body: Bytes, i: nat): (r: nat)
    requires i <= |body|
    ensures i <= r <= |body|
  {
    if i + 2 < |body| && body[i..i + 3] == [0xef, 0xbb, 0xbf] then i + 3 else i
  }

  /** The JSON object a data line carries. */
  function Payload(line: Bytes): Option<Bytes> {
    var body := Body(line);
    if |body| <= |DATA_SPACE| || !(DATA <= body) then None
    else
      var start := SkipBom(body, SkipBlanks(body, |DATA|));
      if start < |body| && body[start] == BRACE then Some(body[start..]) else None
  }

  predicate Contains(hay: Bytes, needle: Bytes) {
    needle <= hay || (hay != [] && Contains(hay[1..], needle))
  }

  predicate Marked(json: Bytes) {
    Contains(json[..if |json| < SCAN_WINDOW then |json| else SCAN_WINDOW], MARKER)
  }

  /** The id of the tool use a line starts. */
  function Carried(c: Codec, line: Bytes): Option<Text> {
    match Payload(line)
    case None => None
    case Some(json) => c.idOf(json)
  }

  datatype Rewritten = Rewritten(rewriter: Rewriter, line: Bytes)

  function RewriteLine(c: Codec, r: Rewriter, line: Bytes): Rewritten {
    match Payload(line)
    case None => Rewritten(r, line)
    case Some(json) =>
      if !Marked(json) || c.idOf(json).None? then Rewritten(r, line)
      else
        var id := c.idOf(json).value;
        var next := Resolve(r, id);
        Rewritten(next.rewriter, if next.id == id then line else DATA_SPACE + c.put(json, next.id) + Break(line))
  }

  lemma PrintedLine(json: Bytes, br: Bytes)
    requires json != [] && json[0] == BRACE && LF !in json && CR !in json
    requires br == [] || br == [LF] || br == [CR, LF]
    ensures Break(DATA_SPACE + json + br) == br && Body(DATA_SPACE + json + br) == DATA_SPACE + json
    ensures Payload(DATA_SPACE + json + br) == Some(json)
  {
    var line := DATA_SPACE + json + br;
    assert json[|json| - 1] in json;
    assert Body(line) == DATA_SPACE + json;
    var body := DATA_SPACE + json;
    assert body[5] == 32 && body[6] == BRACE && DATA <= body;
    assert SkipBlanks(body, 6) == 6 && SkipBlanks(body, 5) == 6;
    assert SkipBom(body, 6) == 6 by {
      if 8 < |body| { assert body[6..9][0] == BRACE; }
    }
    assert body[6..] == json;
  }

  /** A tool use whose mark lies in the window leaves with the id it was resolved to; every other line
      passes byte for byte. The line break stays as it was. */
  lemma LineCarriesItsName(c: Codec, r: Rewriter, line: Bytes)
    requires GoodCodec(c)
    ensures var x := RewriteLine(c, r, line);
      if Carried(c, line).Some? && Marked(Payload(line).value) then
        var name := Resolve(r, Carried(c, line).value);
        x.rewriter == name.rewriter && Carried(c, x.line) == Some(name.id) && Break(x.line) == Break(line)
      else x == Rewritten(r, line)
  {
    hide Marked, Resolve, GoodCodec, Break, Payload;
    var json := Payload(line);
    if json.Some? && Marked(json.value) && c.idOf(json.value).Some? {
      var id := c.idOf(json.value).value;
      var name := Resolve(r, id);
      if name.id != id {
        PutsIn(c, json.value, name.id);
        BreakIs(line);
        PrintedLine(c.put(json.value, name.id), Break(line));
      }
    }
  }

  lemma PutsIn(c: Codec, json: Bytes, id: Text)
    requires GoodCodec(c)
    ensures Puts(c, json, id)
  {
  }

  lemma BreakIs(line: Bytes)
    ensures Break(line) in {[], [LF], [CR, LF]}
  {
  }

  // ---- Many lines ----

  datatype Cutting = Cutting(lines: seq<Bytes>, rest: Bytes)

  function IndexOfLF(b: Bytes, i: nat): (r: nat)
    requires i <= |b|
    ensures i <= r <= |b| && LF !in b[i..r] && (r < |b| ==> b[r] == LF)
    decreases |b| - i
  {
    if i == |b| || b[i] == LF then i
    else
      var r := IndexOfLF(b, i + 1);
      assert b[i..r] == [b[i]] + b[i + 1..r];
      r
  }

  /** The complete lines of `b`, and what stands behind the last line break. */
  function Lines(b: Bytes): (r: Cutting)
    ensures LF !in r.rest && |r.rest| <= |b|
    decreases |b|
  {
    var n := IndexOfLF(b, 0);
    if n == |b| then assert b[0..n] == b; Cutting([], b)
    else
      var more := Lines(b[n + 1..]);
      Cutting([b[..n + 1]] + more.lines, more.rest)
  }

  /** All lines, with an unfinished last one. */
  function AllLines(b: Bytes): seq<Bytes> {
    Lines(b).lines + (if Lines(b).rest == [] then [] else [Lines(b).rest])
  }

  datatype Batch = Batch(rewriter: Rewriter, lines: seq<Bytes>)

  function RewriteLines(c: Codec, r: Rewriter, lines: seq<Bytes>): Batch
    decreases |lines|
  {
    if lines == [] then Batch(r, [])
    else
      var h := RewriteLine(c, r, lines[0]);
      var t := RewriteLines(c, h.rewriter, lines[1..]);
      Batch(t.rewriter, [h.line] + t.lines)
  }

  function Concat(parts: seq<Bytes>): Bytes {
    if parts == [] then [] else parts[0] + Concat(parts[1..])
  }

  // ---- Chunks ----

  datatype Stream = Stream(rewriter: Rewriter, pending: Bytes)

  datatype Fed = Fed(stream: Stream, out: Bytes)

  /** The complete lines are rewritten; the rest waits, unless it is too long to wait. */
  function Feed(c: Codec, s: Stream, chunk: Bytes): Fed {
    var cut := Lines(s.pending + chunk);
    var done := RewriteLines(c, s.rewriter, cut.lines);
    if |cut.rest| > MAX_PENDING_LINE then Fed(Stream(done.rewriter, []), Concat(done.lines) + cut.rest)
    else Fed(Stream(done.rewriter, cut.rest), Concat(done.lines))
  }

  function Flush(c: Codec, s: Stream): Fed {
    if s.pending == [] then Fed(s, [])
    else
      var x := RewriteLine(c, s.rewriter, s.pending);
      Fed(Stream(x.rewriter, []), x.line)
  }

  function Run(c: Codec, s: Stream, chunks: seq<Bytes>): Fed
    decreases |chunks|
  {
    if chunks == [] then Flush(c, s)
    else
      var a := Feed(c, s, chunks[0]);
      var b := Run(c, a.stream, chunks[1..]);
      Fed(b.stream, a.out + b.out)
  }

  // ---- Laws ----

  lemma ConcatCons(line: Bytes, lines: seq<Bytes>)
    ensures Concat([line] + lines) == line + Concat(lines)
  {
    assert ([line] + lines)[1..] == lines;
  }

  lemma {:induction false} ConcatAppend(a: seq<Bytes>, b: seq<Bytes>)
    ensures Concat(a + b) == Concat(a) + Concat(b)
  {
    if a == [] {
      assert a + b == b;
    } else {
      assert (a + b)[0] == a[0] && (a + b)[1..] == a[1..] + b;
      ConcatAppend(a[1..], b);
    }
  }

  lemma {:induction false} RewriteAppend(c: Codec, r: Rewriter, a: seq<Bytes>, b: seq<Bytes>)
    ensures var x := RewriteLines(c, r, a);
      var y := RewriteLines(c, x.rewriter, b);
      RewriteLines(c, r, a + b) == Batch(y.rewriter, x.lines + y.lines)
    decreases |a|
  {
    hide RewriteLine;
    if a == [] {
      assert a + b == b;
    } else {
      assert (a + b)[0] == a[0] && (a + b)[1..] == a[1..] + b;
      var h := RewriteLine(c, r, a[0]);
      RewriteAppend(c, h.rewriter, a[1..], b);
      var x := RewriteLines(c, h.rewriter, a[1..]);
      var y := RewriteLines(c, x.rewriter, b);
      assert [h.line] + (x.lines + y.lines) == ([h.line] + x.lines) + y.lines;
    }
  }

  lemma FirstLF(b: Bytes, n: nat)
    requires n < |b| && b[n] == LF && LF !in b[..n]
    ensures IndexOfLF(b, 0) == n
  {
    var r := IndexOfLF(b, 0);
    assert forall i :: 0 <= i < n ==> b[..n][i] == b[i];
  }

  lemma LinesStep(b: Bytes)
    ensures var n := IndexOfLF(b, 0);
      Lines(b) == if n == |b| then Cutting([], b)
                  else Cutting([b[..n + 1]] + Lines(b[n + 1..]).lines, Lines(b[n + 1..]).rest)
  {
    hide IndexOfLF;
  }

  /** Cutting a text into lines may stop anywhere and go on with what is left over. */
  lemma {:induction false} LinesAppend(a: Bytes, b: Bytes)
    ensures var x := Lines(a);
      var y := Lines(x.rest + b);
      Lines(a + b) == Cutting(x.lines + y.lines, y.rest)
    decreases |a|
  {
    hide Lines, IndexOfLF;
    var n := IndexOfLF(a, 0);
    LinesStep(a);
    if n == |a| {
      assert [] + Lines(a + b).lines == Lines(a + b).lines;
    } else {
      assert (a + b)[..n] == a[0..n] && (a + b)[n] == LF;
      FirstLF(a + b, n);
      LinesStep(a + b);
      assert (a + b)[n + 1..] == a[n + 1..] + b && (a + b)[..n + 1] == a[..n + 1];
      LinesAppend(a[n + 1..], b);
      var x := Lines(a[n + 1..]);
      var y := Lines(x.rest + b);
      assert [a[..n + 1]] + (x.lines + y.lines) == ([a[..n + 1]] + x.lines) + y.lines;
    }
  }

  /** No stretch without a line break is longer than a pending line may be. */
  ghost predicate ShortLines(b: Bytes) {
    forall i, j :: 0 <= i <= j <= |b| && LF !in b[i..j] ==> j - i <= MAX_PENDING_LINE
  }

  lemma SuffixOfSuffix(b: Bytes, n: nat, size: nat)
    requires n + size <= |b|
    ensures b[|b| - size..] == b[n..][|b| - n - size..]
  {
  }

  lemma {:induction false} RestIsSuffix(b: Bytes)
    ensures var r := Lines(b).rest; b[|b| - |r|..] == r
    decreases |b|
  {
    hide Lines, IndexOfLF;
    var n := IndexOfLF(b, 0);
    LinesStep(b);
    if n < |b| {
      RestIsSuffix(b[n + 1..]);
      SuffixOfSuffix(b, n + 1, |Lines(b).rest|);
    }
  }

  lemma ShortRest(a: Bytes, b: Bytes)
    requires ShortLines(a + b)
    ensures |Lines(a).rest| <= MAX_PENDING_LINE
    ensures ShortLines(Lines(a).rest + b)
  {
    RestIsSuffix(a);
    var r := Lines(a).rest;
    var k := |a| - |r|;
    assert (a + b)[k..|a|] == r;
    forall i, j | 0 <= i <= j <= |r + b| && LF !in (r + b)[i..j]
      ensures j - i <= MAX_PENDING_LINE
    {
      assert (a + b)[k + i..k + j] == (r + b)[i..j];
    }
  }

  lemma FlushIsLastLine(c: Codec, s: Stream)
    requires LF !in s.pending
    ensures Flush(c, s).out == Concat(RewriteLines(c, s.rewriter, AllLines(s.pending)).lines)
  {
    hide RewriteLine;
    var n := IndexOfLF(s.pending, 0);
    assert n == |s.pending|;
    if s.pending != [] {
      var x := RewriteLine(c, s.rewriter, s.pending);
      assert AllLines(s.pending) == [s.pending] && [s.pending][1..] == [];
      assert RewriteLines(c, s.rewriter, [s.pending]).lines == [x.line];
      assert Concat([x.line]) == x.line + [] by { assert [x.line][1..] == []; }
    }
  }

  lemma AllLinesAppend(a: Bytes, b: Bytes)
    ensures AllLines(a + b) == Lines(a).lines + AllLines(Lines(a).rest + b)
  {
    hide Lines;
    LinesAppend(a, b);
  }

  /** However the bytes are cut into chunks, what comes out is every line of the whole stream, rewritten
      in turn. */
  lemma {:induction false} ChunksDoNotMatter(c: Codec, s: Stream, chunks: seq<Bytes>)
    requires LF !in s.pending && ShortLines(s.pending + Concat(chunks))
    ensures Run(c, s, chunks).out == Concat(RewriteLines(c, s.rewriter, AllLines(s.pending + Concat(chunks))).lines)
    decreases |chunks|
  {
    hide ShortLines, Lines, AllLines, RewriteLines, Flush;
    if chunks == [] {
      assert s.pending + Concat(chunks) == s.pending;
      FlushIsLastLine(c, s);
    } else {
      var buf, later := s.pending + chunks[0], Concat(chunks[1..]);
      assert s.pending + Concat(chunks) == buf + later;
      ShortRest(buf, later);
      var cut := Lines(buf);
      var done := RewriteLines(c, s.rewriter, cut.lines);
      AllLinesAppend(buf, later);
      RewriteAppend(c, s.rewriter, cut.lines, AllLines(cut.rest + later));
      ChunksDoNotMatter(c, Stream(done.rewriter, cut.rest), chunks[1..]);
      ConcatAppend(done.lines, RewriteLines(c, done.rewriter, AllLines(cut.rest + later)).lines);
    }
  }

  /** Two ways of cutting the same bytes give the same output. */
  lemma SameBytesSameOutput(c: Codec, r: Rewriter, chunks: seq<Bytes>, others: seq<Bytes>)
    requires Concat(chunks) == Concat(others) && ShortLines(Concat(chunks))
    ensures Run(c, Stream(r, []), chunks).out == Run(c, Stream(r, []), others).out
  {
    hide ShortLines, Run;
    assert [] + Concat(chunks) == Concat(chunks);
    ChunksDoNotMatter(c, Stream(r, []), chunks);
    ChunksDoNotMatter(c, Stream(r, []), others);
  }

  /** The tool ids of the lines that carry one. */
  function Names(c: Codec, lines: seq<Bytes>): seq<Text> {
    if lines == [] then []
    else
      (if Carried(c, lines[0]).Some? then [Carried(c, lines[0]).value] else []) + Names(c, lines[1..])
      }

  predicate Visible(c: Codec, line: Bytes) {
    Carried(c, line).Some? ==> Marked(Payload(line).value)
  }

  lemma NamesCons(c: Codec, line: Bytes, lines: seq<Bytes>)
    ensures Names(c, [line] + lines)
      == if Carried(c, line).Some? then [Carried(c, line).value] + Names(c, lines) else Names(c, lines)
  {
    hide Carried;
    assert ([line] + lines)[1..] == lines;
  }

  lemma ResolveAllCons(r: Rewriter, id: Text, ids: seq<Text>)
    ensures ResolveAll(r, [id] + ids) == [Resolve(r, id).id] + ResolveAll(Resolve(r, id).rewriter, ids)
  {
    hide Resolve;
    assert ([id] + ids)[1..] == ids;
  }

  /** The ids of the tool uses that show their mark in the window, and of those that do not. */
  function Seen(c: Codec, lines: seq<Bytes>): seq<Text> {
    if lines == [] then []
    else
      var here := if Carried(c, lines[0]).Some? && Visible(c, lines[0]) then [Carried(c, lines[0]).value] else [];
      here + Seen(c, lines[1..])
  }

  function Hidden(c: Codec, lines: seq<Bytes>): seq<Text> {
    if lines == [] then []
    else (if Visible(c, lines[0]) then [] else [Carried(c, lines[0]).value]) + Hidden(c, lines[1..])
  }

  /** The ids that come out are the seen ones, resolved in turn, and the hidden ones as they were. */
  lemma {:induction false} NamesAreResolved(c: Codec, r: Rewriter, lines: seq<Bytes>)
    requires GoodCodec(c)
    ensures var x := RewriteLines(c, r, lines);
      && |x.lines| == |lines|
      && multiset(Names(c, x.lines)) == multiset(ResolveAll(r, Seen(c, lines))) + multiset(Hidden(c, lines))
    decreases |lines|
  {
    hide GoodCodec, RewriteLine, Resolve, Carried, Visible, Names, Seen, Hidden, ResolveAll;
    if lines == [] {
      NoNames(c, r);
    } else {
      var h := RewriteLine(c, r, lines[0]);
      NamesAreResolved(c, h.rewriter, lines[1..]);
      var t := RewriteLines(c, h.rewriter, lines[1..]).lines;
      NamesCons(c, h.line, t);
      OneName(c, r, lines[0]);
      SeenOrHidden(c, lines);
      var id := Carried(c, lines[0]);
      if id.Some? {
        var name := if Visible(c, lines[0]) then Resolve(r, id.value).id else id.value;
        OneMore(name, Names(c, t), ResolveAll(h.rewriter, Seen(c, lines[1..])), Hidden(c, lines[1..]));
        ResolveAllCons(r, id.value, Seen(c, lines[1..]));
      }
    }
  }

  lemma NoNames(c: Codec, r: Rewriter)
    ensures Names(c, []) == ResolveAll(r, Seen(c, [])) == Hidden(c, []) == []
  {
  }

  lemma SeenOrHidden(c: Codec, lines: seq<Bytes>)
    requires lines != []
    ensures var id, seen, hidden := Carried(c, lines[0]), Seen(c, lines[1..]), Hidden(c, lines[1..]);
      && Seen(c, lines) == (if id.Some? && Visible(c, lines[0]) then [id.value] + seen else seen)
      && Hidden(c, lines) == (if id.Some? && !Visible(c, lines[0]) then [id.value] + hidden else hidden)
  {
    hide Carried, Marked, Payload;
  }

  lemma OneMore(t: Text, names: seq<Text>, a: seq<Text>, b: seq<Text>)
    requires multiset(names) == multiset(a) + multiset(b)
    ensures multiset([t] + names) == multiset([t] + a) + multiset(b) == multiset(a) + multiset([t] + b)
  {
  }

  lemma OneName(c: Codec, r: Rewriter, line: Bytes)
    requires GoodCodec(c)
    ensures var x := RewriteLine(c, r, line);
      if Carried(c, line).Some? && Visible(c, line) then
        Carried(c, x.line) == Some(Resolve(r, Carried(c, line).value).id)
          && x.rewriter == Resolve(r, Carried(c, line).value).rewriter
      else x == Rewritten(r, line) && (Carried(c, line).None? ==> Visible(c, line))
  {
    hide GoodCodec, RewriteLine, Resolve, Marked, Payload;
    LineCarriesItsName(c, r, line);
  }

  lemma {:induction false} DistinctCounts(names: seq<Text>)
    ensures Distinct(names) <==> forall t :: multiset(names)[t] <= 1
  {
    if Distinct(names) {
      forall t ensures multiset(names)[t] <= 1 {
        if i: nat :| i < |names| && names[i] == t {
          assert names == names[..i] + [t] + names[i + 1..];
          assert t !in multiset(names[..i]) && t !in multiset(names[i + 1..]);
        }
      }
    } else {
      var i, j :| 0 <= i < j < |names| && names[i] == names[j];
      assert names == names[..j] + names[j..] && names[i] in multiset(names[..j]) && names[i] in multiset(names[j..]);
      assert multiset(names)[names[i]] >= 2;
    }
  }

  /** Two lots of names, told apart by their counts. */
  lemma DistinctTogether(all: seq<Text>, a: seq<Text>, b: seq<Text>, s: set<Text>)
    requires multiset(all) == multiset(a) + multiset(b) && Distinct(a) && Apart(a, s)
    ensures Distinct(all) && Apart(all, s) <==> Distinct(b) && Apart(b, s) && Apart(b, set t | t in a)
  {
    DistinctCounts(all);
    DistinctCounts(a);
    DistinctCounts(b);
    var m, x, y := multiset(all), multiset(a), multiset(b);
    assert forall t :: t in all <==> t in m;
    assert forall t :: t in a <==> t in x;
    assert forall t :: t in b <==> t in y;
    assert forall t :: m[t] == x[t] + y[t];
    if Distinct(all) && Apart(all, s) {
      forall t <- b ensures t !in a && t !in s && y[t] <= 1 {
        assert m[t] <= 1 && t in all;
      }
      assert forall t :: y[t] <= 1;
    } else if Distinct(b) && Apart(b, s) && Apart(b, set t | t in a) {
      forall t ensures m[t] <= 1 {
        assert x[t] <= 1 && y[t] <= 1;
        assert t in b ==> t !in (set u | u in a);
      }
    }
  }

  /** The ids of a rewritten stream are pairwise different and none is in the history just when this is so
      of the ids that do not show their mark in time, and none of them is a name given to another. */
  lemma StreamIdsAreNew(c: Codec, r: Rewriter, lines: seq<Bytes>)
    requires GoodCodec(c)
    ensures var names := Names(c, RewriteLines(c, r, lines).lines);
      var given, hidden := ResolveAll(r, Seen(c, lines)), Hidden(c, lines);
      && Distinct(given) && Apart(given, r.used)
      && (Distinct(names) && Apart(names, r.used)
          <==> Distinct(hidden) && Apart(hidden, r.used) && Apart(hidden, set t | t in given))
  {
    hide GoodCodec, RewriteLines, ResolveAll, Seen, Hidden, Names, Distinct, Apart;
    NamesAreResolved(c, r, lines);
    StreamNamesAreNew(r, Seen(c, lines));
    DistinctTogether(Names(c, RewriteLines(c, r, lines).lines), ResolveAll(r, Seen(c, lines)), Hidden(c, lines),
                     r.used);
  }

  /** A tool use that shows its mark too late goes out under its old id, even one of the history. */
  lemma HiddenIdPasses(c: Codec, r: Rewriter, line: Bytes)
    requires GoodCodec(c) && !Visible(c, line) && Carried(c, line).value in r.used
    ensures RewriteLines(c, r, [line]).lines == [line]
    ensures !Apart(Names(c, [line]), r.used)
  {
    hide GoodCodec, RewriteLine, Carried, Marked, Payload;
    LineCarriesItsName(c, r, line);
    assert [line][1..] == [];
    NamesCons(c, line, []);
    assert Carried(c, line).value in Names(c, [line]);
  }
}
