/** The rewriter of one response stream and the byte transform in front of the client, as objects
    that change in place; each method does what the function of the same step in `ToolIds` or
    `ToolIdStream` does. */
module ToolIdRewrite {
  import opened Text
  import opened Suffix
  import opened ToolIds
  import opened ToolIdStream

  /** The ids one thread has seen, shared by its streams. */
  class ThreadCache {
    var ids: seq<Text>

    constructor ()
      ensures ids == []
    {
      ids := [];
    }

    method Add(id: Text)
      modifies this
      ensures ids == Remember(old(ids), id)
    {
      if id !in ids {
        ids := ids + [id];
        if |ids| > MAX_IDS_PER_THREAD {
          ids := ids[1..];
        }
      }
    }
  }

  class ToolUseIdDedupeRewriter {
    const codec: Codec
    const shared: ThreadCache?
    var usedIds: set<Text>
    var renameCount: nat

    /** What the rewriter stands for. */
    function Value(): Rewriter
      reads this, shared
    {
      Rewriter(usedIds, renameCount, if shared == null then None else Some(shared.ids))
    }

    constructor (codec: Codec, historyIds: set<Text>, shared: ThreadCache?)
      ensures this.codec == codec && this.shared == shared
      ensures usedIds == historyIds && renameCount == 0
    {
      this.codec := codec;
      this.shared := shared;
      usedIds, renameCount := historyIds, 0;
    }

    function Seen(id: Text): (b: bool)
      reads this, shared
      ensures b <==> id in Taken(Value())
    {
      id in usedIds || (shared != null && id in shared.ids)
    }

    /** The search for a free number: 2, 3, … */
    method FreeNumber(id: Text) returns (name: Text)
      ensures name == FreeName(Taken(Value()), id + DUP_STEM, DUP_MARK, 2)
    {
      hide Value, Numbered;
      ghost var taken := Taken(Value());
      var k := 2;
      name := Again(id, k);
      while Seen(name)
        invariant 2 <= k && name == Numbered(id + DUP_STEM, DUP_MARK, k)
        invariant forall m: nat :: 2 <= m < k ==> Numbered(id + DUP_STEM, DUP_MARK, m) in taken
        invariant FreeFrom(taken, id + DUP_STEM, DUP_MARK, 2, 2) == FreeFrom(taken, id + DUP_STEM, DUP_MARK, 2, k)
        decreases |taken| + 1 - (k - 2)
      {
        TriedAreUsed(taken, id + DUP_STEM, DUP_MARK, 2, k + 1);
        k := k + 1;
        name := Again(id, k);
      }
    }

    method ResolveId(id: Text) returns (name: Text)
      modifies this, shared
      ensures Resolved(Value(), name) == Resolve(old(Value()), id)
    {
      hide FreeName, Remember;
      name := id;
      NewNameIs(Taken(Value()), id);
      if Seen(id) {
        name := FreeNumber(id);
        renameCount := renameCount + 1;
      }
      usedIds := usedIds + {name};
      if shared != null {
        shared.Add(name);
      }
    }

    /** Find the JSON behind `data:`; a line without any is not for the rewriter. */
    method JsonOf(line: Bytes) returns (json: Option<Bytes>)
      ensures json == Payload(line)
    {
      var end := |line| - |Break(line)|;
      if end <= |DATA_SPACE| || !(DATA <= line[..end]) {
        return None;
      }
      var start := |DATA|;
      while start < end && (line[start] == 32 || line[start] == 9)
        invariant |DATA| <= start <= end
        invariant SkipBlanks(line[..end], |DATA|) == SkipBlanks(line[..end], start)
      {
        start := start + 1;
      }
      BomIs(line[..end], start);
      if start + 2 < end && line[start] == 0xef && line[start + 1] == 0xbb && line[start + 2] == 0xbf {
        start := start + 3;
      }
      if start >= end || line[start] != BRACE {
        return None;
      }
      assert line[..end][start..] == line[start..end];
      return Some(line[start..end]);
    }

    static lemma BomIs(body: Bytes, i: nat)
      requires i <= |body|
      ensures SkipBom(body, i) ==
        if i + 2 < |body| && body[i] == 0xef && body[i + 1] == 0xbb && body[i + 2] == 0xbf then i + 3 else i
    {
      if i + 2 < |body| {
        var three := body[i..i + 3];
        assert three[0] == body[i] && three[1] == body[i + 1] && three[2] == body[i + 2];
        assert three == [three[0], three[1], three[2]];
      }
    }

    method RewriteSseLine(line: Bytes) returns (out: Bytes)
      modifies this, shared
      ensures Rewritten(Value(), out) == RewriteLine(codec, old(Value()), line)
    {
      var json := JsonOf(line);
      if json.None? || !Marked(json.value) || codec.idOf(json.value).None? {
        return line;
      }
      var id := codec.idOf(json.value).value;
      var next := ResolveId(id);
      if next == id {
        return line;
      }
      return DATA_SPACE + codec.put(json.value, next) + Break(line);
    }
  }

  class ToolUseIdRewriteTransform {
    const rewriter: ToolUseIdDedupeRewriter
    var pending: Bytes

    function Value(): Stream
      reads this, rewriter, rewriter.shared
    {
      Stream(rewriter.Value(), pending)
    }

    constructor (rewriter: ToolUseIdDedupeRewriter)
      ensures this.rewriter == rewriter && pending == []
    {
      this.rewriter := rewriter;
      pending := [];
    }

    method Transform(chunk: Bytes) returns (out: Bytes)
      modifies this, rewriter, rewriter.shared
      ensures Fed(Value(), out) == Feed(rewriter.codec, old(Value()), chunk)
    {
      hide Lines, RewriteLines, RewriteLine, Remaining, Concat, IndexOfLF;
      var buf := pending + chunk;
      ghost var before := rewriter.Value();
      out := [];
      var start := 0;
      var nl := IndexOfLF(buf, start);
      AllAhead(rewriter.codec, before, buf);
      while nl < |buf|
        invariant 0 <= start <= |buf| && nl == IndexOfLF(buf, start)
        invariant pending == old(pending)
        invariant Remaining(rewriter.codec, before, buf, rewriter.Value(), out, start)
        decreases |buf| - start
      {
        ghost var now := rewriter.Value();
        var line := rewriter.RewriteSseLine(buf[start..nl + 1]);
        OneMore(rewriter.codec, before, buf, now, out, start, nl);
        out := out + line;
        start := nl + 1;
        nl := IndexOfLF(buf, start);
      }
      var rest := buf[start..];
      NoMore(rewriter.codec, before, buf, rewriter.Value(), out, start);
      if |rest| > MAX_PENDING_LINE {
        out := out + rest;
        pending := [];
      } else {
        pending := rest;
      }
    }

    /** Rewriting from `start` on completes what rewriting all of `buf` gives. */
    static ghost predicate Remaining(c: Codec, before: Rewriter, buf: Bytes, now: Rewriter, out: Bytes, start: nat)
      requires start <= |buf|
    {
      var whole, part := Lines(buf), Lines(buf[start..]);
      var all, more := RewriteLines(c, before, whole.lines), RewriteLines(c, now, part.lines);
      part.rest == whole.rest && all.rewriter == more.rewriter && Concat(all.lines) == out + Concat(more.lines)
    }

    static lemma AllAhead(c: Codec, before: Rewriter, buf: Bytes)
      ensures Remaining(c, before, buf, before, [], 0)
    {
      assert buf[0..] == buf;
    }

    static lemma OneMore(c: Codec, before: Rewriter, buf: Bytes, now: Rewriter, out: Bytes, start: nat, nl: nat)
      requires start <= nl < |buf| && nl == IndexOfLF(buf, start) && Remaining(c, before, buf, now, out, start)
      ensures var x := RewriteLine(c, now, buf[start..nl + 1]);
        Remaining(c, before, buf, x.rewriter, out + x.line, nl + 1)
    {
      hide RewriteLine, Lines, IndexOfLF, RewriteLines, Concat;
      var here := buf[start..];
      assert here[..nl - start] == buf[start..nl];
      FirstLF(here, nl - start);
      LinesStep(here);
      assert here[..nl - start + 1] == buf[start..nl + 1] && here[nl - start + 1..] == buf[nl + 1..];
      var x := RewriteLine(c, now, buf[start..nl + 1]);
      var later := Lines(buf[nl + 1..]);
      RewriteCons(c, now, buf[start..nl + 1], later.lines);
      var t := RewriteLines(c, x.rewriter, later.lines).lines;
      ConcatCons(x.line, t);
      assert out + (x.line + Concat(t)) == (out + x.line) + Concat(t);
    }

    static lemma RewriteCons(c: Codec, r: Rewriter, line: Bytes, lines: seq<Bytes>)
      ensures var x := RewriteLine(c, r, line);
        var t := RewriteLines(c, x.rewriter, lines);
        RewriteLines(c, r, [line] + lines) == Batch(t.rewriter, [x.line] + t.lines)
    {
      hide RewriteLine;
      assert ([line] + lines)[1..] == lines;
    }

    static lemma NoMore(c: Codec, before: Rewriter, buf: Bytes, now: Rewriter, out: Bytes, start: nat)
      requires start <= |buf| == IndexOfLF(buf, start) && Remaining(c, before, buf, now, out, start)
      ensures var whole := Lines(buf);
        var all := RewriteLines(c, before, whole.lines);
        whole.rest == buf[start..] && all.rewriter == now && Concat(all.lines) == out
    {
      hide RewriteLine;
      var here := buf[start..];
      assert buf[start..|buf|] == here;
      assert Lines(here).lines == [];
      assert out + [] == out;
    }

    method Flush() returns (out: Bytes)
      modifies this, rewriter, rewriter.shared
      ensures Fed(Value(), out) == ToolIdStream.Flush(rewriter.codec, old(Value()))
    {
      out := [];
      if pending != [] {
        out := rewriter.RewriteSseLine(pending);
        pending := [];
      }
    }
  }
}
