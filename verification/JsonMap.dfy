/** A finished response, pushed through the translator and folded, is a plain map over its items. */
module JsonMap {
  import opened Text
  import opened Translate
  import opened TranslateMeaning
  import opened TranslateJson
  import opened Collect
  import opened CollectLaws

  /** The expected header. */
  function Announced(cfg: Config, model: Text, r: Response, items: seq<JsonItem>): Header {
    Header(r.id, if !cfg.pinned && r.model != [] then r.model else model,
           Some(if r.outOfTokens then MaxTokens else if CallsSome(items) then ToolUse else EndTurn), r.usage)
  }

  /** A finished response, pushed through the translator and folded by the collector, is exactly a
      plain map over its items: texts joined unless blank, summaries with their signature, calls
      with their parsed arguments, in order. It is refused just when some call's arguments do not
      parse or nothing at all is left to show. */
  lemma JsonIsAPlainMap(cfg: Config, parse: Parser, model: Text, r: Response, items: seq<JsonItem>)
    requires GoodBlank(cfg)
    ensures var out := Outs(PushJson(cfg, Fresh(model), JsonResponse.Finished(r, items)).out);
      Outcome(TakeAll(parse, EMPTY, out)) ==
        if (forall ji <- items :: Parses(parse, ji)) && GivesAll(cfg, parse, items, 0) != [] then
          Whole(Announced(cfg, model, r, items), GivesAll(cfg, parse, items, 0))
        else Incomplete
  {
    hide GoodBlank, Push, PushAll, TakeAll, Between, GivesAll, Parses, CallsSome, InOrder;
    var t := Fresh(model);
    BegunCollected(cfg, parse, model, r);
    var a := Push(cfg, t, Begun(r));
    var c1 := TakeAll(parse, EMPTY, Outs(a.out));
    BetweenHolds(a.t, c1, [], 0);
    OutputLaw(cfg, parse, a.t, c1, [], 0, items);
    var mid := OutputEvents(0, items);
    var b := PushAll(cfg, a.t, mid);
    var c2 := TakeAll(parse, c1, Outs(b.out));
    JoinBody(cfg, t, Begun(r), mid, Ended(r));
    var d := Push(cfg, b.t, Ended(r));
    TakeThree(parse, EMPTY, a.out, b.out, d.out);
    OutputIsItems(0, items);
    assert a.t.started by { BetweenStarted(a.t, c1, [], 0); }
    ItemsOnlyBlocks(cfg, a.t, mid);
    MessageUntouched(parse, c1, Outs(b.out));
    if forall ji <- items :: Parses(parse, ji) {
      var content := GivesAll(cfg, parse, items, 0);
      assert [] + content == content;
      EndedCollected(cfg, parse, b.t, c2, content, |items|, r);
      BetweenFacts(b.t, c2, content, |items|);
      ListedInOrder(content);
    } else {
      StaysFailed(parse, c2, Outs(d.out));
    }
  }

  lemma BetweenStarted(t: Translator, c: Collection, content: seq<Content>, k: nat)
    requires Between(t, c, content, k)
    ensures t.started
  {
  }

  lemma BetweenFacts(t: Translator, c: Collection, content: seq<Content>, k: nat)
    requires Between(t, c, content, k)
    ensures !c.failed && c.message.Some? && c.blocks == Listed(content)
  {
  }
}
