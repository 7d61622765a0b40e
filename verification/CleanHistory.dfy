/** What any history looks like after repair and renaming, and that doing both again changes nothing. */
module CleanHistory {
  import opened History
  import opened Exchange
  import opened ExchangeLaws
  import opened Dedupe
  import opened Structure
  import opened RepairOnce

  /** Any history at all, repaired and then renamed where there is something to do, has unique call
      ids, every call before the last exchange answered exactly once at the head of the very next
      message, and no result without its call. */
  lemma StructureIsClean(ms: seq<Message>, w: Wording)
    ensures var r := RepairStructure(ms, w); Clean(if r.Some? then r.value else ms)
  {
    hide WellPaired, Deduped, Clean, Rebuilt, Broken, HasDuplicate;
    RepairNoneIff(ms, w);
    RebuiltWellPaired(ms, w);
    var stage := if Exchange.Repair(ms, w).Some? then Rebuilt(ms, w, 0) else ms;
    RenamedClean(stage);
    if Dedup(stage).None? {
      NothingRenamed(stage);
    }
  }

  /** Done twice is done once: on its own output the whole repair finds nothing. */
  lemma StructureIsStable(ms: seq<Message>, w: Wording)
    requires RepairStructure(ms, w).Some?
    ensures RepairStructure(RepairStructure(ms, w).value, w).None?
  {
    hide WellPaired, Deduped, Rebuilt, Broken, HasDuplicate;
    RepairNoneIff(ms, w);
    RebuiltWellPaired(ms, w);
    var stage := if Exchange.Repair(ms, w).Some? then Rebuilt(ms, w, 0) else ms;
    RenamedWellPaired(stage);
    NoDuplicateNow(stage);
    RepairNoneIff(Deduped(stage), w);
    RepairNoneIff(stage, w);
  }
}
