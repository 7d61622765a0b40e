/** Repair finds nothing to do exactly on well-paired histories, and so nothing after itself. */
module RepairOnce {
  import opened History
  import opened Exchange
  import opened ExchangeLaws

  /** Repair leaves a history alone exactly if it is well paired. */
  lemma RepairNoneIff(ms: seq<Message>, w: Wording)
    ensures Repair(ms, w).None? <==> WellPaired(ms)
  {
    hide Inserts, RepliesBetween;
    if WellPaired(ms) {
      forall i | 0 <= i < |ms| ensures Dropped(ms, i) == {} && Inserts(ms, w, i) == [] {
        NoInsertsWhenPaired(ms, w, i);
        forall b | IsReply(ms, i, b) ensures b !in Dropped(ms, i) { KeptWhenPaired(ms, i, b); }
      }
    }
    if !Broken(ms, w) {
      hide Broken;
      forall j, x | 0 <= j <= LastMove(ms)
        ensures ReplyBlocks(ms[j]) != [] ==> Results(ReplyBlocks(ms[j]), x) == Due(ms, [], j, x)
        ensures Due(ms, [], j, x) > 0 ==> ReplyBlocks(ms[j]) != []
      {
        UnbrokenAnswers(ms, w, j, x);
      }
      forall j | 0 <= j <= LastMove(ms) ensures AllLead(ReplyBlocks(ms[j])) { UnbrokenLeads(ms, w, j); }
      forall x ensures LateReplies(ms, x) <= LateDue(ms, [], x) { UnbrokenLate(ms, w, |ms|, x); }
    }
  }

  /** Repair is done in one go: its output is well paired and repair finds nothing more to do. */
  lemma RepairIdempotent(ms: seq<Message>, w: Wording)
    requires Repair(ms, w).Some?
    ensures WellPaired(Repair(ms, w).value) && Repair(Repair(ms, w).value, w).None?
  {
    RebuiltWellPaired(ms, w);
    RepairNoneIff(Rebuilt(ms, w, 0), w);
  }
}
