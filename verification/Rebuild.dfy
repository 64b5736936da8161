/** What the next run sees of a run that is over. */
module Rebuild {
  import opened Protocol
  import opened History
  import opened Slots
  import opened ActivePath
  import opened PathFacts
  import opened ReachableLog
  import opened ReachablePath
  import opened RunTrace
  import opened RunRecord

  /** The item stands for the message `m`: as it was, unless `m` answers an `activate_skill` call whose skill the log
      records; then its body is the pointer to that skill. */
  ghost predicate StandsFor(item: PathItem, m: LlmMessage, log: seq<Entry>) {
    var calls := SkillCalls(Messages(log));
    if m.toolCallId.Some? && m.toolCallId.value in calls && calls[m.toolCallId.value] in SkillNames(log) then
      Render(item) == LlmMessage(m.role, TextBody(PointerText(calls[m.toolCallId.value])), m.toolCallId)
    else Render(item) == m
  }

  /** The path rebuilt from the log ends with everything the run reported, in order; only skill notes can stand
      between, and exactly the results of recorded skill activations change, to pointers. */
  lemma RebuildShowsTheRun(base: seq<Message>, log: seq<Entry>, events: seq<Event>, i: nat)
    requires InStep(base, log, events) && i < |Reported(events)|
    ensures var records, n := Filtered(Path(log), IsRecord), |Reported(events)|;
            n <= |records| && StandsFor(records[|records| - n + i], Reported(events)[i], log)
  {
    hide Path, Filtered, Frontier, Tiled, Reachable, Reported, Verbatim, Linked, Answered, Messages, SkillCalls;
    hide StandsFor, Item, Compactions;
    ReachableIsSound(log);
    var msgs, comps := Messages(log), Compactions(log);
    var records, n := Filtered(Path(log), IsRecord), |Reported(events)|;
    RecordAtIndex(log, 0);
    RecordAtIndex(log, |records| - n + i);
    ItemStandsFor(log, msgs[|base| + i]);
  }

  lemma ItemStandsFor(log: seq<Entry>, m: Message)
    ensures StandsFor(Item(SkillCalls(Messages(log)), SkillNames(log), m), AsLlm(m), log)
  {
    hide SkillCalls, Messages;
  }
}
