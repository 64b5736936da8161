/** The request context of a run: system messages, summaries, history, user message. */
module LlmContext {
  import opened Protocol
  import opened History
  import opened Slots
  import opened ActivePath
  import opened PathFacts
  import opened ReachableLog
  import opened ReachablePath
  import opened ViewFacts

  predicate IsSummary(m: LlmMessage) { m.role == Role.Summary }

  predicate NotSummary(m: LlmMessage) { m.role != Role.Summary }

  /** The text blocks of a body, joined. */
  function BodyText(body: Body): string {
    if body == [] then ""
    else BodyText(body[..|body| - 1]) + (if body[|body| - 1].Text? then body[|body| - 1].text else "")
  }

  function Plain(role: Role, text: string): LlmMessage {
    LlmMessage(role, TextBody(text), None)
  }

  function Reminder(m: LlmMessage): LlmMessage {
    Plain(System, "Earlier conversation summary: " + BodyText(m.body))
  }

  function Preamble(systemPrompt: string, instructions: Option<string>): seq<LlmMessage> {
    [Plain(System, systemPrompt)] + (if instructions.Some? then [Plain(System, instructions.value)] else [])
  }

  /** Summaries first, as reminders, then everything else, each group in its own order; the user message last. */
  function ContextOf(systemPrompt: string, instructions: Option<string>, history: seq<LlmMessage>,
                     userMessage: string): seq<LlmMessage> {
    Preamble(systemPrompt, instructions)
    + Mapped(Filtered(history, IsSummary), Reminder)
    + Filtered(history, NotSummary)
    + [Plain(Developer, userMessage)]
  }

  lemma FilterMore<T>(s: seq<T>, k: nat, keep: T -> bool)
    requires k < |s|
    ensures Filtered(s[..k + 1], keep) == if keep(s[k]) then Filtered(s[..k], keep) + [s[k]] else Filtered(s[..k], keep)
  {
    assert s[..k + 1][..k] == s[..k];
  }

  method BuildContext(systemPrompt: string, instructions: Option<string>, history: seq<LlmMessage>, userMessage: string)
    returns (messages: seq<LlmMessage>)
    ensures messages == ContextOf(systemPrompt, instructions, history, userMessage)
  {
    hide BodyText, Filtered, IsSummary, NotSummary;
    messages := [Plain(System, systemPrompt)];
    if instructions.Some? {
      messages := messages + [Plain(System, instructions.value)];
    }
    ghost var head := Preamble(systemPrompt, instructions);
    assert messages == head;
    messages := AddReminders(messages, history);
    messages := AddOthers(messages, history);
    messages := messages + [Plain(Developer, userMessage)];
  }

  method AddReminders(start: seq<LlmMessage>, history: seq<LlmMessage>) returns (messages: seq<LlmMessage>)
    ensures messages == start + Mapped(Filtered(history, IsSummary), Reminder)
  {
    hide BodyText;
    messages := start;
    for i := 0 to |history|
      invariant messages == start + Mapped(Filtered(history[..i], IsSummary), Reminder)
    {
      FilterMore(history, i, IsSummary);
      if history[i].role == Role.Summary {
        messages := messages + [Plain(System, "Earlier conversation summary: " + BodyText(history[i].body))];
      }
    }
    assert history[..|history|] == history;
  }

  method AddOthers(start: seq<LlmMessage>, history: seq<LlmMessage>) returns (messages: seq<LlmMessage>)
    ensures messages == start + Filtered(history, NotSummary)
  {
    messages := start;
    for i := 0 to |history|
      invariant messages == start + Filtered(history[..i], NotSummary)
    {
      FilterMore(history, i, NotSummary);
      if history[i].role != Role.Summary {
        messages := messages + [history[i]];
      }
    }
    assert history[..|history|] == history;
  }

  /** Every history item goes into exactly one of the two groups, as often as it occurs. */
  lemma {:induction false} PartitionKeepsAll(history: seq<LlmMessage>)
    ensures multiset(Filtered(history, IsSummary)) + multiset(Filtered(history, NotSummary)) == multiset(history)
  {
    if history != [] {
      var n := |history| - 1;
      PartitionKeepsAll(history[..n]);
      assert history == history[..n] + [history[n]];
    }
  }

  // ---------------------------------------------------------------- reachable logs

  lemma {:induction false} FilterTwice(s: seq<PathItem>, p: PathItem -> bool, q: PathItem -> bool)
    requires forall x :: q(x) ==> p(x)
    ensures Filtered(Filtered(s, p), q) == Filtered(s, q)
  {
    if s != [] {
      var n := |s| - 1;
      FilterTwice(s[..n], p, q);
      FilteredConcat(Filtered(s[..n], p), if p(s[n]) then [s[n]] else [], q);
      assert [s[n]][..0] == [];
      assert q(s[n]) ==> p(s[n]);
    }
  }

  /** The order in which the path's items enter the context: summaries first, then the rest. */
  function Reordered(path: seq<PathItem>): seq<PathItem> {
    Filtered(path, IsDigest) + Filtered(path, IsNotDigest)
  }

  predicate IsNotDigest(item: PathItem) { !item.Digest? }

  lemma {:induction false} FilterCommutes(s: seq<PathItem>)
    ensures Filtered(Filtered(s, IsNotDigest), IsRecord) == Filtered(s, IsMessage)
  {
    if s != [] {
      var n := |s| - 1;
      FilterCommutes(s[..n]);
      FilteredConcat(Filtered(s[..n], IsNotDigest), if IsNotDigest(s[n]) then [s[n]] else [], IsRecord);
      assert [s[n]][..0] == [];
    }
  }

  lemma DigestsComeFirst(log: seq<Entry>)
    requires Tiled(Messages(log), Compactions(log))
    ensures Filtered(Path(log), IsRecord) == Filtered(Path(log), IsDigest) + Filtered(Path(log), IsMessage)
    ensures Filtered(Path(log), IsDigest) == AllDigests(Compactions(log))
  {
    hide Path, Tiled, Filtered, Frontier;
    PathOfTiled(log);
    var d := AllDigests(Compactions(log));
    var m := ItemsBetween(log, Frontier(Messages(log), Compactions(log)), |Messages(log)|);
    ItemsAreMessages(log, Frontier(Messages(log), Compactions(log)), |Messages(log)|);
    FilterTwice(Path(log), IsRecord, IsDigest);
    FilterTwice(Path(log), IsRecord, IsMessage);
    FilteredConcat(d, m, IsDigest);
    FilteredConcat(d, m, IsMessage);
    FilterAll(d, IsDigest);
    FilterNone(m, IsDigest);
    FilterNone(d, IsMessage);
    FilterAll(m, IsMessage);
    assert d + [] == d && [] + m == m;
  }

  /** On a reachable log, putting the summaries first moves only skill notes: summaries and messages keep
      their relative order. */
  lemma ReorderingMovesOnlyNotes(log: seq<Entry>)
    requires Reachable(log)
    ensures Filtered(Reordered(Path(log)), IsRecord) == Filtered(Path(log), IsRecord)
  {
    hide Path, Reachable, Sound, Tiled, Filtered;
    ReachableIsSound(log);
    TiledOf(log);
    DigestsComeFirst(log);
    var d, rest := Filtered(Path(log), IsDigest), Filtered(Path(log), IsNotDigest);
    FilteredConcat(d, rest, IsRecord);
    FilterCommutes(Path(log));
    FilteredKeeps(Path(log), IsDigest);
    FilterAll(d, IsRecord);
  }

  lemma TiledOf(log: seq<Entry>)
    requires Sound(log)
    ensures Tiled(Messages(log), Compactions(log))
  {
  }

  lemma {:induction false} FilteredKeeps<T>(s: seq<T>, keep: T -> bool)
    ensures forall i :: 0 <= i < |Filtered(s, keep)| ==> keep(Filtered(s, keep)[i])
  {
    if s != [] { FilteredKeeps(s[..|s| - 1], keep); }
  }

  /** No message of a reachable log has the summary role, so the context's reminders are exactly the summaries. */
  lemma {:induction false} NoSummaryMessages(log: seq<Entry>)
    requires Reachable(log)
    ensures forall p :: 0 <= p < |Messages(log)| ==> Messages(log)[p].role in {Developer, Assistant, Tool}
  {
    hide Pending, UsedIds, LegalCompaction;
    if |log| > 1 {
      NoSummaryMessages(log[..|log| - 1]);
    } else {
      assert log[..0] == [];
    }
  }

  function RoleTells(item: PathItem): bool {
    Render(item).role == Role.Summary <==> item.Digest?
  }

  lemma SlotRoles(log: seq<Entry>, p: nat, i: nat)
    requires forall q :: 0 <= q < |Messages(log)| ==> Messages(log)[q].role != Role.Summary
    requires i < |Slot(log, p)|
    ensures RoleTells(Slot(log, p)[i])
  {
    hide Covered, DigestsAt, NotesAt;
    DigestsAreDigests(Messages(log), Compactions(log), p);
    NotesAreNotes(ActiveSkills(log), p);
  }

  lemma PathRoles(log: seq<Entry>)
    requires forall q :: 0 <= q < |Messages(log)| ==> Messages(log)[q].role != Role.Summary
    ensures forall i :: 0 <= i < |Path(log)| ==> RoleTells(Path(log)[i])
  {
    hide Slot, RoleTells;
    var slots := PathSlots(log);
    forall p, i | 0 <= p < |slots| && 0 <= i < |slots[p]| ensures RoleTells(slots[p][i]) {
      SlotRoles(log, p, i);
    }
    FlatForall(slots, RoleTells);
  }

  lemma {:induction false} SplitByRole(items: seq<PathItem>)
    requires forall i :: 0 <= i < |items| ==> RoleTells(items[i])
    ensures Filtered(Mapped(items, Render), IsSummary) == Mapped(Filtered(items, IsDigest), Render)
    ensures Filtered(Mapped(items, Render), NotSummary) == Mapped(Filtered(items, IsNotDigest), Render)
  {
    hide Render;
    if items != [] {
      var n := |items| - 1;
      SplitByRole(items[..n]);
      assert Mapped(items, Render)[..n] == Mapped(items[..n], Render);
      assert RoleTells(items[n]);
    }
  }

  /** The request context of a reachable log: the path's items with its summaries first, as reminders. */
  lemma ContextOfReachable(log: seq<Entry>, systemPrompt: string, instructions: Option<string>, userMessage: string)
    requires Reachable(log)
    ensures ContextOf(systemPrompt, instructions, Mapped(Path(log), Render), userMessage)
         == Preamble(systemPrompt, instructions)
            + Mapped(Mapped(Filtered(Path(log), IsDigest), Render), Reminder)
            + Mapped(Filtered(Path(log), IsNotDigest), Render)
            + [Plain(Developer, userMessage)]
  {
    hide Path, Filtered, Render, Reminder, RoleTells;
    NoSummaryMessages(log);
    PathRoles(log);
    SplitByRole(Path(log));
  }
}
