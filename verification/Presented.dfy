/** What the model is told: what the messages of the path and of the request say, in terms of the log's records. */
module Presented {
  import opened Protocol
  import opened History
  import opened Slots
  import opened ActivePath
  import opened PathFacts
  import opened ReachableLog
  import opened ReachablePath
  import opened LlmContext
  import opened SessionView

  // ---------------------------------------------------------------- what a message says

  /** A message of one text. */
  predicate Says(m: LlmMessage, role: Role, text: string) {
    m.role == role && m.toolCallId == None && m.body == [Text(text)]
  }

  predicate EndsWith(text: string, end: string) {
    |end| <= |text| && text[|text| - |end|..] == end
  }

  const SKILL := "Skill `"

  /** Begins with the name of the skill, whatever follows. */
  predicate Names(text: string, skill: string) {
    SKILL + skill + "`" <= text
  }

  /** Hands the model the instructions of a skill: the text names the skill, and then ends with its whole content. */
  predicate Instructs(m: LlmMessage, skill: string, content: string) {
    && |m.body| == 1 && m.body[0].Text? && Says(m, Developer, m.body[0].text)
    && Names(m.body[0].text, skill) && EndsWith(m.body[0].text, content)
    && |SKILL + skill + "`"| + |content| <= |m.body[0].text|
  }

  /** Hands the model a summary, as the end of a system message. */
  predicate Reminds(m: LlmMessage, summary: string) {
    |m.body| == 1 && m.body[0].Text? && Says(m, System, m.body[0].text) && EndsWith(m.body[0].text, summary)
  }

  /** What the message of an item has to say. */
  predicate Conveys(m: LlmMessage, item: PathItem) {
    match item
    case Kept(stored) => m.role == stored.role && m.body == stored.body && m.toolCallId == stored.toolCallId
    case Pointer(stored, skill) =>
      && m.role == stored.role && m.toolCallId == stored.toolCallId
      && |m.body| == 1 && m.body[0].Text? && Names(m.body[0].text, skill)
    case Note(skill, content) => Instructs(m, skill, content)
    case Digest(c) => Says(m, Role.Summary, c.summary)
  }

  lemma BeginsWithName(skill: string, rest: string, end: string)
    ensures var head := SKILL + skill + "`";
            && Names(head + rest, skill) && Names(head + rest + end, skill)
            && EndsWith(head + rest + end, end) && |head| + |end| <= |head + rest + end|
  {
  }

  lemma RenderConveys(item: PathItem)
    ensures Conveys(Render(item), item)
  {
    hide Names, EndsWith;
    match item {
      case Kept(_) =>
      case Digest(_) =>
      case Pointer(_, skill) =>
        BeginsWithName(skill, " activated; its instructions are provided in the conversation.", "");
      case Note(skill, content) =>
        BeginsWithName(skill, " has been activated. Follow these instructions:\n\n", content);
    }
  }

  /** On the rendered path of any log, every message says what its item stands for. */
  lemma RenderedPathConveys(log: seq<Entry>, k: nat)
    requires k < |Path(log)|
    ensures Conveys(Mapped(Path(log), Render)[k], Path(log)[k])
  {
    hide Path, Render, Conveys;
    RenderConveys(Path(log)[k]);
  }

  // ---------------------------------------------------------------- each skill once

  lemma {:induction false} FilteredFrom<T>(s: seq<T>, i: nat, keep: T -> bool) returns (k: nat)
    requires i < |Filtered(s, keep)|
    ensures k < |s| && keep(s[k]) && s[k] == Filtered(s, keep)[i]
  {
    var n := |s| - 1;
    if i < |Filtered(s[..n], keep)| {
      k := FilteredFrom(s[..n], i, keep);
    } else {
      k := n;
    }
  }

  /** A kept element goes to the position that counts the kept ones before it. */
  lemma FilteredTo<T>(s: seq<T>, k: nat, keep: T -> bool)
    requires k < |s| && keep(s[k])
    ensures var rank := |Filtered(s[..k], keep)|; rank < |Filtered(s, keep)| && Filtered(s, keep)[rank] == s[k]
  {
    hide Filtered;
    assert s == s[..k + 1] + s[k + 1..];
    FilterMore(s, k, keep);
    FilteredConcat(s[..k + 1], s[k + 1..], keep);
  }

  lemma RanksDiffer<T>(s: seq<T>, j: nat, k: nat, keep: T -> bool)
    requires j < k < |s| && keep(s[j])
    ensures |Filtered(s[..j], keep)| < |Filtered(s[..k], keep)|
  {
    hide Filtered;
    FilteredTo(s[..k], j, keep);
    assert s[..k][..j] == s[..j];
  }

  /** The note of skill `a` is at `k`, and no other note names that skill. */
  ghost predicate NotedOnce(path: seq<PathItem>, k: int, a: Active) {
    && 0 <= k < |path| && path[k] == Note(a.name, a.content)
    && forall j :: 0 <= j < |path| && j != k && path[j].Note? ==> path[j].name != a.name
  }

  /** On every log each active skill has exactly one note on the path, whatever is compacted, and the message of that
      note names the skill and ends with its current content. */
  lemma EachSkillIsNotedOnce(log: seq<Entry>, i: nat) returns (k: nat)
    requires i < |ActiveSkills(log)|
    ensures var a := ActiveSkills(log)[i];
            NotedOnce(Path(log), k, a) && Instructs(Mapped(Path(log), Render)[k], a.name, a.content)
  {
    hide Path, ActiveSkills, Filtered, Render, Instructs;
    var path, skills := Path(log), ActiveSkills(log);
    SkillsSurvive(log);
    k := FilteredFrom(path, i, IsNote);
    forall j: nat | j < |path| && j != k && path[j].Note? ensures path[j].name != skills[i].name {
      OtherNote(log, j, k);
    }
    RenderedPathConveys(log, k);
  }

  lemma OtherNote(log: seq<Entry>, j: nat, k: nat)
    requires j < |Path(log)| && k < |Path(log)| && j != k && Path(log)[j].Note? && Path(log)[k].Note?
    ensures Path(log)[j].name != Path(log)[k].name
  {
    hide Path, ActiveSkills, Filtered;
    var path := Path(log);
    SkillsSurvive(log);
    ActiveSkillsAreFaithful(log);
    FilteredTo(path, j, IsNote);
    FilteredTo(path, k, IsNote);
    if j < k { RanksDiffer(path, j, k, IsNote); } else { RanksDiffer(path, k, j, IsNote); }
  }

  // ---------------------------------------------------------------- each summary once

  function DigestIfAt(msgs: seq<Message>, c: Compaction, p: nat): seq<PathItem> {
    if StartsAt(msgs, c, p) then [Digest(c)] else []
  }

  lemma DigestsAtPush(msgs: seq<Message>, comps: seq<Compaction>, p: nat)
    ensures comps == [] ==> DigestsAt(msgs, comps, p) == []
    ensures comps != [] ==>
      DigestsAt(msgs, comps, p)
      == DigestIfAt(msgs, comps[|comps| - 1], p) + DigestsAt(msgs, comps[..|comps| - 1], p)
  {
  }

  lemma {:induction false} DigestsInSlot(msgs: seq<Message>, comps: seq<Compaction>, p: nat, c: Compaction)
    ensures multiset(DigestsAt(msgs, comps, p))[Digest(c)] == if StartsAt(msgs, c, p) then multiset(comps)[c] else 0
  {
    hide StartsAt, DigestsAt;
    DigestsAtPush(msgs, comps, p);
    if comps != [] {
      var n := |comps| - 1;
      DigestsInSlot(msgs, comps[..n], p, c);
      assert comps == comps[..n] + [comps[n]];
      assert multiset(DigestsAt(msgs, comps, p))
          == multiset(DigestIfAt(msgs, comps[n], p)) + multiset(DigestsAt(msgs, comps[..n], p));
    }
  }

  lemma InSlot(log: seq<Entry>, p: nat, c: Compaction)
    ensures multiset(Slot(log, p))[Digest(c)]
         == if StartsAt(Messages(log), c, p) then multiset(Compactions(log))[c] else 0
  {
    hide StartsAt, DigestsAt, NotesAt, MessageAt;
    DigestsInSlot(Messages(log), Compactions(log), p, c);
    NotesAreNotes(ActiveSkills(log), p);
    MessagesAreMessages(log, p);
    assert Slot(log, p)
        == DigestsAt(Messages(log), Compactions(log), p) + (NotesAt(ActiveSkills(log), p) + MessagesAt(log, p));
    NotAmong(NotesAt(ActiveSkills(log), p), Digest(c));
    NotAmong(MessagesAt(log, p), Digest(c));
  }

  lemma NotAmong(items: seq<PathItem>, item: PathItem)
    requires forall i :: 0 <= i < |items| ==> items[i] != item
    ensures multiset(items)[item] == 0
  {
    assert item !in items;
  }

  /** What occurs in one slot alone occurs as often in the whole. */
  lemma {:induction false} OneSlotAlone<T>(slots: seq<seq<T>>, at: nat, x: T)
    requires forall p :: 0 <= p < |slots| && p != at ==> multiset(slots[p])[x] == 0
    ensures multiset(Flat(slots))[x] == if at < |slots| then multiset(slots[at])[x] else 0
  {
    if slots != [] {
      var n := |slots| - 1;
      OneSlotAlone(slots[..n], at, x);
      assert multiset(Flat(slots[..n]) + slots[n]) == multiset(Flat(slots[..n])) + multiset(slots[n]);
    }
  }

  /** On every log a compaction whose two ends are known has its summary on the path, as often as its entry is in the
      log; any other has none. */
  lemma SummariesOnThePath(log: seq<Entry>, c: Compaction)
    ensures multiset(Path(log))[Digest(c)]
         == if SpanOf(Messages(log), c).Some? then multiset(Compactions(log))[c] else 0
  {
    hide Slot, SpanOf;
    var msgs, slots := Messages(log), PathSlots(log);
    forall p: nat | p < |slots|
      ensures multiset(slots[p])[Digest(c)] == if StartsAt(msgs, c, p) then multiset(Compactions(log))[c] else 0
    {
      InSlot(log, p, c);
    }
    OneSlotAlone(slots, if SpanOf(msgs, c).Some? then SpanOf(msgs, c).value.lo else 0, Digest(c));
  }

  // ---------------------------------------------------------------- the request

  /** The request of a run, message by message: the system prompt, the instructions of the workspace if there are any,
      a reminder for each compaction of the log, then what else is on the path in its order, then what the user says. */
  ghost predicate Presents(prompt: seq<LlmMessage>, systemPrompt: string, instructions: Option<string>,
                           log: seq<Entry>, userMessage: string) {
    var comps, rest := Compactions(log), Filtered(Path(log), IsNotDigest);
    var from := if instructions.Some? then 2 else 1;
    && |prompt| == from + |comps| + |rest| + 1
    && Says(prompt[0], System, systemPrompt)
    && (instructions.Some? ==> Says(prompt[1], System, instructions.value))
    && (forall i :: 0 <= i < |comps| ==> Reminds(prompt[from + i], comps[i].summary))
    && (forall i :: 0 <= i < |rest| ==> Conveys(prompt[from + |comps| + i], rest[i]))
    && Says(prompt[|prompt| - 1], Developer, userMessage)
  }

  lemma RemindsOf(c: Compaction)
    ensures Reminds(Reminder(Render(Digest(c))), c.summary)
  {
    assert Render(Digest(c)).body[..0] == [] && BodyText(TextBody(c.summary)) == "" + c.summary == c.summary;
  }

  ghost predicate AreReminders(reminders: seq<LlmMessage>, comps: seq<Compaction>) {
    |reminders| == |comps| && forall i :: 0 <= i < |comps| ==> Reminds(reminders[i], comps[i].summary)
  }

  ghost predicate AllConvey(messages: seq<LlmMessage>, items: seq<PathItem>) {
    |messages| == |items| && forall i :: 0 <= i < |items| ==> Conveys(messages[i], items[i])
  }

  lemma LaidEndToEnd(reminders: seq<LlmMessage>, others: seq<LlmMessage>, systemPrompt: string,
                     instructions: Option<string>, log: seq<Entry>, userMessage: string)
    requires AreReminders(reminders, Compactions(log)) && AllConvey(others, Filtered(Path(log), IsNotDigest))
    ensures Presents(Preamble(systemPrompt, instructions) + reminders + others + [Plain(Developer, userMessage)],
                     systemPrompt, instructions, log, userMessage)
  {
    hide Path, Filtered, Compactions, Conveys, Reminds, IsNotDigest;
    var head := Preamble(systemPrompt, instructions);
    Pieces(head, reminders, others, Plain(Developer, userMessage));
    HeadSays(systemPrompt, instructions);
  }

  lemma HeadSays(systemPrompt: string, instructions: Option<string>)
    ensures var head := Preamble(systemPrompt, instructions);
            && |head| == (if instructions.Some? then 2 else 1) && Says(head[0], System, systemPrompt)
            && (instructions.Some? ==> Says(head[1], System, instructions.value))
  {
  }

  lemma Pieces(a: seq<LlmMessage>, b: seq<LlmMessage>, c: seq<LlmMessage>, last: LlmMessage)
    ensures var s := a + b + c + [last];
            && |s| == |a| + |b| + |c| + 1 && s[|s| - 1] == last
            && (forall i :: 0 <= i < |a| ==> s[i] == a[i])
            && (forall i :: 0 <= i < |b| ==> s[|a| + i] == b[i])
            && (forall i :: 0 <= i < |c| ==> s[|a| + |b| + i] == c[i])
  {
  }

  lemma RemindersOf(comps: seq<Compaction>)
    ensures AreReminders(Mapped(Mapped(AllDigests(comps), Render), Reminder), comps)
  {
    hide Render, Reminder, Reminds;
    forall i | 0 <= i < |comps| ensures Reminds(Reminder(Render(AllDigests(comps)[i])), comps[i].summary) {
      RemindsOf(comps[i]);
    }
  }

  lemma AllRenderedConvey(items: seq<PathItem>)
    ensures AllConvey(Mapped(items, Render), items)
  {
    hide Render, Conveys;
    forall i | 0 <= i < |items| ensures Conveys(Mapped(items, Render)[i], items[i]) {
      RenderConveys(items[i]);
    }
  }

  lemma ContextPresents(log: seq<Entry>, systemPrompt: string, instructions: Option<string>, userMessage: string)
    requires Reachable(log)
    ensures Presents(ContextOf(systemPrompt, instructions, Mapped(Path(log), Render), userMessage),
                     systemPrompt, instructions, log, userMessage)
  {
    hide Path, Filtered, Render, Reminder, Reachable, Sound, Tiled, ContextOf, AreReminders, AllConvey, Presents;
    hide Compactions, Preamble, Mapped;
    ReachableIsSound(log);
    TiledOf(log);
    DigestsComeFirst(log);
    ContextOfReachable(log, systemPrompt, instructions, userMessage);
    var comps, rest := Compactions(log), Filtered(Path(log), IsNotDigest);
    RemindersOf(comps);
    AllRenderedConvey(rest);
    LaidEndToEnd(Mapped(Mapped(AllDigests(comps), Render), Reminder), Mapped(rest, Render), systemPrompt, instructions,
                 log, userMessage);
  }

  /** Hands the model the instructions of every skill. */
  ghost predicate InstructsAll(prompt: seq<LlmMessage>, skills: seq<Active>) {
    forall i :: 0 <= i < |skills| ==>
      exists k :: 0 <= k < |prompt| && Instructs(prompt[k], skills[i].name, skills[i].content)
  }

  ghost predicate RemindsAll(prompt: seq<LlmMessage>, comps: seq<Compaction>) {
    forall i :: 0 <= i < |comps| ==> exists k :: 0 <= k < |prompt| && Reminds(prompt[k], comps[i].summary)
  }

  /** Nothing is lost on the way to the model: every active skill instructs it, every compaction reminds it. */
  lemma NothingIsLost(prompt: seq<LlmMessage>, systemPrompt: string, instructions: Option<string>, log: seq<Entry>,
                      userMessage: string)
    requires Presents(prompt, systemPrompt, instructions, log, userMessage)
    ensures InstructsAll(prompt, ActiveSkills(log)) && RemindsAll(prompt, Compactions(log))
  {
    hide Path, Filtered, Instructs, Reminds, ActiveSkills;
    var skills, rest := ActiveSkills(log), Filtered(Path(log), IsNotDigest);
    var from := if instructions.Some? then 2 else 1;
    forall i: nat | i < |skills|
      ensures exists k :: 0 <= k < |prompt| && Instructs(prompt[k], skills[i].name, skills[i].content)
    {
      var k := EachSkillIsNotedOnce(log, i);
      FilteredTo(Path(log), k, IsNotDigest);
      var at := |Filtered(Path(log)[..k], IsNotDigest)|;
      assert Conveys(prompt[from + |Compactions(log)| + at], rest[at]);
    }
    forall i | 0 <= i < |Compactions(log)|
      ensures exists k :: 0 <= k < |prompt| && Reminds(prompt[k], Compactions(log)[i].summary)
    {
      assert Reminds(prompt[from + i], Compactions(log)[i].summary);
    }
  }
}
