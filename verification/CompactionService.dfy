/** Deciding when to compact, choosing the block, summarising it and recording the entry. */
module CompactionService {
  import opened Protocol
  import opened History
  import opened Slots
  import opened ActivePath
  import opened SessionView
  import opened PathFacts
  import opened ReachableLog
  import opened ReachablePath
  import opened CompactionEffect
  import opened Budget
  import opened Runtime

  datatype Config = Config(budget: nat, percent: nat)

  datatype Range = Range(firstId: Id, lastId: Id)

  datatype CompactionError =
    | NoPriorHistory
    | SingleMessageExceedsBudget
    | ProviderFailed
    | ToolCallsRequested
    | StoreFailed
    | IneffectiveCompaction
    | Cancelled

  predicate Needed(config: Config, path: seq<PathItem>) {
    IsAboveThreshold(Tokens(path), config.budget, config.percent)
  }

  /** The decision in bytes of what the model is sent. */
  lemma NeededInBytes(config: Config, path: seq<PathItem>)
    ensures var messages := Mapped(path, Render);
            var enough := 4 * BudgetThreshold(config.budget, config.percent);
            && (config.budget != 0 && AllTextBytes(messages) >= enough ==> Needed(config, path))
            && (Needed(config, path) ==> config.budget != 0 && MessageBytes(messages) + 3 * |path| >= enough)
  {
    hide AllTextBytes, MessageBytes, EstimateTokens, BudgetThreshold, IsAboveThreshold, Render;
    AboveThresholdInBytes(Mapped(path, Render), config.budget, config.percent);
  }

  // ---------------------------------------------------------------- choosing the block

  method CollectCompactedIds(entries: seq<Entry>) returns (compacted: set<Id>)
    ensures compacted == CoveredIds(Messages(entries), Compactions(entries))
  {
    var positions, messageIds := IndexMessages(entries);
    ghost var msgs := Messages(entries);
    compacted := {};
    for i := 0 to |entries|
      invariant forall id :: id in compacted <==> CoversId(msgs, Compactions(entries[..i]), id)
    {
      AppendedAt(entries, i);
      if entries[i].CompactionEntry? {
        CoveredByOneMore(msgs, Compactions(entries[..i]), entries[i].compaction);
        compacted := InsertBlock(entries[i].compaction, positions, messageIds, compacted, msgs);
      }
    }
    assert entries[..|entries|] == entries;
  }

  method InsertBlock(compaction: Compaction, positions: map<Id, nat>, messageIds: seq<Id>, compacted: set<Id>,
                     ghost msgs: seq<Message>)
    returns (marked: set<Id>)
    requires positions == Positions(msgs) && messageIds == IdsOf(msgs)
    ensures forall id :: id in marked <==> id in compacted || SpansId(msgs, compaction, id)
  {
    hide Positions, SpanOf, SpansId, IdsOf;
    marked := compacted;
    SpanByEnds(msgs, compaction);
    if compaction.firstId in positions && compaction.lastId in positions {
      var a, b := positions[compaction.firstId], positions[compaction.lastId];
      var first, last := if a <= b then a else b, if a <= b then b else a;
      for p := first to last + 1
        invariant marked == compacted + IdsBetween(messageIds, first, p)
      {
        IdsBetweenNext(messageIds, first, p);
        marked := marked + {messageIds[p]};
      }
      SpanIds(msgs, compaction, Span(first, last));
    }
  }

  ghost predicate OldestRange(messages: seq<Message>, compacted: set<Id>, range: Range) {
    exists first: nat, last: nat ::
      OldestBlock(messages, compacted, first, last) &&
      range == Range(messages[first].id, messages[last].id)
  }

  /** The oldest run of uncompacted messages; there is none exactly when every message is compacted. */
  method SelectCompactionRange(messages: seq<Message>, compacted: set<Id>) returns (range: Option<Range>)
    ensures range.None? <==> forall p :: 0 <= p < |messages| ==> messages[p].id in compacted
    ensures range.Some? ==> OldestRange(messages, compacted, range.value)
  {
    var first := 0;
    while first < |messages| && messages[first].id in compacted
      invariant 0 <= first <= |messages|
      invariant forall p :: 0 <= p < first ==> messages[p].id in compacted
    {
      first := first + 1;
    }
    if first == |messages| {
      return None;
    }
    var last, index := first, first;
    while index < |messages|
      invariant first <= last < |messages| && index <= |messages|
      invariant index == first || last == index - 1
      invariant forall p :: first <= p < index ==> messages[p].id !in compacted
    {
      if messages[index].id in compacted {
        break;
      }
      last := index;
      index := index + 1;
    }
    assert OldestBlock(messages, compacted, first, last);
    return Some(Range(messages[first].id, messages[last].id));
  }

  method PositionById(messages: seq<Message>, id: Id) returns (position: Option<nat>)
    ensures position.Some? ==> position.value < |messages| && messages[position.value].id == id
    ensures position.None? ==> forall p :: 0 <= p < |messages| ==> messages[p].id != id
  {
    for p := 0 to |messages|
      invariant forall q :: 0 <= q < p ==> messages[q].id != id
    {
      if messages[p].id == id {
        return Some(p);
      }
    }
    return None;
  }

  /** On a reachable log whose last message is uncompacted, the range runs from the first uncompacted message
      to the last message. */
  lemma RangeIsTail(log: seq<Entry>, range: Range)
    requires Reachable(log)
    requires OldestRange(Messages(log), CoveredIds(Messages(log), Compactions(log)), range)
    ensures var msgs := Messages(log);
            var f := Frontier(msgs, Compactions(log));
            f < |msgs| && range == Range(msgs[f].id, msgs[|msgs| - 1].id)
  {
    hide Reachable, CoveredIds, Tiled, Frontier;
    var msgs, comps := Messages(log), Compactions(log);
    ReachableIsSound(log);
    var first: nat, last: nat :|
      OldestBlock(msgs, CoveredIds(msgs, comps), first, last) && range == Range(msgs[first].id, msgs[last].id);
    OldestBlockIsTail(msgs, comps, first, last);
  }

  /** Whoever chooses from the same log chooses the same range. */
  lemma SameRange(log: seq<Entry>, range: Range, c: Compaction)
    requires Reachable(log) && LegalCompaction(log, c)
    requires OldestRange(Messages(log), CoveredIds(Messages(log), Compactions(log)), range)
    ensures range == Range(c.firstId, c.lastId)
  {
    hide Reachable, CoveredIds, Frontier, Messages, Compactions, UsedIds;
    RangeIsTail(log, range);
    RangeIsTail(log, Range(c.firstId, c.lastId));
  }

  // ---------------------------------------------------------------- summarising it

  const INSTRUCTION :=
    "Summarize the following conversation block concisely. "
    + "Preserve facts, decisions, and context needed for future turns."

  /** An instruction of the system, then every message as it was stored. */
  ghost predicate AsksAbout(prompt: seq<LlmMessage>, messages: seq<Message>) {
    && |prompt| == |messages| + 1
    && prompt[0] == LlmMessage(System, [Text(INSTRUCTION)], None)
    && forall i :: 0 <= i < |messages| ==>
      && prompt[i + 1].role == messages[i].role && prompt[i + 1].body == messages[i].body
      && prompt[i + 1].toolCallId == messages[i].toolCallId
  }

  method BuildSummaryPrompt(messages: seq<Message>) returns (prompt: seq<LlmMessage>)
    ensures AsksAbout(prompt, messages)
  {
    prompt := [LlmMessage(System, TextBody(INSTRUCTION), None)];
    for i := 0 to |messages|
      invariant AsksAbout(prompt, messages[..i])
    {
      prompt := prompt + [LlmMessage(messages[i].role, messages[i].body, messages[i].toolCallId)];
    }
    assert messages[..|messages|] == messages;
  }

  /** The stream's last event asks for tools. */
  ghost predicate AsksForTools(stream: ProviderStream)
    reads stream
  {
    && stream.lastPoll.Some? && stream.lastPoll.value.Item? && stream.lastPoll.value.event.MessageCompleted?
    && stream.lastPoll.value.event.messageId == stream.id && stream.lastPoll.value.event.calls.Some?
  }

  /** Why a summary was or was not obtained, as far as the stream tells. */
  ghost predicate Explains(r: Result<string, CompactionError>, stream: ProviderStream)
    reads stream
  {
    match r
    case Ok(summary) => stream.lastPoll == Some(End) && summary == stream.text
    case Err(ProviderFailed) => stream.lastPoll == Some(Polled.Error)
    case Err(ToolCallsRequested) => AsksForTools(stream)
    case Err(Cancelled) =>
      stream.lastPoll != Some(End) && stream.lastPoll != Some(Polled.Error) && !AsksForTools(stream)
    case _ => false
  }

  /** Reads the response to its end, even one that stops before its message is complete. */
  method CollectSummary(stream: ProviderStream, store: SessionStore, token: CancelToken)
    returns (r: Result<string, CompactionError>)
    requires stream.phase == NotStarted && stream.text == "" && stream.lastPoll == None
    modifies stream, store, token
    ensures Continues(old(store.entries), store.entries)
    ensures Explains(r, stream)
    ensures old(token.cancelled) ==> r == Err(Cancelled)
    ensures r == Err(Cancelled) ==> token.cancelled
    ensures old(token.cancelled) ==> token.cancelled
    ensures r.Err? ==> r.error in {Cancelled, ProviderFailed, ToolCallsRequested}
  {
    hide Continues;
    var summary := "";
    var current: Option<Id> := None;
    StaysPut(store.entries);
    while true
      invariant Continues(old(store.entries), store.entries)
      invariant old(token.cancelled) ==> token.cancelled
      invariant summary == stream.text
      invariant stream.lastPoll != Some(End) && stream.lastPoll != Some(Polled.Error) && !AsksForTools(stream)
      invariant current == if stream.phase == NotStarted then None else Some(stream.id)
      decreases stream.remaining + Ahead(stream.phase)
    {
      ghost var before := store.entries;
      Await(store, token);
      ContinuesTwice(old(store.entries), before, store.entries);
      if token.cancelled {
        return Err(Cancelled);
      }
      var polled := stream.Next();
      match polled {
        case End => break;
        case Error => return Err(ProviderFailed);
        case Item(event) =>
          match event {
            case MessageStarted(id) => current := Some(id);
            case TextDelta(id, delta) =>
              if current == Some(id) {
                summary := summary + delta;
              }
            case MessageCompleted(id, calls) =>
              if current == Some(id) && calls.Some? {
                return Err(ToolCallsRequested);
              }
          }
      }
    }
    return Ok(summary);
  }

  /** The answer of the provider to the messages, under the instruction to summarise them. */
  method Summarize(messages: seq<Message>, store: SessionStore, token: CancelToken)
    returns (r: Result<string, CompactionError>, ghost answer: ProviderStream?)
    modifies store, token
    ensures if answer != null then AsksAbout(answer.prompt, messages) && Explains(r, answer)
            else r == Err(ProviderFailed)
    ensures Continues(old(store.entries), store.entries)
    ensures old(token.cancelled) ==> r.Err?
    ensures r == Err(Cancelled) ==> token.cancelled
    ensures old(token.cancelled) ==> token.cancelled
    ensures r.Err? ==> r.error in {Cancelled, ProviderFailed, ToolCallsRequested}
  {
    hide Continues, AsksAbout;
    StaysPut(store.entries);
    answer := null;
    var prompt := BuildSummaryPrompt(messages);
    var stream := RequestStream(prompt, UsedIds(store.entries), false, AnyCalls);
    ghost var before := store.entries;
    Await(store, token);
    if stream.Err? {
      return Err(ProviderFailed), null;
    }
    ghost var middle := store.entries;
    r := CollectSummary(stream.value, store, token);
    ContinuesTwice(before, middle, store.entries);
    answer := stream.value;
  }

  // ---------------------------------------------------------------- compacting

  predicate TooLarge(config: Config, m: Message) {
    EstimateTokens([AsLlm(m)]) > config.budget
  }

  lemma TooLargeInBytes(config: Config, m: Message)
    ensures TooLarge(config, m) <==> BodyBytes(m.body) > 4 * config.budget
  {
    hide BodyBytes, EstimateTokens, EstimateMessage;
    EstimateOfOne(AsLlm(m));
    EstimateRoundsUp(AsLlm(m));
  }

  /** The messages past the last compacted block. */
  function Uncompacted(log: seq<Entry>): seq<Message>
    requires Reachable(log)
  {
    ReachableIsSound(log);
    Messages(log)[Frontier(Messages(log), Compactions(log))..]
  }

  method AnyTooLarge(config: Config, messages: seq<Message>) returns (any: bool)
    ensures any <==> exists i :: 0 <= i < |messages| && TooLarge(config, messages[i])
  {
    for i := 0 to |messages|
      invariant forall j :: 0 <= j < i ==> !TooLarge(config, messages[j])
    {
      if TooLarge(config, messages[i]) {
        return true;
      }
    }
    return false;
  }

  ghost predicate AllCompacted(log: seq<Entry>) {
    Frontier(Messages(log), Compactions(log)) == |Messages(log)|
  }

  /** The log a run compacts: its last message is the run's own developer message, not yet compacted. */
  ghost predicate AwaitsRun(log: seq<Entry>) {
    var msgs := Messages(log);
    Reachable(log) && Frontier(msgs, Compactions(log)) < |msgs| && msgs[|msgs| - 1].role == Developer
  }

  /** `later` is `log` with the legal entry `c` recorded. */
  ghost predicate Recorded(log: seq<Entry>, c: Compaction, later: seq<Entry>) {
    && Reachable(later) && LegalCompaction(log, c)
    && Messages(later) == Messages(log) && Compactions(later) == Compactions(log) + [c]
  }

  ghost predicate NothingRecorded(log: seq<Entry>, later: seq<Entry>) {
    Reachable(later) && Messages(later) == Messages(log) && Compactions(later) == Compactions(log)
  }

  /** Once `c` is recorded, the summaries and the skills alone stay below the threshold. */
  predicate Effective(config: Config, log: seq<Entry>, c: Compaction) {
    !IsAboveThreshold(Tokens(AllDigests(Compactions(log) + [c])) + Tokens(NotesFor(ActiveSkills(log))),
                      config.budget, config.percent)
  }

  ghost predicate Ineffective(config: Config, log: seq<Entry>, later: seq<Entry>) {
    exists c :: Recorded(log, c, later) && !Effective(config, log, c)
  }

  /** The messages of the block, by the positions of its two ends. */
  method SelectBlock(messages: seq<Message>, range: Range) returns (selected: seq<Message>)
    requires messages != []
    ensures UniqueIds(messages) ==>
      forall a, b :: 0 <= a <= b < |messages| && range == Range(messages[a].id, messages[b].id) ==>
        selected == messages[a..b + 1]
  {
    var first := PositionById(messages, range.firstId);
    var last := PositionById(messages, range.lastId);
    var a := if first.Some? then first.value else 0;
    var b := if last.Some? then last.value else |messages| - 1;
    var firstIndex, lastIndex := if a <= b then a else b, if a <= b then b else a;
    selected := messages[firstIndex..lastIndex + 1];
  }

  /** The block to compact: on a reachable log, everything past the last compacted block, if there is anything. */
  method ChooseBlock(entries: seq<Entry>) returns (range: Option<Range>, selected: seq<Message>)
    requires Reachable(entries)
    ensures range.None? <==> AllCompacted(entries)
    ensures range.Some? ==>
      OldestRange(Messages(entries), CoveredIds(Messages(entries), Compactions(entries)), range.value)
    ensures selected == Uncompacted(entries)
  {
    hide Reachable, CoveredIds, Tiled, Frontier, OldestRange;
    var messages, _ := CollectMessages(entries);
    var compacted := CollectCompactedIds(entries);
    range := SelectCompactionRange(messages, compacted);
    WhatIsCompacted(entries);
    if range.None? {
      return None, [];
    }
    RangeIsTail(entries, range.value);
    selected := SelectBlock(messages, range.value);
  }

  /** Every message is covered exactly when the blocks reach the end. */
  lemma WhatIsCompacted(log: seq<Entry>)
    requires Reachable(log)
    ensures var msgs := Messages(log);
            var covered := CoveredIds(msgs, Compactions(log));
            && UniqueIds(msgs) && Frontier(msgs, Compactions(log)) <= |msgs|
            && (AllCompacted(log) <==> forall p :: 0 <= p < |msgs| ==> msgs[p].id in covered)
  {
    hide Reachable, CoveredIds, Tiled, Frontier, Linked, Answered;
    ReachableIsSound(log);
    var msgs, comps := Messages(log), Compactions(log);
    FrontierOfTiled(msgs, comps);
    forall p | 0 <= p < |msgs| ensures msgs[p].id in CoveredIds(msgs, comps) <==> p < Frontier(msgs, comps) {
      Marked(msgs, comps, p);
    }
    if !AllCompacted(log) {
      assert msgs[|msgs| - 1].id !in CoveredIds(msgs, comps);
    }
  }

  lemma LastIsUncompacted(log: seq<Entry>)
    requires AwaitsRun(log)
    ensures Sound(log)
    ensures var msgs := Messages(log); msgs[|msgs| - 1].id !in CoveredIds(msgs, Compactions(log))
  {
    hide Reachable, CoveredIds, Tiled, Frontier, Linked, Answered;
    ReachableIsSound(log);
    Marked(Messages(log), Compactions(log), |Messages(log)| - 1);
  }

  /** Nothing the choice of a block depends on changes while other tasks run. */
  lemma StillLegal(log: seq<Entry>, later: seq<Entry>, c: Compaction)
    requires Continues(log, later) && LegalCompaction(log, c)
    ensures LegalCompaction(later, c)
  {
    hide Messages, Compactions, OldestBlock, CoveredIds;
  }

  lemma RecordedNext(log: seq<Entry>, later: seq<Entry>, c: Compaction)
    requires Reachable(log) && Continues(log, later) && LegalCompaction(log, c)
    ensures Recorded(log, c, later + [CompactionEntry(c)])
  {
    hide Messages, Compactions, LegalCompaction, Reachable;
    StillLegal(log, later, c);
    Appended(later, CompactionEntry(c));
    ReachableNext(later, CompactionEntry(c));
  }

  lemma NewEntryIsLegal(log: seq<Entry>, later: seq<Entry>, range: Range, c: Compaction)
    requires AwaitsRun(log) && Continues(log, later)
    requires OldestRange(Messages(log), CoveredIds(Messages(log), Compactions(log)), range)
    requires c.firstId == range.firstId && c.lastId == range.lastId && c.id !in UsedIds(later)
    ensures LegalCompaction(log, c)
  {
    hide Messages, Compactions, Reachable, OldestBlock, CoveredIds, Frontier;
  }

  /** `later` has one more entry than `log`, for the oldest uncompacted block. */
  ghost predicate Written(log: seq<Entry>, c: Compaction, later: seq<Entry>) {
    && Messages(later) == Messages(log) && Compactions(later) == Compactions(log) + [c]
    && OldestRange(Messages(log), CoveredIds(Messages(log), Compactions(log)), Range(c.firstId, c.lastId))
  }

  /** With the entry, the path is still over the threshold. */
  ghost predicate StillNeeded(config: Config, log: seq<Entry>, c: Compaction) {
    Needed(config, Path(log + [CompactionEntry(c)]))
  }

  /** Writes the entry, then looks at what it achieved on the log as it was read. */
  method RecordEntry(config: Config, entries: seq<Entry>, c: Compaction, store: SessionStore, token: CancelToken)
    returns (r: Result<Option<Compaction>, CompactionError>)
    requires Reachable(entries) && Continues(entries, store.entries) && c.id !in UsedIds(store.entries)
    requires var covered := CoveredIds(Messages(entries), Compactions(entries));
             OldestRange(Messages(entries), covered, Range(c.firstId, c.lastId))
    modifies store, token
    ensures old(token.cancelled) ==> token.cancelled
    ensures r == Ok(Some(c)) || r == Err(StoreFailed) || r == Err(IneffectiveCompaction)
    ensures r == Err(StoreFailed) ==> NothingRecorded(entries, store.entries)
    ensures r != Err(StoreFailed) ==> Written(entries, c, store.entries)
    ensures r == Ok(Some(c)) ==> !StillNeeded(config, entries, c)
    ensures r == Err(IneffectiveCompaction) ==> StillNeeded(config, entries, c)
    ensures AwaitsRun(entries) && r != Err(StoreFailed) ==>
      Recorded(entries, c, store.entries) && (r == Ok(Some(c)) <==> Effective(config, entries, c))
  {
    hide Reachable, LegalCompaction, Path, Tokens, Messages, Compactions, UniqueIds, OldestRange, CoveredIds;
    hide Continues, UsedIds, AwaitsRun, Effective, Recorded, Needed;
    var updated := entries + [CompactionEntry(c)];
    ghost var first := store.entries;
    Await(store, token);
    ContinuesTwice(entries, first, store.entries);
    SameMessages(first, store.entries);
    ghost var before := store.entries;
    var appended := store.AppendCompactionEntry(c);
    SameMessages(entries, before);
    if appended.Err? {
      ContinuesReachable(entries, before);
      return Err(StoreFailed);
    }
    Appended(before, CompactionEntry(c));
    Appended(entries, CompactionEntry(c));
    PathIsKnown(entries);
    if AwaitsRun(entries) {
      Judged(config, entries, before, c);
    }
    var path := BuildActivePath(updated);
    if Needed(config, path) {
      return Err(IneffectiveCompaction);
    }
    return Ok(Some(c));
  }

  /** On the log of a starting run the entry is legal, and what is left to count are summaries and skills. */
  lemma Judged(config: Config, log: seq<Entry>, later: seq<Entry>, c: Compaction)
    requires AwaitsRun(log) && Continues(log, later) && c.id !in UsedIds(later)
    requires OldestRange(Messages(log), CoveredIds(Messages(log), Compactions(log)), Range(c.firstId, c.lastId))
    ensures Recorded(log, c, later + [CompactionEntry(c)])
    ensures StillNeeded(config, log, c) <==> !Effective(config, log, c)
  {
    hide Messages, Compactions, LegalCompaction, Reachable, OldestRange, CoveredIds, UsedIds, Frontier, Path, Tokens;
    hide Continues;
    NewEntryIsLegal(log, later, Range(c.firstId, c.lastId), c);
    RecordedNext(log, later, c);
    UpdatedPath(log, c);
  }

  lemma UpdatedPath(log: seq<Entry>, c: Compaction)
    requires Reachable(log) && LegalCompaction(log, c)
    ensures UniqueIds(Messages(log + [CompactionEntry(c)]))
    ensures Tokens(Path(log + [CompactionEntry(c)]))
         == Tokens(AllDigests(Compactions(log) + [c])) + Tokens(NotesFor(ActiveSkills(log)))
  {
    hide Reachable, LegalCompaction, Path, Tokens, Messages, Compactions, UniqueIds, Tiled, Linked, Answered;
    Appended(log, CompactionEntry(c));
    ReachableIsSound(log);
    CompactedPathTokens(log, c);
  }

  lemma PathIsKnown(log: seq<Entry>)
    requires Reachable(log)
    ensures UniqueIds(Messages(log))
  {
    hide Reachable, Tiled, Linked, Answered;
    ReachableIsSound(log);
  }

  ghost predicate Ineffectual(config: Config, log: seq<Entry>, later: seq<Entry>) {
    exists c :: Written(log, c, later) && StillNeeded(config, log, c)
  }

  /** Compacts at most once, and lacks history exactly when everything is compacted. On the log of a starting run that
      cannot be, and once the entry is written success is decided by the summaries and the skills alone. */
  method CompactIfNeeded(config: Config, runId: Id, entries: seq<Entry>, store: SessionStore, token: CancelToken)
    returns (r: Result<Option<Compaction>, CompactionError>, ghost answer: ProviderStream?)
    requires Reachable(entries) && Continues(entries, store.entries)
    modifies store, token
    ensures r == Ok(None) <==> !Needed(config, Path(entries))
    ensures r == Err(NoPriorHistory) <==> Needed(config, Path(entries)) && AllCompacted(entries)
    ensures r == Err(SingleMessageExceedsBudget) <==>
      Needed(config, Path(entries)) && exists m :: m in Uncompacted(entries) && TooLarge(config, m)
    ensures r.Ok? && r.value.Some? ==>
      Written(entries, r.value.value, store.entries) && !StillNeeded(config, entries, r.value.value)
    ensures r.Ok? && r.value.Some? ==>
      && r.value.value.runId == runId && answer != null
      && AsksAbout(answer.prompt, Uncompacted(entries)) && answer.text == r.value.value.summary
    ensures r == Err(IneffectiveCompaction) ==> Ineffectual(config, entries, store.entries)
    ensures r == Ok(None) || (r.Err? && r != Err(IneffectiveCompaction)) ==> NothingRecorded(entries, store.entries)
    ensures AwaitsRun(entries) ==> r != Err(NoPriorHistory)
    ensures AwaitsRun(entries) && r.Ok? && r.value.Some? ==>
      Recorded(entries, r.value.value, store.entries) && Effective(config, entries, r.value.value)
    ensures AwaitsRun(entries) && r == Err(IneffectiveCompaction) ==> Ineffective(config, entries, store.entries)
    ensures r == Err(Cancelled) ==> token.cancelled
    ensures old(token.cancelled) ==> token.cancelled && (r.Err? || r == Ok(None))
  {
    hide Reachable, LegalCompaction, Path, Messages, Compactions, UniqueIds, Needed, Effective, Recorded, Uncompacted;
    hide OldestRange, CoveredIds, Frontier, TooLarge, UsedIds, AsksAbout, Continues, Written, StillNeeded;
    answer := null;
    PathIsKnown(entries);
    ContinuesReachable(entries, store.entries);
    SameMessages(entries, store.entries);
    var path := BuildActivePath(entries);
    if !Needed(config, path) {
      return Ok(None), null;
    }
    var range, selected := ChooseBlock(entries);
    if range.None? {
      NothingUncompacted(entries);
      return Err(NoPriorHistory), null;
    }
    var tooLarge := AnyTooLarge(config, selected);
    if tooLarge {
      return Err(SingleMessageExceedsBudget), null;
    }
    ghost var before := store.entries;
    var summary;
    summary, answer := Summarize(selected, store, token);
    ContinuesTwice(entries, before, store.entries);
    ContinuesReachable(entries, store.entries);
    SameMessages(entries, store.entries);
    if summary.Err? {
      return Err(summary.error), null;
    }
    var id := NewId(UsedIds(store.entries));
    var entry := Compaction(id, summary.value, range.value.firstId, range.value.lastId, runId);
    r := RecordEntry(config, entries, entry, store, token);
  }

  lemma NothingUncompacted(log: seq<Entry>)
    requires Reachable(log) && AllCompacted(log)
    ensures Uncompacted(log) == []
  {
    hide Reachable, Frontier, Messages, Compactions;
  }
}
