/** Reconstruction of the model's context from the session log. */
module ActivePath {
  import opened Protocol
  import opened History
  import opened Slots

  /** What an element of the active path stands for. `Pointer` is a kept tool result whose body is
      replaced by a short reference to the skill it activated; `Note` is the synthetic message that
      carries an activated skill; `Digest` is the summary of a compacted block. */
  datatype PathItem =
    | Kept(message: Message)
    | Pointer(message: Message, skill: string)
    | Note(name: string, content: string)
    | Digest(entry: Compaction)

  function PointerText(skill: string): string {
    "Skill `" + skill + "`" + " activated; its instructions are provided in the conversation."
  }

  function NoteText(name: string, content: string): string {
    "Skill `" + name + "`" + " has been activated. Follow these instructions:\n\n" + content
  }

  /** The context message an item becomes. */
  function Render(item: PathItem): LlmMessage {
    match item
    case Kept(m) => AsLlm(m)
    case Pointer(m, skill) =>
      LlmMessage(m.role, TextBody(PointerText(skill)), m.toolCallId)
    case Note(name, content) =>
      LlmMessage(Developer, TextBody(NoteText(name, content)), None)
    case Digest(c) => LlmMessage(Role.Summary, TextBody(c.summary), None)
  }

  // ---------------------------------------------------------------- reference definition

  /** The skill names requested by `activate_skill` calls, by call id; a later call replaces an earlier one. */
  function CallsInto(calls: map<Id, string>, body: Body): map<Id, string> {
    if body == [] then calls
    else
      var before := CallsInto(calls, body[..|body| - 1]);
      match body[|body| - 1]
      case Text(_) => before
      case Call(call) =>
        if call.name == "activate_skill" && call.arguments.name.Some?
        then before[call.id := call.arguments.name.value] else before
  }

  function SkillCalls(msgs: seq<Message>): map<Id, string> {
    if msgs == [] then map[]
    else CallsInto(SkillCalls(msgs[..|msgs| - 1]), msgs[|msgs| - 1].body)
  }

  lemma SkillCallsPush(msgs: seq<Message>, m: Message)
    ensures SkillCalls(msgs + [m]) == CallsInto(SkillCalls(msgs), m.body)
  {
    assert (msgs + [m])[..|msgs|] == msgs;
  }

  /** A block that asks for a skill under this call id. */
  predicate AsksForSkill(block: Block, id: Id) {
    && block.Call? && block.call.id == id
    && block.call.name == "activate_skill" && block.call.arguments.name.Some?
  }

  ghost predicate NeverAsks(body: Body, id: Id) {
    forall i :: 0 <= i < |body| ==> !AsksForSkill(body[i], id)
  }

  /** The last block of the body that asks under this id. */
  ghost predicate AsksLast(body: Body, i: int, id: Id) {
    0 <= i < |body| && AsksForSkill(body[i], id) && forall j :: i < j < |body| ==> !AsksForSkill(body[j], id)
  }

  /** The last block of the conversation that asks under this id. */
  ghost predicate LatestAsking(msgs: seq<Message>, p: int, i: int, id: Id) {
    && 0 <= p < |msgs| && AsksLast(msgs[p].body, i, id)
    && forall q :: p < q < |msgs| ==> NeverAsks(msgs[q].body, id)
  }

  lemma {:induction false} CallsOfOneBody(calls: map<Id, string>, body: Body, id: Id)
    ensures NeverAsks(body, id) ==> (id in CallsInto(calls, body) <==> id in calls)
    ensures NeverAsks(body, id) && id in calls ==> CallsInto(calls, body)[id] == calls[id]
    ensures !NeverAsks(body, id) ==> id in CallsInto(calls, body)
    ensures !NeverAsks(body, id) ==> exists i ::
      AsksLast(body, i, id) && CallsInto(calls, body)[id] == body[i].call.arguments.name.value
  {
    if body != [] {
      var n := |body| - 1;
      CallsOfOneBody(calls, body[..n], id);
      assert forall i :: 0 <= i < n ==> body[..n][i] == body[i];
      if AsksForSkill(body[n], id) {
        assert AsksLast(body, n, id);
      } else if !NeverAsks(body, id) {
        assert !NeverAsks(body[..n], id);
        var i :| AsksLast(body[..n], i, id) &&
          CallsInto(calls, body[..n])[id] == body[..n][i].call.arguments.name.value;
        assert AsksLast(body, i, id);
      }
    }
  }

  /** A call id is in the map exactly when some `activate_skill` call carries it, with the name in the latest one. */
  lemma {:induction false} SkillCallsAreTheLatest(msgs: seq<Message>, id: Id)
    ensures id in SkillCalls(msgs) <==> exists p :: 0 <= p < |msgs| && !NeverAsks(msgs[p].body, id)
    ensures id in SkillCalls(msgs) ==> exists p, i ::
      LatestAsking(msgs, p, i, id) && SkillCalls(msgs)[id] == msgs[p].body[i].call.arguments.name.value
  {
    hide CallsInto, NeverAsks;
    if msgs != [] {
      var n := |msgs| - 1;
      SkillCallsAreTheLatest(msgs[..n], id);
      CallsOfOneBody(SkillCalls(msgs[..n]), msgs[n].body, id);
      assert forall p :: 0 <= p < n ==> msgs[..n][p] == msgs[p];
      if NeverAsks(msgs[n].body, id) {
        if id in SkillCalls(msgs) {
          var p, i :| LatestAsking(msgs[..n], p, i, id) &&
            SkillCalls(msgs[..n])[id] == msgs[..n][p].body[i].call.arguments.name.value;
          assert LatestAsking(msgs, p, i, id);
        }
      } else {
        var i :| AsksLast(msgs[n].body, i, id) &&
          CallsInto(SkillCalls(msgs[..n]), msgs[n].body)[id] == msgs[n].body[i].call.arguments.name.value;
        assert LatestAsking(msgs, n, i, id);
      }
    }
  }

  function Item(calls: map<Id, string>, names: set<string>, m: Message): PathItem {
    if m.toolCallId.Some? && m.toolCallId.value in calls && calls[m.toolCallId.value] in names
    then Pointer(m, calls[m.toolCallId.value]) else Kept(m)
  }

  /** The message at position `p`, unless a compaction entry covers it. */
  function MessageAt(log: seq<Entry>, p: nat): seq<PathItem>
    requires p < |Messages(log)|
  {
    var msgs := Messages(log);
    if Covered(msgs, Compactions(log), p) then []
    else [Item(SkillCalls(msgs), SkillNames(log), msgs[p])]
  }

  /** The skills first activated after exactly `p` messages. */
  function NotesAt(skills: seq<Active>, p: nat): seq<PathItem> {
    if skills == [] then []
    else
      var a := skills[|skills| - 1];
      NotesAt(skills[..|skills| - 1], p) + (if a.seen == p then [Note(a.name, a.content)] else [])
  }

  /** The summaries of the blocks whose oldest message is at `p`, the latest entry first. */
  function DigestsAt(msgs: seq<Message>, comps: seq<Compaction>, p: nat): seq<PathItem> {
    if comps == [] then []
    else
      var c := comps[|comps| - 1];
      var span := SpanOf(msgs, c);
      (if span.Some? && span.value.lo == p then [Digest(c)] else []) + DigestsAt(msgs, comps[..|comps| - 1], p)
  }

  /** What the path holds between the message before `p` and the message after `p`. */
  function Slot(log: seq<Entry>, p: nat): seq<PathItem> {
    DigestsAt(Messages(log), Compactions(log), p)
    + (NotesAt(ActiveSkills(log), p) + (if p < |Messages(log)| then MessageAt(log, p) else []))
  }

  function PathSlots(log: seq<Entry>): seq<seq<PathItem>> {
    seq(|Messages(log)| + 1, p requires 0 <= p => Slot(log, p))
  }

  /** The active path: for each message position in turn, the summaries of the blocks that begin there,
      the skills first activated there, and the message itself unless it is covered. */
  function Path(log: seq<Entry>): seq<PathItem> {
    Flat(PathSlots(log))
  }

  // ---------------------------------------------------------------- the walk over the entries

  function WalkSlot(log: seq<Entry>, skills: seq<Active>, seen: nat, p: nat): seq<PathItem>
    requires seen <= |Messages(log)|
  {
    NotesAt(skills, p) + (if p < seen then MessageAt(log, p) else [])
  }

  /** The slots filled after `seen` messages, with the skills activated so far. */
  function WalkSlots(log: seq<Entry>, skills: seq<Active>, seen: nat): seq<seq<PathItem>>
    requires seen <= |Messages(log)|
  {
    seq(seen + 1, p requires 0 <= p => WalkSlot(log, skills, seen, p))
  }

  function Refresh(skill: Skill): PathItem -> PathItem {
    (item: PathItem) => if item.Note? && item.name == skill.name then Note(skill.name, skill.content) else item
  }

  lemma {:induction false} NotesOutside(skills: seq<Active>, p: nat)
    requires forall i :: 0 <= i < |skills| ==> skills[i].seen < p
    ensures NotesAt(skills, p) == []
  {
    if skills != [] { NotesOutside(skills[..|skills| - 1], p); }
  }

  lemma {:induction false} NotesRenewed(skills: seq<Active>, skill: Skill, p: nat)
    ensures NotesAt(Renewed(skills, skill), p) == Mapped(NotesAt(skills, p), Refresh(skill))
  {
    if skills != [] {
      var n := |skills| - 1;
      NotesRenewed(skills[..n], skill, p);
      assert Renewed(skills, skill)[..n] == Renewed(skills[..n], skill);
    }
  }

  lemma {:induction false} ActivatedBeforeNow(log: seq<Entry>)
    ensures forall i :: 0 <= i < |ActiveSkills(log)| ==> ActiveSkills(log)[i].seen <= |Messages(log)|
  {
    if log != [] { ActivatedBeforeNow(log[..|log| - 1]); }
  }

  /** `path` and `positions` are the slots of the walk laid end to end. */
  ghost predicate Walked(log: seq<Entry>, skills: seq<Active>, seen: nat, path: seq<PathItem>, positions: seq<nat>)
    requires seen <= |Messages(log)|
  {
    var slots := WalkSlots(log, skills, seen);
    path == Flat(slots) && positions == Indices(slots)
  }

  lemma WalkStart(log: seq<Entry>)
    ensures Walked(log, [], 0, [], [])
  {
    FlatPush<PathItem>([], []);
    assert WalkSlots(log, [], 0) == [] + [[]];
  }

  lemma WalkSlotsNext(log: seq<Entry>, skills: seq<Active>, seen: nat)
    requires seen < |Messages(log)|
    requires forall i :: 0 <= i < |skills| ==> skills[i].seen <= seen
    ensures var slots := WalkSlots(log, skills, seen);
            WalkSlots(log, skills, seen + 1) == slots[seen := slots[seen] + MessageAt(log, seen)] + [[]]
  {
    hide NotesAt, MessageAt;
    var slots, more := WalkSlots(log, skills, seen), WalkSlots(log, skills, seen + 1);
    NotesOutside(skills, seen + 1);
    assert more[seen + 1] == [] + [];
    assert slots[seen] == NotesAt(skills, seen) + [];
    assert more[seen] == slots[seen] + MessageAt(log, seen);
    assert forall p :: 0 <= p < seen ==> more[p] == slots[p];
  }

  lemma WalkCovered(log: seq<Entry>, skills: seq<Active>, seen: nat, path: seq<PathItem>, positions: seq<nat>)
    requires seen < |Messages(log)|
    requires forall i :: 0 <= i < |skills| ==> skills[i].seen <= seen
    requires Walked(log, skills, seen, path, positions)
    requires Covered(Messages(log), Compactions(log), seen)
    ensures Walked(log, skills, seen + 1, path, positions)
  {
    var slots := WalkSlots(log, skills, seen);
    WalkSlotsNext(log, skills, seen);
    assert slots[seen] + [] == slots[seen];
    assert slots[seen := slots[seen]] == slots;
    FlatPush(slots, []);
    assert path + [] == path && positions + [] == positions;
  }

  lemma WalkKept(log: seq<Entry>, skills: seq<Active>, seen: nat, path: seq<PathItem>, positions: seq<nat>)
    requires seen < |Messages(log)|
    requires forall i :: 0 <= i < |skills| ==> skills[i].seen <= seen
    requires Walked(log, skills, seen, path, positions)
    requires !Covered(Messages(log), Compactions(log), seen)
    ensures Walked(log, skills, seen + 1,
                   path + [Item(SkillCalls(Messages(log)), SkillNames(log), Messages(log)[seen])], positions + [seen])
  {
    var slots := WalkSlots(log, skills, seen);
    var item := Item(SkillCalls(Messages(log)), SkillNames(log), Messages(log)[seen]);
    WalkSlotsNext(log, skills, seen);
    var grown := slots[seen := slots[seen] + [item]];
    FlatGrow(slots, item);
    FlatPush(grown, []);
    assert Flat(grown) + [] == path + [item] && Indices(grown) + [] == positions + [seen];
  }

  lemma WalkNewSkill(log: seq<Entry>, skills: seq<Active>, seen: nat, skill: Skill, path: seq<PathItem>,
                     positions: seq<nat>)
    requires seen <= |Messages(log)|
    requires Walked(log, skills, seen, path, positions)
    ensures Walked(log, skills + [Active(skill.name, skill.content, seen)], seen,
                   path + [Note(skill.name, skill.content)], positions + [seen])
  {
    var more := skills + [Active(skill.name, skill.content, seen)];
    assert more[..|skills|] == skills;
    var slots, grown := WalkSlots(log, skills, seen), WalkSlots(log, more, seen);
    var note := Note(skill.name, skill.content);
    assert grown[seen] == NotesAt(skills, seen) + [note] + [];
    assert slots[seen] == NotesAt(skills, seen) + [];
    assert grown[seen] == slots[seen] + [note];
    forall p | 0 <= p < seen ensures grown[p] == slots[p] {
      assert NotesAt(more, p) == NotesAt(skills, p) + [];
      assert NotesAt(more, p) == NotesAt(skills, p);
    }
    assert grown == slots[seen := slots[seen] + [note]];
    FlatGrow(slots, note);
  }

  lemma WalkRenewed(log: seq<Entry>, skills: seq<Active>, seen: nat, skill: Skill, path: seq<PathItem>,
                    positions: seq<nat>)
    requires seen <= |Messages(log)|
    requires Walked(log, skills, seen, path, positions)
    ensures Walked(log, Renewed(skills, skill), seen, Mapped(path, Refresh(skill)), positions)
  {
    var slots, renewed := WalkSlots(log, skills, seen), WalkSlots(log, Renewed(skills, skill), seen);
    forall p | 0 <= p < |slots| ensures renewed[p] == Mapped(slots[p], Refresh(skill)) {
      NotesRenewed(skills, skill, p);
    }
    FlatMap(slots, renewed, Refresh(skill));
  }

  // ---------------------------------------------------------------- the builder

  method IndexMessages(entries: seq<Entry>) returns (positions: map<Id, nat>, orderedIds: seq<Id>)
    ensures positions == Positions(Messages(entries))
    ensures orderedIds == IdsOf(Messages(entries))
  {
    positions, orderedIds := map[], [];
    for i := 0 to |entries|
      invariant positions == Positions(Messages(entries[..i]))
      invariant orderedIds == IdsOf(Messages(entries[..i]))
    {
      AppendedAt(entries, i);
      if entries[i].MessageEntry? {
        var message := entries[i].message;
        PositionsPush(Messages(entries[..i]), message);
        IdsPush(Messages(entries[..i]), message);
        positions := positions[message.id := |orderedIds|];
        orderedIds := orderedIds + [message.id];
      }
    }
    assert entries[..|entries|] == entries;
  }

  ghost function IdsBetween(ids: seq<Id>, from: nat, to: nat): set<Id>
    requires from <= to <= |ids|
  {
    if from == to then {} else IdsBetween(ids, from, to - 1) + {ids[to - 1]}
  }

  lemma IdsBetweenNext(ids: seq<Id>, from: nat, to: nat)
    requires from <= to < |ids|
    ensures IdsBetween(ids, from, to + 1) == IdsBetween(ids, from, to) + {ids[to]}
  {
  }

  lemma {:induction false} InIdsBetween(ids: seq<Id>, from: nat, to: nat, id: Id)
    requires from <= to <= |ids|
    ensures id in IdsBetween(ids, from, to) <==> exists q :: from <= q < to && ids[q] == id
  {
    if from < to { InIdsBetween(ids, from, to - 1, id); }
  }

  lemma SpanIds(msgs: seq<Message>, c: Compaction, span: Span)
    requires SpanOf(msgs, c) == Some(span)
    ensures forall id :: id in IdsBetween(IdsOf(msgs), span.lo, span.hi + 1) <==> SpansId(msgs, c, id)
  {
    forall id ensures id in IdsBetween(IdsOf(msgs), span.lo, span.hi + 1) <==> SpansId(msgs, c, id) {
      InIdsBetween(IdsOf(msgs), span.lo, span.hi + 1, id);
      if id in IdsBetween(IdsOf(msgs), span.lo, span.hi + 1) {
        var q :| span.lo <= q < span.hi + 1 && IdsOf(msgs)[q] == id;
        assert msgs[q].id == id && Spans(msgs, c, q);
      }
      if SpansId(msgs, c, id) {
        var q :| 0 <= q < |msgs| && msgs[q].id == id && Spans(msgs, c, q);
        assert IdsOf(msgs)[q] == id;
      }
    }
  }

  lemma SpanByEnds(msgs: seq<Message>, c: Compaction)
    ensures var m := Positions(msgs);
            if c.firstId in m && c.lastId in m then
              SpanOf(msgs, c) == Some(Span(if m[c.firstId] <= m[c.lastId] then m[c.firstId] else m[c.lastId],
                                           if m[c.firstId] <= m[c.lastId] then m[c.lastId] else m[c.firstId]))
            else forall id :: !SpansId(msgs, c, id)
  {
  }

  /** Adds the ids of a compaction entry's block to the skipped ids; an entry with an unknown end adds none. */
  method MarkCompacted(compaction: Compaction, positions: map<Id, nat>, orderedIds: seq<Id>, skipped: set<Id>,
                       ghost msgs: seq<Message>)
    returns (marked: set<Id>)
    requires positions == Positions(msgs)
    requires orderedIds == IdsOf(msgs)
    ensures forall id :: id in marked <==> id in skipped || SpansId(msgs, compaction, id)
  {
    hide Positions, SpanOf, SpansId, IdsOf;
    marked := skipped;
    SpanByEnds(msgs, compaction);
    if compaction.firstId !in positions || compaction.lastId !in positions {
      return;
    }
    var a, b := positions[compaction.firstId], positions[compaction.lastId];
    var firstIndex, lastIndex := if a <= b then a else b, if a <= b then b else a;
    if lastIndex >= |orderedIds| {
      return;
    }
    for p := firstIndex to lastIndex + 1
      invariant marked == skipped + IdsBetween(orderedIds, firstIndex, p)
    {
      IdsBetweenNext(orderedIds, firstIndex, p);
      marked := marked + {orderedIds[p]};
    }
    SpanIds(msgs, compaction, Span(firstIndex, lastIndex));
  }

  method MarkAll(entries: seq<Entry>, positions: map<Id, nat>, orderedIds: seq<Id>) returns (compacted: set<Id>)
    requires positions == Positions(Messages(entries))
    requires orderedIds == IdsOf(Messages(entries))
    ensures compacted == CoveredIds(Messages(entries), Compactions(entries))
  {
    ghost var msgs := Messages(entries);
    compacted := {};
    for i := 0 to |entries|
      invariant forall id :: id in compacted <==> CoversId(msgs, Compactions(entries[..i]), id)
    {
      AppendedAt(entries, i);
      if entries[i].CompactionEntry? {
        CoveredByOneMore(msgs, Compactions(entries[..i]), entries[i].compaction);
        compacted := MarkCompacted(entries[i].compaction, positions, orderedIds, compacted, msgs);
      }
    }
    assert entries[..|entries|] == entries;
  }

  lemma CoveredByOneMore(msgs: seq<Message>, comps: seq<Compaction>, c: Compaction)
    ensures forall p :: Covered(msgs, comps + [c], p) <==> Covered(msgs, comps, p) || Spans(msgs, c, p)
    ensures forall id :: CoversId(msgs, comps + [c], id) <==> CoversId(msgs, comps, id) || SpansId(msgs, c, id)
  {
    var more := comps + [c];
    forall p ensures Covered(msgs, more, p) <==> Covered(msgs, comps, p) || Spans(msgs, c, p) {
      if Covered(msgs, comps, p) {
        var i :| 0 <= i < |comps| && Spans(msgs, comps[i], p);
        assert Spans(msgs, more[i], p);
      }
      if Spans(msgs, c, p) {
        assert Spans(msgs, more[|comps|], p);
      }
    }
  }

  method CollectActivateSkillCalls(entries: seq<Entry>) returns (calls: map<Id, string>)
    ensures calls == SkillCalls(Messages(entries))
  {
    calls := map[];
    for i := 0 to |entries|
      invariant calls == SkillCalls(Messages(entries[..i]))
    {
      AppendedAt(entries, i);
      if entries[i].MessageEntry? {
        var body := entries[i].message.body;
        ghost var before, msgs := calls, Messages(entries[..i]);
        for b := 0 to |body|
          invariant calls == CallsInto(before, body[..b])
        {
          assert body[..b + 1][..b] == body[..b];
          if body[b].Call? && body[b].call.name == "activate_skill" && body[b].call.arguments.name.Some? {
            calls := calls[body[b].call.id := body[b].call.arguments.name.value];
          }
        }
        assert body[..|body|] == body;
        SkillCallsPush(msgs, entries[i].message);
      }
    }
    assert entries[..|entries|] == entries;
  }

  method CollectActivatedNames(entries: seq<Entry>) returns (names: set<string>)
    ensures names == SkillNames(entries)
  {
    names := {};
    for i := 0 to |entries|
      invariant names == SkillNames(entries[..i])
    {
      AppendedAt(entries, i);
      if entries[i].SkillActivated? {
        names := names + {entries[i].skill.name};
      }
    }
    assert entries[..|entries|] == entries;
  }

  /** Every skill note of the path is found through the index, and the index holds nothing else. */
  ghost predicate Indexed(path: seq<PathItem>, index: map<string, nat>) {
    && (forall name :: name in index ==>
          index[name] < |path| && path[index[name]].Note? && path[index[name]].name == name)
    && (forall j :: 0 <= j < |path| && path[j].Note? ==> path[j].name in index && index[path[j].name] == j)
  }

  lemma IndexKeeps(path: seq<PathItem>, index: map<string, nat>, item: PathItem)
    requires Indexed(path, index) && !item.Note?
    ensures Indexed(path + [item], index)
  {
  }

  lemma IndexGrows(path: seq<PathItem>, index: map<string, nat>, skill: Skill)
    requires Indexed(path, index) && skill.name !in index
    ensures Indexed(path + [Note(skill.name, skill.content)], index[skill.name := |path|])
  {
  }

  /** Overwriting the indexed note is the same as refreshing every note of that name: there is only one. */
  lemma IndexRenewed(path: seq<PathItem>, index: map<string, nat>, skill: Skill)
    requires Indexed(path, index) && skill.name in index
    ensures var renewed := path[index[skill.name] := Note(skill.name, skill.content)];
            renewed == Mapped(path, Refresh(skill)) && Indexed(renewed, index)
  {
  }

  lemma MessagePosition(entries: seq<Entry>, i: nat)
    requires i < |entries| && entries[i].MessageEntry?
    ensures var p := |Messages(entries[..i])|;
            p < |Messages(entries)| && Messages(entries)[p] == entries[i].message
  {
    MessagesPrefix(entries, i + 1);
    assert entries[..i + 1][..i] == entries[..i];
  }

  lemma {:induction false} MessagesPrefix(entries: seq<Entry>, i: nat)
    requires i <= |entries|
    ensures Messages(entries[..i]) <= Messages(entries)
    decreases |entries|
  {
    if i == |entries| {
      assert entries[..i] == entries;
    } else {
      var n := |entries| - 1;
      MessagesPrefix(entries[..n], i);
      assert entries[..n][..i] == entries[..i];
    }
  }

  lemma CoveredById(msgs: seq<Message>, comps: seq<Compaction>, p: nat)
    requires UniqueIds(msgs) && p < |msgs|
    ensures msgs[p].id in CoveredIds(msgs, comps) <==> Covered(msgs, comps, p)
  {
    PositionOf(msgs, p);
    if msgs[p].id in CoveredIds(msgs, comps) {
      var q :| 0 <= q < |msgs| && Covered(msgs, comps, q) && msgs[q].id == msgs[p].id;
      assert q == p;
    }
  }

  /** The walk's step for a message. */
  method WalkMessage(message: Message, positions: map<Id, nat>, compacted: set<Id>, calls: map<Id, string>,
                     names: set<string>, path0: seq<PathItem>, positions0: seq<nat>, ghost log: seq<Entry>,
                     ghost skills: seq<Active>, ghost seen: nat, ghost index: map<string, nat>)
    returns (path: seq<PathItem>, originalPositions: seq<nat>)
    requires seen < |Messages(log)| && Messages(log)[seen] == message
    requires positions == Positions(Messages(log))
    requires compacted == CoveredIds(Messages(log), Compactions(log))
    requires calls == SkillCalls(Messages(log)) && names == SkillNames(log)
    requires forall i :: 0 <= i < |skills| ==> skills[i].seen <= seen
    requires |path0| == |positions0| && Indexed(path0, index)
    ensures |path| == |originalPositions| && Indexed(path, index)
    ensures UniqueIds(Messages(log)) && Walked(log, skills, seen, path0, positions0) ==>
      Walked(log, skills, seen + 1, path, originalPositions)
  {
    path, originalPositions := path0, positions0;
    ghost var relevant := UniqueIds(Messages(log)) && Walked(log, skills, seen, path0, positions0);
    if UniqueIds(Messages(log)) {
      CoveredById(Messages(log), Compactions(log), seen);
      PositionOf(Messages(log), seen);
    }
    if message.id in compacted {
      if relevant { WalkCovered(log, skills, seen, path0, positions0); }
      return;
    }
    if relevant { WalkKept(log, skills, seen, path0, positions0); }
    IndexKeeps(path, index, Item(calls, names, message));
    if message.toolCallId.Some? && message.toolCallId.value in calls && calls[message.toolCallId.value] in names {
      path := path + [Pointer(message, calls[message.toolCallId.value])];
    } else {
      path := path + [Kept(message)];
    }
    originalPositions := originalPositions + [positions[message.id]];
  }

  /** The walk's step for an activation record: a repeated name refreshes its note in place. */
  method WalkSkill(skill: Skill, messagesSeen: nat, path0: seq<PathItem>, positions0: seq<nat>,
                   index0: map<string, nat>, ghost log: seq<Entry>, ghost skills: seq<Active>)
    returns (path: seq<PathItem>, originalPositions: seq<nat>, index: map<string, nat>)
    requires messagesSeen <= |Messages(log)|
    requires |path0| == |positions0| && Indexed(path0, index0)
    requires forall name :: name in index0 <==> Has(skills, name)
    ensures |path| == |originalPositions| && Indexed(path, index)
    ensures forall name :: name in index <==> Has(WithSkill(skills, skill, messagesSeen), name)
    ensures Walked(log, skills, messagesSeen, path0, positions0) ==>
      Walked(log, WithSkill(skills, skill, messagesSeen), messagesSeen, path, originalPositions)
  {
    path, originalPositions, index := path0, positions0, index0;
    ghost var relevant := Walked(log, skills, messagesSeen, path0, positions0);
    if skill.name in index {
      RenewedNames(skills, skill);
      if relevant { WalkRenewed(log, skills, messagesSeen, skill, path, originalPositions); }
      IndexRenewed(path, index, skill);
      path := path[index[skill.name] := Note(skill.name, skill.content)];
    } else {
      OneMoreName(skills, Active(skill.name, skill.content, messagesSeen));
      if relevant { WalkNewSkill(log, skills, messagesSeen, skill, path, originalPositions); }
      IndexGrows(path, index, skill);
      index := index[skill.name := |path|];
      path := path + [Note(skill.name, skill.content)];
      originalPositions := originalPositions + [messagesSeen];
    }
  }

  /** The walk: surviving messages and skill notes in log order, each with its original position. */
  method WalkEntries(entries: seq<Entry>, positions: map<Id, nat>, compacted: set<Id>, calls: map<Id, string>,
                     names: set<string>)
    returns (path: seq<PathItem>, originalPositions: seq<nat>)
    requires positions == Positions(Messages(entries))
    requires compacted == CoveredIds(Messages(entries), Compactions(entries))
    requires calls == SkillCalls(Messages(entries)) && names == SkillNames(entries)
    ensures |path| == |originalPositions|
    ensures UniqueIds(Messages(entries)) ==>
      Walked(entries, ActiveSkills(entries), |Messages(entries)|, path, originalPositions)
  {
    hide Positions, CoveredIds, SkillCalls, SkillNames, Walked, Covered, UniqueIds, WithSkill, Messages;
    hide Compactions, ActiveSkills;
    EmptyLog();
    path, originalPositions := [], [];
    var skillMessageIndex: map<string, nat> := map[];
    var messagesSeen: nat := 0;
    WalkStart(entries);
    for i := 0 to |entries|
      invariant messagesSeen == |Messages(entries[..i])| <= |Messages(entries)|
      invariant |path| == |originalPositions|
      invariant Indexed(path, skillMessageIndex)
      invariant forall name :: name in skillMessageIndex <==> Has(ActiveSkills(entries[..i]), name)
      invariant UniqueIds(Messages(entries)) ==>
        Walked(entries, ActiveSkills(entries[..i]), messagesSeen, path, originalPositions)
    {
      AppendedAt(entries, i);
      match entries[i] {
        case MessageEntry(message) =>
          MessagePosition(entries, i);
          ActivatedBeforeNow(entries[..i]);
          path, originalPositions :=
            WalkMessage(message, positions, compacted, calls, names, path, originalPositions,
                        entries, ActiveSkills(entries[..i]), messagesSeen, skillMessageIndex);
          messagesSeen := messagesSeen + 1;
        case SkillActivated(skill) =>
          path, originalPositions, skillMessageIndex :=
            WalkSkill(skill, messagesSeen, path, originalPositions, skillMessageIndex, entries,
                      ActiveSkills(entries[..i]));
        case Header(_, _) =>
        case CompactionEntry(_) =>
      }
    }
    assert entries[..|entries|] == entries;
  }

  lemma RenewedNames(skills: seq<Active>, skill: Skill)
    ensures forall name :: Has(Renewed(skills, skill), name) <==> Has(skills, name)
  {
    forall name ensures Has(Renewed(skills, skill), name) <==> Has(skills, name) {
      if Has(skills, name) {
        var i :| 0 <= i < |skills| && skills[i].name == name;
        assert Renewed(skills, skill)[i].name == name;
      }
    }
  }

  lemma OneMoreName(skills: seq<Active>, a: Active)
    ensures forall name :: Has(skills + [a], name) <==> Has(skills, name) || name == a.name
  {
    assert (skills + [a])[|skills|] == a;
    forall name | Has(skills, name) ensures Has(skills + [a], name) {
      var i :| 0 <= i < |skills| && skills[i].name == name;
      assert (skills + [a])[i].name == name;
    }
  }

  /** First index whose position is at or after `oldest`, or the length. */
  method FirstAtOrAfter(positions: seq<nat>, oldest: nat) returns (k: nat)
    ensures k <= |positions|
    ensures forall j :: 0 <= j < k ==> positions[j] < oldest
    ensures k < |positions| ==> positions[k] >= oldest
  {
    k := 0;
    while k < |positions| && positions[k] < oldest
      invariant k <= |positions|
      invariant forall j :: 0 <= j < k ==> positions[j] < oldest
    {
      k := k + 1;
    }
  }

  function SplicedSlots(log: seq<Entry>, comps: seq<Compaction>): seq<seq<PathItem>> {
    seq(|Messages(log)| + 1, p requires 0 <= p =>
      DigestsAt(Messages(log), comps, p) + WalkSlot(log, ActiveSkills(log), |Messages(log)|, p))
  }

  ghost predicate Spliced(log: seq<Entry>, comps: seq<Compaction>, path: seq<PathItem>, positions: seq<nat>) {
    path == Flat(SplicedSlots(log, comps)) && positions == Indices(SplicedSlots(log, comps))
  }

  lemma DigestsPush(msgs: seq<Message>, comps: seq<Compaction>, c: Compaction, p: nat)
    ensures var span := SpanOf(msgs, c);
            DigestsAt(msgs, comps + [c], p)
            == (if span.Some? && span.value.lo == p then [Digest(c)] else []) + DigestsAt(msgs, comps, p)
    ensures Resolvable(msgs, comps + [c]) == Resolvable(msgs, comps) + (if SpanOf(msgs, c).Some? then 1 else 0)
  {
    assert (comps + [c])[..|comps|] == comps;
  }

  lemma SpliceStart(log: seq<Entry>, path: seq<PathItem>, positions: seq<nat>)
    requires Walked(log, ActiveSkills(log), |Messages(log)|, path, positions)
    ensures Spliced(log, [], path, positions)
  {
    var walk := WalkSlots(log, ActiveSkills(log), |Messages(log)|);
    assert forall p :: 0 <= p < |walk| ==> SplicedSlots(log, [])[p] == [] + walk[p] == walk[p];
    assert SplicedSlots(log, []) == walk;
  }

  lemma SpliceDangling(log: seq<Entry>, comps: seq<Compaction>, c: Compaction, path: seq<PathItem>, positions: seq<nat>)
    requires Spliced(log, comps, path, positions)
    requires SpanOf(Messages(log), c).None?
    ensures Spliced(log, comps + [c], path, positions)
  {
    var before, after := SplicedSlots(log, comps), SplicedSlots(log, comps + [c]);
    forall p | 0 <= p < |before| ensures after[p] == before[p] {
      DigestsPush(Messages(log), comps, c, p);
      assert DigestsAt(Messages(log), comps + [c], p) == DigestsAt(Messages(log), comps, p);
    }
    assert after == before;
  }

  lemma SplicedSlotPush(log: seq<Entry>, comps: seq<Compaction>, c: Compaction, p: nat)
    requires SpanOf(Messages(log), c).Some? && p <= |Messages(log)|
    ensures SplicedSlots(log, comps + [c])[p]
         == (if p == SpanOf(Messages(log), c).value.lo then [Digest(c)] + SplicedSlots(log, comps)[p]
             else SplicedSlots(log, comps)[p])
  {
    DigestsPush(Messages(log), comps, c, p);
    var d, w := DigestsAt(Messages(log), comps, p), WalkSlot(log, ActiveSkills(log), |Messages(log)|, p);
    ConsConcat(Digest(c), d, w);
    assert [] + d == d;
  }

  lemma SplicedSlotsPush(log: seq<Entry>, comps: seq<Compaction>, c: Compaction)
    requires SpanOf(Messages(log), c).Some?
    ensures var before, oldest := SplicedSlots(log, comps), SpanOf(Messages(log), c).value.lo;
            SplicedSlots(log, comps + [c]) == before[oldest := [Digest(c)] + before[oldest]]
  {
    forall p | 0 <= p < |SplicedSlots(log, comps)|
      ensures SplicedSlots(log, comps + [c])[p]
           == (if p == SpanOf(Messages(log), c).value.lo then [Digest(c)] + SplicedSlots(log, comps)[p]
               else SplicedSlots(log, comps)[p])
    {
      SplicedSlotPush(log, comps, c, p);
    }
  }

  /** Inserting at the first position at or after `oldest` puts the summary in front of slot `oldest`. */
  lemma SpliceOne(log: seq<Entry>, comps: seq<Compaction>, c: Compaction, k: nat, path: seq<PathItem>,
                  positions: seq<nat>)
    requires Spliced(log, comps, path, positions)
    requires SpanOf(Messages(log), c).Some?
    requires k <= |positions| && |path| == |positions|
    requires forall j :: 0 <= j < k ==> positions[j] < SpanOf(Messages(log), c).value.lo
    requires k < |positions| ==> positions[k] >= SpanOf(Messages(log), c).value.lo
    ensures var oldest := SpanOf(Messages(log), c).value.lo;
            Spliced(log, comps + [c], path[..k] + [Digest(c)] + path[k..], positions[..k] + [oldest] + positions[k..])
  {
    var oldest := SpanOf(Messages(log), c).value.lo;
    var before := SplicedSlots(log, comps);
    SplicedSlotsPush(log, comps, c);
    InsertionPoint(before, oldest, k);
    FlatInsert(before, oldest, Digest(c));
  }

  lemma SplicedPath(log: seq<Entry>)
    ensures SplicedSlots(log, Compactions(log)) == PathSlots(log)
  {
  }

  /** One summary, inserted before the first element at or after the oldest message of its block. */
  method SpliceSummary(compaction: Compaction, positions: map<Id, nat>, path0: seq<PathItem>, positions0: seq<nat>,
                       ghost log: seq<Entry>, ghost comps: seq<Compaction>)
    returns (path: seq<PathItem>, originalPositions: seq<nat>)
    requires positions == Positions(Messages(log))
    requires |path0| == |positions0|
    ensures |path| == |originalPositions|
    ensures |path| == |path0| + (if SpanOf(Messages(log), compaction).Some? then 1 else 0)
    ensures Spliced(log, comps, path0, positions0) ==> Spliced(log, comps + [compaction], path, originalPositions)
  {
    path, originalPositions := path0, positions0;
    if compaction.firstId !in positions || compaction.lastId !in positions {
      if Spliced(log, comps, path0, positions0) {
        SpliceDangling(log, comps, compaction, path0, positions0);
      }
      return;
    }
    var a, b := positions[compaction.firstId], positions[compaction.lastId];
    var oldest := if a <= b then a else b;
    var k := FirstAtOrAfter(originalPositions, oldest);
    if Spliced(log, comps, path0, positions0) {
      SpliceOne(log, comps, compaction, k, path0, positions0);
    }
    path := path[..k] + [Digest(compaction)] + path[k..];
    originalPositions := originalPositions[..k] + [oldest] + originalPositions[k..];
  }

  method SpliceSummaries(entries: seq<Entry>, positions: map<Id, nat>, path0: seq<PathItem>, positions0: seq<nat>)
    returns (path: seq<PathItem>)
    requires positions == Positions(Messages(entries))
    requires |path0| == |positions0|
    ensures |path| == |path0| + Resolvable(Messages(entries), Compactions(entries))
    ensures Walked(entries, ActiveSkills(entries), |Messages(entries)|, path0, positions0) ==> path == Path(entries)
  {
    ghost var walked := Walked(entries, ActiveSkills(entries), |Messages(entries)|, path0, positions0);
    path := path0;
    var originalPositions := positions0;
    if walked {
      SpliceStart(entries, path0, positions0);
    }
    for i := 0 to |entries|
      invariant |path| == |originalPositions|
      invariant |path| == |path0| + Resolvable(Messages(entries), Compactions(entries[..i]))
      invariant walked ==> Spliced(entries, Compactions(entries[..i]), path, originalPositions)
    {
      AppendedAt(entries, i);
      if entries[i].CompactionEntry? {
        DigestsPush(Messages(entries), Compactions(entries[..i]), entries[i].compaction, 0);
        path, originalPositions :=
          SpliceSummary(entries[i].compaction, positions, path, originalPositions, entries, Compactions(entries[..i]));
      }
    }
    assert entries[..|entries|] == entries;
    SplicedPath(entries);
  }

  method BuildActivePath(entries: seq<Entry>) returns (path: seq<PathItem>)
    ensures UniqueIds(Messages(entries)) ==> path == Path(entries)
  {
    var positions, orderedIds := IndexMessages(entries);
    var compacted := MarkAll(entries, positions, orderedIds);
    var calls := CollectActivateSkillCalls(entries);
    var names := CollectActivatedNames(entries);
    var walked, originalPositions := WalkEntries(entries, positions, compacted, calls, names);
    path := SpliceSummaries(entries, positions, walked, originalPositions);
  }
}
