/** The message list shown to the user, rebuilt from the same log. */
module SessionView {
  import opened Protocol
  import opened History
  import opened ActivePath

  datatype ViewError = MissingHeader

  datatype View = View(workspace: string, messages: seq<Message>, compactions: seq<Compaction>)

  /** The index of the first compaction entry whose oldest message is at `p`. */
  function FirstStarting(msgs: seq<Message>, comps: seq<Compaction>, p: nat): (r: Option<nat>)
    ensures r.Some? ==> r.value < |comps| && StartsAt(msgs, comps[r.value], p)
    ensures r.Some? ==> forall j :: 0 <= j < r.value ==> !StartsAt(msgs, comps[j], p)
    ensures r.None? ==> forall j :: 0 <= j < |comps| ==> !StartsAt(msgs, comps[j], p)
  {
    hide StartsAt;
    if comps == [] then None
    else
      var earlier := FirstStarting(msgs, comps[..|comps| - 1], p);
      if earlier.Some? then earlier
      else if StartsAt(msgs, comps[|comps| - 1], p) then Some(|comps| - 1) else None
  }

  predicate StartsAt(msgs: seq<Message>, c: Compaction, p: nat) {
    var span := SpanOf(msgs, c);
    span.Some? && span.value.lo == p
  }

  /** The message that stands for a compacted block; its parent is the parent of the block's oldest message. */
  function SummaryMessage(msgs: seq<Message>, c: Compaction): Message
    requires SpanOf(msgs, c).Some?
  {
    Message(c.id, msgs[SpanOf(msgs, c).value.lo].parentId, Role.Summary, None, TextBody(c.summary))
  }

  /** The view of the messages from position `p` on: at the start of a block its summary, then past the block. */
  function ViewFrom(msgs: seq<Message>, comps: seq<Compaction>, p: nat): seq<Message>
    decreases |msgs| - p
  {
    if p >= |msgs| then []
    else
      var start := FirstStarting(msgs, comps, p);
      if start.Some? then
        var c := comps[start.value];
        [SummaryMessage(msgs, c)] + ViewFrom(msgs, comps, SpanOf(msgs, c).value.hi + 1)
      else if Covered(msgs, comps, p) then ViewFrom(msgs, comps, p + 1)
      else [msgs[p]] + ViewFrom(msgs, comps, p + 1)
  }

  function ViewMessages(log: seq<Entry>): seq<Message> {
    ViewFrom(Messages(log), Compactions(log), 0)
  }

  /** Stands for the block of `c`: its id, its summary as the only text, and the parent of its oldest message. */
  ghost predicate StandsForBlock(m: Message, msgs: seq<Message>, c: Compaction) {
    && m.id == c.id && m.role == Role.Summary && m.toolCallId == None && m.body == [Text(c.summary)]
    && exists p: nat :: p < |msgs| && StartsAt(msgs, c, p) && m.parentId == msgs[p].parentId
  }

  /** Every message of the view is an uncovered message of the log or stands for one of its blocks. */
  lemma {:induction false} ViewShowsTheLog(msgs: seq<Message>, comps: seq<Compaction>, p: nat, k: nat)
    requires k < |ViewFrom(msgs, comps, p)|
    ensures var m := ViewFrom(msgs, comps, p)[k];
            || (exists q :: p <= q < |msgs| && !Covered(msgs, comps, q) && m == msgs[q])
            || (exists i :: 0 <= i < |comps| && StandsForBlock(m, msgs, comps[i]))
    decreases |msgs| - p
  {
    hide Covered, SpanOf;
    var start := FirstStarting(msgs, comps, p);
    if start.Some? {
      var c := comps[start.value];
      if k == 0 {
        assert StandsForBlock(SummaryMessage(msgs, c), msgs, c);
      } else {
        ViewShowsTheLog(msgs, comps, SpanOf(msgs, c).value.hi + 1, k - 1);
      }
    } else if Covered(msgs, comps, p) {
      ViewShowsTheLog(msgs, comps, p + 1, k);
    } else if k > 0 {
      ViewShowsTheLog(msgs, comps, p + 1, k - 1);
    }
  }

  predicate IsHeaderOf(e: Entry, sessionId: Id) {
    e.Header? && e.sessionId == sessionId
  }

  ghost predicate FirstHeaderSays(entries: seq<Entry>, sessionId: Id, workspace: string) {
    exists i ::
      0 <= i < |entries| && entries[i] == Header(sessionId, workspace) &&
      forall j :: 0 <= j < i ==> !IsHeaderOf(entries[j], sessionId)
  }

  /** The workspace of the first header with the session's id. */
  method ExtractWorkspace(sessionId: Id, entries: seq<Entry>) returns (r: Result<string, ViewError>)
    ensures r.Ok? ==> FirstHeaderSays(entries, sessionId, r.value)
    ensures r.Err? <==> forall i :: 0 <= i < |entries| ==> !IsHeaderOf(entries[i], sessionId)
  {
    for i := 0 to |entries|
      invariant forall j :: 0 <= j < i ==> !IsHeaderOf(entries[j], sessionId)
    {
      if entries[i].Header? && entries[i].sessionId == sessionId {
        return Ok(entries[i].workspace);
      }
    }
    return Err(MissingHeader);
  }

  method CollectMessages(entries: seq<Entry>) returns (ordered: seq<Message>, compactions: seq<Compaction>)
    ensures ordered == Messages(entries) && compactions == Compactions(entries)
  {
    ordered, compactions := [], [];
    for i := 0 to |entries|
      invariant ordered == Messages(entries[..i]) && compactions == Compactions(entries[..i])
    {
      AppendedAt(entries, i);
      match entries[i] {
        case MessageEntry(message) => ordered := ordered + [message];
        case CompactionEntry(compaction) => compactions := compactions + [compaction];
        case Header(_, _) =>
        case SkillActivated(_) =>
      }
    }
    assert entries[..|entries|] == entries;
  }

  lemma StartsWhere(msgs: seq<Message>, c: Compaction, p: nat)
    ensures var m := Positions(msgs);
            StartsAt(msgs, c, p) <==>
              && c.firstId in m && c.lastId in m
              && (if m[c.firstId] <= m[c.lastId] then m[c.firstId] else m[c.lastId]) == p
  {
  }

  lemma NoneStarting(msgs: seq<Message>, comps: seq<Compaction>, p: nat)
    requires forall i :: 0 <= i < |comps| ==> !StartsAt(msgs, comps[i], p)
    ensures FirstStarting(msgs, comps, p).None?
  {
    hide FirstStarting;
  }

  lemma FirstStartingIs(msgs: seq<Message>, comps: seq<Compaction>, p: nat, j: nat)
    requires j < |comps| && StartsAt(msgs, comps[j], p)
    requires forall i :: 0 <= i < j ==> !StartsAt(msgs, comps[i], p)
    ensures FirstStarting(msgs, comps, p) == Some(j)
  {
    hide FirstStarting;
    var r := FirstStarting(msgs, comps, p);
    assert r.Some?;
    assert StartsAt(msgs, comps[r.value], p);
  }

  /** The first compaction entry whose block starts at `index`. */
  method FindStart(compactions: seq<Compaction>, positions: map<Id, nat>, index: nat, ghost msgs: seq<Message>)
    returns (found: Option<nat>)
    requires positions == Positions(msgs)
    ensures found == FirstStarting(msgs, compactions, index)
  {
    hide FirstStarting, StartsAt;
    for j := 0 to |compactions|
      invariant forall i :: 0 <= i < j ==> !StartsAt(msgs, compactions[i], index)
    {
      var c := compactions[j];
      if c.firstId in positions && c.lastId in positions {
        var a, b := positions[c.firstId], positions[c.lastId];
        if (if a <= b then a else b) == index {
          assert StartsAt(msgs, c, index) by { StartsWhere(msgs, c, index); }
          FirstStartingIs(msgs, compactions, index, j);
          return Some(j);
        }
      }
      StartsWhere(msgs, c, index);
    }
    NoneStarting(msgs, compactions, index);
    return None;
  }

  lemma ViewUnfold(msgs: seq<Message>, comps: seq<Compaction>, p: nat, shown: seq<Message>)
    requires p < |msgs|
    ensures var start := FirstStarting(msgs, comps, p);
            shown + ViewFrom(msgs, comps, p) ==
              if start.Some? then
                (shown + [SummaryMessage(msgs, comps[start.value])])
                + ViewFrom(msgs, comps, SpanOf(msgs, comps[start.value]).value.hi + 1)
              else if Covered(msgs, comps, p) then shown + ViewFrom(msgs, comps, p + 1)
              else (shown + [msgs[p]]) + ViewFrom(msgs, comps, p + 1)
  {
    hide SpanOf, Covered, FirstStarting, SummaryMessage;
  }

  lemma BlockOf(msgs: seq<Message>, c: Compaction, p: nat)
    requires StartsAt(msgs, c, p)
    ensures var m := Positions(msgs);
            && c.firstId in m && c.lastId in m
            && m[c.firstId] < |msgs| && m[c.lastId] < |msgs|
            && (p == if m[c.firstId] <= m[c.lastId] then m[c.firstId] else m[c.lastId])
            && SpanOf(msgs, c) == Some(Span(p, if m[c.firstId] <= m[c.lastId] then m[c.lastId] else m[c.firstId]))
            && SummaryMessage(msgs, c) == Message(c.id, msgs[p].parentId, Role.Summary, None, TextBody(c.summary))
  {
    hide Positions;
  }

  /** Walks the messages in order; a block is replaced by its summary and skipped. */
  method WalkMessages(ordered: seq<Message>, compactions: seq<Compaction>, positions: map<Id, nat>, compacted: set<Id>)
    returns (messages: seq<Message>)
    requires positions == Positions(ordered) && compacted == CoveredIds(ordered, compactions)
    ensures UniqueIds(ordered) ==> messages == ViewFrom(ordered, compactions, 0)
  {
    hide Positions, CoveredIds, FirstStarting, ViewFrom, UniqueIds, Covered, SpanOf, StartsAt, SummaryMessage;
    messages := [];
    var index: nat := 0;
    assert [] + ViewFrom(ordered, compactions, 0) == ViewFrom(ordered, compactions, 0);
    while index < |ordered|
      invariant UniqueIds(ordered) ==>
        messages + ViewFrom(ordered, compactions, index) == ViewFrom(ordered, compactions, 0)
      decreases |ordered| - index
    {
      var start := FindStart(compactions, positions, index, ordered);
      ViewUnfold(ordered, compactions, index, messages);
      if UniqueIds(ordered) {
        CoveredById(ordered, compactions, index);
      }
      if start.Some? {
        var c := compactions[start.value];
        BlockOf(ordered, c, index);
        var a, b := positions[c.firstId], positions[c.lastId];
        var firstPosition, lastPosition := if a <= b then a else b, if a <= b then b else a;
        var parentId := ordered[firstPosition].parentId;
        messages := messages + [Message(c.id, parentId, Role.Summary, None, TextBody(c.summary))];
        index := lastPosition + 1;
      } else if ordered[index].id in compacted {
        index := index + 1;
      } else {
        messages := messages + [ordered[index]];
        index := index + 1;
      }
    }
    ViewEnd(ordered, compactions, index, messages);
  }

  lemma ViewEnd(msgs: seq<Message>, comps: seq<Compaction>, p: nat, shown: seq<Message>)
    requires p >= |msgs|
    ensures shown + ViewFrom(msgs, comps, p) == shown
  {
  }

  method BuildView(entries: seq<Entry>, sessionId: Id) returns (r: Result<View, ViewError>)
    ensures r.Err? <==> forall i :: 0 <= i < |entries| ==> !IsHeaderOf(entries[i], sessionId)
    ensures r.Ok? ==> FirstHeaderSays(entries, sessionId, r.value.workspace)
    ensures r.Ok? && UniqueIds(Messages(entries)) ==> r.value.messages == ViewMessages(entries)
    ensures r.Ok? ==> r.value.compactions == Compactions(entries)
  {
    var workspace := ExtractWorkspace(sessionId, entries);
    if workspace.Err? {
      return Err(workspace.error);
    }
    var positions, ids := IndexMessages(entries);
    var ordered, compactions := CollectMessages(entries);
    var compacted := MarkAll(entries, positions, ids);
    var messages := WalkMessages(ordered, compactions, positions, compacted);
    return Ok(View(workspace.value, messages, compactions));
  }
}
