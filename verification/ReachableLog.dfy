/** The logs that runs can produce, and what every such log keeps. */
module ReachableLog {
  import opened Protocol
  import opened History
  import opened SessionView
  import opened Slots
  import ActivePath

  // ---------------------------------------------------------------- how a log grows

  /** The calls of the last assistant turn that have no result yet, in call order. */
  function Pending(msgs: seq<Message>): seq<ToolCall> {
    if msgs == [] then []
    else
      match msgs[|msgs| - 1].role
      case Assistant => CallsOf(msgs[|msgs| - 1].body)
      case Tool =>
        var open := Pending(msgs[..|msgs| - 1]);
        if open == [] then [] else open[1..]
      case _ => []
  }

  function LastId(msgs: seq<Message>): Option<Id> {
    if msgs == [] then None else Some(msgs[|msgs| - 1].id)
  }

  function CompactionIds(comps: seq<Compaction>): set<Id> {
    set i | 0 <= i < |comps| :: comps[i].id
  }

  function MessageIds(msgs: seq<Message>): set<Id> {
    set i | 0 <= i < |msgs| :: msgs[i].id
  }

  function UsedIds(log: seq<Entry>): set<Id> {
    MessageIds(Messages(log)) + CompactionIds(Compactions(log))
  }

  /** Positions `first..last` are the longest run of unmarked messages that starts at the first unmarked one. */
  ghost predicate OldestBlock(msgs: seq<Message>, marked: set<Id>, first: nat, last: nat) {
    && first <= last < |msgs|
    && (forall p :: 0 <= p < first ==> msgs[p].id in marked)
    && (forall p :: first <= p <= last ==> msgs[p].id !in marked)
    && (last + 1 < |msgs| ==> msgs[last + 1].id in marked)
  }

  ghost predicate LegalMessage(log: seq<Entry>, m: Message) {
    var msgs := Messages(log);
    && m.id !in UsedIds(log)
    && match m.role
       case Developer =>
         // A run's first record: the parent is the last message of the session view.
         m.parentId == LastId(ViewMessages(log)) && m.toolCallId == None && exists text :: m.body == TextBody(text)
       case Assistant =>
         // A completed model turn: every call of the turn before has its result.
         && msgs != [] && Pending(msgs) == [] && m.parentId == LastId(msgs) && m.toolCallId == None
         && exists content, calls :: m.body == AssistantBody(content, calls)
       case Tool =>
         // The result of the next unanswered call.
         && Pending(msgs) != [] && m.parentId == LastId(msgs) && m.toolCallId == Some(Pending(msgs)[0].id)
         && exists text :: m.body == TextBody(text)
       case _ => false
  }

  /** Compaction runs at the start of a run, when the run's developer message is the last message. */
  ghost predicate LegalCompaction(log: seq<Entry>, c: Compaction) {
    var msgs := Messages(log);
    && c.id !in UsedIds(log)
    && msgs != [] && msgs[|msgs| - 1].role == Developer
    && exists first: nat, last: nat ::
         && OldestBlock(msgs, CoveredIds(msgs, Compactions(log)), first, last)
         && c.firstId == msgs[first].id && c.lastId == msgs[last].id
  }

  ghost predicate LegalNext(log: seq<Entry>, e: Entry) {
    match e
    case Header(_, _) => false
    case SkillActivated(_) => true
    case MessageEntry(m) => LegalMessage(log, m)
    case CompactionEntry(c) => LegalCompaction(log, c)
  }

  /** A session header followed by legal records, each judged against the log before it. */
  ghost predicate Reachable(log: seq<Entry>) {
    && |log| >= 1
    && if |log| == 1 then log[0].Header?
       else Reachable(log[..|log| - 1]) && LegalNext(log[..|log| - 1], log[|log| - 1])
  }

  lemma ReachableNext(log: seq<Entry>, e: Entry)
    requires Reachable(log) && LegalNext(log, e)
    ensures Reachable(log + [e])
  {
    assert (log + [e])[..|log|] == log;
  }

  // ---------------------------------------------------------------- what every reachable log keeps

  /** The position just past the last compacted block. */
  function Frontier(msgs: seq<Message>, comps: seq<Compaction>): nat {
    if comps == [] then 0
    else
      var span := SpanOf(msgs, comps[|comps| - 1]);
      if span.Some? then span.value.hi + 1 else 0
  }

  /** Each block starts where the one before ended, in order, and ends at a developer message. */
  ghost predicate Tiled(msgs: seq<Message>, comps: seq<Compaction>) {
    comps == [] ||
    var c := comps[|comps| - 1];
    var span := SpanOf(msgs, c);
    && Tiled(msgs, comps[..|comps| - 1])
    && span.Some?
    && span.value.lo == Frontier(msgs, comps[..|comps| - 1])
    && msgs[span.value.lo].id == c.firstId && msgs[span.value.hi].id == c.lastId
    && msgs[span.value.hi].role == Developer
  }

  /** No identifier is used twice, by messages or by compaction entries. */
  ghost predicate DistinctIds(log: seq<Entry>) {
    var msgs, comps := Messages(log), Compactions(log);
    && UniqueIds(msgs)
    && (forall i, j :: 0 <= i < j < |comps| ==> comps[i].id != comps[j].id)
    && (forall i, j :: 0 <= i < |msgs| && 0 <= j < |comps| ==> msgs[i].id != comps[j].id)
  }

  /** The parent of the message at `p`: the message just before it, or the entry whose block ends there. */
  ghost predicate LinkedAt(msgs: seq<Message>, comps: seq<Compaction>, p: nat)
    requires p < |msgs|
  {
    if p == 0 then msgs[p].parentId == None
    else
      || msgs[p].parentId == Some(msgs[p - 1].id)
      || exists i :: 0 <= i < |comps| && msgs[p].parentId == Some(comps[i].id) && comps[i].lastId == msgs[p - 1].id
  }

  ghost predicate Linked(msgs: seq<Message>, comps: seq<Compaction>) {
    forall p :: 0 <= p < |msgs| ==> LinkedAt(msgs, comps, p)
  }

  /** The message at `t` answers call number `t - a - 1` of the assistant message at `a`, and only results
      of the same turn stand between them. */
  ghost predicate AnswersAt(msgs: seq<Message>, a: int, t: int) {
    && 0 <= a < t < |msgs|
    && msgs[a].role == Assistant
    && (forall k :: a < k <= t ==> msgs[k].role == Tool)
    && t - a - 1 < |CallsOf(msgs[a].body)|
    && msgs[t].toolCallId == Some(CallsOf(msgs[a].body)[t - a - 1].id)
  }

  ghost predicate Answered(msgs: seq<Message>) {
    forall t :: 0 <= t < |msgs| && msgs[t].role == Tool ==> exists a :: AnswersAt(msgs, a, t)
  }

  /** Every reachable log: distinct ids, blocks that tile a prefix, one parent line, results after their calls. */
  ghost predicate Sound(log: seq<Entry>) {
    var msgs, comps := Messages(log), Compactions(log);
    DistinctIds(log) && Tiled(msgs, comps) && Linked(msgs, comps) && Answered(msgs)
  }

  // ---------------------------------------------------------------- tiling

  lemma {:induction false} TiledStable(msgs: seq<Message>, m: Message, comps: seq<Compaction>)
    requires UniqueIds(msgs + [m]) && Tiled(msgs, comps)
    ensures Tiled(msgs + [m], comps) && Frontier(msgs + [m], comps) == Frontier(msgs, comps)
  {
    if comps != [] {
      var n := |comps| - 1;
      TiledStable(msgs, m, comps[..n]);
      SpanIsStable(msgs, m, comps[n]);
      FrontierOfTiled(msgs, comps[..n]);
    }
  }

  lemma FrontierOfTiled(msgs: seq<Message>, comps: seq<Compaction>)
    requires Tiled(msgs, comps)
    ensures Frontier(msgs, comps) <= |msgs|
    ensures comps != [] ==> Frontier(msgs, comps[..|comps| - 1]) < Frontier(msgs, comps)
  {
  }

  lemma {:induction false} TiledPrefix(msgs: seq<Message>, comps: seq<Compaction>, i: nat)
    requires Tiled(msgs, comps) && i <= |comps|
    ensures Tiled(msgs, comps[..i]) && Frontier(msgs, comps[..i]) <= Frontier(msgs, comps)
    decreases |comps|
  {
    if i == |comps| {
      assert comps[..i] == comps;
    } else {
      var n := |comps| - 1;
      FrontierOfTiled(msgs, comps);
      TiledPrefix(msgs, comps[..n], i);
      assert comps[..n][..i] == comps[..i];
    }
  }

  /** Block `i` runs from the frontier before it to the frontier after it. */
  lemma TiledBlock(msgs: seq<Message>, comps: seq<Compaction>, i: nat)
    requires Tiled(msgs, comps) && i < |comps|
    ensures Frontier(msgs, comps[..i]) < Frontier(msgs, comps[..i + 1]) <= |msgs|
    ensures SpanOf(msgs, comps[i]) == Some(Span(Frontier(msgs, comps[..i]), Frontier(msgs, comps[..i + 1]) - 1))
  {
    TiledPrefix(msgs, comps, i + 1);
    var upTo := comps[..i + 1];
    assert upTo[..i] == comps[..i] && upTo[i] == comps[i];
    FrontierOfTiled(msgs, upTo);
  }

  /** The covered messages are exactly the prefix before the frontier. */
  lemma {:induction false} CoveredIsPrefix(msgs: seq<Message>, comps: seq<Compaction>, p: nat)
    requires Tiled(msgs, comps)
    ensures Covered(msgs, comps, p) <==> p < Frontier(msgs, comps)
  {
    hide Covered, SpanOf;
    if comps == [] {
      NothingCovered(msgs, p);
    } else {
      var n := |comps| - 1;
      CoveredIsPrefix(msgs, comps[..n], p);
      ActivePath.CoveredByOneMore(msgs, comps[..n], comps[n]);
      assert comps[..n] + [comps[n]] == comps;
    }
  }

  lemma NothingCovered(msgs: seq<Message>, p: nat)
    ensures !Covered(msgs, [], p)
  {
  }

  /** Blocks that tile are pairwise disjoint. */
  lemma TiledIsDisjoint(msgs: seq<Message>, comps: seq<Compaction>)
    requires Tiled(msgs, comps)
    ensures DisjointSpans(msgs, comps)
  {
    hide Tiled, Frontier, SpanOf;
    forall i, j, p | 0 <= i < j < |comps| && Spans(msgs, comps[i], p) ensures !Spans(msgs, comps[j], p) {
      TiledBlock(msgs, comps, i);
      TiledBlock(msgs, comps, j);
      TiledPrefix(msgs, comps, j);
      TiledPrefix(msgs, comps[..j], i + 1);
      assert comps[..j][..i + 1] == comps[..i + 1];
    }
  }

  // ---------------------------------------------------------------- the view of a reachable log

  function SummariesFrom(msgs: seq<Message>, comps: seq<Compaction>, i: nat): seq<Message>
    requires i <= |comps|
    requires forall j :: i <= j < |comps| ==> SpanOf(msgs, comps[j]).Some?
    decreases |comps| - i
  {
    if i == |comps| then [] else [SummaryMessage(msgs, comps[i])] + SummariesFrom(msgs, comps, i + 1)
  }

  lemma TiledResolves(msgs: seq<Message>, comps: seq<Compaction>)
    requires Tiled(msgs, comps)
    ensures forall j :: 0 <= j < |comps| ==> SpanOf(msgs, comps[j]).Some?
  {
    forall j | 0 <= j < |comps| ensures SpanOf(msgs, comps[j]).Some? {
      TiledBlock(msgs, comps, j);
    }
  }

  lemma BlockStartsAt(msgs: seq<Message>, comps: seq<Compaction>, i: nat)
    requires Tiled(msgs, comps) && i < |comps|
    ensures FirstStarting(msgs, comps, Frontier(msgs, comps[..i])) == Some(i)
  {
    TiledBlock(msgs, comps, i);
    TiledIsDisjoint(msgs, comps);
    var p := Frontier(msgs, comps[..i]);
    assert Spans(msgs, comps[i], p);
    forall j | 0 <= j < i ensures !StartsAt(msgs, comps[j], p) {
      assert StartsAt(msgs, comps[j], p) ==> Spans(msgs, comps[j], p);
    }
    FirstStartingIs(msgs, comps, p, i);
  }

  lemma NothingStartsPast(msgs: seq<Message>, comps: seq<Compaction>, p: nat)
    requires Tiled(msgs, comps) && Frontier(msgs, comps) <= p
    ensures FirstStarting(msgs, comps, p).None? && !Covered(msgs, comps, p)
  {
    CoveredIsPrefix(msgs, comps, p);
    forall j | 0 <= j < |comps| ensures !StartsAt(msgs, comps[j], p) {
      assert StartsAt(msgs, comps[j], p) ==> Spans(msgs, comps[j], p);
    }
    NoneStarting(msgs, comps, p);
  }

  lemma {:induction false} ViewPast(msgs: seq<Message>, comps: seq<Compaction>, p: nat)
    requires Tiled(msgs, comps) && Frontier(msgs, comps) <= p <= |msgs|
    ensures ViewFrom(msgs, comps, p) == msgs[p..]
    decreases |msgs| - p
  {
    hide Tiled, Frontier, FirstStarting, Covered, SpanOf;
    if p < |msgs| {
      NothingStartsPast(msgs, comps, p);
      ViewPast(msgs, comps, p + 1);
      assert msgs[p..] == [msgs[p]] + msgs[p + 1..];
    }
  }

  lemma {:induction false} ViewFromBlock(msgs: seq<Message>, comps: seq<Compaction>, i: nat)
    requires Tiled(msgs, comps) && i <= |comps|
    requires forall j :: i <= j < |comps| ==> SpanOf(msgs, comps[j]).Some?
    ensures Frontier(msgs, comps) <= |msgs|
    ensures ViewFrom(msgs, comps, Frontier(msgs, comps[..i]))
         == SummariesFrom(msgs, comps, i) + msgs[Frontier(msgs, comps)..]
    decreases |comps| - i
  {
    hide Tiled, FirstStarting, Frontier, SpanOf, SummaryMessage;
    FrontierOfTiled(msgs, comps);
    if i == |comps| {
      assert comps[..i] == comps;
      ViewPast(msgs, comps, Frontier(msgs, comps));
    } else {
      BlockStartsAt(msgs, comps, i);
      TiledBlock(msgs, comps, i);
      ViewFromBlock(msgs, comps, i + 1);
      Assoc([SummaryMessage(msgs, comps[i])], SummariesFrom(msgs, comps, i + 1), msgs[Frontier(msgs, comps)..]);
    }
  }

  /** Where blocks tile a prefix, the view is one summary per block, then every message after the last block. */
  lemma ViewOfTiled(log: seq<Entry>)
    requires Tiled(Messages(log), Compactions(log))
    ensures var msgs, comps := Messages(log), Compactions(log);
            && (forall j :: 0 <= j < |comps| ==> SpanOf(msgs, comps[j]).Some?)
            && Frontier(msgs, comps) <= |msgs|
            && ViewMessages(log) == SummariesFrom(msgs, comps, 0) + msgs[Frontier(msgs, comps)..]
  {
    TiledResolves(Messages(log), Compactions(log));
    ViewFromBlock(Messages(log), Compactions(log), 0);
  }

  lemma {:induction false} LastSummary(msgs: seq<Message>, comps: seq<Compaction>, i: nat)
    requires i < |comps|
    requires forall j :: i <= j < |comps| ==> SpanOf(msgs, comps[j]).Some?
    ensures LastId(SummariesFrom(msgs, comps, i)) == Some(comps[|comps| - 1].id)
    decreases |comps| - i
  {
    if i + 1 < |comps| {
      LastSummary(msgs, comps, i + 1);
    }
  }

  /** The last id of the view: the last message, or the entry whose block ends there. */
  lemma ViewTail(log: seq<Entry>)
    requires Tiled(Messages(log), Compactions(log))
    ensures var msgs, comps := Messages(log), Compactions(log);
            LastId(ViewMessages(log)) ==
              if msgs == [] then None
              else if Frontier(msgs, comps) < |msgs| then Some(msgs[|msgs| - 1].id)
              else Some(comps[|comps| - 1].id)
  {
    hide Tiled, ViewMessages, Messages, Compactions;
    var msgs, comps := Messages(log), Compactions(log);
    ViewOfTiled(log);
    if msgs == [] {
      FrontierOfTiled(msgs, comps);
    } else if Frontier(msgs, comps) == |msgs| {
      LastSummary(msgs, comps, 0);
      assert ViewMessages(log) == SummariesFrom(msgs, comps, 0);
    }
  }

  // ---------------------------------------------------------------- every step keeps it

  /** Where blocks tile a prefix, the oldest unmarked block is everything after the frontier. */
  lemma OldestBlockIsTail(msgs: seq<Message>, comps: seq<Compaction>, first: nat, last: nat)
    requires UniqueIds(msgs) && Tiled(msgs, comps)
    requires OldestBlock(msgs, CoveredIds(msgs, comps), first, last)
    ensures first == Frontier(msgs, comps) && last == |msgs| - 1
  {
    hide CoveredIds, Tiled, Frontier;
    FrontierOfTiled(msgs, comps);
    Marked(msgs, comps, first);
    if first > 0 { Marked(msgs, comps, first - 1); }
    if last + 1 < |msgs| { Marked(msgs, comps, last + 1); }
  }

  lemma Marked(msgs: seq<Message>, comps: seq<Compaction>, p: nat)
    requires UniqueIds(msgs) && Tiled(msgs, comps) && p < |msgs|
    ensures msgs[p].id in CoveredIds(msgs, comps) <==> p < Frontier(msgs, comps)
  {
    ActivePath.CoveredById(msgs, comps, p);
    CoveredIsPrefix(msgs, comps, p);
  }

  lemma {:induction false} PendingOpen(msgs: seq<Message>)
    requires Pending(msgs) != []
    ensures exists a :: OpenTurn(msgs, a)
  {
    var n := |msgs| - 1;
    if msgs[n].role == Tool {
      PendingOpen(msgs[..n]);
      var a :| OpenTurn(msgs[..n], a);
      assert OpenTurn(msgs, a);
    } else {
      assert OpenTurn(msgs, n);
    }
  }

  /** The turn that begins at `a` is the last, and its calls from number `|msgs| - 1 - a` on are unanswered. */
  ghost predicate OpenTurn(msgs: seq<Message>, a: int) {
    && 0 <= a < |msgs| && msgs[a].role == Assistant
    && (forall k :: a < k < |msgs| ==> msgs[k].role == Tool)
    && |msgs| - 1 - a <= |CallsOf(msgs[a].body)|
    && Pending(msgs) == CallsOf(msgs[a].body)[|msgs| - 1 - a..]
  }

  lemma AnsweredNext(log: seq<Entry>, m: Message)
    requires Answered(Messages(log)) && LegalMessage(log, m)
    ensures Answered(Messages(log) + [m])
  {
    hide Messages, AnswersAt;
    var msgs := Messages(log);
    var more := msgs + [m];
    forall t | 0 <= t < |more| && more[t].role == Tool ensures exists a :: AnswersAt(more, a, t) {
      if t < |msgs| {
        var a :| AnswersAt(msgs, a, t);
        AnswerStays(msgs, m, a, t);
      } else {
        PendingOpen(msgs);
        var a :| OpenTurn(msgs, a);
        NewAnswer(msgs, m, a);
      }
    }
  }

  lemma AnswerStays(msgs: seq<Message>, m: Message, a: int, t: int)
    requires AnswersAt(msgs, a, t)
    ensures AnswersAt(msgs + [m], a, t)
  {
  }

  lemma NewAnswer(msgs: seq<Message>, m: Message, a: int)
    requires OpenTurn(msgs, a)
    requires m.role == Tool && Pending(msgs) != [] && m.toolCallId == Some(Pending(msgs)[0].id)
    ensures AnswersAt(msgs + [m], a, |msgs|)
  {
    hide Pending, CallsOf;
  }

  lemma DistinctMessage(log: seq<Entry>, m: Message)
    requires DistinctIds(log) && m.id !in UsedIds(log)
    ensures DistinctIds(log + [MessageEntry(m)])
  {
    hide Messages, Compactions;
    Appended(log, MessageEntry(m));
    var msgs, comps := Messages(log), Compactions(log);
    assert forall i :: 0 <= i < |msgs| ==> msgs[i].id in UsedIds(log);
    assert forall i :: 0 <= i < |comps| ==> comps[i].id in UsedIds(log);
  }

  lemma DistinctCompaction(log: seq<Entry>, c: Compaction)
    requires DistinctIds(log) && c.id !in UsedIds(log)
    ensures DistinctIds(log + [CompactionEntry(c)])
  {
    hide Messages, Compactions;
    Appended(log, CompactionEntry(c));
    var msgs, comps := Messages(log), Compactions(log);
    assert forall i :: 0 <= i < |msgs| ==> msgs[i].id in UsedIds(log);
    assert forall i :: 0 <= i < |comps| ==> comps[i].id in UsedIds(log);
  }

  lemma LinkedNext(log: seq<Entry>, m: Message)
    requires Sound(log) && LegalMessage(log, m)
    ensures Linked(Messages(log) + [m], Compactions(log))
  {
    hide Answered, DistinctIds, Tiled, LinkedAt, LegalMessage;
    var msgs, comps := Messages(log), Compactions(log);
    forall p | 0 <= p < |msgs + [m]| ensures LinkedAt(msgs + [m], comps, p) {
      if p < |msgs| {
        LinkStays(msgs, m, comps, p);
      } else {
        NewLink(log, m);
      }
    }
  }

  lemma LinkStays(msgs: seq<Message>, m: Message, comps: seq<Compaction>, p: nat)
    requires p < |msgs| && LinkedAt(msgs, comps, p)
    ensures LinkedAt(msgs + [m], comps, p)
  {
  }

  lemma NewLink(log: seq<Entry>, m: Message)
    requires Tiled(Messages(log), Compactions(log)) && LegalMessage(log, m)
    ensures LinkedAt(Messages(log) + [m], Compactions(log), |Messages(log)|)
  {
    hide ViewMessages, Pending, Frontier, Tiled, Messages, Compactions, LegalMessage, LastId;
    var msgs, comps := Messages(log), Compactions(log);
    ViewTail(log);
    LegalParent(log, m);
    LastIdIs(msgs);
    if msgs != [] && Frontier(msgs, comps) >= |msgs| {
      FrontierOfTiled(msgs, comps);
      LastBlockEnds(msgs, comps);
    }
  }

  lemma LegalParent(log: seq<Entry>, m: Message)
    requires LegalMessage(log, m)
    ensures m.parentId == LastId(ViewMessages(log)) || (Messages(log) != [] && m.parentId == LastId(Messages(log)))
  {
    hide ViewMessages, Pending, UsedIds, Messages, LastId;
    match m.role {
      case Developer =>
      case Assistant => PendingEmpty();
      case Tool => PendingEmpty();
      case _ => assert false;
    }
  }

  lemma PendingEmpty()
    ensures Pending([]) == []
  {
  }

  lemma LastIdIs(msgs: seq<Message>)
    ensures LastId(msgs) == if msgs == [] then None else Some(msgs[|msgs| - 1].id)
  {
  }

  lemma LastBlockEnds(msgs: seq<Message>, comps: seq<Compaction>)
    requires Tiled(msgs, comps) && msgs != [] && Frontier(msgs, comps) == |msgs|
    ensures comps != [] && comps[|comps| - 1].lastId == msgs[|msgs| - 1].id
  {
  }

  lemma LinkedMore(msgs: seq<Message>, comps: seq<Compaction>, c: Compaction)
    requires Linked(msgs, comps)
    ensures Linked(msgs, comps + [c])
  {
    var more := comps + [c];
    forall p | 0 <= p < |msgs| ensures LinkedAt(msgs, more, p) {
      assert LinkedAt(msgs, comps, p);
      assert forall i :: 0 <= i < |comps| ==> more[i] == comps[i];
    }
  }

  lemma SoundMessage(log: seq<Entry>, m: Message)
    requires Sound(log) && LegalMessage(log, m)
    ensures Sound(log + [MessageEntry(m)])
  {
    hide Linked, Answered;
    Appended(log, MessageEntry(m));
    DistinctMessage(log, m);
    TiledStable(Messages(log), m, Compactions(log));
    LinkedNext(log, m);
    AnsweredNext(log, m);
  }

  lemma TiledNext(log: seq<Entry>, c: Compaction)
    requires Sound(log) && LegalCompaction(log, c)
    ensures Tiled(Messages(log), Compactions(log) + [c])
    ensures var msgs := Messages(log);
            SpanOf(msgs, c) == Some(Span(Frontier(msgs, Compactions(log)), |msgs| - 1))
  {
    hide Linked, Answered, Tiled, Messages, Compactions, CoveredIds;
    var msgs, comps := Messages(log), Compactions(log);
    var first: nat, last: nat :|
      OldestBlock(msgs, CoveredIds(msgs, comps), first, last) &&
      c.firstId == msgs[first].id && c.lastId == msgs[last].id;
    OldestBlockIsTail(msgs, comps, first, last);
    TailBlock(msgs, comps, c);
  }

  lemma TailBlock(msgs: seq<Message>, comps: seq<Compaction>, c: Compaction)
    requires UniqueIds(msgs) && Tiled(msgs, comps) && Frontier(msgs, comps) < |msgs|
    requires c.firstId == msgs[Frontier(msgs, comps)].id && c.lastId == msgs[|msgs| - 1].id
    requires msgs[|msgs| - 1].role == Developer
    ensures SpanOf(msgs, c) == Some(Span(Frontier(msgs, comps), |msgs| - 1))
    ensures Tiled(msgs, comps + [c])
  {
    PositionOf(msgs, Frontier(msgs, comps));
    PositionOf(msgs, |msgs| - 1);
    assert (comps + [c])[..|comps|] == comps;
  }

  lemma SoundCompaction(log: seq<Entry>, c: Compaction)
    requires Sound(log) && LegalCompaction(log, c)
    ensures Sound(log + [CompactionEntry(c)])
  {
    hide Tiled, Linked, Answered;
    Appended(log, CompactionEntry(c));
    DistinctCompaction(log, c);
    TiledNext(log, c);
    LinkedMore(Messages(log), Compactions(log), c);
  }

  /** Every reachable log is sound. */
  lemma {:induction false} ReachableIsSound(log: seq<Entry>)
    requires Reachable(log)
    ensures Sound(log)
  {
    hide Sound, LegalMessage, LegalCompaction;
    var n := |log| - 1;
    if n == 0 {
      HeaderIsSound(log);
    } else {
      var init := log[..n];
      assert log == init + [log[n]];
      ReachableIsSound(init);
      Appended(init, log[n]);
      match log[n] {
        case MessageEntry(m) => SoundMessage(init, m);
        case CompactionEntry(c) => SoundCompaction(init, c);
        case SkillActivated(skill) => SoundSkill(init, skill);
        case Header(_, _) => assert false;
      }
    }
  }

  lemma SoundSkill(log: seq<Entry>, skill: Skill)
    requires Sound(log)
    ensures Sound(log + [SkillActivated(skill)])
  {
    hide Tiled, Linked, Answered;
    Appended(log, SkillActivated(skill));
  }

  lemma HeaderIsSound(log: seq<Entry>)
    requires |log| == 1 && log[0].Header?
    ensures Sound(log)
  {
    assert log[..0] == [];
  }

  // ---------------------------------------------------------------- such logs exist

  /** A header and a first message. */
  lemma FirstMessage(m: Message, text: string)
    requires m == Message(m.id, None, Developer, None, TextBody(text))
    ensures var log := [Header("session", "/workspace"), MessageEntry(m)];
            Reachable(log) && Messages(log) == [m] && Compactions(log) == []
  {
    hide UsedIds;
    var start := [Header("session", "/workspace")];
    EmptyLog();
    Appended([], start[0]);
    assert [] + start == start;
    NothingUsed(start);
    assert ViewMessages(start) == [] && LegalMessage(start, m);
    ReachableNext(start, MessageEntry(m));
    Appended(start, MessageEntry(m));
    assert start + [MessageEntry(m)] == [Header("session", "/workspace"), MessageEntry(m)];
  }

  lemma NothingUsed(log: seq<Entry>)
    requires Messages(log) == [] && Compactions(log) == []
    ensures UsedIds(log) == {}
  {
  }

  /** A header, a developer message, and the entry that compacts it. */
  lemma SomeCompactionIsLegal() returns (log: seq<Entry>, c: Compaction)
    ensures Reachable(log) && LegalCompaction(log, c) && Reachable(log + [CompactionEntry(c)])
  {
    hide Frontier, Covered, SpanOf, Reachable;
    var m := Message("first", None, Developer, None, TextBody("hello"));
    log := [Header("session", "/workspace"), MessageEntry(m)];
    FirstMessage(m, "hello");
    c := Compaction("summary", "greeting", "first", "first", "run");
    NothingCovered([m], 0);
    assert OldestBlock([m], CoveredIds([m], []), 0, 0);
    assert c.firstId == [m][0].id && c.lastId == [m][0].id;
    assert LegalCompaction(log, c);
    ReachableNext(log, CompactionEntry(c));
  }
}
