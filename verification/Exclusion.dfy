/** Any number of senders, cancellers and skill activations on one session runner: every interleaving. */
module Exclusion {
  import opened Protocol
  import opened History
  import opened SessionView
  import opened ReachableLog
  import opened Runtime
  import opened RunRecord
  import opened CompactionService
  import Runner

  /** What one sender knows, from claiming the slot to its last event. */
  datatype Task =
    | Claimed                                // holds the slot, has not read the view
    | Loaded(parent: Option<Id>)             // has read the view; this was its last message
    | Running(last: Id, open: seq<ToolCall>, untouched: bool, snapshot: Option<seq<Entry>>)
    | Finishing                              // has cleared the slot, still emits its last events

  datatype State = State(log: seq<Entry>, slot: Option<Id>, tasks: map<Id, Task>, started: set<Id>,
                         owners: seq<Id>, cancelled: set<Id>)

  datatype Move =
    | Claim(run: Id)
    | Reject                                 // a sender finds the slot taken
    | LoadView(run: Id)
    | SendFails(run: Id)                     // the view cannot be read or the message not written
    | AppendDeveloper(run: Id, m: Message)
    | ReadLog(run: Id)
    | Compact(run: Id, c: Compaction)
    | AppendReply(run: Id, m: Message)
    | AppendResult(run: Id, m: Message)
    | Clear(run: Id)
    | Finish(run: Id)
    | Cancel
    | Activate(skill: Skill)

  ghost predicate In(s: State, run: Id) {
    run in s.tasks
  }

  /** When a task can make a move. It decides by what it remembers, not by the log as it is now; only the new
      identifier is known to be unused. */
  ghost predicate Can(s: State, move: Move) {
    match move
    case Claim(run) => s.slot.None? && run !in s.started
    case Reject => s.slot.Some?
    case LoadView(run) => In(s, run) && s.tasks[run].Claimed?
    case SendFails(run) => In(s, run) && (s.tasks[run].Claimed? || s.tasks[run].Loaded?)
    case AppendDeveloper(run, m) =>
      && In(s, run) && s.tasks[run].Loaded? && m.id !in UsedIds(s.log)
      && exists text :: m == Message(m.id, s.tasks[run].parent, Developer, None, TextBody(text))
    case ReadLog(run) => In(s, run) && s.tasks[run].Running? && s.tasks[run].untouched
    case Compact(run, c) =>
      && In(s, run) && s.tasks[run].Running? && s.tasks[run].untouched && s.tasks[run].snapshot.Some?
      && c.id !in UsedIds(s.log) && RangeOf(s.tasks[run].snapshot.value, c)
    case AppendReply(run, m) =>
      && In(s, run) && s.tasks[run].Running? && s.tasks[run].open == [] && m.id !in UsedIds(s.log)
      && exists text, calls :: m == Reply(m.id, s.tasks[run].last, text, calls)
    case AppendResult(run, m) =>
      && In(s, run) && s.tasks[run].Running? && s.tasks[run].open != [] && m.id !in UsedIds(s.log)
      && exists output :: m == ToolMessage(m.id, s.tasks[run].last, s.tasks[run].open[0], output)
    case Clear(run) => In(s, run) && s.tasks[run].Running?
    case Finish(run) => In(s, run) && s.tasks[run].Finishing?
    case Cancel => true
    case Activate(_) => true
  }

  ghost predicate RangeOf(snapshot: seq<Entry>, c: Compaction) {
    OldestRange(Messages(snapshot), CoveredIds(Messages(snapshot), Compactions(snapshot)), Range(c.firstId, c.lastId))
  }

  /** Clearing empties the slot without asking whose it is. */
  ghost function Next(s: State, move: Move): State
    requires Can(s, move)
  {
    match move
    case Claim(run) => s.(slot := Some(run), tasks := s.tasks[run := Claimed], started := s.started + {run})
    case Reject => s
    case LoadView(run) => s.(tasks := s.tasks[run := Loaded(LastId(ViewMessages(s.log)))])
    case SendFails(run) => s.(slot := None, tasks := s.tasks - {run})
    case AppendDeveloper(run, m) => Write(s, run, m, Running(m.id, [], true, None))
    case ReadLog(run) => s.(tasks := s.tasks[run := s.tasks[run].(snapshot := Some(s.log))])
    case Compact(run, c) =>
      s.(log := s.log + [CompactionEntry(c)], tasks := s.tasks[run := s.tasks[run].(untouched := false)])
    case AppendReply(run, m) => Write(s, run, m, Running(m.id, CallsOf(m.body), false, None))
    case AppendResult(run, m) => Write(s, run, m, Running(m.id, s.tasks[run].open[1..], false, None))
    case Clear(run) => s.(slot := None, tasks := s.tasks[run := Finishing])
    case Finish(run) => s.(tasks := s.tasks - {run})
    case Cancel => if s.slot.Some? then s.(cancelled := s.cancelled + {s.slot.value}) else s
    case Activate(skill) => s.(log := s.log + [SkillActivated(skill)])
  }

  ghost function Write(s: State, run: Id, m: Message, task: Task): State {
    s.(log := s.log + [MessageEntry(m)], tasks := s.tasks[run := task], owners := s.owners + [run])
  }

  // ---------------------------------------------------------------- the invariant

  /** What a task remembers is still so. */
  ghost predicate TaskOk(log: seq<Entry>, owners: seq<Id>, run: Id, task: Task) {
    match task
    case Claimed => run !in owners
    case Loaded(parent) => run !in owners && parent == LastId(ViewMessages(log))
    case Running(last, open, untouched, snapshot) =>
      && owners != [] && owners[|owners| - 1] == run
      && LastId(Messages(log)) == Some(last) && Pending(Messages(log)) == open
      && (untouched ==> AwaitsRun(log))
      && (untouched && snapshot.Some? ==> AwaitsRun(snapshot.value) && Continues(snapshot.value, log))
    case Finishing => true
  }

  /** The tasks between claim and clear are exactly the one the slot names. */
  ghost predicate SlotOk(s: State) {
    forall run :: s.slot == Some(run) <==> In(s, run) && !s.tasks[run].Finishing?
  }

  /** The messages of one run stand together. */
  ghost predicate Contiguous(owners: seq<Id>) {
    forall i, j, k :: 0 <= i < j < k < |owners| && owners[i] == owners[k] ==> owners[j] == owners[i]
  }

  ghost predicate OwnersOk(s: State) {
    && |s.owners| == |Messages(s.log)| && Contiguous(s.owners)
    && (forall i :: 0 <= i < |s.owners| ==> s.owners[i] in s.started)
    && s.tasks.Keys <= s.started
  }

  ghost predicate TasksOk(s: State) {
    forall run :: In(s, run) ==> TaskOk(s.log, s.owners, run, s.tasks[run])
  }

  ghost predicate Inv(s: State) {
    Reachable(s.log) && SlotOk(s) && OwnersOk(s) && TasksOk(s)
  }

  // ---------------------------------------------------------------- every move keeps it

  /** Only the active task has anything to remember, so it is enough to look at that one. */
  lemma OnlyTheActive(s: State, run: Id)
    requires SlotOk(s) && s.slot == Some(run)
    requires In(s, run) && TaskOk(s.log, s.owners, run, s.tasks[run])
    ensures TasksOk(s)
  {
    forall other | In(s, other) ensures TaskOk(s.log, s.owners, other, s.tasks[other]) {
      assert other != run ==> s.slot != Some(other);
    }
  }

  lemma NoneActive(s: State)
    requires SlotOk(s) && s.slot == None
    ensures TasksOk(s)
  {
    forall other | In(s, other) ensures TaskOk(s.log, s.owners, other, s.tasks[other]) {
      assert s.slot != Some(other);
    }
  }

  lemma IsActive(s: State, run: Id)
    requires SlotOk(s) && In(s, run) && !s.tasks[run].Finishing?
    ensures s.slot == Some(run)
  {
  }

  /** The slot and its task change together. */
  lemma SlotSet(s: State, t: State, run: Id)
    requires SlotOk(s) && (s.slot == None || s.slot == Some(run))
    requires t.slot == Some(run) && In(t, run) && t.tasks == s.tasks[run := t.tasks[run]] && !t.tasks[run].Finishing?
    ensures SlotOk(t)
  {
    forall other ensures t.slot == Some(other) <==> In(t, other) && !t.tasks[other].Finishing? {
      assert s.slot == Some(other) <==> In(s, other) && !s.tasks[other].Finishing?;
    }
  }

  lemma SlotCleared(s: State, t: State, run: Id)
    requires SlotOk(s) && s.slot == Some(run) && t.slot == None
    requires t.tasks == s.tasks - {run} || t.tasks == s.tasks[run := Finishing]
    ensures SlotOk(t)
  {
    forall other ensures t.slot == Some(other) <==> In(t, other) && !t.tasks[other].Finishing? {
      assert s.slot == Some(other) <==> In(s, other) && !s.tasks[other].Finishing?;
    }
  }

  lemma OneMoreOwner(s: State, run: Id, m: Message, t: State)
    requires OwnersOk(s) && run in s.started
    requires run !in s.owners || s.owners[|s.owners| - 1] == run
    requires t.log == s.log + [MessageEntry(m)] && t.owners == s.owners + [run]
    requires t.started == s.started && t.tasks.Keys == s.tasks.Keys
    ensures OwnersOk(t)
  {
    hide Messages;
    Appended(s.log, MessageEntry(m));
    forall i, j, k | 0 <= i < j < k < |t.owners| && t.owners[i] == t.owners[k] ensures t.owners[j] == t.owners[i] {
      if k == |s.owners| && j < k - 1 {
        assert s.owners[i] in s.owners;
        assert s.owners[j] == s.owners[i];
      }
    }
  }

  lemma SameOwners(s: State, t: State)
    requires OwnersOk(s) && Messages(t.log) == Messages(s.log) && t.owners == s.owners
    requires t.tasks.Keys <= t.started && s.started <= t.started
    ensures OwnersOk(t)
  {
    hide Messages, Contiguous;
  }

  lemma TaskContinues(log: seq<Entry>, later: seq<Entry>, owners: seq<Id>, run: Id, task: Task)
    requires TaskOk(log, owners, run, task) && Continues(log, later)
    ensures TaskOk(later, owners, run, task)
  {
    hide AwaitsRun, Continues, Messages, ViewMessages, Pending;
    SameMessages(log, later);
    Runner.SameView(log, later);
    if task.Running? && task.untouched {
      Runner.StillAwaits(log, later);
      if task.snapshot.Some? {
        ContinuesTwice(task.snapshot.value, log, later);
      }
    }
  }

  lemma KeptByActivate(s: State, skill: Skill)
    requires Inv(s)
    ensures Continues(s.log, Next(s, Activate(skill)).log) && Inv(Next(s, Activate(skill)))
  {
    hide Reachable, Messages, Compactions, TaskOk, Contiguous;
    var t := Next(s, Activate(skill));
    SkillsContinue(s.log, [skill]);
    assert Activations([skill]) == [SkillActivated(skill)];
    SameOwners(s, t);
    forall run | In(t, run) ensures TaskOk(t.log, t.owners, run, t.tasks[run]) {
      assert In(s, run);
      TaskContinues(s.log, t.log, s.owners, run, s.tasks[run]);
    }
    assert SlotOk(t) by { SlotKept(s, t); }
  }

  lemma SlotKept(s: State, t: State)
    requires SlotOk(s) && t.slot == s.slot && t.tasks == s.tasks
    ensures SlotOk(t)
  {
    forall run ensures t.slot == Some(run) <==> In(t, run) && !t.tasks[run].Finishing? {
      assert s.slot == Some(run) <==> In(s, run) && !s.tasks[run].Finishing?;
    }
  }

  lemma KeptByClaim(s: State, run: Id)
    requires Inv(s) && Can(s, Claim(run))
    ensures Inv(Next(s, Claim(run)))
  {
    hide Reachable, Messages, Contiguous;
    var t := Next(s, Claim(run));
    SlotSet(s, t, run);
    SameOwners(s, t);
    OnlyTheActive(t, run);
  }

  lemma KeptByLoad(s: State, run: Id)
    requires Inv(s) && Can(s, LoadView(run))
    ensures Inv(Next(s, LoadView(run)))
  {
    hide Reachable, Messages, Contiguous, ViewMessages;
    var t := Next(s, LoadView(run));
    IsActive(s, run);
    SlotSet(s, t, run);
    SameOwners(s, t);
    assert TaskOk(s.log, s.owners, run, s.tasks[run]);
    OnlyTheActive(t, run);
  }

  lemma KeptByRead(s: State, run: Id)
    requires Inv(s) && Can(s, ReadLog(run))
    ensures Inv(Next(s, ReadLog(run)))
  {
    hide Reachable, Messages, Contiguous, AwaitsRun, Pending, Continues;
    var t := Next(s, ReadLog(run));
    IsActive(s, run);
    SlotSet(s, t, run);
    SameOwners(s, t);
    StaysPut(s.log);
    assert TaskOk(s.log, s.owners, run, s.tasks[run]);
    OnlyTheActive(t, run);
  }

  /** The message of a send, a reply or a result: it is legal, so the log stays reachable and the block grows. */
  lemma KeptByWrite(s: State, run: Id, m: Message, task: Task)
    requires Inv(s) && s.slot == Some(run) && In(s, run) && LegalMessage(s.log, m)
    requires run !in s.owners || s.owners[|s.owners| - 1] == run
    requires task.Running? && task.snapshot == None && task.last == m.id
    requires task.open == Pending(Messages(s.log) + [m])
    requires task.untouched ==> AwaitsRun(s.log + [MessageEntry(m)])
    ensures Inv(Write(s, run, m, task))
  {
    hide Reachable, Messages, Contiguous, AwaitsRun, Pending, LegalMessage;
    var t := Write(s, run, m, task);
    ReachableNext(s.log, MessageEntry(m));
    Appended(s.log, MessageEntry(m));
    SlotSet(s, t, run);
    OneMoreOwner(s, run, m, t);
    OnlyTheActive(t, run);
  }

  lemma KeptByDeveloper(s: State, run: Id, m: Message)
    requires Inv(s) && Can(s, AppendDeveloper(run, m))
    ensures Inv(Next(s, AppendDeveloper(run, m)))
  {
    hide Reachable, Messages, OwnersOk, AwaitsRun, Pending, LegalMessage, ViewMessages, UsedIds;
    IsActive(s, run);
    assert TaskOk(s.log, s.owners, run, s.tasks[run]);
    var text :| m == Message(m.id, s.tasks[run].parent, Developer, None, TextBody(text));
    StaysPut(s.log);
    Runner.BeginsRun(s.log, s.log, s.log, m.id, text);
    Runner.DeveloperIsLegal(s.log, m, text);
    Runner.NothingPending(s.log + [MessageEntry(m)]);
    Appended(s.log, MessageEntry(m));
    KeptByWrite(s, run, m, Running(m.id, [], true, None));
  }

  lemma KeptByReply(s: State, run: Id, m: Message)
    requires Inv(s) && Can(s, AppendReply(run, m))
    ensures Inv(Next(s, AppendReply(run, m)))
  {
    hide Reachable, Messages, OwnersOk, AwaitsRun, Pending, LegalMessage, UsedIds, MayFollow, CallsOf, AssistantBody;
    IsActive(s, run);
    var task := s.tasks[run];
    assert TaskOk(s.log, s.owners, run, task);
    var text, calls :| m == Reply(m.id, task.last, text, calls);
    AssistantMayFollow(s.log, task.last, text, CallList(calls));
    FollowsLegally(s.log, m, task.last);
    PendingAssistant(Messages(s.log), m, text, CallList(calls));
    CallsOfAssistantBody(text, CallList(calls));
    KeptByWrite(s, run, m, Running(m.id, CallsOf(m.body), false, None));
  }

  lemma KeptByResult(s: State, run: Id, m: Message)
    requires Inv(s) && Can(s, AppendResult(run, m))
    ensures Inv(Next(s, AppendResult(run, m)))
  {
    hide Reachable, Messages, OwnersOk, AwaitsRun, Pending, LegalMessage, UsedIds, MayFollow, TextBody;
    IsActive(s, run);
    var task := s.tasks[run];
    assert TaskOk(s.log, s.owners, run, task);
    var output :| m == ToolMessage(m.id, task.last, task.open[0], output);
    ResultMayFollow(s.log, task.last, task.open[0], output);
    FollowsLegally(s.log, m, task.last);
    PendingTool(Messages(s.log), m);
    KeptByWrite(s, run, m, Running(m.id, task.open[1..], false, None));
  }

  lemma KeptByCompact(s: State, run: Id, c: Compaction)
    requires Inv(s) && Can(s, Compact(run, c))
    ensures Inv(Next(s, Compact(run, c)))
  {
    hide Reachable, Messages, Compactions, Contiguous, AwaitsRun, Pending, LegalCompaction, UsedIds, Continues;
    hide OldestRange;
    var t := Next(s, Compact(run, c));
    IsActive(s, run);
    var task := s.tasks[run];
    assert TaskOk(s.log, s.owners, run, task);
    NewEntryIsLegal(task.snapshot.value, s.log, Range(c.firstId, c.lastId), c);
    StillLegal(task.snapshot.value, s.log, c);
    ReachableNext(s.log, CompactionEntry(c));
    Appended(s.log, CompactionEntry(c));
    SlotSet(s, t, run);
    SameOwners(s, t);
    OnlyTheActive(t, run);
  }

  /** Whoever clears the slot holds it. */
  lemma KeptByClear(s: State, run: Id, move: Move)
    requires Inv(s) && Can(s, move) && (move == Clear(run) || move == SendFails(run))
    ensures s.slot == Some(run) && Inv(Next(s, move))
  {
    hide Reachable, Messages, Contiguous, TaskOk;
    var t := Next(s, move);
    IsActive(s, run);
    SlotCleared(s, t, run);
    SameOwners(s, t);
    NoneActive(t);
  }

  lemma KeptByFinish(s: State, run: Id)
    requires Inv(s) && Can(s, Finish(run))
    ensures Inv(Next(s, Finish(run)))
  {
    hide Reachable, Messages, Contiguous, TaskOk;
    var t := Next(s, Finish(run));
    SameOwners(s, t);
    forall other ensures t.slot == Some(other) <==> In(t, other) && !t.tasks[other].Finishing? {
      assert s.slot == Some(other) <==> In(s, other) && !s.tasks[other].Finishing?;
    }
    forall other | In(t, other) ensures TaskOk(t.log, t.owners, other, t.tasks[other]) {
      assert In(s, other);
    }
  }

  lemma KeptByCancel(s: State)
    requires Inv(s)
    ensures Inv(Next(s, Cancel))
  {
    hide Reachable, Messages, Contiguous, TaskOk;
    var t := Next(s, Cancel);
    SlotKept(s, t);
    SameOwners(s, t);
    forall other | In(t, other) ensures TaskOk(t.log, t.owners, other, t.tasks[other]) {
      assert In(s, other);
    }
  }

  lemma Kept(s: State, move: Move)
    requires Inv(s) && Can(s, move)
    ensures Inv(Next(s, move))
  {
    hide Inv, Can, Next;
    match move {
      case Claim(run) => KeptByClaim(s, run);
      case Reject => RejectedSendChangesNothing(s);
      case LoadView(run) => KeptByLoad(s, run);
      case SendFails(run) => KeptByClear(s, run, move);
      case AppendDeveloper(run, m) => KeptByDeveloper(s, run, m);
      case ReadLog(run) => KeptByRead(s, run);
      case Compact(run, c) => KeptByCompact(s, run, c);
      case AppendReply(run, m) => KeptByReply(s, run, m);
      case AppendResult(run, m) => KeptByResult(s, run, m);
      case Clear(run) => KeptByClear(s, run, move);
      case Finish(run) => KeptByFinish(s, run);
      case Cancel => KeptByCancel(s);
      case Activate(skill) => KeptByActivate(s, skill);
    }
  }

  lemma RejectedSendChangesNothing(s: State)
    requires Can(s, Reject)
    ensures Next(s, Reject) == s
  {
  }

  // ---------------------------------------------------------------- every interleaving

  /** A runner that has just been made. The messages already in the log belong to runs of the past, named "". */
  ghost predicate Init(s: State) {
    && Reachable(s.log)
    && s == State(s.log, None, map[], {""}, Past(|Messages(s.log)|), {})
  }

  function Past(n: nat): seq<Id> {
    seq(n, _ => "")
  }

  ghost predicate StepAt(states: seq<State>, moves: seq<Move>, i: nat)
    requires |states| == |moves| + 1 && i < |moves|
  {
    Can(states[i], moves[i]) && states[i + 1] == Next(states[i], moves[i])
  }

  /** One interleaving of any number of tasks. */
  ghost predicate Behaviour(states: seq<State>, moves: seq<Move>) {
    && |states| == |moves| + 1 && Init(states[0])
    && forall i :: 0 <= i < |moves| ==> StepAt(states, moves, i)
  }

  lemma KeptAtStart(s: State)
    requires Init(s)
    ensures Inv(s)
  {
    hide Reachable, Messages, TaskOk;
  }

  lemma {:induction false} Always(states: seq<State>, moves: seq<Move>, n: nat)
    requires Behaviour(states, moves) && n < |states|
    ensures Inv(states[n])
  {
    hide Inv, Init, Next, Can;
    if n == 0 {
      KeptAtStart(states[0]);
    } else {
      Always(states, moves, n - 1);
      assert StepAt(states, moves, n - 1);
      Kept(states[n - 1], moves[n - 1]);
    }
  }

  /** At most one task is between claim and clear, the slot is taken exactly when there is one, the log is
      reachable, and the messages of each run stand together in it. */
  lemma OneRunAtATime(states: seq<State>, moves: seq<Move>, n: nat)
    requires Behaviour(states, moves) && n < |states|
    ensures var s := states[n];
            && (forall run :: In(s, run) && !s.tasks[run].Finishing? <==> s.slot == Some(run))
            && Reachable(s.log)
            && |s.owners| == |Messages(s.log)| && Contiguous(s.owners)
  {
    hide Behaviour, Reachable, Contiguous, Messages, TasksOk;
    Always(states, moves, n);
  }

  function Actor(move: Move): Option<Id> {
    match move
    case Claim(run) => Some(run)
    case LoadView(run) => Some(run)
    case SendFails(run) => Some(run)
    case AppendDeveloper(run, _) => Some(run)
    case ReadLog(run) => Some(run)
    case Compact(run, _) => Some(run)
    case AppendReply(run, _) => Some(run)
    case AppendResult(run, _) => Some(run)
    case Clear(run) => Some(run)
    case Finish(run) => Some(run)
    case _ => None
  }

  /** While a run holds the slot, whatever anyone else does adds skill activations at most. */
  lemma OthersOnlyActivate(s: State, move: Move, run: Id)
    requires Inv(s) && Can(s, move) && s.slot == Some(run) && Actor(move) != Some(run)
    ensures Next(s, move).slot == Some(run) && Continues(s.log, Next(s, move).log)
  {
    hide Reachable, Messages, OwnersOk, TasksOk, Continues, LegalMessage, AwaitsRun;
    StaysPut(s.log);
    assert forall other :: In(s, other) && !s.tasks[other].Finishing? ==> s.slot == Some(other);
    if move.Activate? {
      KeptByActivate(s, move.skill);
    }
  }

  /** So a run that waits finds the log as it was but for new skill activations, and the session still its own:
      what module Runtime lets other tasks do is all they can do. */
  lemma {:induction false} WaitingIsSafe(states: seq<State>, moves: seq<Move>, i: nat, j: nat, run: Id)
    requires Behaviour(states, moves) && i <= j < |states| && states[i].slot == Some(run)
    requires forall k :: i <= k < j ==> Actor(moves[k]) != Some(run)
    ensures states[j].slot == Some(run) && Continues(states[i].log, states[j].log)
  {
    hide Inv, Init, Next, Can, Continues;
    if i == j {
      StaysPut(states[i].log);
    } else {
      WaitingIsSafe(states, moves, i, j - 1, run);
      Always(states, moves, j - 1);
      assert StepAt(states, moves, j - 1);
      OthersOnlyActivate(states[j - 1], moves[j - 1], run);
      ContinuesTwice(states[i].log, states[j - 1].log, states[j].log);
    }
  }
}
