/** The events one run emits, and the automaton that accepts them. */
module RunTrace {
  import opened Protocol

  datatype RunStatus = Succeeded | Failed | Cancelled

  datatype Event =
    | RunStarted
    | CompactionStarted(firstId: Id, lastId: Id)
    | CompactionCompleted(entryId: Id, summary: string)
    | CompactionFailed
    | MessageStarted(messageId: Id)
    | MessageDelta(messageId: Id, delta: string)
    | MessageCompleted(messageId: Id, body: Body)
    | ToolStarted(callId: Id, name: string)
    | ToolOutputDelta(callId: Id, chunk: string)
    | ToolFinished(callId: Id, output: string, isError: bool)
    | RunCancelled
    | RunError
    | RunFinished(status: RunStatus)

  /** Where a run stands, as an observer of its events can tell. */
  datatype Phase =
    | Idle                                // nothing emitted
    | Started                             // no compaction and no message yet
    | Compacting
    | Compacted                           // compaction succeeded, no message yet
    | Doomed                              // compaction failed
    | Streaming(id: Id)                   // an assistant message is open
    | Turn(calls: seq<ToolCall>)          // the last message is complete; these calls have no result
    | InTool(calls: seq<ToolCall>)        // the first of these calls is running
    | Cancelling
    | Erred
    | Ended(status: RunStatus)
    | Stuck

  function Step(phase: Phase, e: Event): Phase {
    match phase
    case Idle => if e.RunStarted? then Started else Stuck
    case Started =>
      if e.CompactionStarted? then Compacting
      else if e.MessageStarted? then Streaming(e.messageId)
      else if e.RunError? then Erred
      else if e == RunFinished(Cancelled) then Ended(Cancelled) else Stuck
    case Compacting => if e.CompactionCompleted? then Compacted else if e.CompactionFailed? then Doomed else Stuck
    case Compacted =>
      if e.MessageStarted? then Streaming(e.messageId)
      else if e.RunError? then Erred
      else if e == RunFinished(Cancelled) then Ended(Cancelled) else Stuck
    case Doomed => if e.RunError? then Erred else Stuck
    case Streaming(id) =>
      if e.MessageDelta? && e.messageId == id then phase
      else if e.MessageCompleted? && e.messageId == id then Turn(CallsOf(e.body))
      else if e.RunCancelled? then Cancelling
      else if e.RunError? then Erred else Stuck
    case Turn(calls) =>
      if e.ToolStarted? && calls != [] && e.callId == calls[0].id && e.name == calls[0].name then InTool(calls)
      else if e.MessageStarted? && calls == [] then Streaming(e.messageId)
      else if e.RunCancelled? then Cancelling
      else if e.RunError? then Erred
      else if e.RunFinished? && calls == [] && e.status != Failed then Ended(e.status) else Stuck
    case InTool(calls) =>
      if calls == [] then Stuck
      else if e.ToolOutputDelta? && e.callId == calls[0].id then phase
      else if e.ToolFinished? && e.callId == calls[0].id then Turn(calls[1..])
      else if e.RunError? then Erred else Stuck
    case Cancelling => if e == RunFinished(Cancelled) then Ended(Cancelled) else Stuck
    case Erred => if e == RunFinished(Failed) then Ended(Failed) else Stuck
    case Ended(_) => Stuck
    case Stuck => Stuck
  }

  /** The phase after the first `n` events. */
  function PhaseAt(events: seq<Event>, n: nat): Phase
    requires n <= |events|
  {
    if n == 0 then Idle else Step(PhaseAt(events, n - 1), events[n - 1])
  }

  function PhaseOf(events: seq<Event>): Phase {
    PhaseAt(events, |events|)
  }

  lemma {:induction false} PhaseKept(events: seq<Event>, e: Event, n: nat)
    requires n <= |events|
    ensures PhaseAt(events + [e], n) == PhaseAt(events, n)
  {
    hide Step;
    if n > 0 { PhaseKept(events, e, n - 1); }
  }

  lemma Emitted(events: seq<Event>, e: Event)
    ensures PhaseOf(events + [e]) == Step(PhaseOf(events), e)
  {
    PhaseKept(events, e, |events|);
  }

  /** An accepted trace has only accepted prefixes. */
  lemma {:induction false} AcceptedAt(events: seq<Event>, n: nat)
    requires PhaseOf(events) != Stuck && n <= |events|
    ensures PhaseAt(events, n) != Stuck
    decreases |events| - n
  {
    if n < |events| { AcceptedAt(events, n + 1); }
  }

  ghost predicate Finished(events: seq<Event>) {
    PhaseOf(events).Ended?
  }

  lemma EndsLast(events: seq<Event>, n: nat)
    requires PhaseOf(events) != Stuck && n <= |events| && PhaseAt(events, n).Ended?
    ensures n == |events|
  {
    if n < |events| { AcceptedAt(events, n + 1); }
  }

  lemma {:induction false} IdleFirst(events: seq<Event>, n: nat)
    requires PhaseOf(events) != Stuck && n <= |events|
    ensures PhaseAt(events, n) == Idle <==> n == 0
  {
    AcceptedAt(events, n);
  }

  lemma StartsOnce(events: seq<Event>, i: nat)
    requires PhaseOf(events) != Stuck && i < |events|
    ensures events[i].RunStarted? <==> i == 0
  {
    IdleFirst(events, i);
    AcceptedAt(events, i + 1);
  }

  lemma FinishEnds(events: seq<Event>, i: nat)
    requires PhaseOf(events) != Stuck && i < |events| && events[i].RunFinished?
    ensures i == |events| - 1
  {
    AcceptedAt(events, i + 1);
    EndsLast(events, i + 1);
  }

  /** A complete trace opens with RunStarted, closes with RunFinished, and holds each exactly once. */
  lemma OneStartOneFinish(events: seq<Event>, i: nat)
    requires Finished(events) && i < |events|
    ensures events[i].RunStarted? <==> i == 0
    ensures events[i].RunFinished? <==> i == |events| - 1
    ensures events[|events| - 1] == RunFinished(PhaseOf(events).status)
  {
    StartsOnce(events, i);
    if events[i].RunFinished? { FinishEnds(events, i); }
    AcceptedAt(events, |events| - 1);
  }

  /** CompactionStarted is followed at once by its completion or its failure. */
  lemma CompactionIsAnswered(events: seq<Event>, i: nat)
    requires PhaseOf(events) != Stuck && i < |events| && events[i].CompactionStarted?
    requires i + 1 < |events| || Finished(events)
    ensures i + 1 < |events| && (events[i + 1].CompactionCompleted? || events[i + 1].CompactionFailed?)
  {
    AcceptedAt(events, i + 1);
    if i + 1 < |events| { AcceptedAt(events, i + 2); }
  }

  /** In these phases some message was started. */
  predicate PastMessage(phase: Phase) {
    phase.Streaming? || phase.Turn? || phase.InTool?
  }

  ghost predicate MessageBefore(events: seq<Event>, n: nat) {
    exists k :: 0 <= k < n <= |events| && events[k].MessageStarted?
  }

  lemma {:induction false} MessageWasStarted(events: seq<Event>, n: nat)
    requires n <= |events| && PastMessage(PhaseAt(events, n))
    ensures MessageBefore(events, n)
  {
    if n > 0 {
      if PastMessage(PhaseAt(events, n - 1)) {
        MessageWasStarted(events, n - 1);
      } else {
        assert events[n - 1].MessageStarted?;
      }
    }
  }

  /** RunCancelled comes only after a started message, and only RunFinished(Cancelled) can follow it. */
  lemma CancelIsLast(events: seq<Event>, i: nat)
    requires PhaseOf(events) != Stuck && i < |events| && events[i].RunCancelled?
    ensures MessageBefore(events, i)
    ensures |events| <= i + 2
    ensures i + 1 < |events| ==> events[i + 1] == RunFinished(Cancelled)
    ensures Finished(events) ==> |events| == i + 2
  {
    AcceptedAt(events, i + 1);
    MessageWasStarted(events, i);
    if i + 1 < |events| {
      AcceptedAt(events, i + 2);
      EndsLast(events, i + 2);
    }
  }

  lemma StartsIdle()
    ensures PhaseOf([]) == Idle
  {
  }

  function StartsMessage(e: Event): nat {
    if e.MessageStarted? then 1 else 0
  }

  /** How many messages a trace has started. */
  function StartedMessages(events: seq<Event>): nat {
    if events == [] then 0 else StartedMessages(events[..|events| - 1]) + StartsMessage(events[|events| - 1])
  }

  function IsNotice(e: Event): nat {
    if e.RunCancelled? then 1 else 0
  }

  /** How often a trace says RunCancelled. */
  function Notices(events: seq<Event>): nat {
    if events == [] then 0 else Notices(events[..|events| - 1]) + IsNotice(events[|events| - 1])
  }

  /** Before a run is cancelled it has not said so, and it says so at most once. */
  lemma {:induction false} NoticesByPhase(events: seq<Event>)
    requires PhaseOf(events) != Stuck
    ensures Notices(events) <= 1
    ensures PhaseOf(events) == Cancelling ==> Notices(events) == 1
    ensures PhaseOf(events) != Cancelling && PhaseOf(events) != Ended(Cancelled) ==> Notices(events) == 0
  {
    hide CallsOf, PhaseOf;
    StartsIdle();
    if events != [] {
      var init, e := events[..|events| - 1], events[|events| - 1];
      assert events == init + [e];
      Emitted(init, e);
      NoticesByPhase(init);
    }
  }

  lemma {:induction false} FailedCompactionFails(events: seq<Event>)
    requires PhaseOf(events) != Stuck
    ensures CompactionFailed in events ==>
      PhaseOf(events) == Doomed || PhaseOf(events) == Erred || PhaseOf(events) == Ended(Failed)
    ensures PhaseOf(events) == Doomed ==> CompactionFailed in events
  {
    hide CallsOf, PhaseOf;
    StartsIdle();
    if events != [] {
      var init, e := events[..|events| - 1], events[|events| - 1];
      assert events == init + [e];
      Emitted(init, e);
      FailedCompactionFails(init);
    }
  }

  predicate BeforeMessages(phase: Phase) {
    phase == Idle || phase == Started || phase == Compacting || phase == Compacted || phase == Doomed
  }

  lemma {:induction false} NoneStartedYet(events: seq<Event>)
    requires BeforeMessages(PhaseOf(events))
    ensures StartedMessages(events) == 0
  {
    hide CallsOf, PhaseOf;
    StartsIdle();
    if events != [] {
      var init, e := events[..|events| - 1], events[|events| - 1];
      assert events == init + [e];
      Emitted(init, e);
      NoneStartedYet(init);
    }
  }

  /** An error is followed only by RunFinished(Failed). */
  lemma NoErrorUnlessFailed(events: seq<Event>, i: nat)
    requires Finished(events) && PhaseOf(events).status != Failed && i < |events|
    ensures !events[i].RunError?
  {
    AcceptedAt(events, i + 1);
    if events[i].RunError? {
      AcceptedAt(events, i + 2);
      EndsLast(events, i + 2);
    }
  }

  /** From `i` on: output of call `id`, then its one ToolFinished at `j`. */
  ghost predicate RunsUntil(events: seq<Event>, id: Id, i: nat, j: nat) {
    && i <= j < |events|
    && (forall k :: i <= k < j ==> events[k].ToolOutputDelta? && events[k].callId == id)
    && events[j].ToolFinished? && events[j].callId == id
  }

  ghost predicate RunsToEnd(events: seq<Event>, id: Id, i: nat) {
    exists j :: RunsUntil(events, id, i, j)
  }

  lemma {:induction false} ToolRunsToEnd(events: seq<Event>, i: nat, calls: seq<ToolCall>)
    requires Finished(events) && PhaseOf(events).status != Failed
    requires i <= |events| && PhaseAt(events, i) == InTool(calls) && calls != []
    ensures RunsToEnd(events, calls[0].id, i)
    decreases |events| - i
  {
    AcceptedAt(events, i + 1);
    if events[i].ToolFinished? {
      assert RunsUntil(events, calls[0].id, i, i);
    } else {
      NoErrorUnlessFailed(events, i);
      ToolRunsToEnd(events, i + 1, calls);
      var j :| RunsUntil(events, calls[0].id, i + 1, j);
      assert RunsUntil(events, calls[0].id, i, j);
    }
  }

  /** In a run that did not fail, every started tool call is finished before anything else happens. */
  lemma ToolsFinish(events: seq<Event>, i: nat)
    requires Finished(events) && PhaseOf(events).status != Failed
    requires i < |events| && events[i].ToolStarted?
    ensures RunsToEnd(events, events[i].callId, i + 1)
  {
    AcceptedAt(events, i + 1);
    ToolRunsToEnd(events, i + 1, PhaseAt(events, i + 1).calls);
  }

  ghost predicate CompletedAt(events: seq<Event>, id: Id, i: nat, j: nat) {
    && i <= j < |events|
    && (forall k :: i <= k < j ==> events[k].MessageDelta? && events[k].messageId == id)
    && events[j].MessageCompleted? && events[j].messageId == id
  }

  ghost predicate Completes(events: seq<Event>, id: Id, i: nat) {
    exists j :: CompletedAt(events, id, i, j)
  }

  /** From `i` on only deltas of message `id`, then RunCancelled and RunFinished(Cancelled), which end the trace. */
  ghost predicate CutAt(events: seq<Event>, id: Id, i: nat) {
    && i + 2 <= |events|
    && (forall k :: i <= k < |events| - 2 ==> events[k].MessageDelta? && events[k].messageId == id)
    && events[|events| - 2].RunCancelled? && events[|events| - 1] == RunFinished(Cancelled)
  }

  lemma {:induction false} StreamEnds(events: seq<Event>, i: nat, id: Id)
    requires Finished(events) && PhaseOf(events).status != Failed
    requires i <= |events| && PhaseAt(events, i) == Streaming(id)
    ensures Completes(events, id, i) || CutAt(events, id, i)
    decreases |events| - i
  {
    AcceptedAt(events, i + 1);
    NoErrorUnlessFailed(events, i);
    if events[i].MessageCompleted? {
      assert CompletedAt(events, id, i, i);
    } else if events[i].RunCancelled? {
      CancelIsLast(events, i);
    } else {
      StreamEnds(events, i + 1, id);
      if Completes(events, id, i + 1) {
        var j :| CompletedAt(events, id, i + 1, j);
        assert CompletedAt(events, id, i, j);
      }
    }
  }

  /** In a run that did not fail, every started message is completed by the events that follow it, or it is
      the last message of a cancelled run. */
  lemma MessagesComplete(events: seq<Event>, i: nat)
    requires Finished(events) && PhaseOf(events).status != Failed
    requires i < |events| && events[i].MessageStarted?
    ensures Completes(events, events[i].messageId, i + 1)
         || (PhaseOf(events).status == Cancelled && CutAt(events, events[i].messageId, i + 1))
  {
    AcceptedAt(events, i + 1);
    StreamEnds(events, i + 1, events[i].messageId);
    AcceptedAt(events, |events| - 1);
  }
}
