/** The client's state, folded from the events of a run or loaded from a session view. */
module Reducer {
  import opened Protocol
  import opened History
  import opened Slots
  import opened SessionView
  import opened ReachableLog
  import opened RunTrace
  import opened RunRecord
  import LlmContext

  datatype Status = InProgress | Complete | Errored

  datatype ChatMessage = ChatMessage(id: Id, role: Role, content: string, body: Body, status: Status)

  datatype ToolCallState = ToolCallState(messageId: Id, name: string, arguments: Option<Arguments>,
                                         status: Status, output: Option<string>, error: Option<string>)

  datatype AppState = AppState(messages: seq<ChatMessage>, toolCalls: map<Id, ToolCallState>, sending: bool)

  // ---------------------------------------------------------------- one event

  function WithStatus(messages: seq<ChatMessage>, status: Status): seq<ChatMessage> {
    seq(|messages|, i requires 0 <= i < |messages| =>
      if messages[i].status.InProgress? then messages[i].(status := status) else messages[i])
  }

  function WithDelta(m: ChatMessage, delta: string): ChatMessage {
    var body :=
      if |m.body| > 0 && m.body[0].Text? then m.body[0 := Text(m.body[0].text + delta)]
      else if m.body == [] then [Text(delta)] else m.body;
    m.(content := m.content + delta, body := body)
  }

  /** Completion appends the whole body to what was streamed. */
  function WithCompletion(m: ChatMessage, body: Body): ChatMessage {
    m.(content := m.content + LlmContext.BodyText(body), body := m.body + body, status := Complete)
  }

  function OnlyFor(messages: seq<ChatMessage>, id: Id, change: ChatMessage -> ChatMessage): seq<ChatMessage> {
    seq(|messages|, i requires 0 <= i < |messages| => if messages[i].id == id then change(messages[i]) else messages[i])
  }

  /** The calls of a body, each without a result; a later call with the same id replaces an earlier one. */
  function WithCalls(toolCalls: map<Id, ToolCallState>, messageId: Id, calls: seq<ToolCall>, status: Status)
    : map<Id, ToolCallState>
  {
    if calls == [] then toolCalls
    else
      var call := calls[|calls| - 1];
      WithCalls(toolCalls, messageId, calls[..|calls| - 1], status)
        [call.id := ToolCallState(messageId, call.name, Some(call.arguments), status, None, None)]
  }

  /** The last assistant message that holds the call. */
  function LastAsking(messages: seq<ChatMessage>, callId: Id): Option<Id> {
    if messages == [] then None
    else
      var m := messages[|messages| - 1];
      if m.role == Assistant && Asks(CallsOf(m.body), callId) then Some(m.id)
      else LastAsking(messages[..|messages| - 1], callId)
  }

  predicate Asks(calls: seq<ToolCall>, callId: Id) {
    exists i :: 0 <= i < |calls| && calls[i].id == callId
  }

  /** An assistant message that holds the call. */
  predicate HoldsCall(m: ChatMessage, callId: Id) {
    m.role == Assistant && Asks(CallsOf(m.body), callId)
  }

  method FindMessageIdForToolCall(messages: seq<ChatMessage>, callId: Id) returns (found: Option<Id>)
    ensures found == LastAsking(messages, callId)
    ensures found.None? <==> forall i :: 0 <= i < |messages| ==> !HoldsCall(messages[i], callId)
    ensures found.Some? ==> exists i ::
      && 0 <= i < |messages| && HoldsCall(messages[i], callId) && messages[i].id == found.value
      && forall j :: i < j < |messages| ==> !HoldsCall(messages[j], callId)
  {
    var index := |messages| - 1;
    assert messages[..|messages|] == messages;
    while index >= 0
      invariant -1 <= index < |messages|
      invariant forall j :: index < j < |messages| ==> !HoldsCall(messages[j], callId)
      invariant LastAsking(messages, callId) == LastAsking(messages[..index + 1], callId)
    {
      var m := messages[index];
      assert messages[..index + 1][..index] == messages[..index];
      if m.role == Assistant && Asks(CallsOf(m.body), callId) {
        return Some(m.id);
      }
      index := index - 1;
    }
    return None;
  }

  /** The first summary with this id that is still in progress. */
  function FirstWaiting(messages: seq<ChatMessage>, id: Id): (r: Option<nat>)
    ensures r.Some? ==> r.value < |messages| && messages[r.value].id == id
  {
    if messages == [] then None
    else
      var earlier := FirstWaiting(messages[..|messages| - 1], id);
      var m := messages[|messages| - 1];
      if earlier.Some? then earlier
      else if m.role == Role.Summary && m.status.InProgress? && m.id == id then Some(|messages| - 1) else None
  }

  function Known(state: AppState, id: Id): Option<ToolCallState> {
    if id in state.toolCalls then Some(state.toolCalls[id]) else None
  }

  const UNNAMED := "\U{5DE5}\U{5177}"

  function Apply(state: AppState, e: Event): AppState {
    match e
    case RunStarted => state.(sending := true)
    case CompactionStarted(_, _) => state
    case CompactionFailed => state
    case CompactionCompleted(id, summary) =>
      var digest := ChatMessage(id, Role.Summary, summary, TextBody(summary), Complete);
      var waiting := FirstWaiting(state.messages, id);
      state.(messages := if waiting.Some? then state.messages[waiting.value := digest] else state.messages + [digest])
    case MessageStarted(id) =>
      state.(messages := state.messages + [ChatMessage(id, Assistant, "", TextBody(""), InProgress)])
    case MessageDelta(id, delta) =>
      state.(messages := OnlyFor(state.messages, id, (m: ChatMessage) => WithDelta(m, delta)))
    case MessageCompleted(id, body) =>
      state.(messages := OnlyFor(state.messages, id, (m: ChatMessage) => WithCompletion(m, body)),
             toolCalls := WithCalls(state.toolCalls, id, CallsOf(body), InProgress))
    case ToolStarted(id, name) =>
      var known := Known(state, id);
      var asking := LastAsking(state.messages, id);
      state.(toolCalls := state.toolCalls[id := ToolCallState(
        if known.Some? then known.value.messageId else if asking.Some? then asking.value else "",
        name,
        if known.Some? then known.value.arguments else None,
        InProgress,
        if known.Some? then known.value.output else None,
        None)])
    case ToolOutputDelta(id, chunk) =>
      var known := Known(state, id);
      state.(toolCalls := state.toolCalls[id := ToolCallState(
        if known.Some? then known.value.messageId else "",
        if known.Some? then known.value.name else UNNAMED,
        if known.Some? then known.value.arguments else None,
        InProgress,
        Some((if known.Some? && known.value.output.Some? then known.value.output.value else "") + chunk),
        None)])
    case ToolFinished(id, output, isError) =>
      var known := Known(state, id);
      state.(toolCalls := state.toolCalls[id := ToolCallState(
        if known.Some? then known.value.messageId else "",
        if known.Some? then known.value.name else UNNAMED,
        if known.Some? then known.value.arguments else None,
        if isError then Errored else Complete,
        Some(output),
        if isError then Some(output) else None)])
    case RunCancelled => state.(sending := false, messages := WithStatus(state.messages, Errored))
    case RunError => state.(sending := false, messages := WithStatus(state.messages, Errored))
    case RunFinished(status) =>
      var settled := if status == Succeeded then Complete else Errored;
      state.(sending := false, messages := WithStatus(state.messages, settled))
  }

  function Folded(state: AppState, events: seq<Event>): AppState {
    if events == [] then state else Apply(Folded(state, events[..|events| - 1]), events[|events| - 1])
  }

  // ---------------------------------------------------------------- tool calls

  function CallIds(calls: seq<ToolCall>): set<Id> {
    set i | 0 <= i < |calls| :: calls[i].id
  }

  function IntroducedBy(e: Event): set<Id> {
    if e.MessageCompleted? then CallIds(CallsOf(e.body)) else {}
  }

  /** The tool calls that the completed messages of a trace introduce. */
  function Introduced(events: seq<Event>): set<Id> {
    if events == [] then {} else Introduced(events[..|events| - 1]) + IntroducedBy(events[|events| - 1])
  }

  datatype Finish = Finish(output: string, isError: bool)

  function LastFinish(events: seq<Event>, id: Id): Option<Finish> {
    if events == [] then None
    else
      var e := events[|events| - 1];
      if e.ToolFinished? && e.callId == id then Some(Finish(e.output, e.isError))
      else LastFinish(events[..|events| - 1], id)
  }

  /** A run that can still succeed, or has. */
  predicate Healthy(phase: Phase) {
    phase != Stuck && phase != Doomed && phase != Cancelling && phase != Erred
    && (phase.Ended? ==> phase.status == Succeeded)
  }

  function Unanswered(phase: Phase): seq<ToolCall> {
    if phase.Turn? then phase.calls else if phase.InTool? then phase.calls else []
  }

  predicate Shows(call: ToolCallState, finish: Option<Finish>) {
    && finish.Some? && call.output == Some(finish.value.output)
    && call.status == (if finish.value.isError then Errored else Complete)
    && call.error == (if finish.value.isError then Some(finish.value.output) else None)
  }

  /** A call is still to be answered, or shown as its last result says. */
  predicate CallOk(state: AppState, phase: Phase, id: Id, finish: Option<Finish>) {
    id in state.toolCalls && (id in CallIds(Unanswered(phase)) || Shows(state.toolCalls[id], finish))
  }

  lemma {:induction false} CallsAdded(toolCalls: map<Id, ToolCallState>, messageId: Id, calls: seq<ToolCall>,
                                      status: Status, id: Id)
    ensures var more := WithCalls(toolCalls, messageId, calls, status);
            && (id in more <==> id in toolCalls || id in CallIds(calls))
            && (id in toolCalls && id !in CallIds(calls) ==> more[id] == toolCalls[id])
            && (id in CallIds(calls) ==> more[id].output == None)
  {
    hide CallIds;
    if calls == [] {
      NoCallIds();
    } else {
      var n := |calls| - 1;
      CallsAdded(toolCalls, messageId, calls[..n], status, id);
      LastCallId(calls);
    }
  }

  lemma LastCallId(calls: seq<ToolCall>)
    requires calls != []
    ensures CallIds(calls) == CallIds(calls[..|calls| - 1]) + {calls[|calls| - 1].id}
    ensures CallIds(calls) == CallIds(calls[1..]) + {calls[0].id}
  {
    var n := |calls| - 1;
    assert forall i :: 0 <= i < n ==> calls[..n][i] == calls[i] && calls[1..][i] == calls[i + 1];
    forall id | id in CallIds(calls) ensures id in CallIds(calls[1..]) + {calls[0].id} {
      var i :| 0 <= i < |calls| && calls[i].id == id;
      assert i > 0 ==> calls[1..][i - 1].id == id;
    }
  }

  function FinishAfter(finish: Option<Finish>, e: Event, id: Id): Option<Finish> {
    if e.ToolFinished? && e.callId == id then Some(Finish(e.output, e.isError)) else finish
  }

  lemma CallOkNext(state: AppState, phase: Phase, e: Event, id: Id, finish: Option<Finish>)
    requires Healthy(Step(phase, e))
    requires CallOk(state, phase, id, finish) || id in IntroducedBy(e)
    ensures Healthy(phase) && CallOk(Apply(state, e), Step(phase, e), id, FinishAfter(finish, e, id))
  {
    hide WithCalls, OnlyFor, WithStatus, LastAsking, FirstWaiting, CallsOf, CallIds, Shows;
    match e {
      case MessageCompleted(m, body) =>
        CallsAdded(state.toolCalls, m, CallsOf(body), InProgress, id);
        assert phase.Streaming?;
        NoCallIds();
      case ToolStarted(callId, _) =>
        LastCallId(phase.calls);
      case ToolOutputDelta(callId, _) =>
        LastCallId(phase.calls);
      case ToolFinished(callId, output, isError) =>
        LastCallId(phase.calls);
        ShowsResult(Apply(state, e).toolCalls[callId], output, isError);
      case _ =>
        NoCallIds();
    }
  }

  lemma NoCallIds()
    ensures CallIds([]) == {}
  {
  }

  lemma ShowsResult(call: ToolCallState, output: string, isError: bool)
    requires call.output == Some(output) && call.status == (if isError then Errored else Complete)
    requires call.error == if isError then Some(output) else None
    ensures Shows(call, Some(Finish(output, isError)))
  {
  }

  lemma {:induction false} CallsFollow(state: AppState, events: seq<Event>, id: Id)
    requires Healthy(PhaseOf(events)) && id in Introduced(events)
    ensures CallOk(Folded(state, events), PhaseOf(events), id, LastFinish(events, id))
  {
    hide Healthy, Step, PhaseOf, CallOk, IntroducedBy, Apply;
    var n := |events| - 1;
    var init, e := events[..n], events[n];
    assert events == init + [e];
    Emitted(init, e);
    if id in Introduced(init) {
      WasHealthy(PhaseOf(init), e);
      CallsFollow(state, init, id);
    }
    CallOkNext(Folded(state, init), PhaseOf(init), e, id, LastFinish(init, id));
  }

  lemma WasHealthy(phase: Phase, e: Event)
    requires Healthy(Step(phase, e))
    ensures Healthy(phase)
  {
    hide CallsOf;
  }

  /** After a run that succeeded nothing is in progress: every message is settled, and every tool call its messages
      introduced shows the output and the status of its last result. */
  lemma SucceededRunIsSettled(state: AppState, events: seq<Event>)
    requires PhaseOf(events) == Ended(Succeeded)
    ensures var s := Folded(state, events);
            && !s.sending
            && (forall i :: 0 <= i < |s.messages| ==> !s.messages[i].status.InProgress?)
            && (forall id :: id in Introduced(events) ==>
                  id in s.toolCalls && Shows(s.toolCalls[id], LastFinish(events, id)))
  {
    hide Introduced, LastFinish, Shows;
    LastIsFinish(events);
    forall id | id in Introduced(events)
      ensures id in Folded(state, events).toolCalls
      ensures Shows(Folded(state, events).toolCalls[id], LastFinish(events, id))
    {
      CallsFollow(state, events, id);
      NoCallIds();
    }
  }

  /** However a run ended, once it has finished nobody waits for it and no message is in progress. */
  lemma FinishedRunIsSettled(state: AppState, events: seq<Event>)
    requires Finished(events)
    ensures var s := Folded(state, events);
            !s.sending && forall i :: 0 <= i < |s.messages| ==> !s.messages[i].status.InProgress?
  {
    hide CallsOf;
    var n := |events| - 1;
    assert events[n].RunFinished?;
  }

  ghost predicate Completed(events: seq<Event>, id: Id) {
    exists k :: 0 <= k < |events| && events[k].MessageCompleted? && events[k].messageId == id
  }

  /** An assistant message is in progress only while it streams, and complete only once its completion was emitted. */
  predicate Told(m: ChatMessage, phase: Phase, completed: bool) {
    && (m.status.InProgress? ==> phase == Streaming(m.id))
    && (m.status.Complete? && m.role == Assistant ==> completed)
  }

  ghost predicate AllTold(state: AppState, n: nat, events: seq<Event>) {
    n <= |state.messages| &&
    forall i :: n <= i < |state.messages| ==>
      Told(state.messages[i], PhaseOf(events), Completed(events, state.messages[i].id))
  }

  lemma CompletedNext(events: seq<Event>, e: Event, id: Id)
    ensures Completed(events + [e], id) <==> Completed(events, id) || (e.MessageCompleted? && e.messageId == id)
  {
    assert (events + [e])[|events|] == e;
    assert forall k :: 0 <= k < |events| ==> (events + [e])[k] == events[k];
  }

  /** One message over one event. */
  lemma MessageTold(state: AppState, phase: Phase, e: Event, i: nat, completed: bool)
    requires Step(phase, e) != Stuck && i < |Apply(state, e).messages|
    requires i < |state.messages| ==> Told(state.messages[i], phase, completed)
    ensures var m := Apply(state, e).messages[i];
            && (i < |state.messages| ==> m.id == state.messages[i].id)
            && Told(m, Step(phase, e),
                    (i < |state.messages| && completed) || (e.MessageCompleted? && e.messageId == m.id))
  {
    hide WithCalls, LastAsking, CallsOf, FirstWaiting;
  }

  lemma ToldNext(state: AppState, n: nat, events: seq<Event>, e: Event)
    requires AllTold(state, n, events) && PhaseOf(events + [e]) != Stuck
    ensures AllTold(Apply(state, e), n, events + [e])
  {
    hide PhaseOf, Completed, Step, Apply, Told;
    Emitted(events, e);
    MessagesStay(state, e);
    var before, later := state.messages, Apply(state, e).messages;
    forall i | n <= i < |later| ensures Told(later[i], PhaseOf(events + [e]), Completed(events + [e], later[i].id)) {
      var completed := i < |before| && Completed(events, before[i].id);
      MessageTold(state, PhaseOf(events), e, i, completed);
      CompletedNext(events, e, later[i].id);
      ToldMore(later[i], PhaseOf(events + [e]), completed || (e.MessageCompleted? && e.messageId == later[i].id));
    }
  }

  lemma MessagesStay(state: AppState, e: Event)
    ensures |state.messages| <= |Apply(state, e).messages|
  {
    hide WithCalls, LastAsking, CallsOf, FirstWaiting;
  }

  lemma ToldMore(m: ChatMessage, phase: Phase, completed: bool)
    requires Told(m, phase, completed)
    ensures Told(m, phase, true) && (!completed ==> Told(m, phase, false))
  {
  }

  lemma {:induction false} MessagesAreTold(state: AppState, events: seq<Event>)
    requires PhaseOf(events) != Stuck
    ensures AllTold(Folded(state, events), |state.messages|, events)
  {
    hide PhaseOf, Completed, Apply, Told;
    if events != [] {
      var n := |events| - 1;
      assert events == events[..n] + [events[n]];
      Emitted(events[..n], events[n]);
      NotStuckBefore(PhaseOf(events[..n]), events[n]);
      MessagesAreTold(state, events[..n]);
      ToldNext(Folded(state, events[..n]), |state.messages|, events[..n], events[n]);
    }
  }

  lemma NotStuckBefore(phase: Phase, e: Event)
    requires Step(phase, e) != Stuck
    ensures phase != Stuck
  {
    hide CallsOf;
  }

  /** Once a run has finished, however it ended, every assistant message it began is shown complete only if its
      completion was emitted; one that was interrupted is shown as an error. */
  lemma InterruptedIsShown(state: AppState, events: seq<Event>, i: nat)
    requires Finished(events) && |state.messages| <= i < |Folded(state, events).messages|
    ensures var m := Folded(state, events).messages[i];
            m.role == Assistant && !Completed(events, m.id) ==> m.status.Errored?
  {
    hide Completed, PhaseOf, Folded;
    MessagesAreTold(state, events);
    FinishedRunIsSettled(state, events);
  }

  lemma LastIsFinish(events: seq<Event>)
    requires PhaseOf(events) == Ended(Succeeded)
    ensures events != [] && events[|events| - 1] == RunFinished(Succeeded)
  {
    hide CallsOf;
  }

  // ---------------------------------------------------------------- loading a view

  /** The calls that the assistant messages hold, all of them settled. */
  function Seeds(msgs: seq<Message>): map<Id, ToolCallState> {
    if msgs == [] then map[]
    else
      var m := msgs[|msgs| - 1];
      var before := Seeds(msgs[..|msgs| - 1]);
      if m.role == Assistant then WithCalls(before, m.id, CallsOf(m.body), Complete) else before
  }

  predicate ResultOf(m: LlmMessage, id: Id) {
    m.role == Tool && m.toolCallId == Some(id) && id != ""
  }

  /** The text of the last result of a call; an empty call id has none. */
  function LastResult(msgs: seq<LlmMessage>, id: Id): Option<string> {
    if msgs == [] then None
    else if ResultOf(msgs[|msgs| - 1], id) then Some(LlmContext.BodyText(msgs[|msgs| - 1].body))
    else LastResult(msgs[..|msgs| - 1], id)
  }

  lemma {:induction false} SeedsHaveNoOutput(msgs: seq<Message>, id: Id)
    requires id in Seeds(msgs)
    ensures Seeds(msgs)[id].output == None
  {
    hide CallsOf, CallIds, WithCalls;
    var m := msgs[|msgs| - 1];
    if m.role == Assistant {
      CallsAdded(Seeds(msgs[..|msgs| - 1]), m.id, CallsOf(m.body), Complete, id);
    }
    if id in Seeds(msgs[..|msgs| - 1]) { SeedsHaveNoOutput(msgs[..|msgs| - 1], id); }
  }

  /** The last of these calls with this id. */
  predicate LastWith(calls: seq<ToolCall>, i: int, id: Id) {
    0 <= i < |calls| && calls[i].id == id && forall j :: i < j < |calls| ==> calls[j].id != id
  }

  /** The last call with this id in the last assistant message that holds one. */
  ghost predicate HeldLast(msgs: seq<Message>, p: int, i: int, id: Id) {
    && 0 <= p < |msgs| && msgs[p].role == Assistant && LastWith(CallsOf(msgs[p].body), i, id)
    && forall q :: p < q < |msgs| && msgs[q].role == Assistant ==> !Asks(CallsOf(msgs[q].body), id)
  }

  /** Shown as a finished call of this message, with its name and arguments. */
  predicate ShowsCall(shown: ToolCallState, m: Message, call: ToolCall) {
    && shown.messageId == m.id && shown.name == call.name && shown.arguments == Some(call.arguments)
    && shown.status == Complete && shown.error == None
  }

  ghost predicate ShowsLastHeld(shown: ToolCallState, msgs: seq<Message>, id: Id) {
    exists p, i :: HeldLast(msgs, p, i, id) && ShowsCall(shown, msgs[p], CallsOf(msgs[p].body)[i])
  }

  lemma {:induction false} LatestOfBody(toolCalls: map<Id, ToolCallState>, messageId: Id, calls: seq<ToolCall>,
                                        status: Status, id: Id)
    ensures var more := WithCalls(toolCalls, messageId, calls, status);
            if Asks(calls, id) then
              exists i :: LastWith(calls, i, id) && id in more
                && more[id] == ToolCallState(messageId, calls[i].name, Some(calls[i].arguments), status, None, None)
            else (id in more <==> id in toolCalls) && (id in more ==> more[id] == toolCalls[id])
  {
    if calls != [] {
      var n := |calls| - 1;
      LatestOfBody(toolCalls, messageId, calls[..n], status, id);
      assert forall i :: 0 <= i < n ==> calls[..n][i] == calls[i];
      if calls[n].id == id {
        assert LastWith(calls, n, id);
      } else if Asks(calls, id) {
        assert Asks(calls[..n], id);
        var i :| LastWith(calls[..n], i, id);
        assert LastWith(calls, i, id);
      }
    }
  }

  /** A call id is seeded exactly when an assistant message holds it, and then as the last call that carries it. */
  lemma {:induction false} SeedsAreTheLatest(msgs: seq<Message>, id: Id)
    ensures id in Seeds(msgs) <==>
      exists p :: 0 <= p < |msgs| && msgs[p].role == Assistant && Asks(CallsOf(msgs[p].body), id)
    ensures id in Seeds(msgs) ==> ShowsLastHeld(Seeds(msgs)[id], msgs, id)
  {
    hide CallsOf, WithCalls, Asks;
    if msgs != [] {
      var n := |msgs| - 1;
      SeedsAreTheLatest(msgs[..n], id);
      LatestOfBody(Seeds(msgs[..n]), msgs[n].id, CallsOf(msgs[n].body), Complete, id);
      assert forall p :: 0 <= p < n ==> msgs[..n][p] == msgs[p];
      if msgs[n].role == Assistant && Asks(CallsOf(msgs[n].body), id) {
        var i :| LastWith(CallsOf(msgs[n].body), i, id);
        assert HeldLast(msgs, n, i, id);
      } else if id in Seeds(msgs) {
        var p, i :| HeldLast(msgs[..n], p, i, id) &&
          ShowsCall(Seeds(msgs[..n])[id], msgs[..n][p], CallsOf(msgs[..n][p].body)[i]);
        assert HeldLast(msgs, p, i, id);
      }
    }
  }

  /** Seeds the calls of the assistant messages, then fills in the last result of each. */
  method LoadToolCalls(messages: seq<Message>) returns (toolCalls: map<Id, ToolCallState>)
    ensures toolCalls.Keys == Seeds(messages).Keys
    ensures forall id :: id in toolCalls ==>
      toolCalls[id] == Seeds(messages)[id].(output := LastResult(Mapped(messages, AsLlm), id))
    ensures forall id :: id in toolCalls ==> ShowsLastHeld(toolCalls[id], messages, id)
  {
    hide CallsOf, WithCalls, Seeds, LlmContext.BodyText, ShowsLastHeld;
    toolCalls := SeedToolCalls(messages);
    ghost var seeds := toolCalls;
    forall id | id in seeds ensures seeds[id].output == None {
      SeedsHaveNoOutput(messages, id);
    }
    for i := 0 to |messages|
      invariant toolCalls.Keys == seeds.Keys
      invariant forall id :: id in seeds ==>
        toolCalls[id] == seeds[id].(output := LastResult(Mapped(messages[..i], AsLlm), id))
    {
      ResultNext(messages, i);
      var m := messages[i];
      if m.role == Tool && m.toolCallId.Some? && m.toolCallId.value != "" && m.toolCallId.value in toolCalls {
        var id := m.toolCallId.value;
        toolCalls := toolCalls[id := toolCalls[id].(output := Some(LlmContext.BodyText(m.body)))];
      }
    }
    assert messages[..|messages|] == messages;
    forall id | id in toolCalls ensures ShowsLastHeld(toolCalls[id], messages, id) {
      SeedsAreTheLatest(messages, id);
      WhateverTheOutput(seeds[id], toolCalls[id].output, messages, id);
    }
  }

  lemma WhateverTheOutput(shown: ToolCallState, output: Option<string>, msgs: seq<Message>, id: Id)
    requires ShowsLastHeld(shown, msgs, id)
    ensures ShowsLastHeld(shown.(output := output), msgs, id)
  {
    hide CallsOf, Asks;
    var p, i :| HeldLast(msgs, p, i, id) && ShowsCall(shown, msgs[p], CallsOf(msgs[p].body)[i]);
    assert ShowsCall(shown.(output := output), msgs[p], CallsOf(msgs[p].body)[i]);
  }

  method SeedToolCalls(messages: seq<Message>) returns (toolCalls: map<Id, ToolCallState>)
    ensures toolCalls == Seeds(messages)
  {
    hide CallsOf, WithCalls;
    toolCalls := map[];
    for i := 0 to |messages|
      invariant toolCalls == Seeds(messages[..i])
    {
      assert messages[..i + 1][..i] == messages[..i];
      if messages[i].role == Assistant {
        toolCalls := AddCalls(toolCalls, messages[i].id, CallsOf(messages[i].body));
      }
    }
    assert messages[..|messages|] == messages;
  }

  method AddCalls(before: map<Id, ToolCallState>, messageId: Id, calls: seq<ToolCall>)
    returns (toolCalls: map<Id, ToolCallState>)
    ensures toolCalls == WithCalls(before, messageId, calls, Complete)
  {
    toolCalls := before;
    for i := 0 to |calls|
      invariant toolCalls == WithCalls(before, messageId, calls[..i], Complete)
    {
      assert calls[..i + 1][..i] == calls[..i];
      var call := calls[i];
      var seed := ToolCallState(messageId, call.name, Some(call.arguments), Complete, None, None);
      toolCalls := toolCalls[call.id := seed];
    }
    assert calls[..|calls|] == calls;
  }

  lemma ResultNext(messages: seq<Message>, i: nat)
    requires i < |messages|
    ensures forall id ::
      LastResult(Mapped(messages[..i + 1], AsLlm), id) ==
      (if ResultOf(AsLlm(messages[i]), id) then Some(LlmContext.BodyText(messages[i].body))
       else LastResult(Mapped(messages[..i], AsLlm), id))
  {
    hide LlmContext.BodyText;
    assert Mapped(messages[..i + 1], AsLlm)[..i] == Mapped(messages[..i], AsLlm);
  }

  // ---------------------------------------------------------------- live and loaded agree

  /** The ids of all calls that the assistant messages hold. */
  function AskedIds(msgs: seq<LlmMessage>): set<Id> {
    if msgs == [] then {}
    else AskedIds(msgs[..|msgs| - 1])
         + (if msgs[|msgs| - 1].role == Assistant then CallIds(CallsOf(msgs[|msgs| - 1].body)) else {})
  }

  lemma {:induction false} SeedsAreAsked(msgs: seq<Message>)
    ensures Seeds(msgs).Keys == AskedIds(Mapped(msgs, AsLlm))
  {
    hide CallsOf, CallIds, WithCalls;
    if msgs != [] {
      var n := |msgs| - 1;
      SeedsAreAsked(msgs[..n]);
      assert Mapped(msgs, AsLlm)[..n] == Mapped(msgs[..n], AsLlm);
      if msgs[n].role == Assistant {
        KeysAdded(Seeds(msgs[..n]), msgs[n].id, CallsOf(msgs[n].body));
      }
    }
  }

  lemma KeysAdded(toolCalls: map<Id, ToolCallState>, messageId: Id, calls: seq<ToolCall>)
    ensures WithCalls(toolCalls, messageId, calls, Complete).Keys == toolCalls.Keys + CallIds(calls)
  {
    hide CallIds, WithCalls;
    forall id
      ensures id in WithCalls(toolCalls, messageId, calls, Complete) <==> id in toolCalls.Keys + CallIds(calls)
    {
      CallsAdded(toolCalls, messageId, calls, Complete, id);
    }
  }

  lemma {:induction false} LastResultConcat(a: seq<LlmMessage>, b: seq<LlmMessage>, id: Id)
    ensures LastResult(a + b, id) == if LastResult(b, id).Some? then LastResult(b, id) else LastResult(a, id)
    ensures AskedIds(a + b) == AskedIds(a) + AskedIds(b)
  {
    hide LlmContext.BodyText, CallsOf, CallIds;
    if b == [] {
      assert a + b == a;
    } else {
      var n := |b| - 1;
      assert (a + b)[..|a| + n] == a + b[..n];
      LastResultConcat(a, b[..n], id);
    }
  }

  lemma TextIsBodyText(text: string)
    ensures LlmContext.BodyText(TextBody(text)) == text
  {
    assert TextBody(text)[..0] == [];
  }

  lemma ReportsOne(e: Event, id: Id)
    requires id != ""
    ensures AskedIds(ReportedBy(e)) == IntroducedBy(e)
    ensures LastResult(ReportedBy(e), id) == if e.ToolFinished? && e.callId == id then Some(e.output) else None
  {
    hide CallsOf, CallIds;
    if ReportedBy(e) != [] {
      assert ReportedBy(e)[..0] == [];
    }
    if e.ToolFinished? {
      TextIsBodyText(e.output);
    }
  }

  lemma {:induction false} IntroducedAreAsked(events: seq<Event>)
    ensures Introduced(events) == AskedIds(Reported(events))
  {
    hide CallsOf, CallIds, ReportedBy, IntroducedBy;
    if events == [] {
      NothingAsked();
    } else {
      var n := |events| - 1;
      IntroducedAreAsked(events[..n]);
      ReportsOne(events[n], "any");
      LastResultConcat(Reported(events[..n]), ReportedBy(events[n]), "any");
    }
  }

  lemma NothingAsked()
    ensures AskedIds([]) == {} && Reported([]) == []
  {
  }

  lemma {:induction false} LastFinishIsReported(events: seq<Event>, id: Id)
    requires id != "" && LastFinish(events, id).Some?
    ensures LastResult(Reported(events), id) == Some(LastFinish(events, id).value.output)
  {
    hide LastResult, ReportedBy, AskedIds;
    var n := |events| - 1;
    ReportsOne(events[n], id);
    LastResultConcat(Reported(events[..n]), ReportedBy(events[n]), id);
    if !(events[n].ToolFinished? && events[n].callId == id) {
      LastFinishIsReported(events[..n], id);
    }
  }

  /** The view of a log that is in step with a run ends with the messages the run reported. */
  lemma ViewEndsWithTheRun(base: seq<Message>, log: seq<Entry>, events: seq<Event>) returns (earlier: seq<LlmMessage>)
    requires InStep(base, log, events)
    ensures Mapped(ViewMessages(log), AsLlm) == earlier + Reported(events)
  {
    hide ViewMessages, Reachable, Tiled, Frontier, Messages, Reported, Verbatim, Linked, Answered, SummariesFrom;
    ReachableIsSound(log);
    ViewOfTiled(log);
    var msgs, f := Messages(log), Frontier(Messages(log), Compactions(log));
    var head := SummariesFrom(msgs, Compactions(log), 0) + msgs[f..|base|];
    assert ViewMessages(log) == head + msgs[|base|..];
    earlier := Mapped(head, AsLlm);
    assert Mapped(head + msgs[|base|..], AsLlm) == earlier + Mapped(msgs[|base|..], AsLlm);
  }

  lemma {:induction false} EmptyIdHasNoResult(msgs: seq<LlmMessage>)
    ensures LastResult(msgs, "") == None
  {
    if msgs != [] { EmptyIdHasNoResult(msgs[..|msgs| - 1]); }
  }

  /** The last of these calls with this id. */
  function CallWith(calls: seq<ToolCall>, id: Id): Option<ToolCall> {
    if calls == [] then None
    else if calls[|calls| - 1].id == id then Some(calls[|calls| - 1])
    else CallWith(calls[..|calls| - 1], id)
  }

  /** The last call with this id that the assistant messages hold. */
  function AskedCall(msgs: seq<LlmMessage>, id: Id): Option<ToolCall> {
    if msgs == [] then None
    else
      var m := msgs[|msgs| - 1];
      if m.role == Assistant && CallWith(CallsOf(m.body), id).Some? then CallWith(CallsOf(m.body), id)
      else AskedCall(msgs[..|msgs| - 1], id)
  }

  lemma {:induction false} CallWithId(calls: seq<ToolCall>, id: Id)
    ensures CallWith(calls, id).Some? <==> id in CallIds(calls)
    ensures CallWith(calls, id).Some? ==> CallWith(calls, id).value.id == id
    ensures calls != [] ==>
      var later := CallWith(calls[1..], id);
      CallWith(calls, id) == if later.None? && calls[0].id == id then Some(calls[0]) else later
  {
    hide CallIds;
    if calls == [] {
      NoCallIds();
    } else {
      var n := |calls| - 1;
      CallWithId(calls[..n], id);
      LastCallId(calls);
      if n > 0 { assert calls[..n][1..] == calls[1..][..n - 1]; }
    }
  }

  lemma {:induction false} CallAdded(toolCalls: map<Id, ToolCallState>, messageId: Id, calls: seq<ToolCall>,
                                     status: Status, id: Id)
    ensures var more, call := WithCalls(toolCalls, messageId, calls, status), CallWith(calls, id);
            if call.None? then (id in more <==> id in toolCalls) && (id in more ==> more[id] == toolCalls[id])
            else
              && id in more
              && more[id] == ToolCallState(messageId, call.value.name, Some(call.value.arguments), status, None, None)
  {
    if calls != [] { CallAdded(toolCalls, messageId, calls[..|calls| - 1], status, id); }
  }

  lemma {:induction false} AskedCallConcat(a: seq<LlmMessage>, b: seq<LlmMessage>, id: Id)
    ensures AskedCall(a + b, id) == if AskedCall(b, id).Some? then AskedCall(b, id) else AskedCall(a, id)
  {
    hide CallsOf, CallWith;
    if b == [] {
      assert a + b == a;
    } else {
      var n := |b| - 1;
      assert (a + b)[..|a| + n] == a + b[..n];
      AskedCallConcat(a, b[..n], id);
    }
  }

  lemma {:induction false} SeedOfAsked(msgs: seq<Message>, id: Id)
    requires id in Seeds(msgs)
    ensures var call := AskedCall(Mapped(msgs, AsLlm), id);
            && call.Some? && Seeds(msgs)[id].name == call.value.name
            && Seeds(msgs)[id].arguments == Some(call.value.arguments)
            && Seeds(msgs)[id].status == Complete && Seeds(msgs)[id].error == None
  {
    hide CallsOf, CallWith, WithCalls;
    var n := |msgs| - 1;
    assert Mapped(msgs, AsLlm)[..n] == Mapped(msgs[..n], AsLlm);
    CallAdded(Seeds(msgs[..n]), msgs[n].id, CallsOf(msgs[n].body), Complete, id);
    if !(msgs[n].role == Assistant && CallWith(CallsOf(msgs[n].body), id).Some?) {
      SeedOfAsked(msgs[..n], id);
    }
  }

  /** Of a call that was asked for, the arguments are shown, and the name, unless a call with its id is still open. */
  predicate ShowsAsked(shown: ToolCallState, phase: Phase, id: Id, call: Option<ToolCall>) {
    var open := CallWith(Unanswered(phase), id);
    && call.Some? && shown.arguments == Some(call.value.arguments)
    && (if open.Some? then open == call else shown.name == call.value.name)
    && (phase.InTool? && phase.calls != [] && phase.calls[0].id == id ==> shown.name == phase.calls[0].name)
  }

  function AskedAfter(call: Option<ToolCall>, e: Event, id: Id): Option<ToolCall> {
    if e.MessageCompleted? && CallWith(CallsOf(e.body), id).Some? then CallWith(CallsOf(e.body), id) else call
  }

  lemma ShowsAskedNext(state: AppState, phase: Phase, e: Event, id: Id, call: Option<ToolCall>)
    requires Healthy(Step(phase, e))
    requires (id in state.toolCalls && ShowsAsked(state.toolCalls[id], phase, id, call)) || id in IntroducedBy(e)
    ensures id in Apply(state, e).toolCalls
    ensures ShowsAsked(Apply(state, e).toolCalls[id], Step(phase, e), id, AskedAfter(call, e, id))
  {
    hide WithCalls, OnlyFor, WithStatus, LastAsking, FirstWaiting, CallsOf, CallIds, CallWith;
    NothingWith(id);
    match e {
      case MessageCompleted(m, body) =>
        CallAdded(state.toolCalls, m, CallsOf(body), InProgress, id);
        CallWithId(CallsOf(body), id);
        assert phase.Streaming?;
      case ToolStarted(callId, _) =>
        CallWithId(phase.calls, id);
      case ToolOutputDelta(callId, _) =>
        CallWithId(phase.calls, id);
      case ToolFinished(callId, _, _) =>
        CallWithId(phase.calls, id);
      case _ =>
    }
  }

  lemma NothingWith(id: Id)
    ensures CallWith([], id) == None
  {
  }

  lemma {:induction false} AskedIsShown(state: AppState, events: seq<Event>, id: Id)
    requires Healthy(PhaseOf(events)) && id in Introduced(events)
    ensures id in Folded(state, events).toolCalls
    ensures ShowsAsked(Folded(state, events).toolCalls[id], PhaseOf(events), id, AskedCall(Reported(events), id))
  {
    hide Healthy, Step, PhaseOf, ShowsAsked, IntroducedBy, Apply, AskedCall, ReportedBy, AskedAfter;
    var n := |events| - 1;
    var init, e := events[..n], events[n];
    assert events == init + [e];
    Emitted(init, e);
    if id in Introduced(init) {
      WasHealthy(PhaseOf(init), e);
      AskedIsShown(state, init, id);
    }
    AskedCallConcat(Reported(init), ReportedBy(e), id);
    AskedByOne(AskedCall(Reported(init), id), e, id);
    ShowsAskedNext(Folded(state, init), PhaseOf(init), e, id, AskedCall(Reported(init), id));
  }

  lemma AskedByOne(call: Option<ToolCall>, e: Event, id: Id)
    ensures AskedAfter(call, e, id)
         == if AskedCall(ReportedBy(e), id).Some? then AskedCall(ReportedBy(e), id) else call
  {
    hide CallsOf, CallWith;
    assert ReportedBy(e) != [] ==> ReportedBy(e)[..0] == [];
  }

  /** What a client that loads the messages shows of a call. */
  function Loaded(msgs: seq<Message>, id: Id): ToolCallState
    requires id in Seeds(msgs)
  {
    Seeds(msgs)[id].(output := LastResult(Mapped(msgs, AsLlm), id))
  }

  /** After a run that succeeded, a client that followed the events and one that loads the session show the same name
      and arguments of a tool call the run introduced; the same output exactly when its id is not empty; and the same
      status and error exactly when its last result was no error. */
  lemma LiveAgreesWithLoaded(state: AppState, base: seq<Message>, log: seq<Entry>, events: seq<Event>, id: Id)
    requires InStep(base, log, events) && PhaseOf(events) == Ended(Succeeded)
    requires id in Introduced(events)
    ensures id in Folded(state, events).toolCalls && id in Seeds(ViewMessages(log))
    ensures LastFinish(events, id).Some?
    ensures var live, loaded := Folded(state, events).toolCalls[id], Loaded(ViewMessages(log), id);
            && live.name == loaded.name && live.arguments == loaded.arguments
            && (live.output == loaded.output <==> id != "")
            && (live.status == loaded.status <==> !LastFinish(events, id).value.isError)
            && (live.error == loaded.error <==> !LastFinish(events, id).value.isError)
  {
    hide InStep, PhaseOf, Introduced, LastFinish, ViewMessages, Folded, AskedIds, LastResult, Reported, Seeds;
    hide AskedCall, ShowsAsked, Loaded;
    SucceededRunIsSettled(state, events);
    var view := ViewMessages(log);
    var earlier := ViewEndsWithTheRun(base, log, events);
    LastResultConcat(earlier, Reported(events), id);
    IntroducedAreAsked(events);
    SeedsAreAsked(view);
    AskedCallConcat(earlier, Reported(events), id);
    NameIsShown(state, events, id);
    LoadedOfAsked(view, id);
    if id == "" {
      EmptyIdHasNoResult(Mapped(view, AsLlm));
    } else {
      LastFinishIsReported(events, id);
    }
  }

  lemma NameIsShown(state: AppState, events: seq<Event>, id: Id)
    requires PhaseOf(events) == Ended(Succeeded) && id in Introduced(events)
    ensures id in Folded(state, events).toolCalls
    ensures var live, call := Folded(state, events).toolCalls[id], AskedCall(Reported(events), id);
            call.Some? && live.name == call.value.name && live.arguments == Some(call.value.arguments)
  {
    hide Introduced, Folded, AskedCall, Reported, PhaseOf, CallWith;
    AskedIsShown(state, events, id);
    NothingWith(id);
  }

  lemma LoadedOfAsked(msgs: seq<Message>, id: Id)
    requires id in Seeds(msgs)
    ensures var loaded, call := Loaded(msgs, id), AskedCall(Mapped(msgs, AsLlm), id);
            && call.Some? && loaded.name == call.value.name && loaded.arguments == Some(call.value.arguments)
            && loaded.status == Complete && loaded.error == None
            && loaded.output == LastResult(Mapped(msgs, AsLlm), id)
  {
    hide Seeds, AskedCall, LastResult;
    SeedOfAsked(msgs, id);
  }

  /** Reporting a message and storing it keeps the run in step. */
  lemma ReportAndStore(base: seq<Message>, log: seq<Entry>, events: seq<Event>, e: Event, m: Message, last: Id)
    requires InStep(base, log, events) && ReportedBy(e) == [AsLlm(m)] && SaysWhatWasStreamed(Streamed(events), e)
    requires MayFollow(log, last, m.role, m.body, m.toolCallId) && m.parentId == Some(last) && m.id !in UsedIds(log)
    ensures InStep(base, log + [MessageEntry(m)], events + [e])
    ensures Messages(log + [MessageEntry(m)]) == Messages(log) + [m]
    ensures Compactions(log + [MessageEntry(m)]) == Compactions(log)
  {
    hide InStep, Traced, SaysWhatWasStreamed, MayFollow, UsedIds, LegalMessage, Messages, Compactions, Owes;
    TraceNext(events, e);
    FallsBehind(base, log, events, e, events + [e]);
    FollowsLegally(log, m, last);
    CatchesUp(base, log, events + [e], m);
    Appended(log, MessageEntry(m));
  }

  lemma Report(base: seq<Message>, log: seq<Entry>, events: seq<Event>, e: Event)
    requires InStep(base, log, events) && ReportedBy(e) == []
    ensures InStep(base, log, events + [e])
  {
    hide InStep, Traced;
    TraceNext(events, e);
    InStepQuiet(base, log, events, e, events + [e]);
  }

  // ---------------------------------------------------------------- the text of a message

  function DeltaEvents(id: Id, deltas: seq<string>): seq<Event> {
    seq(|deltas|, i requires 0 <= i < |deltas| => Event.MessageDelta(id, deltas[i]))
  }

  function Joined(deltas: seq<string>): string {
    if deltas == [] then "" else Joined(deltas[..|deltas| - 1]) + deltas[|deltas| - 1]
  }

  ghost predicate NoMessage(state: AppState, id: Id) {
    forall i :: 0 <= i < |state.messages| ==> state.messages[i].id != id
  }

  lemma FoldNext(state: AppState, events: seq<Event>, e: Event)
    ensures Folded(state, events + [e]) == Apply(Folded(state, events), e)
  {
    assert (events + [e])[..|events|] == events;
  }

  lemma OneMoreDelta(messages: seq<ChatMessage>, id: Id, shown: string, delta: string)
    requires forall i :: 0 <= i < |messages| ==> messages[i].id != id
    ensures OnlyFor(messages + [ChatMessage(id, Assistant, shown, TextBody(shown), InProgress)], id,
                    (m: ChatMessage) => WithDelta(m, delta))
         == messages + [ChatMessage(id, Assistant, shown + delta, TextBody(shown + delta), InProgress)]
  {
    assert TextBody(shown)[0 := Text(shown + delta)] == TextBody(shown + delta);
  }

  /** While a message streams, it shows the deltas so far, and no other message changes. */
  lemma {:induction false} LiveText(state: AppState, id: Id, deltas: seq<string>)
    requires NoMessage(state, id)
    ensures Folded(state, [Event.MessageStarted(id)] + DeltaEvents(id, deltas)).messages
         == state.messages + [ChatMessage(id, Assistant, Joined(deltas), TextBody(Joined(deltas)), InProgress)]
  {
    hide LlmContext.BodyText, CallsOf, WithCalls;
    var start := [Event.MessageStarted(id)];
    if deltas == [] {
      FoldNext(state, [], Event.MessageStarted(id));
      assert [] + start == start && start + DeltaEvents(id, deltas) == start;
    } else {
      var n := |deltas| - 1;
      LiveText(state, id, deltas[..n]);
      var shown := Joined(deltas[..n]);
      OneMoreDelta(state.messages, id, shown, deltas[n]);
      var before := start + DeltaEvents(id, deltas[..n]);
      FoldNext(state, before, Event.MessageDelta(id, deltas[n]));
      assert start + DeltaEvents(id, deltas) == before + [Event.MessageDelta(id, deltas[n])];
    }
  }

  /** The followed text of a completed message is the streamed text and then the stored text once more, so it equals
      the loaded text exactly when the message has no text. */
  lemma CompletionRepeatsTheText(state: AppState, id: Id, deltas: seq<string>, calls: seq<ToolCall>)
    requires NoMessage(state, id)
    ensures var body := AssistantBody(Joined(deltas), calls);
            var streamed := [Event.MessageStarted(id)] + DeltaEvents(id, deltas);
            var live := Folded(state, streamed + [Event.MessageCompleted(id, body)]);
            var n := |state.messages|;
            && |live.messages| == n + 1 && live.messages[..n] == state.messages
            && live.messages[n].id == id && live.messages[n].status == Complete
            && live.messages[n].content == Joined(deltas) + Joined(deltas)
            && live.messages[n].body == [Text(Joined(deltas))] + body
            && (live.messages[n].content == LlmContext.BodyText(body) <==> Joined(deltas) == "")
  {
    hide CallsOf, WithCalls, AssistantBody, Joined;
    LiveText(state, id, deltas);
    TextOfAssistantBody(Joined(deltas), calls);
    FoldNext(state, [Event.MessageStarted(id)] + DeltaEvents(id, deltas),
             Event.MessageCompleted(id, AssistantBody(Joined(deltas), calls)));
  }

  ghost predicate ShowsMessage(shown: ChatMessage, m: Message) {
    && shown.id == m.id && shown.role == m.role && shown.body == m.body && shown.status == Complete
    && shown.content == LlmContext.BodyText(m.body)
  }

  /** The summary that follows a compaction is the one the view shows for its block; nothing else changes. */
  lemma CompactionAgreesWithView(state: AppState, msgs: seq<Message>, c: Compaction, m: Message)
    requires StandsForBlock(m, msgs, c)
    ensures var later := Apply(state, CompactionCompleted(c.id, c.summary)).messages;
            exists k :: 0 <= k < |later| && ShowsMessage(later[k], m)
                        && |later| == |state.messages| + (if k < |state.messages| then 0 else 1)
                        && forall i :: 0 <= i < |state.messages| && i != k ==> later[i] == state.messages[i]
  {
    hide StartsAt;
    TextIsBodyText(c.summary);
    var waiting := FirstWaiting(state.messages, c.id);
    var k := if waiting.Some? then waiting.value else |state.messages|;
    assert ShowsMessage(Apply(state, CompactionCompleted(c.id, c.summary)).messages[k], m);
  }

  function ChunkEvents(id: Id, chunks: seq<string>): seq<Event> {
    seq(|chunks|, i requires 0 <= i < |chunks| => ToolOutputDelta(id, chunks[i]))
  }

  /** A call whose tool runs and has brought `text` so far, after what the call showed before. */
  function Running(before: ToolCallState, name: string, text: string): ToolCallState {
    var shown := if before.output.Some? then before.output.value else "";
    ToolCallState(before.messageId, name, before.arguments, InProgress, Some(shown + text), None)
  }

  lemma PutTwice(toolCalls: map<Id, ToolCallState>, id: Id, a: ToolCallState, b: ToolCallState)
    ensures toolCalls[id := a][id := b] == toolCalls[id := b]
  {
  }

  lemma ToolBegins(state: AppState, id: Id, name: string)
    requires id in state.toolCalls
    ensures var before := state.toolCalls[id];
            Folded(state, [ToolStarted(id, name)]) == state.(toolCalls := state.toolCalls[id :=
              ToolCallState(before.messageId, name, before.arguments, InProgress, before.output, None)])
  {
    hide LastAsking;
    FoldNext(state, [], ToolStarted(id, name));
    assert [] + [ToolStarted(id, name)] == [ToolStarted(id, name)];
  }

  function WithChunk(shown: ToolCallState, chunk: string): ToolCallState {
    var text := if shown.output.Some? then shown.output.value else "";
    ToolCallState(shown.messageId, shown.name, shown.arguments, InProgress, Some(text + chunk), None)
  }

  lemma OneMoreChunk(state: AppState, id: Id, shown: ToolCallState, chunk: string)
    ensures Apply(state.(toolCalls := state.toolCalls[id := shown]), ToolOutputDelta(id, chunk))
         == state.(toolCalls := state.toolCalls[id := WithChunk(shown, chunk)])
  {
    PutTwice(state.toolCalls, id, shown, WithChunk(shown, chunk));
  }

  /** While a tool runs, its call is in progress and shows the chunks so far, after what it showed before; nothing else
      changes. */
  lemma {:induction false} LiveOutput(state: AppState, id: Id, name: string, chunks: seq<string>)
    requires id in state.toolCalls && chunks != []
    ensures Folded(state, [ToolStarted(id, name)] + ChunkEvents(id, chunks))
         == state.(toolCalls := state.toolCalls[id := Running(state.toolCalls[id], name, Joined(chunks))])
  {
    hide Apply, Folded;
    var n := |chunks| - 1;
    var start, before := [ToolStarted(id, name)], state.toolCalls[id];
    assert start + ChunkEvents(id, chunks) == start + ChunkEvents(id, chunks[..n]) + [ToolOutputDelta(id, chunks[n])];
    FoldNext(state, start + ChunkEvents(id, chunks[..n]), ToolOutputDelta(id, chunks[n]));
    if n == 0 {
      ToolBegins(state, id, name);
      assert start + ChunkEvents(id, chunks[..n]) == start && "" + chunks[0] == chunks[0];
      OneMoreChunk(state, id, before.(name := name, status := InProgress, error := None), chunks[0]);
    } else {
      LiveOutput(state, id, name, chunks[..n]);
      OneMoreChunk(state, id, Running(before, name, Joined(chunks[..n])), chunks[n]);
      Assoc(if before.output.Some? then before.output.value else "", Joined(chunks[..n]), chunks[n]);
    }
  }

  lemma BodyTextPush(body: Body, call: ToolCall)
    ensures LlmContext.BodyText(body + [Call(call)]) == LlmContext.BodyText(body)
  {
    assert (body + [Call(call)])[..|body|] == body;
    assert LlmContext.BodyText(body) + "" == LlmContext.BodyText(body);
  }

  lemma {:induction false} TextOfAssistantBody(text: string, calls: seq<ToolCall>)
    ensures LlmContext.BodyText(AssistantBody(text, calls)) == text
  {
    hide LlmContext.BodyText;
    if calls == [] {
      assert AssistantBody(text, calls) == TextBody(text);
      TextIsBodyText(text);
    } else {
      var n := |calls| - 1;
      TextOfAssistantBody(text, calls[..n]);
      assert AssistantBody(text, calls) == AssistantBody(text, calls[..n]) + [Call(calls[n])];
      BodyTextPush(AssistantBody(text, calls[..n]), calls[n]);
    }
  }
}
