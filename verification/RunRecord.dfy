/** What a run's trace reports and what its log keeps, side by side. */
module RunRecord {
  import opened Protocol
  import opened History
  import opened Slots
  import opened ReachableLog
  import opened SessionView
  import opened RunTrace
  import opened Runtime

  // ---------------------------------------------------------------- reading a trace

  function StreamedAfter(text: string, e: Event): string {
    match e
    case MessageStarted(_) => ""
    case MessageDelta(_, delta) => text + delta
    case _ => text
  }

  /** The text of the deltas emitted since a message was last started. */
  function Streamed(events: seq<Event>): string {
    if events == [] then "" else StreamedAfter(Streamed(events[..|events| - 1]), events[|events| - 1])
  }

  function ChunkedAfter(chunks: seq<string>, e: Event): seq<string> {
    match e
    case ToolStarted(_, _) => []
    case ToolOutputDelta(_, chunk) => chunks + [chunk]
    case _ => chunks
  }

  /** The tool output emitted since a tool was last started. */
  function Chunked(events: seq<Event>): seq<string> {
    if events == [] then [] else ChunkedAfter(Chunked(events[..|events| - 1]), events[|events| - 1])
  }

  function ReportedBy(e: Event): seq<LlmMessage> {
    match e
    case MessageCompleted(_, body) => [LlmMessage(Assistant, body, None)]
    case ToolFinished(id, output, _) => [LlmMessage(Tool, TextBody(output), Some(id))]
    case _ => []
  }

  /** The completed messages and the tool results that the trace reports. */
  function Reported(events: seq<Event>): seq<LlmMessage> {
    if events == [] then [] else Reported(events[..|events| - 1]) + ReportedBy(events[|events| - 1])
  }

  ghost predicate SaysWhatWasStreamed(text: string, e: Event) {
    e.MessageCompleted? ==> exists calls :: e.body == AssistantBody(text, calls)
  }

  /** Each completed message's text is what its deltas brought, no more and no less. */
  ghost predicate Verbatim(events: seq<Event>) {
    events == [] ||
    (Verbatim(events[..|events| - 1]) && SaysWhatWasStreamed(Streamed(events[..|events| - 1]), events[|events| - 1]))
  }

  /** What one more event does to every reading of the trace. */
  ghost predicate Traced(before: seq<Event>, e: Event, after: seq<Event>) {
    && PhaseOf(after) == Step(PhaseOf(before), e)
    && Streamed(after) == StreamedAfter(Streamed(before), e)
    && Chunked(after) == ChunkedAfter(Chunked(before), e)
    && StartedMessages(after) == StartedMessages(before) + StartsMessage(e)
    && Notices(after) == Notices(before) + IsNotice(e)
    && Reported(after) == Reported(before) + ReportedBy(e)
    && (Verbatim(after) <==> Verbatim(before) && SaysWhatWasStreamed(Streamed(before), e))
  }

  lemma TraceNext(events: seq<Event>, e: Event)
    ensures Traced(events, e, events + [e])
  {
    hide Step;
    Emitted(events, e);
    assert (events + [e])[..|events|] == events;
  }

  // ---------------------------------------------------------------- trace and log

  /** The messages after `base` are exactly those the trace reports, in order, and none of them is compacted. */
  ghost predicate InStep(base: seq<Message>, log: seq<Entry>, events: seq<Event>) {
    && Reachable(log)
    && base <= Messages(log)
    && Frontier(Messages(log), Compactions(log)) <= |base|
    && Mapped(Messages(log)[|base|..], AsLlm) == Reported(events)
    && Verbatim(events)
  }

  /** The trace reports one message more than the log holds: the write after the last report failed. */
  ghost predicate Behind(base: seq<Message>, log: seq<Entry>, events: seq<Event>) {
    && Reachable(log)
    && base <= Messages(log)
    && Frontier(Messages(log), Compactions(log)) <= |base|
    && Reported(events) != []
    && Mapped(Messages(log)[|base|..], AsLlm) == Reported(events)[..|Reported(events)| - 1]
    && Verbatim(events)
  }

  /** Behind, and what is missing is `x`. */
  ghost predicate Owes(base: seq<Message>, log: seq<Entry>, events: seq<Event>, x: LlmMessage) {
    Behind(base, log, events) && Reported(events)[|Reported(events)| - 1] == x
  }

  lemma OwesContinues(base: seq<Message>, log: seq<Entry>, later: seq<Entry>, events: seq<Event>, x: LlmMessage)
    requires Owes(base, log, events, x) && Continues(log, later)
    ensures Owes(base, later, events, x)
  {
    hide Reachable, Messages, Compactions, Frontier, Reported, Verbatim;
  }

  lemma BehindContinues(base: seq<Message>, log: seq<Entry>, later: seq<Entry>, events: seq<Event>)
    requires Behind(base, log, events) && Continues(log, later)
    ensures Behind(base, later, events)
  {
    hide Reachable, Messages, Compactions, Frontier, Reported, Verbatim;
  }

  lemma InStepContinues(base: seq<Message>, log: seq<Entry>, later: seq<Entry>, events: seq<Event>)
    requires InStep(base, log, events) && Continues(log, later)
    ensures InStep(base, later, events)
  {
    hide Reachable, Messages, Compactions, Frontier, Reported, Verbatim;
  }

  lemma InStepQuiet(base: seq<Message>, log: seq<Entry>, before: seq<Event>, e: Event, after: seq<Event>)
    requires InStep(base, log, before) && Traced(before, e, after) && ReportedBy(e) == []
    ensures InStep(base, log, after)
  {
    hide Reachable, Messages, Compactions, Frontier, Reported, Verbatim, Step, StreamedAfter, Streamed;
    hide ChunkedAfter, Chunked, PhaseOf;
    assert Reported(before) + [] == Reported(before);
  }

  lemma BehindQuiet(base: seq<Message>, log: seq<Entry>, before: seq<Event>, e: Event, after: seq<Event>)
    requires Behind(base, log, before) && Traced(before, e, after) && ReportedBy(e) == []
    requires !e.MessageCompleted?
    ensures Behind(base, log, after)
  {
    hide Reachable, Messages, Compactions, Frontier, Reported, Verbatim, Step, StreamedAfter, Streamed;
    hide ChunkedAfter, Chunked, PhaseOf;
    assert Reported(before) + [] == Reported(before);
  }

  lemma FallsBehind(base: seq<Message>, log: seq<Entry>, before: seq<Event>, e: Event, after: seq<Event>)
    requires InStep(base, log, before) && Traced(before, e, after) && |ReportedBy(e)| == 1
    requires SaysWhatWasStreamed(Streamed(before), e)
    ensures Owes(base, log, after, ReportedBy(e)[0])
  {
    hide Reachable, Messages, Compactions, Frontier, Reported, Verbatim, Step, StreamedAfter, Streamed;
    hide ChunkedAfter, Chunked, PhaseOf;
    hide SaysWhatWasStreamed;
  }

  lemma CatchesUp(base: seq<Message>, log: seq<Entry>, events: seq<Event>, m: Message)
    requires Owes(base, log, events, AsLlm(m)) && LegalMessage(log, m)
    ensures InStep(base, log + [MessageEntry(m)], events)
  {
    hide Reachable, Messages, Compactions, Frontier, Reported, Verbatim, LegalMessage, Tiled;
    var more := log + [MessageEntry(m)];
    Appended(log, MessageEntry(m));
    ReachableNext(log, MessageEntry(m));
    FrontierStays(log, m);
    var n := |base|;
    assert Messages(more)[n..] == Messages(log)[n..] + [m];
    assert Mapped(Messages(more)[n..], AsLlm) == Mapped(Messages(log)[n..], AsLlm) + [AsLlm(m)];
  }

  lemma FrontierStays(log: seq<Entry>, m: Message)
    requires Reachable(log) && LegalMessage(log, m)
    ensures Frontier(Messages(log) + [m], Compactions(log)) == Frontier(Messages(log), Compactions(log))
  {
    hide Reachable, LegalMessage, Linked, Answered, Tiled, Frontier;
    var more := log + [MessageEntry(m)];
    Appended(log, MessageEntry(m));
    ReachableNext(log, MessageEntry(m));
    ReachableIsSound(log);
    ReachableIsSound(more);
    TiledStable(Messages(log), m, Compactions(log));
  }

  // ---------------------------------------------------------------- turns

  function CallList(calls: Option<seq<ToolCall>>): seq<ToolCall> {
    if calls.Some? then calls.value else []
  }

  /** The assistant message a completed response becomes. */
  function Reply(id: Id, parent: Id, text: string, calls: Option<seq<ToolCall>>): Message {
    Message(id, Some(parent), Assistant, None, AssistantBody(text, CallList(calls)))
  }

  /** The message a tool's output becomes. */
  function ToolMessage(id: Id, parent: Id, call: ToolCall, output: string): Message {
    Message(id, Some(parent), Tool, Some(call.id), TextBody(output))
  }

  ghost predicate ResultsFor(calls: seq<ToolCall>, results: seq<Message>) {
    && |results| == |calls|
    && forall k :: 0 <= k < |calls| ==> results[k].role == Tool && results[k].toolCallId == Some(calls[k].id)
  }

  ghost predicate TurnAt(msgs: seq<Message>, a: nat) {
    a < |msgs| && msgs[a].role == Assistant && ResultsFor(CallsOf(msgs[a].body), msgs[a + 1..])
  }

  /** A list of complete turns: an assistant message, then one result for each of its calls in call order. */
  ghost predicate CompleteTurns(msgs: seq<Message>) {
    msgs == [] || exists a: nat :: TurnAt(msgs, a) && CompleteTurns(msgs[..a])
  }

  /** The list of calls answered so far grows by one. */
  lemma OneMoreResult(calls: seq<ToolCall>, i: nat, results: seq<Message>, m: Message)
    requires i < |calls| && ResultsFor(calls[..i], results)
    requires m.role == Tool && m.toolCallId == Some(calls[i].id)
    ensures ResultsFor(calls[..i + 1], results + [m])
    ensures Mapped(results + [m], AsLlm) == Mapped(results, AsLlm) + [AsLlm(m)]
    ensures calls[i..][1..] == calls[i + 1..] && calls[i..][0] == calls[i]
  {
  }

  lemma OneMoreTurn(msgs: seq<Message>, m: Message, results: seq<Message>)
    requires CompleteTurns(msgs) && m.role == Assistant && ResultsFor(CallsOf(m.body), results)
    ensures CompleteTurns(msgs + [m] + results)
  {
    hide CallsOf, ResultsFor;
    var more := msgs + [m] + results;
    assert more[..|msgs|] == msgs && more[|msgs| + 1..] == results;
    assert TurnAt(more, |msgs|);
  }

  lemma PendingAssistant(msgs: seq<Message>, m: Message, content: string, calls: seq<ToolCall>)
    requires m.role == Assistant && m.body == AssistantBody(content, calls)
    ensures Pending(msgs + [m]) == calls
  {
    CallsOfAssistantBody(content, calls);
  }

  lemma PendingTool(msgs: seq<Message>, m: Message)
    requires m.role == Tool && Pending(msgs) != []
    ensures Pending(msgs + [m]) == Pending(msgs)[1..]
  {
    assert (msgs + [m])[..|msgs|] == msgs;
  }

  /** A message with this content may follow, under any identifier not yet used. */
  ghost predicate MayFollow(log: seq<Entry>, last: Id, role: Role, body: Body, toolCallId: Option<Id>) {
    forall id :: id !in UsedIds(log) ==> LegalMessage(log, Message(id, Some(last), role, toolCallId, body))
  }

  lemma MayFollowLater(log: seq<Entry>, later: seq<Entry>, last: Id, role: Role, body: Body, toolCallId: Option<Id>)
    requires Continues(log, later) && role != Developer && MayFollow(log, last, role, body, toolCallId)
    ensures MayFollow(later, last, role, body, toolCallId)
    ensures UsedIds(later) == UsedIds(log)
  {
    hide Messages, Compactions, Pending, Reachable, ViewMessages;
    forall id | id !in UsedIds(later)
      ensures LegalMessage(later, Message(id, Some(last), role, toolCallId, body))
    {
      assert LegalMessage(log, Message(id, Some(last), role, toolCallId, body));
    }
  }

  lemma FollowsLegally(log: seq<Entry>, m: Message, last: Id)
    requires MayFollow(log, last, m.role, m.body, m.toolCallId)
    requires m.parentId == Some(last) && m.id !in UsedIds(log)
    ensures LegalMessage(log, m)
  {
    hide LegalMessage, UsedIds;
  }

  lemma AssistantMayFollow(log: seq<Entry>, last: Id, content: string, calls: seq<ToolCall>)
    requires Pending(Messages(log)) == [] && LastId(Messages(log)) == Some(last)
    ensures MayFollow(log, last, Assistant, AssistantBody(content, calls), None)
  {
    hide Messages, Pending, UsedIds, AssistantBody;
  }

  lemma ResultMayFollow(log: seq<Entry>, last: Id, call: ToolCall, output: string)
    requires LastId(Messages(log)) == Some(last)
    requires Pending(Messages(log)) != [] && Pending(Messages(log))[0] == call
    ensures MayFollow(log, last, Tool, TextBody(output), Some(call.id))
  {
    hide Messages, Pending, UsedIds, TextBody;
  }

  lemma InStepStart(log: seq<Entry>)
    requires Reachable(log)
    ensures InStep(Messages(log), log, [])
  {
    hide Reachable, Linked, ReachableLog.Answered, Tiled, Frontier, Messages;
    ReachableIsSound(log);
    FrontierOfTiled(Messages(log), Compactions(log));
  }

  /** A compaction entry written before the run's first turn leaves the run in step. */
  lemma InStepCompacted(base: seq<Message>, log: seq<Entry>, later: seq<Entry>, events: seq<Event>)
    requires InStep(base, log, events) && Messages(log) == base
    requires Reachable(later) && Messages(later) == base
    ensures InStep(base, later, events)
  {
    hide Reachable, Linked, ReachableLog.Answered, Tiled, Frontier, Messages, Reported, Verbatim;
    ReachableIsSound(later);
    FrontierOfTiled(Messages(later), Compactions(later));
  }

  // ---------------------------------------------------------------- requests

  /** One request to the provider: what was sent, and the messages of the log at that moment. */
  datatype Request = Request(sent: seq<LlmMessage>, msgs: seq<Message>)

  /** The request is the run's prompt, then the model's image of the complete turns stored since `base`. */
  ghost predicate Sends(prompt: seq<LlmMessage>, base: seq<Message>, request: Request) {
    && base <= request.msgs
    && CompleteTurns(request.msgs[|base|..])
    && request.sent == prompt + Mapped(request.msgs[|base|..], AsLlm)
  }

  lemma SendsNext(prompt: seq<LlmMessage>, base: seq<Message>, before: Request, m: Message, results: seq<Message>)
    requires Sends(prompt, base, before) && m.role == Assistant && ResultsFor(CallsOf(m.body), results)
    ensures var turn := [AsLlm(m)] + Mapped(results, AsLlm);
            Sends(prompt, base, Request(before.sent + turn, before.msgs + [m] + results))
  {
    hide CompleteTurns, ResultsFor, CallsOf;
    var n := |base|;
    OneMoreTurn(before.msgs[n..], m, results);
    var more := before.msgs + [m] + results;
    assert more[n..] == before.msgs[n..] + [m] + results;
    assert Mapped(more[n..], AsLlm) == Mapped(before.msgs[n..], AsLlm) + ([AsLlm(m)] + Mapped(results, AsLlm));
    Assoc(prompt, Mapped(before.msgs[n..], AsLlm), [AsLlm(m)] + Mapped(results, AsLlm));
  }
}
