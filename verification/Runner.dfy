/** The run loop: one executor per run, one runner per session. */
module Runner {
  import opened Protocol
  import opened History
  import opened Slots
  import opened SessionView
  import opened ReachableLog
  import opened RunTrace
  import opened Runtime
  import opened RunRecord
  import opened CompactionService
  import ActivePath
  import LlmContext
  import Presented

  const DELTA_BUFFER_THRESHOLD := 8

  function TextOf(flush: Option<string>): string {
    if flush.Some? then flush.value else ""
  }

  /** Gathers small deltas; nothing is lost or reordered. */
  class DeltaBuffer {
    const threshold: nat
    var buffer: string

    constructor (threshold: nat)
      ensures this.threshold == threshold && buffer == ""
    {
      this.threshold := threshold;
      buffer := "";
    }

    method Push(delta: string) returns (flush: Option<string>)
      modifies this
      ensures TextOf(flush) + buffer == old(buffer) + delta
      ensures flush.Some? <==> ByteLen(old(buffer) + delta) >= threshold
      ensures if flush.Some? then buffer == "" else ByteLen(buffer) < threshold
    {
      buffer := buffer + delta;
      if ByteLen(buffer) >= threshold {
        flush := Some(buffer);
        buffer := "";
      } else {
        flush := None;
      }
    }

    method Flush() returns (flush: Option<string>)
      modifies this
      ensures TextOf(flush) == old(buffer) && buffer == ""
      ensures flush.Some? <==> old(buffer) != ""
    {
      if buffer == "" {
        return None;
      }
      flush := Some(buffer);
      buffer := "";
    }
  }

  /** The fields of a stream state, as one value. */
  datatype Progress = Progress(messageId: Option<Id>, content: string, calls: Option<seq<ToolCall>>,
                               completed: bool, sawMessage: bool, buffered: string)

  class StreamState {
    var messageId: Option<Id>
    var assistantContent: string
    var toolCalls: Option<seq<ToolCall>>
    var completed: bool
    var sawMessage: bool
    const deltaBuffer: DeltaBuffer

    constructor ()
      ensures fresh(deltaBuffer) && deltaBuffer.threshold == DELTA_BUFFER_THRESHOLD
      ensures Now() == Progress(None, "", None, false, false, "")
    {
      messageId := None;
      assistantContent := "";
      toolCalls := None;
      completed := false;
      sawMessage := false;
      deltaBuffer := new DeltaBuffer(DELTA_BUFFER_THRESHOLD);
    }

    ghost function Now(): Progress
      reads this, deltaBuffer
    {
      Progress(messageId, assistantContent, toolCalls, completed, sawMessage, deltaBuffer.buffer)
    }
  }

  /** In these phases a run may ask the provider for a turn. */
  predicate CanAsk(phase: Phase) {
    phase == Started || phase == Compacted || phase == Turn([])
  }

  /** Where the runner stands in a response: what the stream has brought is what was emitted plus what is buffered. */
  ghost predicate Tracks(stream: StreamPhase, id: Id, text: string, now: Progress, events: seq<Event>) {
    match stream
    case NotStarted =>
      CanAsk(PhaseOf(events)) && text == "" && now == Progress(None, "", None, false, false, "")
    case Open =>
      && PhaseOf(events) == Streaming(id)
      && now == Progress(Some(id), text, None, false, true, now.buffered)
      && Streamed(events) + now.buffered == text
      && ByteLen(now.buffered) < DELTA_BUFFER_THRESHOLD
    case Closed =>
      && PhaseOf(events) == Turn(CallList(now.calls))
      && now == Progress(Some(id), text, now.calls, true, true, "")
      && Streamed(events) == text
  }

  datatype StreamOutcome =
    | AssistantOutcome(content: string, calls: Option<seq<ToolCall>>, sawMessage: bool)
    | StreamCancelled

  datatype RunOutcome = RunSucceeded | RunWasCancelled(emitRunCancelled: bool) | RunFailed | StillRunning

  datatype Failure = Failure

  /** The run failed: its trace can only take an error now, and at most the last report was not written. */
  ghost predicate Failing(base: seq<Message>, log: seq<Entry>, events: seq<Event>) {
    Step(PhaseOf(events), RunError) == Erred && (InStep(base, log, events) || Behind(base, log, events))
  }

  /** One-shot executor of a run. `base` is the messages of the log up to the run's own developer message. */
  class RunExecutor {
    const store: SessionStore
    const token: CancelToken
    const config: Config
    const sessionId: Id
    const runId: Id
    const userMessage: string
    const developerMessageId: Id
    const instructions: Option<string>
    const services: Services
    ghost const base: seq<Message>

    var events: seq<Event>
    ghost var requests: seq<Request>
    ghost var prompt: seq<LlmMessage>
    ghost var promptLog: seq<Entry>
    ghost var readLog: seq<Entry>            // what the run read before it decided on compaction
    ghost var sawCancelled: bool             // what the run saw when it last looked at the token

    constructor (store: SessionStore, token: CancelToken, config: Config, sessionId: Id, runId: Id,
                 userMessage: string, developerMessageId: Id, instructions: Option<string>, services: Services)
      ensures this.store == store && this.token == token && this.config == config && this.runId == runId
      ensures this.sessionId == sessionId && this.services == services
      ensures base == Messages(store.entries) && events == [] && requests == []
      ensures this.developerMessageId == developerMessageId && this.userMessage == userMessage
      ensures this.instructions == instructions
    {
      this.store := store;
      this.token := token;
      this.config := config;
      this.sessionId := sessionId;
      this.runId := runId;
      this.userMessage := userMessage;
      this.developerMessageId := developerMessageId;
      this.instructions := instructions;
      this.services := services;
      base := Messages(store.entries);
      events := [];
      requests := [];
      prompt := [];
      promptLog := [];
      readLog := [];
      sawCancelled := false;
    }

    /** Nothing around the run fails: the session is there and can be read and written, the provider serves every
        request, and every tool brings a result. */
    ghost predicate Dependable(log: seq<Entry>) {
      Serviced() && HasHeader(log, sessionId)
    }

    ghost predicate Serviced() {
      store.reliable && services.catalogReads && services.providerServes && services.toolsAnswer
    }

    /** Looks at the token. */
    method LooksCancelled() returns (cancelled: bool)
      modifies this`sawCancelled
      ensures cancelled == token.cancelled && sawCancelled == cancelled
    {
      cancelled := token.cancelled;
      sawCancelled := cancelled;
    }

    method Emit(e: Event)
      modifies this`events
      ensures events == old(events) + [e] && Traced(old(events), e, events)
    {
      TraceNext(events, e);
      events := events + [e];
    }

    /** Writes the message that was reported last. */
    method AppendReported(id: Option<Id>, last: Id, role: Role, body: Body, toolCallId: Option<Id>)
      returns (r: Result<Id, Failure>)
      requires Owes(base, store.entries, events, LlmMessage(role, body, toolCallId))
      requires role != Developer && MayFollow(store.entries, last, role, body, toolCallId)
      requires id.Some? ==> id.value !in UsedIds(store.entries)
      modifies store, token
      ensures old(token.cancelled) ==> token.cancelled
      ensures token.Timed() ==> token.cancelled == old(token.cancelled)
      ensures r.Ok? ==> InStep(base, store.entries, events)
      ensures r.Ok? ==>
        Messages(store.entries) == old(Messages(store.entries)) + [Message(r.value, Some(last), role, toolCallId, body)]
      ensures r.Ok? && id.Some? ==> r.value == id.value
      ensures r.Err? ==> Behind(base, store.entries, events) && !store.reliable
    {
      hide InStep, Behind, Messages, UsedIds, LegalMessage, Reported, MayFollow, Continues;
      ghost var before := store.entries;
      Await(store, token);
      OwesContinues(base, before, store.entries, events, LlmMessage(role, body, toolCallId));
      MayFollowLater(before, store.entries, last, role, body, toolCallId);
      ghost var ready := store.entries;
      var appended := store.AppendMessage(id, Some(last), role, body, toolCallId);
      if appended.Err? {
        return Err(Failure);
      }
      ghost var m := Message(appended.value, Some(last), role, toolCallId, body);
      FollowsLegally(ready, m, last);
      CatchesUp(base, ready, events, m);
      Appended(ready, MessageEntry(m));
      ghost var written := store.entries;
      Await(store, token);
      InStepContinues(base, written, store.entries, events);
      SameMessages(written, store.entries);
      return Ok(appended.value);
    }

    // -------------------------------------------------------------- one response

    /** Emits what a buffer gave up, if anything. */
    method EmitDelta(id: Id, flush: Option<string>)
      requires PhaseOf(events) == Streaming(id) && InStep(base, store.entries, events)
      modifies this`events
      ensures PhaseOf(events) == Streaming(id) && InStep(base, store.entries, events)
      ensures Streamed(events) == old(Streamed(events)) + TextOf(flush)
      ensures StartedMessages(events) == old(StartedMessages(events))
      ensures flush.None? ==> events == old(events)
    {
      hide InStep, PhaseOf, Streamed, Reported, Verbatim;
      if flush.Some? {
        Emit(Event.MessageDelta(id, flush.value));
        InStepQuiet(base, store.entries, old(events), Event.MessageDelta(id, flush.value), events);
      } else {
        assert Streamed(events) + "" == Streamed(events);
      }
    }

    method OnStarted(id: Id, state: StreamState)
      requires Tracks(NotStarted, id, "", state.Now(), events) && InStep(base, store.entries, events)
      modifies this`events, state
      ensures Tracks(Open, id, "", state.Now(), events) && InStep(base, store.entries, events)
      ensures StartedMessages(events) == old(StartedMessages(events)) + 1
    {
      hide InStep, PhaseOf, Streamed, Reported, Verbatim;
      state.sawMessage := true;
      state.messageId := Some(id);
      state.assistantContent := "";
      state.toolCalls := None;
      state.completed := false;
      Emit(Event.MessageStarted(id));
      InStepQuiet(base, store.entries, old(events), Event.MessageStarted(id), events);
    }

    method OnDelta(id: Id, delta: string, state: StreamState, ghost text: string)
      requires Tracks(Open, id, text, state.Now(), events) && InStep(base, store.entries, events)
      requires state.deltaBuffer.threshold == DELTA_BUFFER_THRESHOLD
      modifies this`events, state, state.deltaBuffer
      ensures Tracks(Open, id, text + delta, state.Now(), events) && InStep(base, store.entries, events)
      ensures StartedMessages(events) == old(StartedMessages(events))
    {
      hide InStep, PhaseOf, Streamed, Reported, Verbatim;
      state.assistantContent := state.assistantContent + delta;
      ghost var emitted, buffered := Streamed(events), state.deltaBuffer.buffer;
      var flush := state.deltaBuffer.Push(delta);
      EmitDelta(id, flush);
      Assoc(emitted, TextOf(flush), state.deltaBuffer.buffer);
      Assoc(emitted, buffered, delta);
    }

    /** Reports the message, then writes it. */
    method OnCompleted(id: Id, calls: Option<seq<ToolCall>>, state: StreamState, last: Id, ghost text: string)
      returns (r: Result<(), Failure>, next: Id)
      requires Tracks(Open, id, text, state.Now(), events) && InStep(base, store.entries, events)
      requires id !in UsedIds(store.entries) && Pending(Messages(store.entries)) == []
      requires LastId(Messages(store.entries)) == Some(last)
      modifies this`events, state, state.deltaBuffer, store, token
      ensures old(token.cancelled) ==> token.cancelled
      ensures token.Timed() ==> token.cancelled == old(token.cancelled)
      ensures r.Ok? ==> next == id && Tracks(Closed, id, text, state.Now(), events) && state.toolCalls == calls
      ensures r.Ok? ==> InStep(base, store.entries, events)
      ensures r.Ok? ==> Messages(store.entries) == old(Messages(store.entries)) + [Reply(id, last, text, calls)]
      ensures r.Err? ==> next == last && Failing(base, store.entries, events)
      ensures r.Err? ==> Behind(base, store.entries, events) && !store.reliable
      ensures StartedMessages(events) == old(StartedMessages(events))
    {
      hide InStep, PhaseOf, Streamed, Reported, Verbatim, Messages, UsedIds, Pending, CallsOf, LegalMessage;
      hide Behind, Continues;
      next := last;
      var flush := state.deltaBuffer.Flush();
      EmitDelta(id, flush);
      var body := [Text(state.assistantContent)] + CallBlocks(CallList(calls));
      r := CompleteAndAppend(id, body, CallList(calls), last, text);
      if r.Ok? {
        next := id;
        state.toolCalls := calls;
        state.completed := true;
      }
    }

    method CompleteAndAppend(id: Id, body: Body, ghost calls: seq<ToolCall>, last: Id, ghost text: string)
      returns (r: Result<(), Failure>)
      requires PhaseOf(events) == Streaming(id) && Streamed(events) == text && InStep(base, store.entries, events)
      requires body == AssistantBody(text, calls)
      requires id !in UsedIds(store.entries) && Pending(Messages(store.entries)) == []
      requires LastId(Messages(store.entries)) == Some(last)
      modifies this`events, store, token
      ensures old(token.cancelled) ==> token.cancelled
      ensures token.Timed() ==> token.cancelled == old(token.cancelled)
      ensures PhaseOf(events) == Turn(calls) && Streamed(events) == text
      ensures r.Ok? ==> InStep(base, store.entries, events)
      ensures r.Ok? ==>
        Messages(store.entries) == old(Messages(store.entries)) + [Message(id, Some(last), Assistant, None, body)]
      ensures r.Err? ==> Behind(base, store.entries, events) && !store.reliable
      ensures StartedMessages(events) == old(StartedMessages(events))
    {
      hide InStep, PhaseOf, Streamed, Reported, Verbatim, Messages, UsedIds, Pending, LegalMessage, Behind, Continues;
      hide AssistantBody, CallsOf, LastId;
      CallsOfAssistantBody(text, calls);
      Emit(Event.MessageCompleted(id, body));
      FallsBehind(base, store.entries, old(events), Event.MessageCompleted(id, body), events);
      AssistantMayFollow(store.entries, last, text, calls);
      var appended := AppendReported(Some(id), last, Assistant, body, None);
      r := if appended.Ok? then Ok(()) else Err(Failure);
    }

    method HandleProviderEvent(event: ProviderEvent, state: StreamState, last: Id, ghost id: Id,
                               ghost phase: StreamPhase, ghost text: string, ghost phase': StreamPhase,
                               ghost text': string)
      returns (r: Result<(), Failure>, next: Id)
      requires Tracks(phase, id, text, state.Now(), events) && InStep(base, store.entries, events)
      requires ProviderStream.WellFormed(id, phase, text, event, phase', text')
      requires state.deltaBuffer.threshold == DELTA_BUFFER_THRESHOLD
      requires phase != Closed ==> id !in UsedIds(store.entries) && Pending(Messages(store.entries)) == []
      requires phase != Closed ==> LastId(Messages(store.entries)) == Some(last)
      modifies this`events, state, state.deltaBuffer, store, token
      ensures old(token.cancelled) ==> token.cancelled
      ensures token.Timed() ==> token.cancelled == old(token.cancelled)
      ensures r.Ok? ==> Tracks(phase', id, text', state.Now(), events) && InStep(base, store.entries, events)
      ensures phase' == NotStarted ==> r.Ok? && events == old(events)
      ensures r.Ok? && (phase' != Closed || phase == Closed) ==> store.entries == old(store.entries) && next == last
      ensures r.Ok? && phase != Closed && phase' == Closed ==>
        && next == id
        && Messages(store.entries) == old(Messages(store.entries)) + [Reply(id, last, text', state.toolCalls)]
      ensures r.Ok? && phase == Closed ==> state.toolCalls == old(state.toolCalls)
      ensures r.Ok? && phase != Closed && phase' == Closed ==>
        event.MessageCompleted? && event.messageId == id && state.toolCalls == event.calls
      ensures r.Err? ==> next == last && Failing(base, store.entries, events)
      ensures r.Err? ==> Behind(base, store.entries, events) && !store.reliable
      ensures StartedMessages(events)
           == old(StartedMessages(events)) + (if phase == NotStarted && phase' != NotStarted then 1 else 0)
    {
      hide InStep, PhaseOf, Streamed, Messages, UsedIds, Pending, LegalMessage, Failing, ByteLen, AssistantBody;
      hide Behind, StartedMessages;
      next := last;
      r := Ok(());
      match event {
        case MessageStarted(m) =>
          OnStarted(m, state);
        case TextDelta(m, delta) =>
          if state.messageId == Some(m) {
            OnDelta(m, delta, state, text);
          }
        case MessageCompleted(m, calls) =>
          if state.messageId == Some(m) {
            r, next := OnCompleted(m, calls, state, last, text);
          }
      }
    }

    /** What a response leaves behind, whichever way it ended. */
    ghost predicate Consumed(r: Result<StreamOutcome, Failure>, stream: ProviderStream, before: seq<Message>,
                             last: Id, next: Id)
      reads this, stream, store
    {
      match r
      case Ok(AssistantOutcome(content, calls, saw)) =>
        && stream.phase == Closed && stream.lastPoll == Some(End)
        && saw && content == stream.text && Streamed(events) == stream.text
        && PhaseOf(events) == Turn(CallList(calls)) && InStep(base, store.entries, events)
        && next == stream.id && Messages(store.entries) == before + [Reply(stream.id, last, stream.text, calls)]
      case Ok(StreamCancelled) =>
        && InStep(base, store.entries, events)
        && (stream.phase != NotStarted ==> PhaseOf(events) == Cancelling && Streamed(events) == stream.text)
        && (stream.phase != Closed ==> Messages(store.entries) == before)
      case Err(_) =>
        && Failing(base, store.entries, events)
        && (stream.lastPoll == Some(Polled.Error) || (stream.lastPoll == Some(End) && stream.phase != Closed)
            || (!store.reliable && Behind(base, store.entries, events)))
    }

    /** Reads one response. A completed message is emitted and stored in full; a cancelled one is emitted in full,
        as far as it was received, and not stored. */
    method ConsumeProviderStream(stream: ProviderStream, last: Id)
      returns (r: Result<StreamOutcome, Failure>, next: Id)
      requires stream.phase == NotStarted && stream.text == ""
      requires CanAsk(PhaseOf(events)) && InStep(base, store.entries, events)
      requires stream.id !in UsedIds(store.entries) && Pending(Messages(store.entries)) == []
      requires LastId(Messages(store.entries)) == Some(last)
      modifies this`events, this`sawCancelled, stream, store, token
      ensures old(token.cancelled) ==> token.cancelled
      ensures token.Timed() ==> token.cancelled == old(token.cancelled)
      ensures Consumed(r, stream, old(Messages(store.entries)), last, next)
      ensures r == Ok(StreamCancelled) ==> token.cancelled
      ensures r.Ok? ==> (sawCancelled <==> r.value.StreamCancelled?)
      ensures r.Ok? && r.value.AssistantOutcome? && stream.replies.Always? ==> r.value.calls == stream.replies.calls
      ensures stream.serves && store.reliable ==> r.Ok?
      ensures r == Ok(StreamCancelled) && stream.phase == NotStarted ==> events == old(events)
      ensures old(token.cancelled) ==> r == Ok(StreamCancelled) && stream.phase == NotStarted
      ensures StartedMessages(events)
           == old(StartedMessages(events)) + (if stream.phase == NotStarted then 0 else 1)
    {
      hide Behind, StartedMessages, Step, AssistantBody, CallBlocks;
      hide InStep, PhaseOf, Streamed, Messages, UsedIds, Pending, Failing, ByteLen, Reply, Continues;
      next := last;
      var state := new StreamState();
      ghost var before := Messages(store.entries);
      while true
        invariant fresh(state) && fresh(state.deltaBuffer) && state.deltaBuffer.threshold == DELTA_BUFFER_THRESHOLD
        invariant Tracks(stream.phase, stream.id, stream.text, state.Now(), events)
        invariant InStep(base, store.entries, events)
        invariant stream.phase != Closed ==> stream.id !in UsedIds(store.entries) && next == last
        invariant stream.phase != Closed ==> Messages(store.entries) == before
        invariant stream.phase == NotStarted ==> events == old(events)
        invariant StartedMessages(events)
               == old(StartedMessages(events)) + (if stream.phase == NotStarted then 0 else 1)
        invariant stream.phase == Closed ==> next == stream.id
        invariant stream.phase == Closed && stream.replies.Always? ==> state.toolCalls == stream.replies.calls
        invariant token.Timed() ==> token.cancelled == old(token.cancelled)
        invariant stream.phase == Closed ==>
          Messages(store.entries) == before + [Reply(stream.id, last, stream.text, state.toolCalls)]
        invariant old(token.cancelled) ==> token.cancelled && stream.phase == NotStarted
        decreases stream.remaining + Ahead(stream.phase)
      {
        ghost var ahead := store.entries;
        Await(store, token);
        InStepContinues(base, ahead, store.entries, events);
        SameMessages(ahead, store.entries);
        var cancelled := LooksCancelled();
        if cancelled {
          Interrupt(stream, state);
          return Ok(StreamCancelled), next;
        }
        ghost var phase, text := stream.phase, stream.text;
        var polled := stream.Next();
        if polled == Polled.Error {
          StillFailing(base, store.entries, events);
          return Err(Failure), next;
        }
        if polled == End {
          break;
        }
        var handled;
        handled, next :=
          HandleProviderEvent(polled.event, state, next, stream.id, phase, text, stream.phase, stream.text);
        if handled.Err? {
          return Err(Failure), next;
        }
      }
      if !state.completed {
        StillFailing(base, store.entries, events);
        return Err(Failure), next;
      }
      return Ok(AssistantOutcome(state.assistantContent, state.toolCalls, state.sawMessage)), next;
    }

    /** Cancelled while a message may be in flight: flush it and say so, but store nothing. */
    method Interrupt(stream: ProviderStream, state: StreamState)
      requires Tracks(stream.phase, stream.id, stream.text, state.Now(), events) && InStep(base, store.entries, events)
      modifies this`events, state, state.deltaBuffer
      ensures InStep(base, store.entries, events)
      ensures if stream.phase == NotStarted then events == old(events)
              else PhaseOf(events) == Cancelling && Streamed(events) == stream.text
      ensures StartedMessages(events) == old(StartedMessages(events))
    {
      hide InStep, PhaseOf, Streamed, ByteLen, Reported, Verbatim, CallsOf;
      if state.messageId.Some? {
        var flush := state.deltaBuffer.Flush();
        if flush.Some? {
          EmitDelta(state.messageId.value, flush);
        }
        ghost var flushed := events;
        Emit(Event.RunCancelled);
        InStepQuiet(base, store.entries, flushed, Event.RunCancelled, events);
      }
    }

    // -------------------------------------------------------------- one tool call

    /** Reads a tool's output to its end; an error ends it at once and becomes the result. */
    method CollectOutput(stream: ToolStream, call: ToolCall, ghost calls: seq<ToolCall>)
      returns (finalResult: Option<ToolResult>)
      requires calls != [] && calls[0] == call && PhaseOf(events) == InTool(calls)
      requires InStep(base, store.entries, events)
      requires Chunked(events) == stream.chunks && stream.standing == None
      modifies this`events, stream, store, token
      ensures old(token.cancelled) ==> token.cancelled
      ensures finalResult == stream.standing && Chunked(events) == stream.chunks
      ensures stream.answers ==> finalResult.Some?
      ensures StartedMessages(events) == old(StartedMessages(events))
      ensures PhaseOf(events) == InTool(calls) && InStep(base, store.entries, events)
      ensures Messages(store.entries) == old(Messages(store.entries))
    {
      hide InStep, PhaseOf, Streamed, Chunked, Reported, Verbatim, Messages, Continues;
      finalResult := None;
      while true
        invariant finalResult == stream.standing && Chunked(events) == stream.chunks
        invariant StartedMessages(events) == old(StartedMessages(events))
        invariant PhaseOf(events) == InTool(calls) && InStep(base, store.entries, events)
        invariant Messages(store.entries) == old(Messages(store.entries))
        invariant old(token.cancelled) ==> token.cancelled
        decreases stream.remaining + stream.Unanswered()
      {
        ghost var ahead := store.entries;
        Await(store, token);
        InStepContinues(base, ahead, store.entries, events);
        SameMessages(ahead, store.entries);
        var polled := stream.Next();
        match polled {
          case ToolEnd => break;
          case Chunk(chunk) =>
            ghost var before := events;
            Emit(Event.ToolOutputDelta(call.id, chunk));
            InStepQuiet(base, store.entries, before, Event.ToolOutputDelta(call.id, chunk), events);
          case Done(result) => finalResult := Some(result);
          case ToolFailed(message) =>
            finalResult := Some(ToolResult(message, true));
            break;
        }
      }
    }

    /** Starts the tool of the call and reads its output; every chunk is emitted, and the error of a tool that cannot
        be started is a result. There is no result only if the output ends without one. */
    method RunTool(call: ToolCall, ghost calls: seq<ToolCall>)
      returns (result: Option<ToolResult>, ghost output: ToolStream)
      requires calls != [] && calls[0] == call && PhaseOf(events) == Turn(calls)
      requires InStep(base, store.entries, events)
      modifies this`events, store, token
      ensures old(token.cancelled) ==> token.cancelled
      ensures PhaseOf(events) == InTool(calls) && InStep(base, store.entries, events)
      ensures Messages(store.entries) == old(Messages(store.entries))
      ensures services.toolsAnswer ==> result.Some?
      ensures fresh(output) && output.call == call && Chunked(events) == output.chunks
      ensures if output.refusal.Some? then result == Some(ToolResult(output.refusal.value, true)) && output.chunks == []
              else result == output.standing
      ensures StartedMessages(events) == old(StartedMessages(events))
    {
      hide InStep, PhaseOf, Streamed, Chunked, Reported, Verbatim, Messages, Continues;
      Emit(Event.ToolStarted(call.id, call.name));
      InStepQuiet(base, store.entries, old(events), Event.ToolStarted(call.id, call.name), events);
      ghost var before := store.entries;
      var invoked;
      invoked, output := InvokeTool(call, services.toolsAnswer);
      Await(store, token);
      InStepContinues(base, before, store.entries, events);
      SameMessages(before, store.entries);
      if invoked.Err? {
        return Some(ToolResult(invoked.error, true)), output;
      }
      result := CollectOutput(invoked.value, call, calls);
    }

    /** Runs the tool of one call, reports what it came to, then stores that and sends it back to the model. */
    method ExecuteToolCall(call: ToolCall, last: Id, ghost calls: seq<ToolCall>)
      returns (r: Result<LlmMessage, Failure>, next: Id, ghost stream: ToolStream)
      requires calls != [] && calls[0] == call && PhaseOf(events) == Turn(calls)
      requires InStep(base, store.entries, events)
      requires Pending(Messages(store.entries)) == calls && LastId(Messages(store.entries)) == Some(last)
      modifies this`events, store, token
      ensures old(token.cancelled) ==> token.cancelled
      ensures r.Ok? ==> PhaseOf(events) == Turn(calls[1..]) && InStep(base, store.entries, events)
      ensures fresh(stream) && stream.call == call
      ensures stream.refusal.Some? ==> stream.Outcome() == Some(ToolResult(stream.refusal.value, true))
      ensures stream.refusal.None? ==> stream.Outcome() == stream.standing
      ensures r.Ok? ==> stream.Outcome().Some? && EndsWithResult(events, call, stream.Outcome().value)
      ensures r.Ok? ==>
        var m := Message(next, Some(last), Tool, Some(call.id), TextBody(stream.Outcome().value.output));
        Messages(store.entries) == old(Messages(store.entries)) + [m] && r.value == AsLlm(m)
      ensures Serviced() ==> r.Ok?
      ensures r.Err? ==> Failing(base, store.entries, events)
      ensures StartedMessages(events) == old(StartedMessages(events))
    {
      hide InStep, PhaseOf, Streamed, Reported, Verbatim, Messages, Continues, Owes, Behind, MayFollow, Pending;
      hide StartedMessages;
      next := last;
      var finalResult;
      finalResult, stream := RunTool(call, calls);
      if finalResult.None? {
        return Err(Failure), next, stream;
      }
      var output, isError := finalResult.value.output, finalResult.value.isError;
      ghost var before := events;
      Emit(Event.ToolFinished(call.id, output, isError));
      FallsBehind(base, store.entries, before, Event.ToolFinished(call.id, output, isError), events);
      ResultMayFollow(store.entries, last, call, output);
      var appended := AppendReported(None, last, Tool, TextBody(output), Some(call.id));
      if appended.Err? {
        return Err(Failure), next, stream;
      }
      return Ok(LlmMessage(Tool, TextBody(output), Some(call.id))), appended.value, stream;
    }

    ghost predicate EndsWithResult(events: seq<Event>, call: ToolCall, result: ToolResult) {
      events != [] && events[|events| - 1] == Event.ToolFinished(call.id, result.output, result.isError)
    }

    // -------------------------------------------------------------- one turn

    /** Runs the calls of a turn in order, one stored result for each, which is what its own tool came to; a run that
        has seen its cancellation does not begin to. */
    method AnswerCalls(calls: seq<ToolCall>, last: Id)
      returns (r: Result<seq<LlmMessage>, Failure>, next: Id, ghost results: seq<Message>,
               ghost streams: seq<ToolStream>)
      requires !sawCancelled
      requires PhaseOf(events) == Turn(calls) && InStep(base, store.entries, events)
      requires Pending(Messages(store.entries)) == calls && LastId(Messages(store.entries)) == Some(last)
      modifies this`events, store, token
      ensures old(token.cancelled) ==> token.cancelled
      ensures r.Ok? ==> PhaseOf(events) == Turn([]) && InStep(base, store.entries, events)
      ensures r.Ok? ==> Pending(Messages(store.entries)) == [] && LastId(Messages(store.entries)) == Some(next)
      ensures r.Ok? ==> Messages(store.entries) == old(Messages(store.entries)) + results && ResultsFor(calls, results)
      ensures r.Ok? ==> r.value == Mapped(results, AsLlm)
      ensures r.Ok? ==> |results| == |streams| == |calls|
      ensures r.Ok? ==>
        forall k :: 0 <= k < |calls| ==> streams[k].call == calls[k] && StoresOutcome(streams[k], results[k])
      ensures Serviced() ==> r.Ok?
      ensures r.Err? ==> Failing(base, store.entries, events)
      ensures StartedMessages(events) == old(StartedMessages(events))
    {
      hide StartedMessages;
      hide InStep, PhaseOf, Messages, Pending, ResultsFor, Failing, Traced, Continues, Serviced, CallsOf;
      next := last;
      results, streams := [], [];
      ghost var before := Messages(store.entries);
      var turn: seq<LlmMessage> := [];
      NoResults(before, calls);
      for i := 0 to |calls|
        invariant old(token.cancelled) ==> token.cancelled
        invariant PhaseOf(events) == Turn(calls[i..]) && InStep(base, store.entries, events)
        invariant Pending(Messages(store.entries)) == calls[i..] && LastId(Messages(store.entries)) == Some(next)
        invariant Messages(store.entries) == before + results && ResultsFor(calls[..i], results)
        invariant turn == Mapped(results, AsLlm)
        invariant |results| == |streams| == i
        invariant forall k :: 0 <= k < i ==> streams[k].call == calls[k] && StoresOutcome(streams[k], results[k])
        invariant StartedMessages(events) == old(StartedMessages(events))
      {
        ghost var msgs, parent := Messages(store.entries), next;
        var answer;
        ghost var stream;
        answer, next, stream := ExecuteToolCall(calls[i], next, calls[i..]);
        if answer.Err? {
          return Err(Failure), next, results, streams;
        }
        ghost var m := ToolMessage(next, parent, calls[i], stream.Outcome().value.output);
        OneMoreResult(calls, i, results, m);
        PendingTool(msgs, m);
        results, streams := results + [m], streams + [stream];
        turn := turn + [answer.value];
      }
      assert calls[..|calls|] == calls && calls[|calls|..] == [];
      return Ok(turn), next, results, streams;
    }

    /** The message stores what the call of this stream came to. */
    ghost predicate StoresOutcome(stream: ToolStream, m: Message)
      reads stream
    {
      stream.Outcome().Some? && m.body == TextBody(stream.Outcome().value.output)
    }

    // -------------------------------------------------------------- before the first turn

    /** Compacts when the path is over the threshold; a run that needs compaction always finds a range. */
    method MaybeCompact(entries: seq<Entry>) returns (r: Result<seq<Entry>, Failure>)
      requires AwaitsRun(entries) && Messages(entries) == base && Continues(entries, store.entries)
      requires PhaseOf(events) == Started && InStep(base, store.entries, events)
      modifies this`events, this`sawCancelled, store, token
      ensures old(token.cancelled) ==> token.cancelled
      ensures !Needed(config, ActivePath.Path(entries)) ==> token.cancelled == old(token.cancelled)
      ensures old(token.cancelled) && Needed(config, ActivePath.Path(entries)) ==> r.Err?
      ensures !Needed(config, ActivePath.Path(entries)) ==> r == Ok(entries)
      ensures r.Ok? ==> Reachable(r.value) && Messages(r.value) == base && Continues(r.value, store.entries)
      ensures r.Ok? ==> InStep(base, store.entries, events)
      ensures r.Ok? ==> PhaseOf(events) == if Needed(config, ActivePath.Path(entries)) then Compacted else Started
      ensures r.Ok? && PhaseOf(events) == Started ==> r.value == entries && !Needed(config, ActivePath.Path(r.value))
      ensures r.Err? ==> Failing(base, store.entries, events)
      ensures r.Err? && store.reliable ==> PhaseOf(events) == Doomed
    {
      hide InStep, PhaseOf, Messages, Failing, Continues, Reachable, Frontier, UniqueIds, Needed, ActivePath.Path;
      PathIsKnown(entries);
      var path := ActivePath.BuildActivePath(entries);
      if !Needed(config, path) {
        return Ok(entries);
      }
      var messages, _ := CollectMessages(entries);
      var compacted := CollectCompactedIds(entries);
      var range := SelectCompactionRange(messages, compacted);
      LastIsUncompacted(entries);
      if range.None? {
        return Ok(entries);
      }
      var compactedNow := Compact(entries, range.value);
      if compactedNow.Err? {
        return Err(Failure);
      }
      ghost var before := store.entries;
      Await(store, token);
      InStepContinues(base, before, store.entries, events);
      SameMessages(before, store.entries);
      ContinuesReachable(before, store.entries);
      StaysPut(store.entries);
      var read := store.ReadEntries();
      if read.Err? {
        StillFailing(base, store.entries, events);
        return Err(Failure);
      }
      Await(store, token);
      InStepContinues(base, read.value, store.entries, events);
      return Ok(read.value);
    }

    /** Announces the compaction and how it ended. */
    method Compact(entries: seq<Entry>, range: Range) returns (r: Result<(), Failure>)
      requires AwaitsRun(entries) && Messages(entries) == base && Continues(entries, store.entries)
      requires Needed(config, ActivePath.Path(entries))
      requires OldestRange(Messages(entries), CoveredIds(Messages(entries), Compactions(entries)), range)
      requires PhaseOf(events) == Started && InStep(base, store.entries, events)
      modifies this`events, this`sawCancelled, store, token
      ensures old(token.cancelled) ==> token.cancelled && r.Err?
      ensures r.Ok? ==> !sawCancelled
      ensures Reachable(store.entries) && Messages(store.entries) == base && InStep(base, store.entries, events)
      ensures PhaseOf(events) == if r.Ok? then Compacted else Doomed
      ensures r.Ok? ==> exists c ::
        Recorded(entries, c, store.entries) && Effective(config, entries, c) && Announced(old(events), c, events)
      ensures r.Err? ==> Failing(base, store.entries, events)
      ensures r.Err? ==>
        events == old(events) + [Event.CompactionStarted(range.firstId, range.lastId), CompactionFailed]
    {
      hide InStep, PhaseOf, Streamed, Reported, Verbatim, Messages, Failing, Continues, Reachable, Frontier, Needed;
      hide ActivePath.Path, Effective, LegalCompaction, Uncompacted, TooLarge, OldestRange, CoveredIds;
      Emit(Event.CompactionStarted(range.firstId, range.lastId));
      InStepQuiet(base, store.entries, old(events), Event.CompactionStarted(range.firstId, range.lastId), events);
      ghost var before := store.entries;
      SameMessages(entries, before);
      r := Ok(());
      var result;
      ghost var answer;
      result, answer := CompactIfNeeded(config, runId, entries, store, token);
      sawCancelled := result == Err(CompactionError.Cancelled);
      InStepCompacted(base, before, store.entries, events);
      ghost var announced := events;
      match result {
        case Ok(None) => assert false;
        case Ok(Some(entry)) =>
          Emit(Event.CompactionCompleted(entry.id, entry.summary));
          InStepQuiet(base, store.entries, announced, Event.CompactionCompleted(entry.id, entry.summary), events);
          SameRange(entries, range, entry);
          assert Announced(old(events), entry, events);
        case Err(_) =>
          Emit(Event.CompactionFailed);
          InStepQuiet(base, store.entries, announced, Event.CompactionFailed, events);
          StillFailing(base, store.entries, events);
          r := Err(Failure);
      }
    }

    /** Reads the session, compacts if need be, and builds the prompt every request of the run begins with. */
    method Prepare() returns (r: Result<seq<LlmMessage>, Failure>)
      requires events == [] && AwaitsRun(store.entries) && Messages(store.entries) == base
      modifies this`events, this`prompt, this`promptLog, this`readLog, this`sawCancelled, store, token
      ensures old(token.cancelled) ==> token.cancelled
      ensures token.Timed() && config.budget == 0 ==> token.cancelled == old(token.cancelled)
      ensures old(token.cancelled) && r.Ok? ==> !Needed(config, ActivePath.Path(readLog))
      ensures Dependable(old(store.entries)) && r.Err? ==>
        Needed(config, ActivePath.Path(readLog)) && PhaseOf(events) == Doomed
      ensures r.Ok? || Dependable(old(store.entries)) ==> Continues(old(store.entries), readLog)
      ensures r.Ok? ==> InStep(base, store.entries, events) && Messages(store.entries) == base
      ensures r.Ok? ==> PhaseOf(events) == Started || PhaseOf(events) == Compacted
      ensures r.Ok? ==> prompt == r.value && PromptFrom(promptLog) && Continues(promptLog, store.entries)
      ensures r.Err? ==> Failing(base, store.entries, events)
    {
      hide InStep, PhaseOf, Messages, Failing, Continues, Reachable, Frontier, UniqueIds, Needed, ActivePath.Path;
      hide LlmContext.ContextOf, ActivePath.Render, Streamed, Reported, Verbatim, ByteLen;
      hide Presented.Presents, Presented.InstructsAll, Presented.RemindsAll, ActiveSkills, Compactions;
      InStepStart(store.entries);
      StartsIdle();
      Emit(Event.RunStarted);
      InStepQuiet(base, store.entries, [], Event.RunStarted, events);
      ghost var before := store.entries;
      Await(store, token);
      InStepContinues(base, before, store.entries, events);
      StillFailing(base, store.entries, events);
      StillAwaits(before, store.entries);
      StaysPut(store.entries);
      HeaderStays(before, store.entries, sessionId);
      var entries := ReadSession();
      if entries.Err? {
        return Err(Failure);
      }
      readLog := entries.value;
      NeverWithoutBudget(config, ActivePath.Path(readLog));
      Await(store, token);
      InStepContinues(base, entries.value, store.entries, events);
      var compacted := MaybeCompact(entries.value);
      if compacted.Err? {
        return Err(Failure);
      }
      PathIsKnown(compacted.value);
      SameMessages(compacted.value, store.entries);
      var path := ActivePath.BuildActivePath(compacted.value);
      var systemPrompt := BuildSystemPrompt();
      var messages := LlmContext.BuildContext(systemPrompt, instructions, Mapped(path, ActivePath.Render), userMessage);
      prompt, promptLog := messages, compacted.value;
      Presented.ContextPresents(promptLog, systemPrompt, instructions, userMessage);
      Presented.NothingIsLost(prompt, systemPrompt, instructions, promptLog, userMessage);
      assert PromptWith(systemPrompt, promptLog);
      return Ok(messages);
    }

    /** The prompt is the context built from the active path of `log`, whose messages are the run's base. Every active
        skill instructs the model and every compaction reminds it. */
    ghost predicate PromptFrom(log: seq<Entry>)
      reads this`prompt
    {
      && Reachable(log) && Messages(log) == base && (exists systemPrompt :: PromptWith(systemPrompt, log))
      && Presented.InstructsAll(prompt, ActiveSkills(log)) && Presented.RemindsAll(prompt, Compactions(log))
    }

    ghost predicate PromptWith(systemPrompt: string, log: seq<Entry>)
      reads this`prompt
    {
      var history := Mapped(ActivePath.Path(log), ActivePath.Render);
      && prompt == LlmContext.ContextOf(systemPrompt, instructions, history, userMessage)
      && Presented.Presents(prompt, systemPrompt, instructions, log, userMessage)
    }

    /** Loads the view, the skill catalogue and the entries; any of them can fail. */
    method ReadSession() returns (r: Result<seq<Entry>, Failure>)
      ensures r.Ok? ==> r.value == store.entries
      ensures Dependable(store.entries) ==> r.Ok?
    {
      var read := store.ReadEntries();
      if read.Err? {
        return Err(Failure);
      }
      var view := BuildView(read.value, sessionId);
      if view.Err? {
        return Err(Failure);
      }
      if !services.catalogReads {
        return Err(Failure);
      }
      return Ok(read.value);
    }

    /** The tools and the skill catalogue decide the system prompt; any text is possible. */
    method BuildSystemPrompt() returns (systemPrompt: string)
    {
      systemPrompt := *;
    }

    // -------------------------------------------------------------- the loop

    /** Between two turns: what would be sent is the prompt and the image of the turns stored so far. */
    ghost predicate Between(messages: seq<LlmMessage>, last: Id)
      reads this, store
    {
      && CanAsk(PhaseOf(events)) && InStep(base, store.entries, events)
      && Pending(Messages(store.entries)) == [] && LastId(Messages(store.entries)) == Some(last)
      && StartedMessages(events) == |requests|
      && Sends(prompt, base, Request(messages, Messages(store.entries)))
    }

    ghost predicate AllSend()
      reads this`requests, this`prompt
    {
      forall i :: 0 <= i < |requests| ==> Sends(prompt, base, requests[i])
    }

    /** The run has asked the provider, and each of its requests has had the start of an answer. */
    ghost predicate AllAnswered()
      reads this`requests, this`events
    {
      requests != [] && StartedMessages(events) == |requests|
    }

    /** How the loop can end, and what the trace can still take. */
    ghost predicate Settled(outcome: RunOutcome)
      reads this, store, token
    {
      match outcome
      case RunSucceeded => !sawCancelled && PhaseOf(events) == Turn([]) && InStep(base, store.entries, events)
      case RunWasCancelled(emit) =>
        && sawCancelled && token.cancelled && InStep(base, store.entries, events)
        && (if emit then PhaseOf(events).Turn? else CanAsk(PhaseOf(events)) || PhaseOf(events) == Cancelling)
        && (AllAnswered() <==> emit || PhaseOf(events) == Cancelling)
      case RunFailed => Failing(base, store.entries, events)
      case StillRunning => !sawCancelled && CanAsk(PhaseOf(events)) && InStep(base, store.entries, events)
    }

    /** A run in which nothing fails, nothing is compacted and the moment of the cancellation is given: a reply without
        calls, cancelled when it is over; or a reply with calls, cancelled when it has been read. */
    ghost predicate Scripted() {
      && Serviced() && config.budget == 0 && services.replies.Always?
      && token.schedule == At(if services.replies.calls.None? then BeforeClear else AfterReply)
    }

    /** How a scripted run ends: it never notices the one cancellation, and notices the other before it runs a tool. */
    ghost predicate EndsAsScripted(outcome: RunOutcome)
      reads store
    {
      && services.replies.Always?
      && outcome == (if services.replies.calls.None? then RunSucceeded else RunWasCancelled(true))
      && Pending(Messages(store.entries)) == CallList(services.replies.calls)
    }

    /** Sends one request and carries out the turn it brings; a run that has seen its cancellation sends none, and
        looks once more before it runs the tools the reply asks for. */
    method TakeTurn(messages: seq<LlmMessage>, last: Id)
      returns (stop: Option<RunOutcome>, turnMessages: seq<LlmMessage>, next: Id)
      requires !sawCancelled
      requires Between(messages, last) && AllSend()
      modifies this`events, this`requests, this`sawCancelled, store, token
      ensures old(token.cancelled) ==> token.cancelled
      ensures AllSend() && |requests| <= |old(requests)| + 1
      ensures stop.None? ==> |requests| == |old(requests)| + 1
      ensures stop.None? ==> Between(messages + turnMessages, next) && PhaseOf(events) == Turn([])
      ensures stop.Some? ==> Settled(stop.value) && stop.value != StillRunning
      ensures Serviced() ==> stop != Some(RunFailed)
      ensures Scripted() && !old(token.cancelled) ==> stop.Some? && EndsAsScripted(stop.value)
    {
      hide InStep, PhaseOf, Messages, Pending, Sends, Failing, Reply, CallsOf, ResultsFor, UsedIds, Continues;
      hide Behind, StartedMessages;
      turnMessages, next := [], last;
      var stream := RequestStream(messages, UsedIds(store.entries), services.providerServes, services.replies);
      ghost var before := store.entries;
      Await(store, token);
      InStepContinues(base, before, store.entries, events);
      SameMessages(before, store.entries);
      if stream.Err? {
        StillFailing(base, store.entries, events);
        return Some(RunFailed), [], last;
      }
      ghost var request := Request(stream.value.prompt, Messages(store.entries));
      requests := requests + [request];
      var outcome;
      outcome, next := ConsumeProviderStream(stream.value, last);
      if outcome.Err? {
        return Some(RunFailed), [], next;
      }
      if outcome.value.StreamCancelled? {
        return Some(RunWasCancelled(false)), [], next;
      }
      ghost var read := store.entries;
      Await(store, token, AfterReply);
      InStepContinues(base, read, store.entries, events);
      SameMessages(read, store.entries);
      ReplyFacts(request.msgs, next, last, outcome.value.content, outcome.value.calls);
      if outcome.value.calls.None? {
        return Some(RunSucceeded), [], next;
      }
      var cancelled := LooksCancelled();
      if cancelled {
        return Some(RunWasCancelled(true)), [], next;
      }
      var calls := outcome.value.calls.value;
      ghost var reply := Reply(next, last, outcome.value.content, Some(calls));
      turnMessages := [LlmMessage(Assistant, [Text(outcome.value.content)] + CallBlocks(calls), None)];
      var answers;
      ghost var results, streams;
      answers, next, results, streams := AnswerCalls(calls, next);
      if answers.Err? {
        return Some(RunFailed), [], next;
      }
      turnMessages := turnMessages + answers.value;
      SendsNext(prompt, base, request, reply, results);
      return None, turnMessages, next;
    }

    /** The conversation loop, for at most `turns` requests. */
    method RunInner(turns: nat) returns (outcome: RunOutcome)
      requires events == [] && requests == [] && AwaitsRun(store.entries) && Messages(store.entries) == base
      requires LastId(base) == Some(developerMessageId)
      modifies this`events, this`requests, this`prompt, this`promptLog, this`readLog
      modifies this`sawCancelled, store, token
      ensures old(token.cancelled) ==> token.cancelled
      ensures Dependable(old(store.entries)) && Scripted() && !old(token.cancelled) && turns > 0 ==>
        EndsAsScripted(outcome)
      ensures Settled(outcome)
      ensures AllSend() && (requests != [] ==> PromptFrom(promptLog))
      ensures outcome == StillRunning ==> |requests| == turns
      ensures Dependable(old(store.entries)) && outcome == RunFailed ==> PhaseOf(events) == Doomed
      ensures old(token.cancelled) ==> requests == [] && (outcome == RunFailed || outcome == RunWasCancelled(false))
      ensures old(token.cancelled) && outcome == RunWasCancelled(false) ==> !Needed(config, ActivePath.Path(readLog))
      ensures old(token.cancelled) && Dependable(old(store.entries)) ==>
        && Continues(old(store.entries), readLog)
        && (outcome == RunWasCancelled(false) <==> !Needed(config, ActivePath.Path(readLog)))
    {
      hide InStep, PhaseOf, Messages, Pending, Sends, Failing, PromptFrom, AwaitsRun, Needed, ActivePath.Path;
      hide StartedMessages, Continues, HasHeader;
      ghost var first := store.entries;
      var prepared := Prepare();
      NeverWithoutBudget(config, ActivePath.Path(readLog));
      if prepared.Err? {
        return RunFailed;
      }
      var messages := prepared.value;
      var last := developerMessageId;
      var turnMessages: seq<LlmMessage> := [];
      var sawMessage := false;
      NothingPending(first);
      FirstRequest(prompt, base);
      NoneStartedYet(events);
      var left: nat := turns;
      ghost var firstRead := readLog;
      while true
        invariant old(token.cancelled) ==> token.cancelled && requests == [] && !sawMessage
        invariant Scripted() && !old(token.cancelled) ==> !token.cancelled && requests == []
        invariant Between(messages + turnMessages, last) && AllSend()
        invariant sawMessage <==> PhaseOf(events) == Turn([])
        invariant sawMessage <==> requests != []
        invariant readLog == firstRead
        invariant PromptFrom(promptLog) && left + |requests| == turns
        decreases left
      {
        var cancelled := LooksCancelled();
        if cancelled {
          return RunWasCancelled(sawMessage);
        }
        if turnMessages != [] {
          messages := messages + turnMessages;
          turnMessages := [];
        }
        if left == 0 {
          return StillRunning;
        }
        left := left - 1;
        assert messages + turnMessages == messages;
        var stop;
        stop, turnMessages, last := TakeTurn(messages, last);
        if stop.Some? {
          return stop.value;
        }
        sawMessage := true;
      }
    }

    // -------------------------------------------------------------- the whole run

    /** As the runner hands it over: the developer message is stored, nothing is emitted. */
    ghost predicate Ready()
      reads this, store
    {
      && events == [] && requests == []
      && AwaitsRun(store.entries) && Messages(store.entries) == base && LastId(base) == Some(developerMessageId)
    }

    /** A finished run's trace is complete and agrees with the log; only a failed run can have lost its last report. */
    ghost predicate Over()
      reads this, store, token
    {
      && Finished(events)
      && (InStep(base, store.entries, events)
          || (PhaseOf(events).status == Failed && Behind(base, store.entries, events)))
      && (PhaseOf(events).status == RunStatus.Cancelled ==> token.cancelled)
    }

    /** How a run that is over has announced its outcome. A cancelled run says RunCancelled, once, exactly when it has
        asked the provider and its last request has had the start of an answer. */
    ghost predicate Announces(outcome: RunOutcome)
      reads this`events, this`requests
    {
      var n := |events|;
      match outcome
      case RunSucceeded => PhaseOf(events) == Ended(Succeeded)
      case RunWasCancelled(emit) =>
        && PhaseOf(events) == Ended(RunStatus.Cancelled)
        && (emit ==> n >= 2 && events[n - 2] == Event.RunCancelled)
        && Notices(events) == (if AllAnswered() then 1 else 0)
      case RunFailed => PhaseOf(events) == Ended(Failed) && n >= 2 && events[n - 2] == RunError
      case StillRunning => CanAsk(PhaseOf(events))
    }

    /** Runs for at most `turns` requests, and unless it is still running then, frees the runner and announces how
        it ended. A run is cancelled by what it saw when it last looked, not by what the token says in the end. The log
        is the one this run leaves; the next run of the session writes after it. */
    method Run(runner: SessionRunner, turns: nat) returns (outcome: RunOutcome)
      requires Ready()
      modifies this`events, this`requests, this`prompt, this`promptLog, this`readLog
      modifies this`sawCancelled, store, token, runner
      ensures old(token.cancelled) ==> token.cancelled
      ensures Announces(outcome)
      ensures outcome != StillRunning ==> Over() && runner.activeRun == None
      ensures outcome == StillRunning ==> InStep(base, store.entries, events)
      ensures outcome == StillRunning ==> runner.activeRun == old(runner.activeRun) && |requests| == turns
      ensures outcome.RunWasCancelled? ==> sawCancelled && CompactionFailed !in events
      ensures outcome == RunSucceeded ==> !sawCancelled
      ensures Dependable(old(store.entries)) && outcome != StillRunning ==>
        (outcome == RunFailed <==> CompactionFailed in events)
      ensures Dependable(old(store.entries)) ==>
        (outcome.RunWasCancelled? <==> sawCancelled && CompactionFailed !in events)
      ensures Dependable(old(store.entries)) && Scripted() && !old(token.cancelled) && turns > 0 ==>
        token.cancelled && EndsAsScripted(outcome)
      ensures AllSend() && (requests != [] ==> PromptFrom(promptLog))
      ensures old(token.cancelled) ==> requests == [] && (outcome == RunFailed || outcome == RunWasCancelled(false))
      ensures old(token.cancelled) && outcome == RunWasCancelled(false) ==> !Needed(config, ActivePath.Path(readLog))
      ensures old(token.cancelled) && Dependable(old(store.entries)) ==>
        && Continues(old(store.entries), readLog)
        && (outcome == RunWasCancelled(false) <==> !Needed(config, ActivePath.Path(readLog)))
    {
      hide InStep, Behind, PhaseOf, Messages, AwaitsRun, PromptFrom, Sends, Settled, Over, Needed, ActivePath.Path;
      hide Continues, AllAnswered, Pending, HasHeader;
      outcome := RunInner(turns);
      SettledFacts(outcome);
      if outcome == StillRunning {
        return;
      }
      FreeRunner(runner, outcome);
      Announce(outcome);
      FailedCompactionFails(events);
    }

    /** Clearing takes the runner's lock, so others may come first; and whoever took the token before can still cancel
        it after. */
    method FreeRunner(runner: SessionRunner, outcome: RunOutcome)
      requires Settled(outcome)
      modifies store, token, runner
      ensures runner.activeRun == None
      ensures old(token.cancelled) ==> token.cancelled
      ensures token.schedule == At(BeforeClear) ==> token.cancelled
      ensures Settled(outcome) && Messages(store.entries) == old(Messages(store.entries))
    {
      hide InStep, Behind, PhaseOf, Messages, Continues;
      ghost var before := store.entries;
      Await(store, token, BeforeClear);
      SameMessages(before, store.entries);
      if InStep(base, before, events) {
        InStepContinues(base, before, store.entries, events);
      }
      if Behind(base, before, events) {
        BehindContinues(base, before, store.entries, events);
      }
      runner.ClearActiveRun();
      token.MayCancel(AfterClear);
    }

    lemma SettledFacts(outcome: RunOutcome)
      requires Settled(outcome)
      ensures outcome == StillRunning ==> CanAsk(PhaseOf(events)) && InStep(base, store.entries, events)
      ensures outcome == RunSucceeded || outcome == StillRunning ==> !sawCancelled
      ensures outcome.RunWasCancelled? ==> sawCancelled && token.cancelled
      ensures outcome == RunFailed && PhaseOf(events) == Doomed ==> CompactionFailed in events
    {
      hide InStep, Behind;
      if PhaseOf(events) == Doomed { FailedCompactionFails(events); }
    }

    method Announce(outcome: RunOutcome)
      requires Settled(outcome) && outcome != StillRunning
      modifies this`events
      ensures old(events) <= events
      ensures Announces(outcome) && Over()
    {
      hide InStep, Behind, PhaseOf, CallsOf, Notices, StartedMessages;
      if PhaseOf(events) != Stuck { NoticesByPhase(events); }
      match outcome {
        case RunSucceeded =>
          EmitQuietly(RunFinished(Succeeded));
        case RunWasCancelled(emitRunCancelled) =>
          if emitRunCancelled {
            EmitQuietly(Event.RunCancelled);
          }
          EmitQuietly(RunFinished(RunStatus.Cancelled));
        case RunFailed =>
          EmitQuietly(RunError);
          EmitQuietly(RunFinished(Failed));
      }
    }

    method EmitQuietly(e: Event)
      requires ReportedBy(e) == []
      modifies this`events
      ensures events == old(events) + [e]
      ensures PhaseOf(events) == Step(PhaseOf(old(events)), e)
      ensures Notices(events) == Notices(old(events)) + IsNotice(e)
      ensures StartedMessages(events) == StartedMessages(old(events)) + StartsMessage(e)
      ensures InStep(base, store.entries, old(events)) ==> InStep(base, store.entries, events)
      ensures Behind(base, store.entries, old(events)) ==> Behind(base, store.entries, events)
    {
      hide InStep, Behind, PhaseOf, Step, Notices, StartedMessages;
      Emit(e);
      if InStep(base, store.entries, old(events)) {
        InStepQuiet(base, store.entries, old(events), e, events);
      }
      if Behind(base, store.entries, old(events)) {
        BehindQuiet(base, store.entries, old(events), e, events);
      }
    }
  }

  // ---------------------------------------------------------------- the runner of a session

  datatype ActiveRun = ActiveRun(runId: Id, token: CancelToken)

  datatype RunnerError = Busy | ViewFailed | StoreFailed

  /** Lets one run at a time write to its session. */
  class SessionRunner {
    const store: SessionStore
    const config: Config
    const sessionId: Id
    const services: Services
    var activeRun: Option<ActiveRun>

    constructor (store: SessionStore, config: Config, sessionId: Id, services: Services)
      ensures this.store == store && this.config == config && this.sessionId == sessionId
      ensures this.services == services && activeRun == None
    {
      this.store := store;
      this.config := config;
      this.sessionId := sessionId;
      this.services := services;
      activeRun := None;
    }

    method ClearActiveRun()
      modifies this
      ensures activeRun == None
    {
      activeRun := None;
    }

    /** Claims the session, stores the user's message after the last message of the view, and hands over the
        executor that the source spawns. */
    method SendMessage(message: string, instructions: Option<string>) returns (r: Result<RunExecutor, RunnerError>)
      requires Reachable(store.entries)
      modifies this, store
      ensures r == Err(Busy) <==> old(activeRun).Some?
      ensures r == Err(Busy) ==> activeRun == old(activeRun) && store.entries == old(store.entries)
      ensures r.Err? && r != Err(Busy) ==> activeRun == None && Continues(old(store.entries), store.entries)
      ensures r.Ok? ==> fresh(r.value) && r.value.store == store && r.value.Ready()
      ensures r.Ok? ==> activeRun == Some(ActiveRun(r.value.runId, r.value.token))
      ensures r.Ok? ==> fresh(r.value.token) && r.value.token.schedule == services.cancelled
      ensures r.Ok? && r.value.token.Timed() ==> !r.value.token.cancelled
      ensures r.Ok? ==> r.value.userMessage == message && r.value.instructions == instructions
      ensures r.Ok? ==> r.value.config == config && r.value.sessionId == sessionId
      ensures r.Ok? ==> r.value.services == services
      ensures r.Ok? ==>
        var parent := LastId(old(ViewMessages(store.entries)));
        var m := Message(r.value.developerMessageId, parent, Developer, None, TextBody(message));
        Messages(store.entries) == old(Messages(store.entries)) + [m]
      ensures old(store.entries) <= store.entries
      ensures store.reliable && HasHeader(old(store.entries), sessionId) && old(activeRun).None? ==> r.Ok?
    {
      hide Reachable, Messages, ViewMessages, Continues, AwaitsRun, UniqueIds;
      if activeRun.Some? {
        return Err(Busy);
      }
      var runId: Id := *;
      var token := new CancelToken(services.cancelled);
      activeRun := Some(ActiveRun(runId, token));
      ghost var first := store.entries;
      Await(store, token);
      ghost var second := store.entries;
      HeaderStays(first, second, sessionId);
      PrefixOf(first, second);
      var view := LoadSession();
      if view.Err? {
        ClearActiveRun();
        return Err(ViewFailed);
      }
      var shown := view.value.messages;
      var parentId := if shown == [] then None else Some(shown[|shown| - 1].id);
      Await(store, token);
      ContinuesTwice(first, second, store.entries);
      ghost var before := store.entries;
      PrefixOf(first, before);
      var appended := store.AppendMessage(None, parentId, Developer, TextBody(message), None);
      if appended.Err? {
        ClearActiveRun();
        return Err(RunnerError.StoreFailed);
      }
      BeginsRun(first, second, before, appended.value, message);
      ghost var written := store.entries;
      Await(store, token);
      PrefixOf(written, store.entries);
      StillAwaits(written, store.entries);
      SameMessages(written, store.entries);
      var executor := new RunExecutor(store, token, config, sessionId, runId, message, appended.value,
                                        instructions, services);
      return Ok(executor);
    }

    method LoadSession() returns (r: Result<View, Failure>)
      requires Reachable(store.entries)
      ensures r.Ok? ==> r.value.messages == ViewMessages(store.entries)
      ensures store.reliable && HasHeader(store.entries, sessionId) ==> r.Ok?
    {
      hide Reachable, ViewMessages;
      PathIsKnown(store.entries);
      var read := store.ReadEntries();
      if read.Err? {
        return Err(Failure);
      }
      var view := BuildView(read.value, sessionId);
      if view.Err? {
        return Err(Failure);
      }
      return Ok(view.value);
    }

    /** Asks the active run to stop. Waiting until it has cleared the slot is not modelled. */
    method CancelRun()
      modifies if activeRun.Some? then {activeRun.value.token} else {}
      ensures activeRun.Some? ==> activeRun.value.token.cancelled
    {
      if activeRun.Some? {
        activeRun.value.token.cancelled := true;
      }
    }
  }

  ghost predicate HasHeader(log: seq<Entry>, sessionId: Id) {
    exists i :: 0 <= i < |log| && IsHeaderOf(log[i], sessionId)
  }

  lemma PrefixOf(log: seq<Entry>, later: seq<Entry>)
    requires Continues(log, later)
    ensures log <= later
  {
    hide Reachable, Messages, Compactions;
  }

  lemma HeaderStays(log: seq<Entry>, later: seq<Entry>, sessionId: Id)
    requires Continues(log, later)
    ensures HasHeader(log, sessionId) ==> HasHeader(later, sessionId)
  {
    hide Reachable, Messages, Compactions;
    if HasHeader(log, sessionId) {
      var i :| 0 <= i < |log| && IsHeaderOf(log[i], sessionId);
      assert later[i] == log[i];
    }
  }

  lemma BeginsRun(first: seq<Entry>, second: seq<Entry>, log: seq<Entry>, id: Id, text: string)
    requires Reachable(first) && Continues(first, second) && Continues(first, log) && id !in UsedIds(log)
    ensures LastId(ViewMessages(second)) == LastId(ViewMessages(first))
    ensures var m := Message(id, LastId(ViewMessages(first)), Developer, None, TextBody(text));
            AwaitsRun(log + [MessageEntry(m)]) && Messages(log + [MessageEntry(m)]) == Messages(first) + [m]
  {
    hide Reachable, Messages, Compactions, Frontier, UsedIds, Tiled, Linked, ReachableLog.Answered;
    var m := Message(id, LastId(ViewMessages(first)), Developer, None, TextBody(text));
    SameView(first, second);
    SameView(first, log);
    DeveloperIsLegal(log, m, text);
    ReachableNext(log, MessageEntry(m));
    Appended(log, MessageEntry(m));
    FrontierStays(log, m);
    ReachableIsSound(log);
    FrontierOfTiled(Messages(log), Compactions(log));
  }

  lemma SameView(log: seq<Entry>, later: seq<Entry>)
    requires Continues(log, later)
    ensures ViewMessages(later) == ViewMessages(log)
  {
    hide Reachable, Messages, Compactions;
  }

  lemma DeveloperIsLegal(log: seq<Entry>, m: Message, text: string)
    requires m.id !in UsedIds(log) && m == Message(m.id, LastId(ViewMessages(log)), Developer, None, TextBody(text))
    ensures LegalMessage(log, m)
  {
    hide UsedIds, ViewMessages, Messages, TextBody;
  }

  lemma StillAwaits(log: seq<Entry>, later: seq<Entry>)
    requires AwaitsRun(log) && Continues(log, later)
    ensures AwaitsRun(later)
  {
    hide Reachable, Messages, Compactions, Frontier;
  }

  lemma NothingPending(log: seq<Entry>)
    requires AwaitsRun(log)
    ensures Pending(Messages(log)) == []
  {
  }

  lemma FirstRequest(prompt: seq<LlmMessage>, base: seq<Message>)
    ensures prompt + [] == prompt && Sends(prompt, base, Request(prompt, base))
  {
    assert base[|base|..] == [] && Mapped([], AsLlm) == [];
    assert prompt + [] == prompt;
  }

  lemma ReplyFacts(msgs: seq<Message>, id: Id, parent: Id, text: string, calls: Option<seq<ToolCall>>)
    ensures var m := Reply(id, parent, text, calls);
            && Pending(msgs + [m]) == CallList(calls) && LastId(msgs + [m]) == Some(id)
            && m.role == Assistant && CallsOf(m.body) == CallList(calls)
            && AsLlm(m) == LlmMessage(Assistant, [Text(text)] + CallBlocks(CallList(calls)), None)
  {
    CallsOfAssistantBody(text, CallList(calls));
  }

  lemma NeverWithoutBudget(config: Config, path: seq<ActivePath.PathItem>)
    ensures config.budget == 0 ==> !Needed(config, path)
  {
  }

  /** The start names the block of `c`, the completion its id and summary. */
  ghost predicate Announced(before: seq<Event>, c: Compaction, after: seq<Event>) {
    after == before + [Event.CompactionStarted(c.firstId, c.lastId), Event.CompactionCompleted(c.id, c.summary)]
  }

  lemma NoResults(msgs: seq<Message>, calls: seq<ToolCall>)
    ensures msgs == msgs + [] && ResultsFor(calls[..0], []) && calls[0..] == calls
  {
  }

  lemma StillFailing(base: seq<Message>, log: seq<Entry>, events: seq<Event>)
    requires InStep(base, log, events)
    requires CanAsk(PhaseOf(events)) || PhaseOf(events).Streaming? || PhaseOf(events).Turn? || PhaseOf(events) == Doomed
    ensures Failing(base, log, events)
  {
    hide InStep, PhaseOf;
  }
}
