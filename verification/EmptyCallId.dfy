/** A run whose model sends a tool call with an empty id: the two clients show different outputs for it. */
module EmptyCallId {
  import opened Protocol
  import opened History
  import opened SessionView
  import opened Slots
  import opened ReachableLog
  import opened RunTrace
  import opened RunRecord
  import opened Reducer

  const CALL := ToolCall("", "list", Arguments("{}", None))
  const QUESTION := Message("question", None, Developer, None, TextBody("hello"))
  const ASKING := Message("asking", Some("question"), Assistant, None, AssistantBody("", [CALL]))
  const RESULT := Message("result", Some("asking"), Tool, Some(""), TextBody("out"))
  const CLOSING := Message("closing", Some("result"), Assistant, None, AssistantBody("", []))

  lemma NotUsed(log: seq<Entry>, id: Id)
    requires Compactions(log) == [] && forall i :: 0 <= i < |Messages(log)| ==> Messages(log)[i].id != id
    ensures id !in UsedIds(log)
  {
  }

  lemma Says(text: string, id: Id, calls: seq<ToolCall>)
    ensures SaysWhatWasStreamed(text, MessageCompleted(id, AssistantBody(text, calls)))
  {
    hide AssistantBody;
  }

  /** The model asks for a tool under an empty id. */
  lemma Asked() returns (log: seq<Entry>, events: seq<Event>)
    ensures InStep([QUESTION], log, events) && PhaseOf(events) == Turn([CALL]) && "" in Introduced(events)
    ensures Messages(log) == [QUESTION, ASKING] && Compactions(log) == []
  {
    hide InStep, MayFollow, UsedIds, Messages, Compactions, PhaseOf, CallsOf, AssistantBody, Reachable, Pending;
    var start := [Header("session", "/workspace"), MessageEntry(QUESTION)];
    FirstMessage(QUESTION, "hello");
    InStepStart(start);
    StartsIdle();
    Report([QUESTION], start, [], RunStarted);
    Emitted([], RunStarted);
    var a := [] + [RunStarted];
    Report([QUESTION], start, a, MessageStarted("asking"));
    Emitted(a, MessageStarted("asking"));
    var b := a + [MessageStarted("asking")];
    var e := MessageCompleted("asking", AssistantBody("", [CALL]));
    Says("", "asking", [CALL]);
    StreamedNothing(a, "asking");
    NotUsed(start, "asking");
    NoCallsPending();
    AssistantMayFollow(start, "question", "", [CALL]);
    ReportAndStore([QUESTION], start, b, e, ASKING, "question");
    Emitted(b, e);
    CallsOfAssistantBody("", [CALL]);
    log, events := start + [MessageEntry(ASKING)], b + [e];
    IntroducesCall(b, e);
    assert [QUESTION] + [ASKING] == [QUESTION, ASKING];
  }

  lemma NoCallsPending()
    ensures Pending([QUESTION]) == []
  {
  }

  lemma StreamedNothing(events: seq<Event>, id: Id)
    ensures Streamed(events + [MessageStarted(id)]) == ""
  {
    TraceNext(events, MessageStarted(id));
  }

  lemma IntroducesCall(events: seq<Event>, e: Event)
    requires e.MessageCompleted? && CallsOf(e.body) == [CALL]
    ensures "" in Introduced(events + [e])
  {
    hide CallsOf;
    assert (events + [e])[..|events|] == events;
    assert CallsOf(e.body)[0].id == "" && "" in CallIds(CallsOf(e.body));
  }

  lemma StillIntroduced(events: seq<Event>, e: Event)
    requires "" in Introduced(events)
    ensures "" in Introduced(events + [e])
  {
    hide CallsOf;
    assert (events + [e])[..|events|] == events;
  }

  /** The tool answers. */
  lemma AnsweredIt() returns (log: seq<Entry>, events: seq<Event>)
    ensures InStep([QUESTION], log, events) && PhaseOf(events) == Turn([]) && "" in Introduced(events)
    ensures Messages(log) == [QUESTION, ASKING, RESULT] && Compactions(log) == []
  {
    hide InStep, MayFollow, UsedIds, Messages, Compactions, PhaseOf, CallsOf, AssistantBody, Pending, Introduced;
    var log0, events0 := Asked();
    var start, finish := ToolStarted("", "list"), ToolFinished("", "out", false);
    Report([QUESTION], log0, events0, start);
    Emitted(events0, start);
    StillIntroduced(events0, start);
    var a := events0 + [start];
    NotUsed(log0, "result");
    AskingPends();
    ResultMayFollow(log0, "asking", CALL, "out");
    ReportAndStore([QUESTION], log0, a, finish, RESULT, "asking");
    Emitted(a, finish);
    StillIntroduced(a, finish);
    log, events := log0 + [MessageEntry(RESULT)], a + [finish];
    assert [QUESTION, ASKING] + [RESULT] == [QUESTION, ASKING, RESULT];
  }

  lemma AskingPends()
    ensures Pending([QUESTION, ASKING]) == [CALL] && Pending([QUESTION, ASKING, RESULT]) == []
  {
    PendingAssistant([QUESTION], ASKING, "", [CALL]);
    assert [QUESTION] + [ASKING] == [QUESTION, ASKING];
    PendingTool([QUESTION, ASKING], RESULT);
    assert [QUESTION, ASKING] + [RESULT] == [QUESTION, ASKING, RESULT];
  }

  /** The model closes the turn, and the run succeeds. */
  lemma Closed() returns (log: seq<Entry>, events: seq<Event>)
    ensures InStep([QUESTION], log, events) && PhaseOf(events) == Ended(Succeeded) && "" in Introduced(events)
  {
    hide InStep, MayFollow, UsedIds, Messages, Compactions, PhaseOf, CallsOf, AssistantBody, Pending, Introduced;
    var log0, events0 := AnsweredIt();
    Report([QUESTION], log0, events0, MessageStarted("closing"));
    Emitted(events0, MessageStarted("closing"));
    StillIntroduced(events0, MessageStarted("closing"));
    var a := events0 + [MessageStarted("closing")];
    var e := MessageCompleted("closing", AssistantBody("", []));
    Says("", "closing", []);
    StreamedNothing(events0, "closing");
    NotUsed(log0, "closing");
    AskingPends();
    AssistantMayFollow(log0, "result", "", []);
    ReportAndStore([QUESTION], log0, a, e, CLOSING, "result");
    Emitted(a, e);
    CallsOfAssistantBody("", []);
    StillIntroduced(a, e);
    var b := a + [e];
    log := log0 + [MessageEntry(CLOSING)];
    Report([QUESTION], log, b, RunFinished(Succeeded));
    Emitted(b, RunFinished(Succeeded));
    StillIntroduced(b, RunFinished(Succeeded));
    events := b + [RunFinished(Succeeded)];
  }

  /** So there is a log and a succeeded run after which the followed and the loaded output of a call differ. */
  lemma OutputsCanDiffer(state: AppState) returns (log: seq<Entry>, events: seq<Event>)
    ensures Reachable(log) && PhaseOf(events) == Ended(Succeeded)
    ensures "" in Folded(state, events).toolCalls && "" in Seeds(ViewMessages(log))
    ensures Folded(state, events).toolCalls[""].output != LastResult(Mapped(ViewMessages(log), AsLlm), "")
  {
    hide Folded, Seeds, ViewMessages, LastResult, Introduced, PhaseOf, Messages, Reachable;
    log, events := Closed();
    LiveAgreesWithLoaded(state, [QUESTION], log, events, "");
  }
}
