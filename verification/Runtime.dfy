/** What surrounds a run: the session store, the cancellation token, the provider, the tools and every other
    task of the daemon. Each is an adversary bounded only by the contract written here. */
module Runtime {
  import opened Protocol
  import opened History
  import opened ReachableLog

  // ---------------------------------------------------------------- other tasks

  /** `later` is `log` after other tasks ran: they can append skill activations and nothing else, because
      messages and compaction entries are written only by the run that holds the session (module Exclusion). */
  ghost predicate Continues(log: seq<Entry>, later: seq<Entry>) {
    && log <= later
    && (forall i :: |log| <= i < |later| ==> later[i].SkillActivated?)
    && Messages(later) == Messages(log)
    && Compactions(later) == Compactions(log)
    && (Reachable(log) ==> Reachable(later))
  }

  function Activations(skills: seq<Skill>): seq<Entry> {
    seq(|skills|, i requires 0 <= i < |skills| => SkillActivated(skills[i]))
  }

  lemma {:induction false} SkillsContinue(log: seq<Entry>, skills: seq<Skill>)
    ensures Continues(log, log + Activations(skills))
  {
    hide Reachable, Messages, Compactions;
    if skills == [] {
      assert log + Activations(skills) == log;
    } else {
      var n := |skills| - 1;
      SkillsContinue(log, skills[..n]);
      var before := log + Activations(skills[..n]);
      assert log + Activations(skills) == before + [SkillActivated(skills[n])];
      Appended(before, SkillActivated(skills[n]));
      if Reachable(log) { ReachableNext(before, SkillActivated(skills[n])); }
    }
  }

  lemma StaysPut(log: seq<Entry>)
    ensures Continues(log, log)
  {
    hide Reachable, Messages, Compactions;
  }

  lemma ContinuesTwice(a: seq<Entry>, b: seq<Entry>, c: seq<Entry>)
    requires Continues(a, b) && Continues(b, c)
    ensures Continues(a, c)
  {
    hide Reachable, Messages, Compactions;
  }

  lemma SameMessages(log: seq<Entry>, later: seq<Entry>)
    requires Continues(log, later)
    ensures Messages(later) == Messages(log) && Compactions(later) == Compactions(log) && UsedIds(later) == UsedIds(log)
  {
    hide Messages, Compactions, Reachable;
  }

  lemma ContinuesReachable(log: seq<Entry>, later: seq<Entry>)
    requires Continues(log, later) && Reachable(log)
    ensures Reachable(later)
  {
    hide Reachable, Messages, Compactions;
  }

  // ---------------------------------------------------------------- fresh identifiers

  lemma {:induction false} LongestId(used: set<Id>) returns (n: nat)
    ensures forall id :: id in used ==> |id| <= n
  {
    if used == {} {
      n := 0;
    } else {
      var one :| one in used;
      var m := LongestId(used - {one});
      n := if |one| > m then |one| else m;
      assert forall id :: id in used ==> id == one || id in used - {one};
    }
  }

  /** A random identifier, idealised: one that no record of the log uses. */
  method NewId(used: set<Id>) returns (id: Id)
    ensures id !in used
  {
    ghost var n := LongestId(used);
    ghost var unused: Id := seq(n + 1, _ => 'x');
    assert unused !in used;
    id :| id !in used;
  }

  // ---------------------------------------------------------------- cancellation and the session store

  /** Where a run stands when somebody else gets to run. */
  datatype Moment =
    | AfterReply                         // a response has been read to its end
    | BeforeClear                        // the run is over, the runner not yet free
    | AfterClear
    | Elsewhere

  /** When a run is cancelled: at any time, or never; or at a given moment. */
  datatype Schedule = Anytime | At(moment: Moment)

  /** Once cancelled, a token stays cancelled. */
  class CancelToken {
    const schedule: Schedule
    var cancelled: bool

    constructor (schedule: Schedule)
      ensures !cancelled && this.schedule == schedule
    {
      this.schedule := schedule;
      cancelled := false;
    }

    /** To be cancelled at a moment that comes once, near the end. */
    predicate Timed() {
      schedule.At? && schedule.moment != Elsewhere
    }

    /** Here somebody else may cancel. */
    method MayCancel(moment: Moment)
      modifies this
      ensures old(cancelled) ==> cancelled
      ensures schedule.At? ==> cancelled == (old(cancelled) || schedule.moment == moment)
    {
      var cancel: bool := *;
      if (if schedule.At? then schedule.moment == moment else cancel) {
        cancelled := true;
      }
    }
  }

  datatype StoreError = StoreError

  /** The append-only log of one session. Any operation can fail without effect, unless the storage is reliable. */
  class SessionStore {
    const reliable: bool
    var entries: seq<Entry>

    constructor (log: seq<Entry>, reliable: bool)
      ensures entries == log && this.reliable == reliable
    {
      this.reliable := reliable;
      entries := log;
    }

    /** Appends a message under the given id, or under a fresh one. */
    method AppendMessage(id: Option<Id>, parentId: Option<Id>, role: Role, body: Body, toolCallId: Option<Id>)
      returns (r: Result<Id, StoreError>)
      modifies this
      ensures reliable ==> r.Ok?
      ensures r.Err? ==> entries == old(entries)
      ensures r.Ok? ==> entries == old(entries) + [MessageEntry(Message(r.value, parentId, role, toolCallId, body))]
      ensures r.Ok? && id.Some? ==> r.value == id.value
      ensures r.Ok? && id.None? ==> r.value !in UsedIds(old(entries))
    {
      var fails: bool := *;
      if fails && !reliable {
        return Err(StoreError);
      }
      var chosen: Id;
      if id.Some? {
        chosen := id.value;
      } else {
        chosen := NewId(UsedIds(entries));
      }
      entries := entries + [MessageEntry(Message(chosen, parentId, role, toolCallId, body))];
      return Ok(chosen);
    }

    method AppendCompactionEntry(entry: Compaction) returns (r: Result<Id, StoreError>)
      modifies this
      ensures reliable ==> r.Ok?
      ensures r.Err? ==> entries == old(entries)
      ensures r.Ok? ==> entries == old(entries) + [CompactionEntry(entry)]
    {
      var fails: bool := *;
      if fails && !reliable {
        return Err(StoreError);
      }
      entries := entries + [CompactionEntry(entry)];
      return Ok(entry.id);
    }

    method AppendSkillActivation(skill: Skill) returns (r: Result<(), StoreError>)
      modifies this
      ensures reliable ==> r.Ok?
      ensures entries == if r.Ok? then old(entries) + [SkillActivated(skill)] else old(entries)
    {
      var fails: bool := *;
      if fails && !reliable {
        return Err(StoreError);
      }
      entries := entries + [SkillActivated(skill)];
      return Ok(());
    }

    method ReadEntries() returns (r: Result<seq<Entry>, StoreError>)
      ensures reliable ==> r.Ok?
      ensures r.Ok? ==> r.value == entries
    {
      var fails: bool := *;
      if fails && !reliable {
        return Err(StoreError);
      }
      return Ok(entries);
    }
  }

  /** A point where other tasks run: they may append skill activations and may cancel. */
  method Await(store: SessionStore, token: CancelToken, moment: Moment := Elsewhere)
    modifies store, token
    ensures Continues(old(store.entries), store.entries)
    ensures old(token.cancelled) ==> token.cancelled
    ensures token.schedule.At? ==> token.cancelled == (old(token.cancelled) || token.schedule.moment == moment)
  {
    var skills: seq<Skill> := *;
    SkillsContinue(store.entries, skills);
    store.entries := store.entries + Activations(skills);
    token.MayCancel(moment);
  }

  /** The tool calls with which the provider's messages end: any, or the same each time. */
  datatype Replies = AnyCalls | Always(calls: Option<seq<ToolCall>>)

  /** What can be relied on beside the store: that the skill catalogue can be read, that the provider serves every
      request to the end, and that no tool ends without a result; how the provider replies; and when the run is
      cancelled. */
  datatype Services = Services(catalogReads: bool, providerServes: bool, toolsAnswer: bool, replies: Replies,
                               cancelled: Schedule)

  // ---------------------------------------------------------------- the provider

  datatype ProviderEvent =
    | MessageStarted(messageId: Id)
    | TextDelta(messageId: Id, delta: string)
    | MessageCompleted(messageId: Id, calls: Option<seq<ToolCall>>)

  /** What a poll of a provider stream yields: an event, an error, or the end. */
  datatype Polled = Item(event: ProviderEvent) | Error | End

  datatype StreamPhase = NotStarted | Open | Closed

  /** How much of a message is still to come at least. */
  function Ahead(phase: StreamPhase): nat {
    match phase
    case NotStarted => 2
    case Open => 1
    case Closed => 0
  }

  /** One response. Its message is started once, then grows by deltas, then is completed once. The stream can break
      off with an error or end at any point, unless the provider is one that serves every request to the end. Events
      about other messages can come between. */
  class ProviderStream {
    const serves: bool
    const replies: Replies
    ghost const prompt: seq<LlmMessage>
    const id: Id
    var phase: StreamPhase
    ghost var text: string              // what the deltas of message `id` have brought so far
    ghost var lastPoll: Option<Polled>
    var remaining: nat                  // a stream is finite, of any length

    constructor (ghost prompt: seq<LlmMessage>, id: Id, length: nat, serves: bool, replies: Replies)
      ensures this.serves == serves && this.replies == replies
      ensures this.prompt == prompt && this.id == id && phase == NotStarted && text == "" && lastPoll == None
    {
      this.prompt := prompt;
      this.serves := serves;
      this.replies := replies;
      this.id := id;
      phase := NotStarted;
      text := "";
      lastPoll := None;
      remaining := length;
    }

    /** Whether the stream may move from `phase` to `next`, its text from `before` to `after`, on this event. */
    static ghost predicate WellFormed(id: Id, phase: StreamPhase, before: string, event: ProviderEvent,
                                      next: StreamPhase, after: string) {
      match event
      case MessageStarted(m) => m == id && phase == NotStarted && next == Open && after == before
      case TextDelta(m, delta) =>
        next == phase && (if m == id then phase == Open && after == before + delta else after == before)
      case MessageCompleted(m, _) =>
        after == before && (if m == id then phase == Open && next == Closed else next == phase)
    }

    predicate Completes(event: ProviderEvent) {
      event.MessageCompleted? && event.messageId == id
    }

    method Next() returns (polled: Polled)
      modifies this
      ensures lastPoll == Some(polled)
      ensures serves ==> polled != Error && (polled == End ==> phase == Closed)
      ensures polled.Item? ==> remaining + Ahead(phase) < old(remaining) + Ahead(old(phase))
      ensures polled.Item? ==> WellFormed(id, old(phase), old(text), polled.event, phase, text)
      ensures !polled.Item? ==> phase == old(phase) && text == old(text)
      ensures polled.Item? && Completes(polled.event) && replies.Always? ==> polled.event.calls == replies.calls
    {
      polled := Poll();
      lastPoll := Some(polled);
    }

    method Poll() returns (polled: Polled)
      modifies this
      ensures serves ==> polled != Error && (polled == End ==> phase == Closed)
      ensures polled.Item? ==> remaining + Ahead(phase) < old(remaining) + Ahead(old(phase))
      ensures polled.Item? ==> WellFormed(id, old(phase), old(text), polled.event, phase, text)
      ensures !polled.Item? ==> phase == old(phase) && text == old(text)
      ensures polled.Item? && Completes(polled.event) && replies.Always? ==> polled.event.calls == replies.calls
    {
      var other: Id := *;
      var delta: string := *;
      var calls: Option<seq<ToolCall>> := *;
      var own := if replies.Always? then replies.calls else calls;
      var choice: int := *;
      if serves && phase != Closed && remaining == 0 {
        if phase == NotStarted {
          phase := Open;
          return Item(MessageStarted(id));
        }
        phase := Closed;
        return Item(MessageCompleted(id, own));
      }
      if remaining == 0 || (choice == 0 && !serves) {
        return End;
      }
      if choice == 1 && !serves {
        return Error;
      }
      remaining := remaining - 1;
      if choice == 2 && other != id {
        return Item(TextDelta(other, delta));
      }
      if choice == 3 && other != id {
        return Item(MessageCompleted(other, calls));
      }
      match phase {
        case NotStarted =>
          phase := Open;
          return Item(MessageStarted(id));
        case Open =>
          if choice == 4 {
            phase := Closed;
            return Item(MessageCompleted(id, own));
          }
          text := text + delta;
          return Item(TextDelta(id, delta));
        case Closed =>
          return End;
      }
    }
  }

  datatype ProviderError = ProviderError

  /** Opens a response stream to a prompt; a provider chooses an identifier that no record of the log uses. */
  method RequestStream(prompt: seq<LlmMessage>, used: set<Id>, serves: bool, replies: Replies)
    returns (r: Result<ProviderStream, ProviderError>)
    ensures serves ==> r.Ok?
    ensures r.Ok? ==> r.value.serves == serves && r.value.replies == replies
    ensures r.Ok? ==> fresh(r.value) && r.value.prompt == prompt && r.value.id !in used
    ensures r.Ok? ==> r.value.phase == NotStarted && r.value.text == "" && r.value.lastPoll == None
  {
    var fails: bool := *;
    if fails && !serves {
      return Err(ProviderError);
    }
    var id := NewId(used);
    var length: nat := *;
    var stream := new ProviderStream(prompt, id, length, serves, replies);
    return Ok(stream);
  }

  // ---------------------------------------------------------------- tools

  datatype ToolResult = ToolResult(output: string, isError: bool)

  datatype ToolPolled = Chunk(chunk: string) | Done(result: ToolResult) | ToolFailed(message: string) | ToolEnd

  /** The output of one tool call: chunks and results in any order, cut anywhere. The result that stands is the
      last one brought, and an error is a result too. A call that the registry refuses brings nothing. */
  class ToolStream {
    ghost const call: ToolCall
    ghost const refusal: Option<string> // why the tool cannot be started
    const answers: bool                 // whether the tool never ends without a result
    ghost var chunks: seq<string>
    var standing: Option<ToolResult>
    var remaining: nat

    constructor (ghost call: ToolCall, ghost refusal: Option<string>, length: nat, answers: bool)
      ensures this.call == call && this.refusal == refusal && this.answers == answers
      ensures chunks == [] && standing == None
    {
      this.call := call;
      this.refusal := refusal;
      this.answers := answers;
      chunks := [];
      standing := None;
      remaining := length;
    }

    method Next() returns (polled: ToolPolled)
      modifies this
      ensures answers && polled.ToolEnd? ==> standing.Some?
      ensures !polled.ToolEnd? ==> remaining + Unanswered() < old(remaining + Unanswered())
      ensures chunks == if polled.Chunk? then old(chunks) + [polled.chunk] else old(chunks)
      ensures standing == match polled
                          case Done(result) => Some(result)
                          case ToolFailed(message) => Some(ToolResult(message, true))
                          case _ => old(standing)
    {
      if remaining == 0 && answers && standing.None? {
        var last: ToolResult := *;
        standing := Some(last);
        return Done(last);
      }
      if remaining == 0 {
        return ToolEnd;
      }
      remaining := remaining - 1;
      polled := *;
      match polled {
        case Chunk(chunk) => chunks := chunks + [chunk];
        case Done(result) => standing := Some(result);
        case ToolFailed(message) => standing := Some(ToolResult(message, true));
        case ToolEnd =>
          if answers && standing.None? {
            var last: ToolResult := *;
            standing := Some(last);
            polled := Done(last);
          }
      }
    }

    function Unanswered(): nat
      reads this
    {
      if standing.None? then 1 else 0
    }

    /** What the call comes to: the refusal as an error, or the result that stands. */
    ghost function Outcome(): Option<ToolResult>
      reads this
    {
      if refusal.Some? then Some(ToolResult(refusal.value, true)) else standing
    }
  }

  /** Starts the tool of a call, or refuses with a message; either way `output` is what the call brings. */
  method InvokeTool(call: ToolCall, answers: bool) returns (r: Result<ToolStream, string>, ghost output: ToolStream)
    ensures fresh(output) && output.call == call && output.answers == answers
    ensures output.chunks == [] && output.standing == None
    ensures if r.Ok? then output == r.value && output.refusal == None else output.refusal == Some(r.error)
  {
    var length: nat := *;
    var fails: bool := *;
    if fails {
      var message: string := *;
      var refused := new ToolStream(call, Some(message), length, answers);
      return Err(message), refused;
    }
    var stream := new ToolStream(call, None, length, answers);
    return Ok(stream), stream;
  }
}
