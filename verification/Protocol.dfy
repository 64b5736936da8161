/** The records of a session and of the model's context, as the protocol crate declares them. */
module Protocol {

  datatype Option<+T> = None | Some(value: T)

  datatype Result<+T, +E> = Ok(value: T) | Err(error: E)

  /** Message, compaction, tool-call and run identifiers; only equality matters. */
  type Id = string

  datatype Role = System | Developer | Assistant | Tool | Summary

  /** Tool-call arguments, reduced to what the runtime reads from the JSON value:
      its serialised text and the string stored under the key `name`, if any. */
  datatype Arguments = Arguments(json: string, name: Option<string>)

  datatype ToolCall = ToolCall(id: Id, name: string, arguments: Arguments)

  datatype Block = Text(text: string) | Call(call: ToolCall)

  type Body = seq<Block>

  datatype Message = Message(id: Id, parentId: Option<Id>, role: Role, toolCallId: Option<Id>, body: Body)

  datatype Skill = Skill(name: string, content: string)

  datatype Compaction = Compaction(id: Id, summary: string, firstId: Id, lastId: Id, runId: Id)

  /** One line of a session file. */
  datatype Entry =
    | Header(sessionId: Id, workspace: string)
    | MessageEntry(message: Message)
    | SkillActivated(skill: Skill)
    | CompactionEntry(compaction: Compaction)

  /** A message of the model's context. */
  datatype LlmMessage = LlmMessage(role: Role, body: Body, toolCallId: Option<Id>)

  function TextBody(text: string): Body {
    [Text(text)]
  }

  function CallBlocks(calls: seq<ToolCall>): Body {
    seq(|calls|, i requires 0 <= i < |calls| => Call(calls[i]))
  }

  /** A completed assistant message: its text block, then one block per tool call. */
  function AssistantBody(content: string, calls: seq<ToolCall>): Body {
    TextBody(content) + CallBlocks(calls)
  }

  /** The tool calls of a body, in order. */
  function CallsOf(body: Body): seq<ToolCall> {
    if body == [] then []
    else CallsOf(body[..|body| - 1]) + (if body[|body| - 1].Call? then [body[|body| - 1].call] else [])
  }

  lemma {:induction false} CallsOfAssistantBody(content: string, calls: seq<ToolCall>)
    ensures CallsOf(AssistantBody(content, calls)) == calls
  {
    var body := AssistantBody(content, calls);
    if calls == [] {
      assert body[..0] == [] && body == [Text(content)];
    } else {
      var init := calls[..|calls| - 1];
      assert body[..|body| - 1] == AssistantBody(content, init);
      CallsOfAssistantBody(content, init);
      assert calls == init + [calls[|calls| - 1]];
    }
  }

  /** The persisted message as the model sees it. */
  function AsLlm(message: Message): LlmMessage {
    LlmMessage(message.role, message.body, message.toolCallId)
  }

  /** Bytes of a character in UTF-8. */
  function Utf8Width(c: char): nat {
    if c as int < 0x80 then 1 else if c as int < 0x800 then 2 else if c as int < 0x1_0000 then 3 else 4
  }

  /** Length of a string as the source measures it: UTF-8 bytes. */
  function ByteLen(s: string): nat {
    if s == "" then 0 else ByteLen(s[..|s| - 1]) + Utf8Width(s[|s| - 1])
  }
}
