/** Token estimates for the active path. */
module Budget {
  import opened Protocol

  const CHARS_PER_TOKEN := 4
  const USIZE_MAX := 0xFFFF_FFFF_FFFF_FFFF

  function BodyBytes(body: Body): nat {
    if body == [] then 0
    else
      BodyBytes(body[..|body| - 1]) +
      match body[|body| - 1]
      case Text(text) => ByteLen(text)
      case Call(call) => ByteLen(call.name) + ByteLen(call.arguments.json)
  }

  /** Four bytes to a token, rounded up. */
  function EstimateMessage(m: LlmMessage): nat {
    (BodyBytes(m.body) + CHARS_PER_TOKEN - 1) / CHARS_PER_TOKEN
  }

  function EstimateTokens(messages: seq<LlmMessage>): nat {
    if messages == [] then 0
    else EstimateTokens(messages[..|messages| - 1]) + EstimateMessage(messages[|messages| - 1])
  }

  function SaturatingMul(a: nat, b: nat): nat {
    if a * b > USIZE_MAX then USIZE_MAX else a * b
  }

  function BudgetThreshold(budget: nat, percent: nat): nat {
    if percent == 0 then 0 else SaturatingMul(budget, percent) / 100
  }

  /** A zero budget never triggers. */
  predicate IsAboveThreshold(tokens: nat, budget: nat, percent: nat) {
    budget != 0 && tokens >= BudgetThreshold(budget, percent)
  }

  /** The floored threshold is met exactly when the tokens, counted in hundredths, come within one token of the
      percentage; a product beyond the machine word counts as the largest word. */
  lemma ThresholdIsFloored(tokens: nat, budget: nat, percent: nat)
    ensures IsAboveThreshold(tokens, budget, percent) <==>
      budget != 0 && 100 * (tokens + 1) > (if budget * percent <= USIZE_MAX then budget * percent else USIZE_MAX)
  {
    assert percent == 0 ==> budget * percent == 0;
  }

  lemma {:induction false} EstimateConcat(a: seq<LlmMessage>, b: seq<LlmMessage>)
    ensures EstimateTokens(a + b) == EstimateTokens(a) + EstimateTokens(b)
  {
    if b == [] {
      assert a + b == a;
    } else {
      var n := |b| - 1;
      assert (a + b)[..|a| + n] == a + b[..n];
      EstimateConcat(a, b[..n]);
    }
  }

  // ---------------------------------------------------------------- what the estimate counts

  function TwoTo(n: nat): nat {
    if n == 0 then 1 else 2 * TwoTo(n - 1)
  }

  /** How many characters `width` bytes of UTF-8 can tell apart (section 3 of RFC 3629): one byte has seven bits for
      the character; of more bytes, each but the first has six, and the first one less with every byte. */
  function Capacity(width: nat): nat
    requires width > 0
  {
    if width == 1 then TwoTo(7) else TwoTo(6 * (width - 1) + (7 - width))
  }

  /** A character takes the fewest bytes that can hold it. */
  lemma WidthIsLeast(c: char)
    ensures 1 <= Utf8Width(c) <= 4 && c as int < Capacity(Utf8Width(c))
    ensures forall width :: 0 < width < Utf8Width(c) ==> Capacity(width) <= c as int
  {
    assert Capacity(1) == 0x80 && Capacity(2) == 0x800 by { Powers(); }
    assert Capacity(3) == 0x1_0000 && Capacity(4) == 0x20_0000 by { Powers(); }
  }

  lemma Powers()
    ensures TwoTo(7) == 0x80 && TwoTo(11) == 0x800 && TwoTo(16) == 0x1_0000 && TwoTo(21) == 0x20_0000
  {
  }

  /** A string has at least one and at most four bytes to a character; ASCII characters have one each. */
  lemma {:induction false} BytesOfCharacters(s: string)
    ensures |s| <= ByteLen(s) <= 4 * |s|
    ensures (forall i :: 0 <= i < |s| ==> s[i] as int < 0x80) <==> ByteLen(s) == |s|
  {
    if s != "" {
      var n := |s| - 1;
      BytesOfCharacters(s[..n]);
      assert forall i :: 0 <= i < n ==> s[..n][i] == s[i];
    }
  }

  lemma {:induction false} ByteLenConcat(a: string, b: string)
    ensures ByteLen(a + b) == ByteLen(a) + ByteLen(b)
  {
    if b == "" {
      assert a + b == a;
    } else {
      var n := |b| - 1;
      assert (a + b)[..|a| + n] == a + b[..n];
      ByteLenConcat(a, b[..n]);
    }
  }

  /** The bytes of a body add up over its blocks: a text counts whole, a call with its name and its arguments. */
  lemma {:induction false} BytesOfBlocks(a: Body, b: Body, text: string, call: ToolCall)
    ensures BodyBytes(a + b) == BodyBytes(a) + BodyBytes(b)
    ensures BodyBytes([Text(text)]) == ByteLen(text)
    ensures BodyBytes([Call(call)]) == ByteLen(call.name) + ByteLen(call.arguments.json)
  {
    assert [Text(text)][..0] == [] && [Call(call)][..0] == [];
    if b == [] {
      assert a + b == a;
    } else {
      var n := |b| - 1;
      assert (a + b)[..|a| + n] == a + b[..n];
      BytesOfBlocks(a, b[..n], text, call);
    }
  }

  /** A message takes the fewest tokens of four bytes that hold all its blocks. */
  lemma EstimateRoundsUp(m: LlmMessage)
    ensures 4 * EstimateMessage(m) >= BodyBytes(m.body) > 4 * (EstimateMessage(m) - 1)
  {
    hide BodyBytes;
  }

  lemma TextRoundsUp(m: LlmMessage, text: string)
    requires m.body == [Text(text)]
    ensures 4 * EstimateMessage(m) >= ByteLen(text) > 4 * (EstimateMessage(m) - 1)
  {
    hide BodyBytes, ByteLen, EstimateMessage;
    EstimateRoundsUp(m);
    BytesOfBlocks([], [], text, ToolCall("", "", Arguments("", None)));
  }

  function MessageBytes(messages: seq<LlmMessage>): nat {
    if messages == [] then 0 else BodyBytes(messages[0].body) + MessageBytes(messages[1..])
  }

  function TextBytes(body: Body): nat {
    if body == [] then 0 else (if body[0].Text? then ByteLen(body[0].text) else 0) + TextBytes(body[1..])
  }

  /** The bytes of all texts of a conversation, whatever its tool calls hold. */
  function AllTextBytes(messages: seq<LlmMessage>): nat {
    if messages == [] then 0 else TextBytes(messages[0].body) + AllTextBytes(messages[1..])
  }

  lemma {:induction false} TextIsPartOfBody(body: Body)
    ensures TextBytes(body) <= BodyBytes(body)
    ensures (forall i :: 0 <= i < |body| ==> body[i].Text?) ==> TextBytes(body) == BodyBytes(body)
  {
    hide ByteLen;
    if body != [] {
      TextIsPartOfBody(body[1..]);
      BytesOfBlocks([body[0]], body[1..], if body[0].Text? then body[0].text else "",
                    if body[0].Call? then body[0].call else ToolCall("", "", Arguments("", None)));
      assert [body[0]] + body[1..] == body;
    }
  }

  /** Four bytes to a token: the tokens hold every byte, and at most three bytes a message are lost to rounding. */
  lemma {:induction false} EstimateCountsBytes(messages: seq<LlmMessage>)
    ensures MessageBytes(messages) <= 4 * EstimateTokens(messages) <= MessageBytes(messages) + 3 * |messages|
    ensures AllTextBytes(messages) <= MessageBytes(messages)
  {
    hide BodyBytes, EstimateMessage, TextBytes;
    if messages != [] {
      EstimateCountsBytes(messages[1..]);
      EstimateRoundsUp(messages[0]);
      TextIsPartOfBody(messages[0].body);
      EstimateOfOne(messages[0]);
      EstimateConcat([messages[0]], messages[1..]);
      assert [messages[0]] + messages[1..] == messages;
    }
  }

  lemma EstimateOfOne(m: LlmMessage)
    ensures EstimateTokens([m]) == EstimateMessage(m)
  {
    hide EstimateMessage;
    assert [m][..0] == [];
  }

  /** The decision in bytes: a conversation with four bytes of text for each token of the threshold is above it, and
      one above it has at least that many bytes, but for the rounding. */
  lemma AboveThresholdInBytes(messages: seq<LlmMessage>, budget: nat, percent: nat)
    ensures budget != 0 && AllTextBytes(messages) >= 4 * BudgetThreshold(budget, percent) ==>
      IsAboveThreshold(EstimateTokens(messages), budget, percent)
    ensures IsAboveThreshold(EstimateTokens(messages), budget, percent) ==>
      budget != 0 && MessageBytes(messages) + 3 * |messages| >= 4 * BudgetThreshold(budget, percent)
  {
    hide BodyBytes, EstimateTokens, TextBytes, BudgetThreshold, AllTextBytes, MessageBytes;
    EstimateCountsBytes(messages);
  }
}
