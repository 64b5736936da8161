/** An encoding of records as lines that meets everything asked of one, so that what is proved of such encodings is
    proved of something. */
module LineCodec {
  import opened Protocol
  import opened Slots
  import opened SessionFile

  // ---------------------------------------------------------------- texts

  /** Characters that would end a text or a line are marked. */
  function Escaped(c: char): string {
    if c == '\n' then "\\n" else if c == '\r' then "\\r" else if c == '\\' then "\\\\"
    else if c == '"' then "\\q" else [c]
  }

  /** A text and its end. */
  function Quoted(text: string): string {
    if text == "" then "\"" else Escaped(text[0]) + Quoted(text[1..])
  }

  function LineOf(fields: seq<string>): string {
    if fields == [] then "" else Quoted(fields[0]) + LineOf(fields[1..])
  }

  lemma EscapedStarts(a: char, b: char, x: string, y: string)
    requires Escaped(a) + x == Escaped(b) + y
    ensures a == b && x == y
  {
    var l, r := Escaped(a) + x, Escaped(b) + y;
    assert l[0] == r[0];
    assert |Escaped(a)| == 2 ==> l[1] == Escaped(a)[1];
    assert |Escaped(b)| == 2 ==> r[1] == Escaped(b)[1];
    assert x == l[|Escaped(a)|..] && y == r[|Escaped(b)|..];
  }

  lemma NotTheEnd(c: char, x: string, y: string)
    ensures Escaped(c) + x != "\"" + y
  {
    assert (Escaped(c) + x)[0] != ("\"" + y)[0];
  }

  /** Where a quoted text ends can be told from what follows it. */
  lemma {:induction false} QuotedEnds(a: string, b: string, x: string, y: string)
    requires Quoted(a) + x == Quoted(b) + y
    ensures a == b && x == y
  {
    hide Escaped;
    if a == "" && b == "" {
      assert x == (Quoted(a) + x)[1..] && y == (Quoted(b) + y)[1..];
    } else if a == "" {
      Assoc(Escaped(b[0]), Quoted(b[1..]), y);
      NotTheEnd(b[0], Quoted(b[1..]) + y, x);
    } else if b == "" {
      Assoc(Escaped(a[0]), Quoted(a[1..]), x);
      NotTheEnd(a[0], Quoted(a[1..]) + x, y);
    } else {
      Assoc(Escaped(a[0]), Quoted(a[1..]), x);
      Assoc(Escaped(b[0]), Quoted(b[1..]), y);
      EscapedStarts(a[0], b[0], Quoted(a[1..]) + x, Quoted(b[1..]) + y);
      QuotedEnds(a[1..], b[1..], x, y);
      assert a == [a[0]] + a[1..] && b == [b[0]] + b[1..];
    }
  }

  lemma {:induction false} LineTells(a: seq<string>, b: seq<string>)
    requires LineOf(a) == LineOf(b)
    ensures a == b
  {
    if a != [] && b != [] {
      QuotedEnds(a[0], b[0], LineOf(a[1..]), LineOf(b[1..]));
      LineTells(a[1..], b[1..]);
      assert a == [a[0]] + a[1..] && b == [b[0]] + b[1..];
    } else if a != [] {
      QuotedIsSome(a[0]);
    } else if b != [] {
      QuotedIsSome(b[0]);
    }
  }

  lemma QuotedIsSome(text: string)
    ensures Quoted(text) != ""
  {
  }

  // ---------------------------------------------------------------- records

  function OptionField(o: Option<string>): string {
    if o.Some? then "+" + o.value else ""
  }

  function RoleField(role: Role): string {
    match role
    case System => "system"
    case Developer => "developer"
    case Assistant => "assistant"
    case Tool => "tool"
    case Summary => "summary"
  }

  /** Every block takes five fields. */
  function BlockFields(block: Block): (r: seq<string>)
    ensures |r| == 5
  {
    match block
    case Text(text) => ["text", text, "", "", ""]
    case Call(call) =>
      ["call", call.id, call.name, call.arguments.json, OptionField(call.arguments.name)]
  }

  function BodyFields(body: Body): seq<string> {
    if body == [] then [] else BodyFields(body[..|body| - 1]) + BlockFields(body[|body| - 1])
  }

  function Fields(e: Entry): seq<string> {
    match e
    case Header(sessionId, workspace) => ["session", sessionId, workspace]
    case MessageEntry(m) =>
      ["message", m.id, OptionField(m.parentId), RoleField(m.role), OptionField(m.toolCallId)] + BodyFields(m.body)
    case SkillActivated(skill) => ["skill_activated", skill.name, skill.content]
    case CompactionEntry(c) => ["compaction_entry", c.id, c.summary, c.firstId, c.lastId, c.runId]
  }

  lemma OptionTells(a: Option<string>, b: Option<string>)
    requires OptionField(a) == OptionField(b)
    ensures a == b
  {
    if a.Some? { assert a.value == OptionField(a)[1..]; }
    if b.Some? { assert b.value == OptionField(b)[1..]; }
  }

  lemma BlockTells(a: Block, b: Block)
    requires BlockFields(a) == BlockFields(b)
    ensures a == b
  {
    hide OptionField;
    var l, r := BlockFields(a), BlockFields(b);
    assert l[0] == r[0] && l[1] == r[1] && l[2] == r[2] && l[3] == r[3] && l[4] == r[4];
    if a.Call? {
      OptionTells(a.call.arguments.name, b.call.arguments.name);
    }
  }

  lemma {:induction false} BodyTells(a: Body, b: Body)
    requires BodyFields(a) == BodyFields(b)
    ensures a == b
  {
    hide BlockFields;
    if a != [] && b != [] {
      var m, n := |a| - 1, |b| - 1;
      LastFive(BodyFields(a[..m]), BlockFields(a[m]), BodyFields(b[..n]), BlockFields(b[n]));
      BodyTells(a[..m], b[..n]);
      BlockTells(a[m], b[n]);
      assert a == a[..m] + [a[m]] && b == b[..n] + [b[n]];
    }
  }

  lemma LastFive(x: seq<string>, a: seq<string>, y: seq<string>, b: seq<string>)
    requires x + a == y + b && |a| == |b| == 5
    ensures x == y && a == b
  {
    assert x == (x + a)[..|x|] && y == (y + b)[..|y|];
    assert a == (x + a)[|x|..] && b == (y + b)[|y|..];
  }

  lemma FieldsTell(a: Entry, b: Entry)
    requires Fields(a) == Fields(b)
    ensures a == b
  {
    hide OptionField, RoleField, BodyFields;
    var l, r := Fields(a), Fields(b);
    assert l[0] == r[0] && l[1] == r[1] && l[2] == r[2];
    match a {
      case MessageEntry(m) => MessageTells(m, b);
      case CompactionEntry(_) => assert l[3] == r[3] && l[4] == r[4] && l[5] == r[5];
      case Header(_, _) =>
      case SkillActivated(_) =>
    }
  }

  lemma MessageTells(m: Message, b: Entry)
    requires Fields(MessageEntry(m)) == Fields(b)
    ensures b == MessageEntry(m)
  {
    hide OptionField, RoleField, BodyFields;
    var l, r := Fields(MessageEntry(m)), Fields(b);
    assert l[0] == r[0] && b.MessageEntry?;
    var n := b.message;
    assert l[1] == r[1] && l[2] == r[2] && l[3] == r[3] && l[4] == r[4];
    assert l[5..] == BodyFields(m.body) && r[5..] == BodyFields(n.body);
    OptionTells(m.parentId, n.parentId);
    OptionTells(m.toolCallId, n.toolCallId);
    RoleTellsRole(m.role, n.role);
    BodyTells(m.body, n.body);
  }

  lemma RoleTellsRole(a: Role, b: Role)
    requires RoleField(a) == RoleField(b)
    ensures a == b
  {
    assert RoleField(a)[0] == RoleField(b)[0] && RoleField(a)[1] == RoleField(b)[1];
  }

  // ---------------------------------------------------------------- the codec

  function Encode(e: Entry): string {
    LineOf(Fields(e))
  }

  ghost predicate IsEncoding(line: string) {
    exists e :: Encode(e) == line
  }

  ghost function Decode(line: string): Line {
    if IsEncoding(line) then
      var e :| Encode(e) == line;
      Record(e)
    else UnknownType
  }

  lemma EncodeTells(a: Entry, b: Entry)
    requires Encode(a) == Encode(b)
    ensures a == b
  {
    LineTells(Fields(a), Fields(b));
    FieldsTell(a, b);
  }

  ghost predicate NoBreaks(text: string) {
    forall i :: 0 <= i < |text| ==> text[i] != '\n' && text[i] != '\r'
  }

  lemma {:induction false} QuotedHasNoBreaks(text: string)
    ensures NoBreaks(Quoted(text))
  {
    if text != "" { QuotedHasNoBreaks(text[1..]); }
  }

  lemma {:induction false} LineHasNoBreaks(fields: seq<string>)
    ensures NoBreaks(LineOf(fields))
  {
    hide Quoted;
    if fields != [] {
      QuotedHasNoBreaks(fields[0]);
      LineHasNoBreaks(fields[1..]);
    }
  }

  lemma {:induction false} QuotedHasQuote(text: string)
    ensures Quoted(text) != "" && Quoted(text)[|Quoted(text)| - 1] == '"'
  {
    if text != "" { QuotedHasQuote(text[1..]); }
  }

  lemma LineHasQuote(fields: seq<string>)
    requires fields != []
    ensures exists i :: 0 <= i < |LineOf(fields)| && LineOf(fields)[i] == '"'
  {
    hide Quoted;
    QuotedHasQuote(fields[0]);
    var q := Quoted(fields[0]);
    assert LineOf(fields)[|q| - 1] == q[|q| - 1];
  }

  lemma EncodedIsOneLine(e: Entry)
    ensures OneLine(Encode(e)) && !Blank(Encode(e)) && Decode(Encode(e)) == Record(e)
  {
    hide Fields, Quoted;
    var fields := Fields(e);
    SomeField(e);
    LineHasNoBreaks(fields);
    LineHasQuote(fields);
    assert NoBreaks(Encode(e));
    var i :| 0 <= i < |Encode(e)| && Encode(e)[i] == '"';
    assert !IsSpace(Encode(e)[i]);
    assert IsEncoding(Encode(e));
    var other :| Encode(other) == Encode(e) && Decode(Encode(e)) == Record(other);
    EncodeTells(other, e);
  }

  lemma SomeField(e: Entry)
    ensures Fields(e) != []
  {
  }

  /** Encoding every record and decoding it back is all that is asked. */
  lemma SomeCodecIsLawful()
    ensures exists codec :: Lawful(codec)
  {
    hide Encode, Decode, Blank, OneLine;
    var codec := Codec(Encode, line => Decode(line));
    forall e ensures OneLine(codec.encode(e)) && !Blank(codec.encode(e)) && codec.decode(codec.encode(e)) == Record(e) {
      EncodedIsOneLine(e);
    }
    assert Lawful(codec);
  }
}
