/** The session log as lines of a file. */
module SessionFile {
  import opened Protocol
  import opened Slots

  /** What one line says: a record, a record of a type this version does not know, or nothing readable. */
  datatype Line = Record(entry: Entry) | UnknownType | Malformed

  /** The JSON encoding of one record, and the reading of one line. */
  datatype Codec = Codec(encode: Entry -> string, decode: string -> Line)

  /** White space of Unicode. */
  predicate IsSpace(c: char) {
    var n := c as int;
    || 0x09 <= n <= 0x0D || n == 0x20 || n == 0x85 || n == 0xA0 || n == 0x1680 || 0x2000 <= n <= 0x200A
    || n == 0x2028 || n == 0x2029 || n == 0x202F || n == 0x205F || n == 0x3000
  }

  predicate Blank(line: string) {
    forall i :: 0 <= i < |line| ==> IsSpace(line[i])
  }

  /** One line of text: nothing in it ends a line, and reading it as a line changes nothing. */
  predicate OneLine(line: string) {
    && (forall i :: 0 <= i < |line| ==> line[i] != '\n')
    && line != "" && line[|line| - 1] != '\r'
  }

  /** An encoded record is one line, not blank, that reads back as the record. */
  ghost predicate Lawful(codec: Codec) {
    forall e :: OneLine(codec.encode(e)) && !Blank(codec.encode(e)) && codec.decode(codec.encode(e)) == Record(e)
  }

  // ---------------------------------------------------------------- lines

  function WithoutReturn(line: string): string {
    if line != "" && line[|line| - 1] == '\r' then line[..|line| - 1] else line
  }

  /** The complete lines of a text, each without its line end, and what follows the last line end. */
  function Split(text: string): (seq<string>, string) {
    if text == "" then ([], "")
    else
      var (lines, rest) := Split(text[..|text| - 1]);
      if text[|text| - 1] == '\n' then (lines + [WithoutReturn(rest)], "") else (lines, rest + [text[|text| - 1]])
  }

  /** The lines of a text; a last line need not be ended. */
  function Lines(text: string): seq<string> {
    var (lines, rest) := Split(text);
    if rest == "" then lines else lines + [rest]
  }

  /** Nothing, or text whose last line is ended. */
  predicate Ended(text: string) {
    text == "" || text[|text| - 1] == '\n'
  }

  lemma {:induction false} SplitRest(text: string)
    ensures Split(text).1 == "" <==> Ended(text)
  {
    if text != "" { SplitRest(text[..|text| - 1]); }
  }

  lemma {:induction false} SplitConcat(a: string, b: string)
    requires Ended(a)
    ensures Split(a + b) == (Split(a).0 + Split(b).0, Split(b).1)
  {
    SplitRest(a);
    if b == "" {
      assert a + b == a;
      assert Split(a).0 + [] == Split(a).0;
    } else {
      var n := |b| - 1;
      assert (a + b)[..|a| + n] == a + b[..n] && (a + b)[|a| + n] == b[n];
      SplitConcat(a, b[..n]);
      Assoc(Split(a).0, Split(b[..n]).0, [WithoutReturn(Split(b[..n]).1)]);
    }
  }

  lemma {:induction false} SplitOneLine(line: string)
    requires forall i :: 0 <= i < |line| ==> line[i] != '\n'
    ensures Split(line) == ([], line)
  {
    if line != "" {
      SplitOneLine(line[..|line| - 1]);
      assert line[..|line| - 1] + [line[|line| - 1]] == line;
    }
  }

  lemma LinesOfLine(line: string)
    requires OneLine(line)
    ensures Split(line + "\n") == ([line], "") && Ended(line + "\n")
  {
    SplitOneLine(line);
    assert (line + "\n")[..|line|] == line;
    assert [] + [line] == [line];
  }

  /** A line can end with a line feed, with a carriage return before it, or with the text itself. */
  lemma LineEnds(line: string)
    requires forall i :: 0 <= i < |line| ==> line[i] != '\n'
    ensures Lines(line + "\r\n") == [line]
    ensures line == "" || line[|line| - 1] != '\r' ==> Lines(line + "\n") == [line]
    ensures line != "" ==> Lines(line) == [line]
  {
    SplitOneLine(line);
    SplitOneLine(line + "\r");
    assert (line + "\n")[..|line|] == line && [] + [line] == [line];
    assert line + "\r\n" == line + "\r" + "\n";
    assert (line + "\r" + "\n")[..|line| + 1] == line + "\r" && (line + "\r")[..|line|] == line;
  }

  lemma LinesConcat(a: string, b: string)
    requires Ended(a)
    ensures Lines(a + b) == Lines(a) + Lines(b)
  {
    SplitConcat(a, b);
    SplitRest(a);
  }

  // ---------------------------------------------------------------- reading

  /** The records of some lines, blank lines and unknown types aside; one malformed line spoils them all. */
  function Decoded(codec: Codec, lines: seq<string>): Option<seq<Entry>> {
    if lines == [] then Some([])
    else
      var before := Decoded(codec, lines[..|lines| - 1]);
      var line := lines[|lines| - 1];
      if before.None? || Blank(line) then before
      else
        match codec.decode(line)
        case Record(e) => Some(before.value + [e])
        case UnknownType => before
        case Malformed => None
  }

  lemma {:induction false} DecodedConcat(codec: Codec, a: seq<string>, b: seq<string>)
    ensures Decoded(codec, a + b) ==
      if Decoded(codec, a).None? || Decoded(codec, b).None? then None
      else Some(Decoded(codec, a).value + Decoded(codec, b).value)
  {
    hide Blank;
    if b == [] {
      var x := Decoded(codec, a);
      assert a + b == a && (x.Some? ==> x.value + [] == x.value);
    } else {
      var n := |b| - 1;
      assert (a + b)[..|a| + n] == a + b[..n] && (a + b)[|a| + n] == b[n];
      DecodedConcat(codec, a, b[..n]);
      var x, y := Decoded(codec, a), Decoded(codec, b[..n]);
      if x.Some? && y.Some? && codec.decode(b[n]).Record? {
        Assoc(x.value, y.value, [codec.decode(b[n]).entry]);
      }
    }
  }

  /** A line is readable unless it is malformed; the whole reads exactly when every line does. */
  lemma {:induction false} OneBadLine(codec: Codec, lines: seq<string>)
    ensures Decoded(codec, lines).None? <==>
      exists i :: 0 <= i < |lines| && !Blank(lines[i]) && codec.decode(lines[i]).Malformed?
  {
    hide Blank;
    if lines != [] {
      var n := |lines| - 1;
      OneBadLine(codec, lines[..n]);
      assert forall i :: 0 <= i < n ==> lines[..n][i] == lines[i];
    }
  }

  method DecodeSessionEntries(codec: Codec, input: string) returns (entries: Option<seq<Entry>>)
    ensures entries == Decoded(codec, Lines(input))
  {
    hide Blank, Lines;
    var lines := Lines(input);
    var read: seq<Entry> := [];
    for i := 0 to |lines|
      invariant Decoded(codec, lines[..i]) == Some(read)
    {
      assert lines[..i + 1][..i] == lines[..i];
      if !Blank(lines[i]) {
        match codec.decode(lines[i]) {
          case Record(e) => read := read + [e];
          case UnknownType =>
          case Malformed =>
            DecodedConcat(codec, lines[..i + 1], lines[i + 1..]);
            assert lines[..i + 1] + lines[i + 1..] == lines;
            return None;
        }
      }
    }
    assert lines[..|lines|] == lines;
    return Some(read);
  }

  // ---------------------------------------------------------------- writing and reading back

  function Encoded(codec: Codec, entries: seq<Entry>): string {
    if entries == [] then ""
    else Encoded(codec, entries[..|entries| - 1]) + (codec.encode(entries[|entries| - 1]) + "\n")
  }

  /** One more record at the end of a file whose last line is ended. */
  lemma AppendThenRead(codec: Codec, contents: string, e: Entry)
    requires Lawful(codec) && Ended(contents)
    ensures var more := contents + (codec.encode(e) + "\n");
            && Ended(more)
            && Decoded(codec, Lines(more)) ==
               (if Decoded(codec, Lines(contents)).None? then None
                else Some(Decoded(codec, Lines(contents)).value + [e]))
  {
    hide Lines, Ended;
    var line := codec.encode(e);
    EndedConcat(contents, line + "\n");
    LinesConcat(contents, line + "\n");
    SingleLine(codec, line);
    DecodedConcat(codec, Lines(contents), [line]);
  }

  lemma EndedConcat(a: string, b: string)
    requires Ended(a) && Ended(b)
    ensures Ended(a + b)
  {
  }

  lemma SingleLine(codec: Codec, line: string)
    requires OneLine(line)
    ensures Ended(line + "\n") && Lines(line + "\n") == [line]
    ensures !Blank(line) && codec.decode(line).Record? ==> Decoded(codec, [line]) == Some([codec.decode(line).entry])
    ensures Blank(line) || codec.decode(line).UnknownType? ==> Decoded(codec, [line]) == Some([])
  {
    hide Blank, OneLine;
    LinesOfLine(line);
    assert [line][..0] == [];
    assert codec.decode(line).Record? ==> [] + [codec.decode(line).entry] == [codec.decode(line).entry];
  }

  /** Whatever was appended comes back, in order. */
  lemma {:induction false} ReadsBackWhatWasAppended(codec: Codec, entries: seq<Entry>)
    requires Lawful(codec)
    ensures Ended(Encoded(codec, entries)) && Decoded(codec, Lines(Encoded(codec, entries))) == Some(entries)
  {
    hide Lawful, Lines, Decoded;
    if entries == [] {
      EmptyFile(codec);
    } else {
      var n := |entries| - 1;
      ReadsBackWhatWasAppended(codec, entries[..n]);
      AppendThenRead(codec, Encoded(codec, entries[..n]), entries[n]);
      assert entries[..n] + [entries[n]] == entries;
    }
  }

  lemma EmptyFile(codec: Codec)
    ensures Ended("") && Decoded(codec, Lines("")) == Some([])
  {
  }

  lemma DropLine(codec: Codec, before: seq<string>, line: string, after: seq<string>)
    requires Decoded(codec, [line]) == Some([])
    ensures Decoded(codec, before + [line] + after) == Decoded(codec, before + after)
  {
    hide Decoded;
    DecodedConcat(codec, before, [line]);
    DecodedConcat(codec, before + [line], after);
    DecodedConcat(codec, before, after);
    var kept := Decoded(codec, before);
    assert kept.Some? ==> kept.value + [] == kept.value;
  }

  /** A line of which nothing is read. */
  lemma IgnoredLine(codec: Codec, before: string, line: string, text: string, after: string)
    requires Ended(before) && Lines(text) == [line] && text != "" && text[|text| - 1] == '\n'
    requires Decoded(codec, [line]) == Some([])
    ensures Decoded(codec, Lines(before + text + after)) == Decoded(codec, Lines(before + after))
  {
    hide Lines, Decoded;
    LinesConcat(before, text);
    LinesConcat(before + text, after);
    LinesConcat(before, after);
    DropLine(codec, Lines(before), line, Lines(after));
  }

  /** A line of unknown type, put in anywhere between two lines, changes nothing. */
  lemma UnknownLinesAreIgnored(codec: Codec, before: string, line: string, after: string)
    requires Ended(before) && OneLine(line) && codec.decode(line).UnknownType?
    ensures Decoded(codec, Lines(before + (line + "\n") + after)) == Decoded(codec, Lines(before + after))
  {
    hide Lines, Blank, Ended, Decoded;
    SingleLine(codec, line);
    IgnoredLine(codec, before, line, line + "\n", after);
  }

  /** A line of spaces and tabs, however it ends, changes nothing either, whatever the encoding makes of it. */
  lemma BlankLinesAreIgnored(codec: Codec, before: string, line: string, after: string)
    requires Ended(before) && forall i :: 0 <= i < |line| ==> line[i] in " \t"
    ensures Decoded(codec, Lines(before + (line + "\n") + after)) == Decoded(codec, Lines(before + after))
    ensures Decoded(codec, Lines(before + (line + "\r\n") + after)) == Decoded(codec, Lines(before + after))
  {
    hide Lines, Ended, Decoded;
    LineEnds(line);
    BlankLine(codec, line);
    IgnoredLine(codec, before, line, line + "\n", after);
    IgnoredLine(codec, before, line, line + "\r\n", after);
  }

  lemma BlankLine(codec: Codec, line: string)
    requires forall i :: 0 <= i < |line| ==> line[i] in " \t"
    ensures Decoded(codec, [line]) == Some([])
  {
    assert [line][..0] == [];
  }

  // ---------------------------------------------------------------- the file

  const MAX_SESSION_FILE_SIZE := 64 * 1024 * 1024

  datatype FileError = NotFound | TooLarge | Malformed | Io

  /** A session file that only grows, line by line. */
  class SessionFile {
    const codec: Codec
    var contents: Option<string>
    ghost var appended: seq<Entry>

    constructor (codec: Codec)
      requires Lawful(codec)
      ensures this.codec == codec && contents == None && appended == [] && Valid()
    {
      this.codec := codec;
      contents := None;
      appended := [];
    }

    ghost predicate Valid()
      reads this
    {
      Lawful(codec) && (if contents.None? then appended == [] else contents.value == Encoded(codec, appended))
    }

    /** Creates the file if it is not there yet. A write can fail, and then leaves the file as it was. */
    method WriteLine(entry: Entry) returns (r: Result<(), FileError>)
      requires Valid()
      modifies this
      ensures Valid() && (r.Ok? ==> contents.Some?) && (r.Err? ==> contents == old(contents))
      ensures appended == if r.Ok? then old(appended) + [entry] else old(appended)
    {
      hide Lawful;
      var fails: bool := *;
      if fails {
        return Err(Io);
      }
      var line := codec.encode(entry) + "\n";
      EncodedPush(codec, appended, entry);
      contents := Some((if contents.Some? then contents.value else "") + line);
      appended := appended + [entry];
      return Ok(());
    }

    /** Reads back exactly what was appended, unless the file is missing, too large to load, or cannot be read. */
    method ReadEntries() returns (r: Result<seq<Entry>, FileError>)
      requires Valid()
      ensures r == Err(NotFound) <==> contents.None?
      ensures r == Err(TooLarge) ==> contents.Some? && ByteLen(contents.value) > MAX_SESSION_FILE_SIZE
      ensures r.Ok? ==> contents.Some? && ByteLen(contents.value) <= MAX_SESSION_FILE_SIZE && r.value == appended
      ensures r != Err(FileError.Malformed)
    {
      hide Lawful, ByteLen, Encoded, Lines;
      if contents.None? {
        return Err(NotFound);
      }
      var metadataFails: bool, readFails: bool := *, *;
      if metadataFails {
        return Err(Io);
      }
      if ByteLen(contents.value) > MAX_SESSION_FILE_SIZE {
        return Err(TooLarge);
      }
      if readFails {
        return Err(Io);
      }
      ReadsBackWhatWasAppended(codec, appended);
      var entries := DecodeSessionEntries(codec, contents.value);
      return if entries.Some? then Ok(entries.value) else Err(FileError.Malformed);
    }
  }

  lemma EncodedPush(codec: Codec, entries: seq<Entry>, e: Entry)
    ensures Encoded(codec, entries + [e]) == Encoded(codec, entries) + (codec.encode(e) + "\n")
    ensures Encoded(codec, []) == ""
  {
    assert (entries + [e])[..|entries|] == entries;
  }
}
