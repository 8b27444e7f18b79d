/** Server-sent events, read from a body that arrives in pieces. A byte of the
    stream is written as the character of its code. */
module Sse {
  import opened Provider

  // ----- Lines (HTML Standard, section 9.2.5) -----

  predicate Break(c: char) {
    c == '\r' || c == '\n'
  }

  function FirstBreak(s: string): (i: nat)
    ensures i <= |s|
    ensures forall k :: 0 <= k < i ==> !Break(s[k])
    ensures i < |s| ==> Break(s[i])
  {
    if s == "" || Break(s[0]) then 0 else 1 + FirstBreak(s[1..])
  }

  function BreakLength(s: string, i: nat): (n: nat)
    requires i < |s|
    ensures 1 <= n <= |s| - i
  {
    if s[i] == '\r' && i + 1 < |s| && s[i + 1] == '\n' then 2 else 1
  }

  /** The lines of a whole stream. What follows the last line end is a line
      unless it is empty. */
  function Lines(s: string): seq<string>
    decreases |s|
  {
    if s == "" then []
    else
      var i := FirstBreak(s);
      if i == |s| then [s] else [s[..i]] + Lines(s[i + BreakLength(s, i)..])
  }

  /** One line off the front of what has arrived: how far to advance, and the
      line. A final CR waits for the LF it may be half of. */
  function Split(data: string, atEOF: bool): (nat, Option<string>) {
    var i := FirstBreak(data);
    if i < |data| then
      if data[i] == '\n' then (i + 1, Some(data[..i]))
      else if i + 1 < |data| then
        if data[i + 1] == '\n' then (i + 2, Some(data[..i])) else (i + 1, Some(data[..i]))
      else if atEOF then (i + 1, Some(data[..i]))
      else (0, None)
    else if atEOF && |data| > 0 then (|data|, Some(data))
    else (0, None)
  }

  lemma FirstBreakIs(s: string, i: nat)
    requires i <= |s| && (forall k :: 0 <= k < i ==> !Break(s[k])) && (i < |s| ==> Break(s[i]))
    ensures FirstBreak(s) == i
  {
    var first := FirstBreak(s);
    assert first < |s| ==> Break(s[first]);
  }

  /** Whatever is still to come, a line split off is the stream's first line. */
  lemma SplitIsFirstLine(data: string, rest: string, atEOF: bool)
    requires atEOF ==> rest == ""
    ensures var (advance, line) := Split(data, atEOF);
      && advance <= |data|
      && (line.None? ==> advance == 0 && (atEOF ==> data == ""))
      && (line.Some? ==> Lines(data + rest) == [line.value] + Lines(data[advance..] + rest))
  {
    var (advance, line) := Split(data, atEOF);
    if line.Some? {
      if FirstBreak(data) < |data| {
        BreakLengthKnown(data, rest, advance);
        hide Split;
        FirstLine(data, rest, advance);
      } else {
        assert data + rest == data && data[advance..] + rest == "";
        assert [data] + [] == [data];
      }
    }
  }

  lemma BreakLengthKnown(data: string, rest: string, advance: nat)
    requires var i := FirstBreak(data); i < |data| && (i + 1 < |data| || data[i] == '\n' || rest == "")
    requires advance == FirstBreak(data) + BreakLength(data, FirstBreak(data))
    ensures BreakLength(data + rest, FirstBreak(data)) == BreakLength(data, FirstBreak(data))
  {
  }

  lemma FirstLine(data: string, rest: string, advance: nat)
    requires var i := FirstBreak(data);
      i < |data| && BreakLength(data + rest, i) == BreakLength(data, i) && advance == i + BreakLength(data, i)
    ensures Lines(data + rest) == [data[..FirstBreak(data)]] + Lines(data[advance..] + rest)
  {
    var i, all := FirstBreak(data), data + rest;
    FirstBreakIs(all, i);
    assert all[..i] == data[..i];
    assert all[advance..] == data[advance..] + rest;
    hide BreakLength;
  }

  function Joined(pieces: seq<string>): string {
    if pieces == [] then "" else pieces[0] + Joined(pieces[1..])
  }

  /** A scanner over a body whose reads return `unread`, one piece each, some of
      them empty, and then its end. */
  class Scanner {
    var buffer: string
    var unread: seq<string>
    var ended: bool

    ghost predicate Valid()
      reads this
    {
      ended ==> unread == []
    }

    ghost function Stream(): string
      reads this
    {
      buffer + Joined(unread)
    }

    constructor (body: seq<string>)
      ensures Valid() && Stream() == Joined(body)
    {
      buffer, unread, ended := "", body, false;
    }

    /** The next line, however the body is cut into pieces. */
    method Scan() returns (line: Option<string>)
      requires Valid()
      modifies this
      ensures Valid()
      ensures Lines(old(Stream())) == if line.Some? then [line.value] + Lines(Stream()) else []
      ensures line.None? ==> Stream() == ""
      ensures line.Some? ==> |Lines(Stream())| < |Lines(old(Stream()))|
    {
      while true
        invariant Valid() && Stream() == old(Stream())
        decreases |unread|, !ended
      {
        if buffer != "" || ended {
          var (advance, token) := Split(buffer, ended);
          SplitIsFirstLine(buffer, Joined(unread), ended);
          if token.Some? {
            buffer := buffer[advance..];
            return token;
          }
        }
        if ended {
          return None;
        }
        if unread == [] {
          ended := true;
        } else {
          assert buffer + Joined(unread) == buffer + unread[0] + Joined(unread[1..]);
          buffer, unread := buffer + unread[0], unread[1..];
          if unread == [] {
            // The last read may already report the end.
            ended := *;
          }
        }
      }
    }
  }

  // ----- What a stream's lines are -----

  datatype Terminator = CR | LF | CRLF {
    function Text(): string {
      match this
      case CR => "\r"
      case LF => "\n"
      case CRLF => "\r\n"
    }
  }

  datatype Line = Line(text: string, end: Terminator)

  predicate Plain(text: string) {
    forall k :: 0 <= k < |text| ==> !Break(text[k])
  }

  /** Line ends that can be told apart: a CR is not followed by an LF that ends an
      empty line or stands alone. */
  predicate Unambiguous(lines: seq<Line>, last: string) {
    Plain(last)
    && (forall l :: l in lines ==> Plain(l.text))
    && forall k :: 0 <= k < |lines| - 1 && lines[k].end == CR ==> lines[k + 1] != Line("", LF)
  }

  function Written(lines: seq<Line>, last: string): string {
    if lines == [] then last else lines[0].text + lines[0].end.Text() + Written(lines[1..], last)
  }

  function Texts(lines: seq<Line>, last: string): seq<string> {
    if lines == [] then (if last == "" then [] else [last]) else [lines[0].text] + Texts(lines[1..], last)
  }

  lemma StartsWithLF(lines: seq<Line>, last: string)
    requires Unambiguous(lines, last) && Written(lines, last) != "" && Written(lines, last)[0] == '\n'
    ensures lines != [] && lines[0] == Line("", LF)
  {
    if lines != [] { assert Plain(lines[0].text); }
  }

  /** Lines written with any mixture of the three line ends are read back as they are. */
  lemma {:induction false} LinesReadBack(lines: seq<Line>, last: string)
    requires Unambiguous(lines, last)
    ensures Lines(Written(lines, last)) == Texts(lines, last)
  {
    var all := Written(lines, last);
    if lines == [] {
      if last != "" { FirstBreakIs(last, |last|); }
    } else {
      var text, end, rest := lines[0].text, lines[0].end, Written(lines[1..], last);
      assert lines[0] in lines;
      assert all == text + end.Text() + rest;
      assert all[|text|] == end.Text()[0];
      FirstBreakIs(all, |text|);
      if end == CR && rest != "" && rest[0] == '\n' {
        RestUnambiguous(lines, last);
        StartsWithLF(lines[1..], last);
        assert false;
      }
      assert all[|text| + BreakLength(all, |text|)..] == rest;
      assert all[..|text|] == text;
      RestUnambiguous(lines, last);
      LinesReadBack(lines[1..], last);
    }
  }

  lemma RestUnambiguous(lines: seq<Line>, last: string)
    requires Unambiguous(lines, last) && lines != []
    ensures Unambiguous(lines[1..], last)
  {
    forall k | 0 <= k < |lines[1..]| - 1 && lines[1..][k].end == CR ensures lines[1..][k + 1] != Line("", LF) {
      assert lines[k + 1].end == CR;
    }
  }

  // ----- Events (HTML Standard, section 9.2.6) -----

  datatype Event = Event(name: string, data: string)

  /** The standard's data buffer and event type buffer. */
  datatype Buffers = Buffers(data: string, name: string)

  const EMPTY := Buffers("", "")

  function Colon(line: string): (i: nat)
    ensures i <= |line|
  {
    if line == "" || line[0] == ':' then 0 else 1 + Colon(line[1..])
  }

  function Field(line: string): string {
    line[..Colon(line)]
  }

  /** After the colon, less one leading space; empty without a colon. */
  function Value(line: string): string {
    var i := Colon(line);
    if i == |line| then ""
    else if i + 1 < |line| && line[i + 1] == ' ' then line[i + 2..] else line[i + 1..]
  }

  function Process(b: Buffers, line: string): Buffers {
    if line != "" && line[0] == ':' then b
    else if Field(line) == "event" then b.(name := Value(line))
    else if Field(line) == "data" then b.(data := b.data + Value(line) + "\n")
    else b
  }

  function TrimNewline(s: string): string {
    if s != "" && s[|s| - 1] == '\n' then s[..|s| - 1] else s
  }

  function Dispatch(b: Buffers): seq<Event> {
    if b.data == "" then [] else [Event(if b.name == "" then "message" else b.name, TrimNewline(b.data))]
  }

  /** The events a stream dispatches; buffers left at its end are discarded. */
  function Events(lines: seq<string>, b: Buffers): seq<Event> {
    if lines == [] then []
    else if lines[0] == "" then Dispatch(b) + Events(lines[1..], EMPTY)
    else Events(lines[1..], Process(b, lines[0]))
  }

  class Reader {
    const scan: Scanner

    constructor (body: seq<string>)
      ensures fresh(scan) && scan.Valid() && scan.Stream() == Joined(body)
    {
      scan := new Scanner(body);
    }

    /** The next event with data, `None` at the end of the stream. */
    method Next() returns (event: Option<Event>)
      requires scan.Valid()
      modifies scan
      ensures scan.Valid()
      ensures Events(Lines(old(scan.Stream())), EMPTY)
        == if event.Some? then [event.value] + Events(Lines(scan.Stream()), EMPTY) else []
    {
      var name, data, hasData := "", "", false;
      while true
        invariant scan.Valid()
        invariant hasData <==> data != ""
        invariant Events(Lines(scan.Stream()), Buffers(data, name)) == Events(Lines(old(scan.Stream())), EMPTY)
        decreases |Lines(scan.Stream())|
      {
        ghost var lines := Lines(scan.Stream());
        var line := scan.Scan();
        if line.None? {
          return None;
        }
        assert lines == [line.value] + Lines(scan.Stream()) && lines[1..] == Lines(scan.Stream());
        if line.value == "" {
          if !hasData {
            assert Dispatch(Buffers(data, name)) == [];
            name := "";
            continue;
          }
          return Some(Event(if name == "" then "message" else name, TrimNewline(data)));
        }
        if line.value[0] == ':' {
          continue;
        }
        var field, value := Field(line.value), Value(line.value);
        if field == "event" {
          name := value;
        } else if field == "data" {
          data := data + value + "\n";
          hasData := true;
        }
      }
    }

    /** Every event of a body, which is every event of its bytes. */
    method All() returns (events: seq<Event>)
      requires scan.Valid()
      modifies scan
      ensures scan.Valid() && events == Events(Lines(old(scan.Stream())), EMPTY)
    {
      events := [];
      ghost var whole := Events(Lines(scan.Stream()), EMPTY);
      while true
        invariant scan.Valid() && events + Events(Lines(scan.Stream()), EMPTY) == whole
        decreases |whole| - |events|
      {
        var event := Next();
        if event.None? {
          return;
        }
        events := events + [event.value];
      }
    }
  }

  // ----- What a block of lines dispatches -----

  predicate IsData(line: string) {
    line != "" && line[0] != ':' && Field(line) == "data"
  }

  predicate IsName(line: string) {
    line != "" && line[0] != ':' && Field(line) == "event"
  }

  function DataValues(block: seq<string>): seq<string> {
    if block == [] then []
    else DataValues(block[..|block| - 1]) + if IsData(block[|block| - 1]) then [Value(block[|block| - 1])] else []
  }

  function LastName(block: seq<string>): string {
    if block == [] then ""
    else if IsName(block[|block| - 1]) then Value(block[|block| - 1])
    else LastName(block[..|block| - 1])
  }

  function WithNewlines(values: seq<string>): string {
    if values == [] then "" else WithNewlines(values[..|values| - 1]) + values[|values| - 1] + "\n"
  }

  /** The values with newlines between them. */
  function Lined(values: seq<string>): string
    requires values != []
  {
    if |values| == 1 then values[0] else Lined(values[..|values| - 1]) + "\n" + values[|values| - 1]
  }

  lemma {:induction false} TrimmedIsLined(values: seq<string>)
    requires values != []
    ensures WithNewlines(values) == Lined(values) + "\n"
  {
    var before := values[..|values| - 1];
    if before != [] { TrimmedIsLined(before); } else { assert WithNewlines(values) == values[0] + "\n"; }
  }

  lemma {:induction false} BlockFills(block: seq<string>, rest: seq<string>)
    requires "" !in block
    ensures Events(block + rest, EMPTY) == Events(rest, Buffers(WithNewlines(DataValues(block)), LastName(block)))
  {
    if block == [] {
      assert block + rest == rest;
    } else {
      var before, line := block[..|block| - 1], block[|block| - 1];
      assert block + rest == before + ([line] + rest);
      BlockFills(before, [line] + rest);
      assert ([line] + rest)[1..] == rest;
      var values := DataValues(before);
      assert (values + [Value(line)])[..|values|] == values;
      assert values + [] == values;
      assert line in block;
    }
  }

  /** A block of lines up to a blank one is one event when it has a data field:
      its data values with newlines between them, under its last event name. */
  lemma BlockDispatches(block: seq<string>, rest: seq<string>)
    requires "" !in block
    ensures Events(block + [""] + rest, EMPTY)
      == (if DataValues(block) == [] then []
          else [Event(if LastName(block) == "" then "message" else LastName(block), Lined(DataValues(block)))])
         + Events(rest, EMPTY)
  {
    assert block + [""] + rest == block + ([""] + rest);
    BlockFills(block, [""] + rest);
    assert ([""] + rest)[1..] == rest;
    if DataValues(block) != [] { TrimmedIsLined(DataValues(block)); }
  }

  // ----- Written events are read back -----

  lemma {:induction false} ColonIs(name: string, rest: string)
    requires ':' !in name
    ensures Colon(name + rest) == |name| + Colon(rest)
  {
    if name == "" {
      assert name + rest == rest;
    } else {
      assert (name + rest)[1..] == name[1..] + rest;
      ColonIs(name[1..], rest);
    }
  }

  /** A field's name is what stands before the first colon, its value what stands
      behind it, less one leading space; without a colon the line is a name. */
  lemma FieldLine(name: string, value: string)
    requires ':' !in name
    ensures Field(name + ":" + value) == name && Field(name) == name && Value(name) == ""
    ensures Value(name + ":" + value) == if value != "" && value[0] == ' ' then value[1..] else value
  {
    assert name + ":" + value == name + (":" + value) && name + "" == name;
    ColonIs(name, ":" + value);
    ColonIs(name, "");
  }

  function DataLines(values: seq<string>): seq<string> {
    if values == [] then [] else DataLines(values[..|values| - 1]) + ["data: " + values[|values| - 1]]
  }

  lemma DataLine(value: string)
    ensures IsData("data: " + value) && !IsName("data: " + value) && Value("data: " + value) == value
  {
    assert "data: " + value == "data" + ":" + (" " + value);
    FieldLine("data", " " + value);
  }

  lemma NameLine(name: string)
    ensures IsName("event: " + name) && !IsData("event: " + name) && Value("event: " + name) == name
  {
    assert "event: " + name == "event" + ":" + (" " + name);
    FieldLine("event", " " + name);
  }

  lemma {:induction false} DataLinesRead(first: string, values: seq<string>)
    requires first != "" && !IsData(first)
    ensures "" !in [first] + DataLines(values)
    ensures DataValues([first] + DataLines(values)) == values
    ensures LastName([first] + DataLines(values)) == if IsName(first) then Value(first) else ""
  {
    if values == [] {
      assert [first] + DataLines(values) == [first] && [first][..0] == [];
    } else {
      var n := |values| - 1;
      var block := [first] + DataLines(values);
      var line := "data: " + values[n];
      assert block == ([first] + DataLines(values[..n])) + [line];
      assert block[..|block| - 1] == [first] + DataLines(values[..n]) && block[|block| - 1] == line;
      DataLinesRead(first, values[..n]);
      DataLine(values[n]);
      hide IsData, IsName, Value;
      assert values == values[..n] + [values[n]];
    }
  }

  /** An event written with a name and any number of data lines is read back. */
  lemma EventReadBack(name: string, values: seq<string>, rest: seq<string>)
    requires values != []
    ensures Events(["event: " + name] + DataLines(values) + [""] + rest, EMPTY)
      == [Event(if name == "" then "message" else name, Lined(values))] + Events(rest, EMPTY)
  {
    NameLine(name);
    DataLinesRead("event: " + name, values);
    BlockDispatches(["event: " + name] + DataLines(values), rest);
  }

  /** A line that begins with a colon is a comment. */
  lemma CommentIgnored(text: string, b: Buffers)
    ensures Process(b, ":" + text) == b
  {
  }

  /** An event the stream ends in the middle of is not dispatched. */
  lemma UnfinishedBlockDropped(block: seq<string>)
    requires "" !in block
    ensures Events(block, EMPTY) == []
  {
    assert block + [] == block;
    BlockFills(block, []);
  }
}
