/** The rules of the WHATWG HTML standard, section 9.2.6, line by line, as the client's parser follows them. */
module StandardFields {
  import opened Sse
  import opened Forwarding

  /** Lines ended by LF. */
  function Stream(lines: seq<string>): string {
    if lines == [] then "" else lines[0] + Text(Lf) + Stream(lines[1..])
  }

  /** A stream of plain lines and an unended one is those lines. */
  lemma {:induction false} LinesOfStream(lines: seq<string>, open: string)
    requires OneLine(open) && forall line :: line in lines ==> OneLine(line)
    ensures ClientLines(Stream(lines) + open) == lines
  {
    if lines == [] {
      assert "" + open == open;
      assert forall k :: 0 <= k < |open| ==> open[k] in open;
      assert LineEnd(open) == |open|;
    } else {
      var rest := Stream(lines[1..]) + open;
      assert Stream(lines) + open == lines[0] + Text(Lf) + rest;
      FirstLine(lines[0], Lf, rest);
      LinesOfStream(lines[1..], open);
      assert lines == [lines[0]] + lines[1..];
    }
  }

  predicate Plain(line: string) {
    OneLine(line) && (line != "" ==> line[0] != BOM)
  }

  /** What the client makes of such a stream. */
  lemma ParsedStream(lines: seq<string>, open: string)
    requires Plain(open) && forall line :: line in lines ==> Plain(line)
    ensures Parse(Stream(lines) + open) == Events(EMPTY, lines)
  {
    var s := Stream(lines) + open;
    NoMark(lines, open);
    LinesOfStream(lines, open);
  }

  lemma NoMark(lines: seq<string>, open: string)
    requires Plain(open) && forall line :: line in lines ==> Plain(line)
    ensures StripBom(Stream(lines) + open) == Stream(lines) + open
  {
    var s := Stream(lines) + open;
    if lines != [] {
      assert lines[0] in lines;
      if lines[0] != "" {
        assert s[0] == lines[0][0];
      } else {
        assert s[0] == '\n';
      }
    } else {
      assert s == open;
    }
  }

  // ---- Fields ----

  /** One leading space of a value is dropped, a second is not. */
  lemma FieldOf(name: string, value: string)
    requires ':' !in name && (value == "" || value[0] != ' ')
    ensures FieldName(name + ":" + value) == name && FieldValue(name + ":" + value) == value
  {
    ColonAt(name, value);
  }

  lemma SpacedField(name: string, value: string)
    requires ':' !in name
    ensures FieldName(name + ": " + value) == name && FieldValue(name + ": " + value) == value
  {
    ColonAt(name, " " + value);
    assert name + ":" + (" " + value) == name + ": " + value;
    assert (" " + value)[1..] == value;
  }

  lemma BareField(name: string)
    requires ':' !in name
    ensures FieldName(name) == name && FieldValue(name) == ""
  {
    assert forall k :: 0 <= k < |name| ==> name[k] in name;
    assert IndexOf(name, ':') == |name|;
  }

  lemma ColonAt(name: string, value: string)
    requires ':' !in name
    ensures var line := name + ":" + value;
      && IndexOf(line, ':') == |name| && FieldName(line) == name
      && line[|name| + 1..] == value
      && (value != "" ==> line[|name| + 1] == value[0] && line[|name| + 2..] == value[1..])
  {
    var line := name + ":" + value;
    assert line[|name|] == ':';
    assert forall k :: 0 <= k < |name| ==> line[k] == name[k] && name[k] in name;
    assert line[..|name|] == name;
  }

  lemma DataLine(b: Buffers, value: string)
    ensures After(b, "data: " + value) == b.(data := b.data + value + "\n")
    ensures value == "" || value[0] != ' ' ==> After(b, "data:" + value) == b.(data := b.data + value + "\n")
    ensures After(b, "data") == b.(data := b.data + "" + "\n")
  {
    assert "data" + ": " == "data: " && "data" + ":" == "data:";
    SpacedField("data", value);
    BareField("data");
    if value == "" || value[0] != ' ' {
      FieldOf("data", value);
    }
  }

  lemma IdLine(b: Buffers, value: string)
    ensures After(b, "id: " + value) == if Has(value, NUL) then b else b.(id := value)
    ensures After(b, "id") == b.(id := "")
  {
    assert "id" + ": " == "id: ";
    SpacedField("id", value);
    BareField("id");
  }

  lemma EventLine(b: Buffers, value: string)
    ensures After(b, "event: " + value) == b.(kind := value)
    ensures After(b, "event") == b.(kind := "")
  {
    assert "event" + ": " == "event: ";
    SpacedField("event", value);
    BareField("event");
  }

  /** Comments and other fields say nothing. */
  lemma CommentLine(b: Buffers, text: string)
    ensures After(b, ":" + text) == b
    ensures After(b, "retry: " + text) == b
  {
    assert "" + ":" + text == ":" + text && "retry" + ": " == "retry: ";
    ColonAt("", text);
    SpacedField("retry", text);
  }

  /** A line that is not blank dispatches nothing. */
  lemma NextEvents(b: Buffers, line: string, rest: seq<string>)
    requires line != ""
    ensures Events(b, [line] + rest) == Events(After(b, line), rest)
  {
    assert ([line] + rest)[1..] == rest;
    assert [] + Events(After(b, line), rest) == Events(After(b, line), rest);
  }

  /** A blank line dispatches the data without its last line feed, as a "message" unless there is a type, and with the
      last id; data and type are for one event, the id stays. Without data it only resets the type. */
  lemma BlankLine(b: Buffers, data: string, rest: seq<string>)
    ensures b.data == data + "\n" ==>
      Events(b, [""] + rest)
      == [Event(if b.kind == "" then "message" else b.kind, data, b.id)] + Events(Buffers("", "", b.id), rest)
    ensures b.data == "" ==> Events(b, [""] + rest) == Events(Buffers("", "", b.id), rest)
  {
    assert ([""] + rest)[1..] == rest;
    if b.data == data + "\n" {
      assert b.data[..|b.data| - 1] == data;
    } else if b.data == "" {
      assert [] + Events(Buffers("", "", b.id), rest) == Events(Buffers("", "", b.id), rest);
    }
  }

  /** Two data lines are one event with both; what follows the last blank line is none. */
  lemma TwoDataLines(b: Buffers, x: string, y: string, rest: seq<string>)
    requires b.data == ""
    ensures Events(b, ["data: " + x] + (["data: " + y] + ([""] + rest)))
         == [Event(if b.kind == "" then "message" else b.kind, x + "\n" + y, b.id)]
          + Events(Buffers("", "", b.id), rest)
    ensures Events(b, ["data: " + x] + []) == []
  {
    var b1 := b.(data := b.data + x + "\n");
    var b2 := b1.(data := b1.data + y + "\n");
    DataLine(b, x);
    DataLine(b1, y);
    NextEvents(b, "data: " + x, ["data: " + y] + ([""] + rest));
    NextEvents(b1, "data: " + y, [""] + rest);
    NextEvents(b, "data: " + x, []);
    BothInOrder(x, y);
    BlankLine(b2, x + "\n" + y, rest);
  }

  lemma BothInOrder(x: string, y: string)
    ensures "" + x + "\n" + y + "\n" == x + "\n" + y + "\n"
  {
  }

  /** A byte order mark at the start is not part of the stream. */
  lemma MarkIsDropped(lines: seq<string>, open: string)
    requires Plain(open) && forall line :: line in lines ==> Plain(line)
    ensures Parse([BOM] + (Stream(lines) + open)) == Events(EMPTY, lines)
  {
    var s := Stream(lines) + open;
    ParsedStream(lines, open);
    NoMark(lines, open);
    assert ([BOM] + s)[1..] == s;
  }
}
