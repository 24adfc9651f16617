/** Event streams as text: the client's event parser of the WHATWG HTML standard, sections 9.2.5 and 9.2.6.
    A stream is a string of Unicode scalar values, the decoded form of its UTF-8 bytes. */
module Sse {

  const BOM := '\U{FEFF}'
  const NUL := '\0'

  /** Position of the first c in s, or |s|. */
  function IndexOf(s: string, c: char): (i: nat)
    ensures i <= |s|
    ensures i < |s| ==> s[i] == c
    ensures forall k :: 0 <= k < i ==> s[k] != c
  {
    if s == [] || s[0] == c then 0 else 1 + IndexOf(s[1..], c)
  }

  predicate Has(s: string, c: char) {
    IndexOf(s, c) < |s|
  }

  /** Position of the first CR or LF in s, or |s|. */
  function LineEnd(s: string): (i: nat)
    ensures i <= |s|
    ensures i < |s| ==> s[i] == '\r' || s[i] == '\n'
    ensures forall k :: 0 <= k < i ==> s[k] != '\r' && s[k] != '\n'
  {
    if s == [] || s[0] == '\r' || s[0] == '\n' then 0 else 1 + LineEnd(s[1..])
  }

  /** Lines end with CRLF, LF or CR; text after the last line end is not a line. */
  function ClientLines(s: string): seq<string> {
    var i := LineEnd(s);
    if i == |s| then []
    else
      var skip := if s[i] == '\r' && i + 1 < |s| && s[i + 1] == '\n' then 2 else 1;
      [s[..i]] + ClientLines(s[i + skip..])
  }

  function StripBom(s: string): string {
    if s != [] && s[0] == BOM then s[1..] else s
  }

  /** The event source's buffers. */
  datatype Buffers = Buffers(data: string, kind: string, id: string)

  datatype Event = Event(kind: string, data: string, id: string)

  const EMPTY := Buffers("", "", "")

  /** The text before the first colon, or the whole line. */
  function FieldName(line: string): string {
    line[..IndexOf(line, ':')]
  }

  /** The text after the first colon, without one leading space. */
  function FieldValue(line: string): string {
    var i := IndexOf(line, ':');
    if i == |line| then ""
    else if i + 1 < |line| && line[i + 1] == ' ' then line[i + 2..]
    else line[i + 1..]
  }

  function Field(b: Buffers, line: string): Buffers {
    var name, value := FieldName(line), FieldValue(line);
    if name == "event" then b.(kind := value)
    else if name == "data" then b.(data := b.data + value + "\n")
    else if name == "id" && !Has(value, NUL) then b.(id := value)
    else b
  }

  /** The blank line: an event when there is data, without its last line feed. */
  function Dispatch(b: Buffers): seq<Event> {
    if b.data == "" then []
    else [Event(if b.kind == "" then "message" else b.kind, b.data[..|b.data| - 1], b.id)]
  }

  /** The buffers after a line, and the events it dispatches. */
  function After(b: Buffers, line: string): Buffers {
    if line == "" then Buffers("", "", b.id) else Field(b, line)
  }

  function Emitted(b: Buffers, line: string): seq<Event> {
    if line == "" then Dispatch(b) else []
  }

  function Events(b: Buffers, lines: seq<string>): seq<Event>
    decreases |lines|
  {
    if lines == [] then [] else Emitted(b, lines[0]) + Events(After(b, lines[0]), lines[1..])
  }

  function Final(b: Buffers, lines: seq<string>): Buffers
    decreases |lines|
  {
    if lines == [] then b else Final(After(b, lines[0]), lines[1..])
  }

  /** What a client makes of a stream; an event without its blank line is dropped at the end. */
  function Parse(stream: string): seq<Event> {
    Events(EMPTY, ClientLines(StripBom(stream)))
  }

  lemma {:induction false} EventsAppend(b: Buffers, lines: seq<string>, last: string)
    ensures Events(b, lines + [last]) == Events(b, lines) + Emitted(Final(b, lines), last)
    decreases |lines|
  {
    if lines == [] {
      assert (lines + [last])[1..] == [];
    } else {
      assert (lines + [last])[1..] == lines[1..] + [last];
      EventsAppend(After(b, lines[0]), lines[1..], last);
    }
  }

  /** A data field that no blank line follows. */
  ghost predicate OpenData(lines: seq<string>) {
    exists i :: 0 <= i < |lines| && OpenAt(lines, i)
  }

  ghost predicate OpenAt(lines: seq<string>, i: nat)
    requires i < |lines|
  {
    FieldName(lines[i]) == "data" && forall j :: i < j < |lines| ==> lines[j] != ""
  }

  lemma OpenDataStep(lines: seq<string>, last: string)
    ensures OpenData(lines + [last]) <==> FieldName(last) == "data" || (last != "" && OpenData(lines))
  {
    var all, n := lines + [last], |lines|;
    forall i | 0 <= i < n
      ensures OpenAt(all, i) <==> last != "" && OpenAt(lines, i)
    {
      assert all[i] == lines[i] && all[n] == last;
      assert forall j :: 0 <= j < n ==> all[j] == lines[j];
    }
    assert all[n] == last;
    assert OpenAt(all, n) <==> FieldName(last) == "data";
  }

  /** Data is pending at the end exactly when a data field comes after the last blank line. */
  lemma {:induction false} PendingIffOpen(lines: seq<string>)
    ensures Final(EMPTY, lines).data != "" <==> OpenData(lines)
  {
    if lines != [] {
      var before, last := lines[..|lines| - 1], lines[|lines| - 1];
      PendingIffOpen(before);
      FinalAppend(EMPTY, before, last);
      OpenDataStep(before, last);
      assert before + [last] == lines;
      PendingAfter(Final(EMPTY, before), last);
    }
  }

  lemma PendingAfter(b: Buffers, line: string)
    ensures After(b, line).data != "" <==> FieldName(line) == "data" || (line != "" && b.data != "")
  {
    assert FieldName("") == "";
    assert b.data + FieldValue(line) + "\n" != "";
  }

  lemma {:induction false} FinalAppend(b: Buffers, lines: seq<string>, last: string)
    ensures Final(b, lines + [last]) == After(Final(b, lines), last)
    decreases |lines|
  {
    if lines == [] {
      assert (lines + [last])[1..] == [];
    } else {
      assert (lines + [last])[1..] == lines[1..] + [last];
      FinalAppend(After(b, lines[0]), lines[1..], last);
    }
  }
}
