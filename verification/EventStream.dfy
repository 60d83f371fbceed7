/** The incremental line and event parsers on the link between the agent and the manager. */
module EventStream {
  import opened Wrappers
  import opened JsText

  // ------------------------------------------------------------------ splitting a growing text

  /** The piece before the first separator and the text after it. */
  type Cutter = string -> Option<(string, string)>

  function Followed(s: string, t: string): string {
    s + t
  }

  /** A separator that more text behind it cannot move. */
  ghost predicate Cuts(cut: Cutter) {
    && (forall s :: cut(s).Some? ==> |cut(s).value.1| < |s|)
    && (forall s, t {:trigger cut(Followed(s, t))} ::
          cut(s).Some? ==> cut(Followed(s, t)) == Some((cut(s).value.0, cut(s).value.1 + t)))
  }

  /** The pieces before each separator, and the residue after the last one. */
  function Split(cut: Cutter, s: string): (seq<string>, string)
    requires Cuts(cut)
    decreases |s|
  {
    match cut(s)
    case None => ([], s)
    case Some((piece, rest)) =>
      var (pieces, residue) := Split(cut, rest);
      ([piece] + pieces, residue)
  }

  /** Splitting can stop at any point and go on from the residue. */
  lemma {:induction false} SplitInTwo(cut: Cutter, s: string, t: string)
    requires Cuts(cut)
    ensures var (pieces, residue) := Split(cut, s);
            Split(cut, s + t) == (pieces + Split(cut, residue + t).0, Split(cut, residue + t).1)
    decreases |s|
  {
    match cut(s)
    case None =>
      assert [] + Split(cut, s + t).0 == Split(cut, s + t).0;
    case Some((piece, rest)) =>
      assert cut(Followed(s, t)) == Some((piece, rest + t));
      SplitInTwo(cut, rest, t);
      var (pieces, residue) := Split(cut, rest);
      assert [piece] + pieces + Split(cut, residue + t).0 == [piece] + (pieces + Split(cut, residue + t).0);
  }

  function Glue(chunks: seq<string>): string {
    if chunks == [] then "" else chunks[0] + Glue(chunks[1..])
  }

  /** What a buffer emits and keeps over a list of chunks. */
  function FeedAll(cut: Cutter, buffer: string, chunks: seq<string>): (seq<string>, string)
    requires Cuts(cut)
    decreases |chunks|
  {
    if chunks == [] then ([], buffer)
    else
      var (pieces, residue) := Split(cut, buffer + chunks[0]);
      var (more, last) := FeedAll(cut, residue, chunks[1..]);
      (pieces + more, last)
  }

  /** However the text is chunked, the pieces and the residue are those of the whole text. */
  lemma {:induction false} ChunksDoNotMatter(cut: Cutter, buffer: string, chunks: seq<string>)
    requires Cuts(cut) && cut(buffer).None?
    ensures FeedAll(cut, buffer, chunks) == Split(cut, buffer + Glue(chunks))
    decreases |chunks|
  {
    if chunks == [] {
      assert buffer + "" == buffer;
    } else {
      var (pieces, residue) := Split(cut, buffer + chunks[0]);
      ResidueIsWhole(cut, buffer + chunks[0]);
      ChunksDoNotMatter(cut, residue, chunks[1..]);
      SplitInTwo(cut, buffer + chunks[0], Glue(chunks[1..]));
      assert buffer + chunks[0] + Glue(chunks[1..]) == buffer + Glue(chunks);
    }
  }

  lemma {:induction false} ResidueIsWhole(cut: Cutter, s: string)
    requires Cuts(cut)
    ensures cut(Split(cut, s).1).None?
    decreases |s|
  {
    if cut(s).Some? {
      ResidueIsWhole(cut, cut(s).value.1);
    }
  }

  // ------------------------------------------------------------------ lines

  /** A line ends at a newline, with an optional carriage return before it. */
  function CutLine(s: string): Option<(string, string)> {
    match IndexOf(s, '\n', 0)
    case None => None
    case Some(i) => Some((if i > 0 && s[i - 1] == '\r' then s[..i - 1] else s[..i], s[i + 1..]))
  }

  lemma CutLineAppend(s: string, t: string)
    requires CutLine(s).Some?
    ensures CutLine(s + t) == Some((CutLine(s).value.0, CutLine(s).value.1 + t))
  {
    var i := IndexOf(s, '\n', 0).value;
    var j := IndexOf(s + t, '\n', 0);
    assert (s + t)[i] == '\n';
    assert j == Some(i) by {
      assert forall k | 0 <= k < i :: (s + t)[k] == s[k];
    }
    assert (s + t)[i + 1..] == s[i + 1..] + t;
    assert (s + t)[..i] == s[..i];
    if i > 0 {
      assert (s + t)[..i - 1] == s[..i - 1];
    }
  }

  lemma CutLineCuts()
    ensures Cuts(CutLine)
  {
    forall s, t | CutLine(s).Some?
      ensures CutLine(Followed(s, t)) == Some((CutLine(s).value.0, CutLine(s).value.1 + t))
    {
      CutLineAppend(s, t);
    }
  }

  function SplitLines(s: string): (seq<string>, string) {
    CutLineCuts();
    Split(CutLine, s)
  }

  function FeedLines(chunks: seq<string>): (seq<string>, string) {
    CutLineCuts();
    FeedAll(CutLine, "", chunks)
  }

  // ------------------------------------------------------------------ events

  function IndexOfBlank(s: string, from: nat): (r: Option<nat>)
    requires from <= |s|
    ensures r.Some? ==> from <= r.value < |s| - 1 && s[r.value] == '\n' && s[r.value + 1] == '\n'
    ensures forall i | from <= i < (if r.Some? then r.value else |s| - 1) :: !(s[i] == '\n' && s[i + 1] == '\n')
    decreases |s| - from
  {
    if from + 1 >= |s| then None
    else if s[from] == '\n' && s[from + 1] == '\n' then Some(from)
    else IndexOfBlank(s, from + 1)
  }

  /** An event ends at the first blank line. */
  function CutEvent(s: string): Option<(string, string)> {
    match IndexOfBlank(s, 0)
    case None => None
    case Some(i) => Some((s[..i], s[i + 2..]))
  }

  lemma CutEventAppend(s: string, t: string)
    requires CutEvent(s).Some?
    ensures CutEvent(s + t) == Some((CutEvent(s).value.0, CutEvent(s).value.1 + t))
  {
    var i := IndexOfBlank(s, 0).value;
    assert (s + t)[i] == '\n' && (s + t)[i + 1] == '\n';
    assert IndexOfBlank(s + t, 0) == Some(i) by {
      assert forall k | 0 <= k <= i :: (s + t)[k] == s[k];
    }
    assert (s + t)[i + 2..] == s[i + 2..] + t;
    assert (s + t)[..i] == s[..i];
  }

  lemma CutEventCuts()
    ensures Cuts(CutEvent)
  {
    forall s, t | CutEvent(s).Some?
      ensures CutEvent(Followed(s, t)) == Some((CutEvent(s).value.0, CutEvent(s).value.1 + t))
    {
      CutEventAppend(s, t);
    }
  }

  function SplitEvents(s: string): (seq<string>, string) {
    CutEventCuts();
    Split(CutEvent, s)
  }

  function FeedEvents(chunks: seq<string>): (seq<string>, string) {
    CutEventCuts();
    FeedAll(CutEvent, "", chunks)
  }

  datatype Event = Event(name: string, data: string)

  /** The fields of an event as its lines are read. */
  datatype Fields = Fields(name: string, data: seq<string>)

  const NO_FIELDS := Fields("message", [])

  function AddLine(f: Fields, line: string): Fields {
    if "event:" <= line then f.(name := Trim(line[6..]))
    else if "data:" <= line then f.(data := f.data + [TrimStart(line[5..])])
    else f
  }

  function AddLines(f: Fields, lines: seq<string>): Fields
    decreases |lines|
  {
    if lines == [] then f else AddLines(AddLine(f, lines[0]), lines[1..])
  }

  function JoinLines(lines: seq<string>): string
    requires lines != []
  {
    if |lines| == 1 then lines[0] else lines[0] + "\n" + JoinLines(lines[1..])
  }

  /** All lines of a text, the last one included. */
  function LinesOf(s: string): seq<string>
  {
    var (lines, residue) := SplitLines(s);
    lines + [residue]
  }

  function FieldsOf(raw: string): Fields
  {
    AddLines(NO_FIELDS, LinesOf(raw))
  }

  function Emitted(f: Fields): seq<Event> {
    if f.data == [] then [] else [Event(f.name, JoinLines(f.data))]
  }

  function EventsOf(raws: seq<string>): seq<Event>
  {
    if raws == [] then [] else Emitted(FieldsOf(raws[0])) + EventsOf(raws[1..])
  }

  // ------------------------------------------------------------------ what the agent writes

  function Raw(e: Event): string {
    (if e.name == "message" then "" else "event: " + e.name + "\n") + ("data: " + e.data)
  }

  function Encode(e: Event): string {
    Raw(e) + "\n\n"
  }

  function EncodeAll(events: seq<Event>): string {
    if events == [] then "" else Encode(events[0]) + EncodeAll(events[1..])
  }

  predicate OneLine(s: string) {
    forall i | 0 <= i < |s| :: s[i] != '\n'
  }

  /** What the agent writes: a trimmed name and a JSON text, which has no raw newline and no space in front. */
  predicate Writable(e: Event) {
    OneLine(e.name) && Trim(e.name) == e.name && OneLine(e.data) && TrimStart(e.data) == e.data
  }

  lemma NoLineCut(s: string)
    requires OneLine(s)
    ensures CutLine(s).None?
  {
  }

  lemma CutNamedLine(first: string, second: string)
    requires OneLine(first) && first != "" && first[|first| - 1] != '\r'
    ensures CutLine(first + "\n" + second) == Some((first, second))
  {
    var s := first + "\n" + second;
    assert s[|first|] == '\n' && forall k | 0 <= k < |first| :: s[k] == first[k];
    assert IndexOf(s, '\n', 0) == Some(|first|);
    assert s[..|first|] == first && s[|first| + 1..] == second;
  }

  lemma CutEncoded(raw: string, rest: string)
    requires CutEvent(raw + "\n").None?
    ensures CutEvent(raw + "\n\n" + rest) == Some((raw, rest))
  {
    var s := raw + "\n\n" + rest;
    var one := raw + "\n";
    assert s[|raw|] == '\n' && s[|raw| + 1] == '\n';
    assert forall k | 0 <= k < |raw| + 1 :: s[k] == one[k];
    assert IndexOfBlank(s, 0) == Some(|raw|);
    assert s[..|raw|] == raw && s[|raw| + 2..] == rest;
  }

  lemma OneLineHasNoBlank(line: string)
    requires OneLine(line)
    ensures line != "" ==> CutEvent(line + "\n").None?
  {
    var s := line + "\n";
    assert forall i | 0 <= i < |s| - 1 :: s[i] == line[i];
  }

  lemma TwoLinesHaveNoBlank(first: string, second: string)
    requires OneLine(first) && OneLine(second) && second != ""
    ensures CutEvent(first + "\n" + second + "\n").None?
  {
    var s := first + "\n" + second + "\n";
    forall i | 0 <= i < |s| - 1 ensures !(s[i] == '\n' && s[i + 1] == '\n') {
      if i < |first| {
        assert s[i] == first[i];
      } else if i == |first| {
        assert s[i + 1] == second[0];
      } else {
        assert s[i] == second[i - |first| - 1];
      }
    }
  }

  lemma RawHasNoBlankLine(e: Event)
    requires Writable(e)
    ensures CutEvent(Raw(e) + "\n").None?
  {
    var name, data := "event: " + e.name, "data: " + e.data;
    if e.name == "message" {
      assert Raw(e) == data;
      OneLineHasNoBlank(data);
    } else {
      TwoLinesHaveNoBlank(name, data);
      assert Raw(e) + "\n" == name + "\n" + data + "\n";
    }
  }

  lemma SpaceIsTrimmed(s: string)
    ensures TrimStart(" " + s) == TrimStart(s) && Trim(" " + s) == Trim(s)
  {
    assert (" " + s)[1..] == s;
  }

  lemma DataLine(f: Fields, data: string)
    requires TrimStart(data) == data
    ensures AddLine(f, "data: " + data) == f.(data := f.data + [data])
  {
    var line := "data: " + data;
    assert line[0] == 'd';
    assert line[..5] == "data:" && line[5..] == " " + data;
    SpaceIsTrimmed(data);
  }

  lemma NameLine(f: Fields, name: string)
    requires Trim(name) == name
    ensures AddLine(f, "event: " + name) == f.(name := name)
  {
    var line := "event: " + name;
    assert line[..6] == "event:" && line[6..] == " " + name;
    SpaceIsTrimmed(name);
  }

  lemma DataAlone(data: string)
    requires OneLine(data)
    ensures LinesOf("data: " + data) == ["data: " + data]
  {
    var line := "data: " + data;
    NoLineCut(line);
    assert SplitLines(line) == ([], line);
    assert [] + [line] == [line];
  }

  lemma NameAndData(name: string, data: string)
    requires OneLine(name) && Trim(name) == name && OneLine(data)
    ensures LinesOf("event: " + name + "\n" + ("data: " + data)) == ["event: " + name, "data: " + data]
  {
    var first, second := "event: " + name, "data: " + data;
    assert first[|first| - 1] == if name == "" then ' ' else name[|name| - 1];
    CutNamedLine(first, second);
    NoLineCut(second);
    assert SplitLines(second) == ([], second);
    assert SplitLines(first + "\n" + second) == ([first] + [], second);
    assert [first] + [] + [second] == [first, second];
  }

  lemma AddOneLine(f: Fields, line: string)
    ensures AddLines(f, [line]) == AddLine(f, line)
  {
    assert [line][1..] == [];
  }

  lemma AddTwoLines(f: Fields, first: string, second: string)
    ensures AddLines(f, [first, second]) == AddLine(AddLine(f, first), second)
  {
    assert [first, second][1..] == [second];
    AddOneLine(AddLine(f, first), second);
  }

  /** A written event is read back as itself. */
  lemma RawIsReadBack(e: Event)
    requires Writable(e)
    ensures Emitted(FieldsOf(Raw(e))) == [e]
  {
    var name, data := "event: " + e.name, "data: " + e.data;
    if e.name == "message" {
      assert Raw(e) == data;
      DataAlone(e.data);
      DataLine(NO_FIELDS, e.data);
      AddOneLine(NO_FIELDS, data);
    } else {
      NameAndData(e.name, e.data);
      NameLine(NO_FIELDS, e.name);
      DataLine(Fields(e.name, []), e.data);
      AddTwoLines(NO_FIELDS, name, data);
    }
  }

  lemma SplitEncoded(e: Event, rest: string)
    requires Writable(e)
    ensures SplitEvents(Encode(e) + rest) == ([Raw(e)] + SplitEvents(rest).0, SplitEvents(rest).1)
  {
    RawHasNoBlankLine(e);
    CutEncoded(Raw(e), rest);
  }

  lemma EventsOfRaw(e: Event, raws: seq<string>)
    requires Writable(e)
    ensures EventsOf([Raw(e)] + raws) == [e] + EventsOf(raws)
  {
    RawIsReadBack(e);
    assert ([Raw(e)] + raws)[1..] == raws;
  }

  lemma {:induction false} EncodedIsReadBack(events: seq<Event>)
    requires forall e | e in events :: Writable(e)
    ensures EventsOf(SplitEvents(EncodeAll(events)).0) == events
    ensures SplitEvents(EncodeAll(events)).1 == ""
    decreases |events|
  {
    if events == [] {
      assert CutEvent("").None?;
    } else {
      var rest := EncodeAll(events[1..]);
      SplitEncoded(events[0], rest);
      EventsOfRaw(events[0], SplitEvents(rest).0);
      EncodedIsReadBack(events[1..]);
    }
  }

  /** Whatever the agent writes and however the text is chunked, the manager emits exactly those events. */
  lemma EventStreamRoundTrip(events: seq<Event>, chunks: seq<string>)
    requires (forall e | e in events :: Writable(e)) && Glue(chunks) == EncodeAll(events)
    ensures EventsOf(FeedEvents(chunks).0) == events
    ensures FeedEvents(chunks).1 == ""
  {
    CutEventCuts();
    ChunksDoNotMatter(CutEvent, "", chunks);
    assert "" + Glue(chunks) == Glue(chunks);
    EncodedIsReadBack(events);
  }

  /** The lines emitted while a text comes in chunks, plus the residue, are the lines of the whole text. */
  lemma LinesOfChunks(chunks: seq<string>)
    ensures FeedLines(chunks).0 + [FeedLines(chunks).1] == LinesOf(Glue(chunks))
  {
    CutLineCuts();
    ChunksDoNotMatter(CutLine, "", chunks);
    assert "" + Glue(chunks) == Glue(chunks);
  }

  // ------------------------------------------------------------------ the buffers

  class LineBuffer {
    var value: string

    constructor ()
      ensures value == ""
    {
      value := "";
    }

    /** The agent's incremental line splitter. */
    method Push(chunk: string) returns (lines: seq<string>)
      modifies this
      ensures (lines, value) == SplitLines(old(value) + chunk)
    {
      value, lines := value + chunk, [];
      assert [] + SplitLines(value).0 == SplitLines(value).0;
      var cut := CutLine(value);
      while cut.Some?
        invariant cut == CutLine(value)
        invariant SplitLines(old(value) + chunk) == (lines + SplitLines(value).0, SplitLines(value).1)
        decreases |value|
      {
        assert lines + ([cut.value.0] + SplitLines(cut.value.1).0) == lines + [cut.value.0] + SplitLines(cut.value.1).0;
        lines := lines + [cut.value.0];
        value := cut.value.1;
        cut := CutLine(value);
      }
      assert lines + [] == lines;
    }
  }

  lemma EventsOfStep(events: seq<Event>, raws: seq<string>, i: nat, f: Fields)
    requires i < |raws| && f == FieldsOf(raws[i])
    ensures events + EventsOf(raws[i..]) == events + Emitted(f) + EventsOf(raws[i + 1..])
    ensures f.data == [] ==> events + Emitted(f) == events
  {
    assert raws[i..][1..] == raws[i + 1..];
    assert events + (Emitted(f) + EventsOf(raws[i + 1..])) == events + Emitted(f) + EventsOf(raws[i + 1..]);
  }

  lemma AddLinesStep(f: Fields, lines: seq<string>, i: nat)
    requires i < |lines|
    ensures AddLines(f, lines[i..]) == AddLines(AddLine(f, lines[i]), lines[i + 1..])
  {
    assert lines[i..][1..] == lines[i + 1..];
  }

  class EventBuffer {
    var value: string

    constructor ()
      ensures value == ""
    {
      value := "";
    }

    static method ReadLine(before: Fields, line: string) returns (f: Fields)
      ensures f == AddLine(before, line)
    {
      f := before;
      if "event:" <= line {
        f := f.(name := Trim(line[6..]));
      } else if "data:" <= line {
        f := f.(data := f.data + [TrimStart(line[5..])]);
      }
    }

    static method ReadFields(raw: string) returns (f: Fields)
      ensures f == FieldsOf(raw)
    {
      f := NO_FIELDS;
      var lines := LinesOf(raw);
      var i := 0;
      assert lines[0..] == lines;
      while i < |lines|
        invariant 0 <= i <= |lines|
        invariant AddLines(f, lines[i..]) == FieldsOf(raw)
      {
        AddLinesStep(f, lines, i);
        f := ReadLine(f, lines[i]);
        i := i + 1;
      }
      assert lines[i..] == [];
    }

    /** The manager's incremental event parser. */
    method Consume(chunk: string) returns (events: seq<Event>)
      modifies this
      ensures events == EventsOf(SplitEvents(old(value) + chunk).0) && value == SplitEvents(old(value) + chunk).1
    {
      var (raws, residue) := SplitEvents(value + chunk);
      value, events := residue, [];
      var i := 0;
      assert raws[0..] == raws && [] + EventsOf(raws) == EventsOf(raws);
      while i < |raws|
        invariant 0 <= i <= |raws| && value == residue
        invariant events + EventsOf(raws[i..]) == EventsOf(raws)
      {
        var f := ReadFields(raws[i]);
        EventsOfStep(events, raws, i, f);
        if |f.data| > 0 {
          events := events + [Event(f.name, JoinLines(f.data))];
        }
        i := i + 1;
      }
      assert raws[i..] == [] && events + [] == events;
    }
  }

  // ------------------------------------------------------------------ both parsers on one link

  /** JSON text of an object with one text field, field name first, and reading that field back. */
  datatype LineJson = LineJson(write: (string, string) -> string, read: (string, string) -> Option<string>)
  {
    ghost predicate Lawful() {
      forall field, line ::
        var text := write(field, line);
        read(field, text) == Some(line) && OneLine(text) && TrimStart(text) == text
    }
  }

  /** Every character behind a mark, a line break as a letter behind another mark. */
  function Escaped(line: string): (text: string)
    ensures OneLine(text)
  {
    if line == "" then ""
    else (if line[0] == '\n' then "!n" else ['=', line[0]]) + Escaped(line[1..])
  }

  function Unescaped(text: string): string {
    if |text| < 2 then ""
    else [if text[0] == '!' then '\n' else text[1]] + Unescaped(text[2..])
  }

  lemma {:induction false} EscapedIsReadBack(line: string)
    ensures Unescaped(Escaped(line)) == line
  {
    if line != "" {
      EscapedIsReadBack(line[1..]);
      assert Escaped(line)[2..] == Escaped(line[1..]);
      assert line == [line[0]] + line[1..];
    }
  }

  /** The law of the JSON texts can be met. */
  lemma LawfulLineJsonExists()
    ensures LineJson(
              (field, line) => "=" + Escaped(line),
              (field, text) => if text == "" then None else Some(Unescaped(text[1..]))).Lawful()
  {
    forall line ensures ("=" + Escaped(line))[1..] == Escaped(line) && Unescaped(Escaped(line)) == line {
      EscapedIsReadBack(line);
    }
  }

  /** The events named so, in their order. */
  function Named(events: seq<Event>, name: string): seq<Event> {
    if events == [] then []
    else (if events[0].name == name then [events[0]] else []) + Named(events[1..], name)
  }

  lemma {:induction false} NamedHoldsAll(events: seq<Event>, e: Event)
    requires e in events
    ensures e in Named(events, e.name)
  {
    if events[0] != e {
      NamedHoldsAll(events[1..], e);
    }
  }

  function LogEvents(j: LineJson, name: string, field: string, lines: seq<string>): seq<Event> {
    seq(|lines|, i requires 0 <= i < |lines| => Event(name, j.write(field, lines[i])))
  }

  /** The texts that the manager hands on for the events of one name. */
  function Received(j: LineJson, name: string, field: string, events: seq<Event>): seq<Option<string>> {
    var named := Named(events, name);
    seq(|named|, i requires 0 <= i < |named| => j.read(field, named[i].data))
  }

  function Somes(lines: seq<string>): seq<Option<string>> {
    seq(|lines|, i requires 0 <= i < |lines| => Some(lines[i]))
  }

  /** Standard output is sent line by line; an empty residue at its end is not sent. */
  function OutputLines(lines: seq<string>, residue: string): seq<string> {
    if residue == "" then lines else lines + [residue]
  }

  /** Of standard error only the lines that are not blank are sent. */
  function ErrorLines(lines: seq<string>): seq<string> {
    if lines == [] then []
    else (if Trim(lines[0]) == "" then [] else [lines[0]]) + ErrorLines(lines[1..])
  }

  /** What the agent sends on the link while both streams grow: their lines in any interleaving, pings and the end. */
  predicate Interleaves(j: LineJson, events: seq<Event>, output: seq<string>, errors: seq<string>) {
    && Named(events, "message") == LogEvents(j, "message", "line", output)
    && Named(events, "error") == LogEvents(j, "error", "error", errors)
    && forall e | e in events && e.name != "message" && e.name != "error" :: Writable(e)
  }

  predicate IsChannelName(name: string) {
    OneLine(name) && name != "" && !IsWhitespace(name[0]) && !IsWhitespace(name[|name| - 1])
  }

  lemma ChannelNames()
    ensures IsChannelName("message") && IsChannelName("error")
  {
  }

  /** Every event of such a channel is a text line in JSON, which the agent can write. */
  lemma ChannelIsWritable(j: LineJson, events: seq<Event>, name: string, field: string, lines: seq<string>)
    requires j.Lawful() && IsChannelName(name) && Named(events, name) == LogEvents(j, name, field, lines)
    ensures forall e | e in events && e.name == name :: Writable(e)
  {
    TrimmedAlready(name);
    forall e | e in events && e.name == name ensures Writable(e) {
      NamedHoldsAll(events, e);
      var i :| 0 <= i < |lines| && e == LogEvents(j, name, field, lines)[i];
      assert j.read(field, j.write(field, lines[i])) == Some(lines[i]);
    }
  }

  lemma InterleavedAreWritable(j: LineJson, events: seq<Event>, output: seq<string>, errors: seq<string>)
    requires j.Lawful() && Interleaves(j, events, output, errors)
    ensures forall e | e in events :: Writable(e)
  {
    ChannelNames();
    ChannelIsWritable(j, events, "message", "line", output);
    ChannelIsWritable(j, events, "error", "error", errors);
  }

  lemma ReceivedAsWritten(j: LineJson, name: string, field: string, lines: seq<string>, events: seq<Event>)
    requires j.Lawful() && Named(events, name) == LogEvents(j, name, field, lines)
    ensures Received(j, name, field, events) == Somes(lines)
  {
    assert forall i | 0 <= i < |lines| :: j.read(field, j.write(field, lines[i])) == Some(lines[i]);
  }

  /**
    A container's log arrives line by line as it was printed, and its error lines that are not blank
    likewise, for every chunking of the three streams, every interleaving on the link and any pings.
   */
  lemma LogArrives(j: LineJson, output: seq<string>, errors: seq<string>, events: seq<Event>, link: seq<string>)
    requires j.Lawful()
    requires Interleaves(j, events, OutputLines(FeedLines(output).0, FeedLines(output).1),
                         ErrorLines(FeedLines(errors).0 + [FeedLines(errors).1]))
    requires Glue(link) == EncodeAll(events)
    ensures FeedEvents(link).1 == ""
    ensures var received := EventsOf(FeedEvents(link).0);
            var (lines, residue) := SplitLines(Glue(output));
            && Received(j, "message", "line", received) == Somes(OutputLines(lines, residue))
            && Received(j, "error", "error", received) == Somes(ErrorLines(LinesOf(Glue(errors))))
  {
    CutLineCuts();
    ChunksDoNotMatter(CutLine, "", output);
    assert "" + Glue(output) == Glue(output);
    LinesOfChunks(errors);
    var lines := OutputLines(FeedLines(output).0, FeedLines(output).1);
    var blames := ErrorLines(LinesOf(Glue(errors)));
    InterleavedAreWritable(j, events, lines, blames);
    EventStreamRoundTrip(events, link);
    ReceivedAsWritten(j, "message", "line", lines, events);
    ReceivedAsWritten(j, "error", "error", blames, events);
  }
}
