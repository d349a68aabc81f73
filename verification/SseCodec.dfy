/**
 The stream that carries a session's events to a client: the printer that writes one frame per event, and the client's
 parser, fed chunks cut anywhere. The text follows sections 9.2.5 and 9.2.6 of the WHATWG HTML Living Standard.
 */
module SseCodec {
  import opened Protocol
  import opened Texts

  /** The host's JSON printer and parser. */
  datatype Json<!D> = Json(stringify: D -> string, parse: string -> Option<D>)

  /** An event on the wire: its name, its payload, its sequence number. */
  datatype Frame<+D> = Frame(name: string, data: D, seqNo: int)

  // ---- Text ------------------------------------------------------------------------------------

  predicate StartsWith(s: string, prefix: string) {
    prefix <= s
  }

  function Join(lines: seq<string>): string {
    if lines == [] then ""
    else if |lines| == 1 then lines[0]
    else Join(lines[..|lines| - 1]) + "\n" + lines[|lines| - 1]
  }

  /** The lines of a text: `split("\n")`. */
  function Lines(s: string): (r: seq<string>)
    ensures |r| >= 1
  {
    LinesFrom(s, 0)
  }

  function LinesFrom(s: string, i: nat): (r: seq<string>)
    requires i <= |s|
    ensures |r| >= 1
    decreases |s| - i
  {
    if i == |s| then [s]
    else if s[i] == '\n' then [s[..i]] + LinesFrom(s[i + 1..], 0)
    else LinesFrom(s, i + 1)
  }

  function Concat(texts: seq<string>): string {
    if texts == [] then "" else Concat(texts[..|texts| - 1]) + texts[|texts| - 1]
  }

  // ---- Numbers ---------------------------------------------------------------------------------

  function Decimal(n: nat): string {
    if n < 10 then [('0' as int + n) as char] else Decimal(n / 10) + [('0' as int + n % 10) as char]
  }

  predicate Digits(s: string) {
    s != "" && forall i :: 0 <= i < |s| ==> '0' <= s[i] <= '9'
  }

  function DigitsValue(s: string): nat
    requires s == "" || Digits(s)
  {
    if s == "" then 0 else 10 * DigitsValue(s[..|s| - 1]) + (s[|s| - 1] as int - '0' as int)
  }

  /** `Number(text) || 0`; what the host makes of a text that is not plain digits is `other`. */
  function NumberOr0(s: string, other: string -> int): int {
    if s == "" then 0 else if Digits(s) then DigitsValue(s) else other(s)
  }

  lemma {:induction false} DecimalReadsBack(n: nat)
    ensures Digits(Decimal(n)) && DigitsValue(Decimal(n)) == n
  {
    if n >= 10 {
      DecimalReadsBack(n / 10);
      assert Decimal(n)[..|Decimal(n)| - 1] == Decimal(n / 10);
    }
  }

  // ---- Printing --------------------------------------------------------------------------------

  function FrameBody<D>(f: Frame<D>, json: Json<D>): string
    requires f.seqNo >= 0
  {
    "id: " + Decimal(f.seqNo) + "\n" + ("event: " + f.name + "\n" + ("data: " + json.stringify(f.data)))
  }

  ghost predicate Numbered<D>(frames: seq<Frame<D>>) {
    forall i :: 0 <= i < |frames| ==> frames[i].seqNo >= 0
  }

  function StreamText<D>(frames: seq<Frame<D>>, json: Json<D>): string
    requires Numbered(frames)
  {
    if frames == [] then ""
    else StreamText(frames[..|frames| - 1], json) + (FrameBody(frames[|frames| - 1], json) + "\n\n")
  }

  /** Write the events until the response is over, which it is after `room` of them. */
  method Pipe<D>(events: seq<Frame<D>>, json: Json<D>, room: nat) returns (written: string)
    requires Numbered(events)
    ensures written == StreamText(events[..if room < |events| then room else |events|], json)
  {
    written := "";
    for i := 0 to |events|
      invariant i <= room
      invariant written == StreamText(events[..i], json)
    {
      if i == room { return; }
      assert events[..i + 1][..i] == events[..i];
      var evt := events[i];
      var data := "data: " + json.stringify(evt.data);
      written := written + ("id: " + Decimal(evt.seqNo) + "\n" + ("event: " + evt.name + "\n" + data) + "\n\n");
    }
    assert events[..|events|] == events;
  }

  // ---- Reading one message ---------------------------------------------------------------------

  /** The rests of the lines that carry a field. */
  function Values(lines: seq<string>, field: string): seq<string> {
    if lines == [] then []
    else
      var last := lines[|lines| - 1];
      Values(lines[..|lines| - 1], field) + (if StartsWith(last, field) then [last[|field|..]] else [])
  }

  function LastOr(values: seq<string>, otherwise: string): string {
    if values == [] then otherwise else Trim(values[|values| - 1])
  }

  function TrimmedStarts(values: seq<string>): seq<string> {
    seq(|values|, i requires 0 <= i < |values| => TrimStart(values[i]))
  }

  /**
   A message: its last event name and number, its data lines joined; none when it has no data or the data is no JSON.
   */
  function Message<D>(raw: string, json: Json<D>, other: string -> int): Option<Frame<D>> {
    var lines := Lines(raw);
    var data := Values(lines, "data:");
    if data == [] then None
    else
      match json.parse(Join(TrimmedStarts(data)))
      case None => None
      case Some(d) =>
        Some(Frame(LastOr(Values(lines, "event:"), "message"), d, NumberOr0(LastOr(Values(lines, "id:"), ""), other)))
  }

  method ParseSseMessage<D>(raw: string, json: Json<D>, other: string -> int) returns (r: Option<Frame<D>>)
    ensures r == Message(raw, json, other)
  {
    var name := "message";
    var seqNo := 0;
    var dataLines := [];
    var lines := Lines(raw);
    NoLines(lines, other);
    hide Values, Trim, TrimStart, NumberOr0, Lines, StartsWith, Join, LastOr, TrimmedStarts, Message;
    for i := 0 to |lines|
      invariant name == LastOr(Values(lines[..i], "event:"), "message")
      invariant seqNo == NumberOr0(LastOr(Values(lines[..i], "id:"), ""), other)
      invariant dataLines == TrimmedStarts(Values(lines[..i], "data:"))
    {
      var line := lines[i];
      OneField(line);
      NextLine(lines, i, "event:", "message");
      NextLine(lines, i, "id:", "");
      NextLine(lines, i, "data:", "");
      if StartsWith(line, "event:") {
        name := Trim(line[6..]);
      } else if StartsWith(line, "id:") {
        seqNo := NumberOr0(Trim(line[3..]), other);
      } else if StartsWith(line, "data:") {
        dataLines := dataLines + [TrimStart(line[5..])];
      }
    }
    assert lines[..|lines|] == lines;
    MessageIs(raw, json, other);
    if |dataLines| == 0 { return None; }
    var data := json.parse(Join(dataLines));
    match data {
      case None => return None;
      case Some(d) => return Some(Frame(name, d, seqNo));
    }
  }

  lemma NoLines(lines: seq<string>, other: string -> int)
    ensures Values(lines[..0], "event:") == Values(lines[..0], "id:") == Values(lines[..0], "data:") == []
    ensures LastOr([], "message") == "message" && NumberOr0(LastOr([], ""), other) == 0 && TrimmedStarts([]) == []
  {
  }

  lemma MessageIs<D>(raw: string, json: Json<D>, other: string -> int)
    ensures var lines := Lines(raw);
      var data := TrimmedStarts(Values(lines, "data:"));
      var parsed := json.parse(Join(data));
      Message(raw, json, other) ==
        if |data| == 0 || parsed.None? then None
        else Some(Frame(LastOr(Values(lines, "event:"), "message"), parsed.value,
          NumberOr0(LastOr(Values(lines, "id:"), ""), other)))
  {
    hide Lines, Values, Trim, TrimStart, NumberOr0, Join, LastOr;
  }

  lemma NextLine(lines: seq<string>, i: nat, field: string, otherwise: string)
    requires i < |lines| && |field| > 0
    ensures StartsWith(lines[i], field) ==>
      && |field| <= |lines[i]|
      && var rest := lines[i][|field|..];
         && LastOr(Values(lines[..i + 1], field), otherwise) == Trim(rest)
         && TrimmedStarts(Values(lines[..i + 1], field)) == TrimmedStarts(Values(lines[..i], field)) + [TrimStart(rest)]
    ensures !StartsWith(lines[i], field) ==> Values(lines[..i + 1], field) == Values(lines[..i], field)
  {
    hide Trim, TrimStart;
    ValuesSnoc(lines, i, field);
  }

  lemma ValuesSnoc(lines: seq<string>, i: nat, field: string)
    requires i < |lines|
    ensures Values(lines[..i + 1], field) ==
      Values(lines[..i], field) + if StartsWith(lines[i], field) then [lines[i][|field|..]] else []
  {
    assert lines[..i + 1][..i] == lines[..i];
  }

  /** No line carries two of the fields. */
  lemma OneField(line: string)
    ensures StartsWith(line, "event:") ==> !StartsWith(line, "id:") && !StartsWith(line, "data:")
    ensures StartsWith(line, "id:") ==> !StartsWith(line, "data:")
  {
    if line != "" {
      assert StartsWith(line, "event:") ==> line[0] == "event:"[0];
      assert StartsWith(line, "id:") ==> line[0] == "id:"[0];
      assert StartsWith(line, "data:") ==> line[0] == "data:"[0];
    }
  }

  /** The index of the last line that carries a field, or -1. */
  function LastField(lines: seq<string>, field: string): (k: int)
    ensures -1 <= k < |lines|
    ensures k >= 0 ==> field <= lines[k]
    ensures forall j :: k < j < |lines| ==> !(field <= lines[j])
  {
    if lines == [] then -1
    else if field <= lines[|lines| - 1] then |lines| - 1
    else LastField(lines[..|lines| - 1], field)
  }

  lemma {:induction false} LastValue(lines: seq<string>, field: string)
    ensures Values(lines, field) == [] <==> LastField(lines, field) < 0
    ensures var k, values := LastField(lines, field), Values(lines, field);
      k >= 0 ==> values[|values| - 1] == lines[k][|field|..]
  {
    if lines != [] {
      LastValue(lines[..|lines| - 1], field);
    }
  }

  function Carrying(lines: seq<string>, field: string): nat {
    if lines == [] then 0
    else Carrying(lines[..|lines| - 1], field) + if field <= lines[|lines| - 1] then 1 else 0
  }

  /** A field's values are the rests of the lines that carry it, in order. */
  lemma {:induction false} ValuesInOrder(lines: seq<string>, field: string, i: nat)
    requires i < |lines|
    ensures |Values(lines, field)| == Carrying(lines, field)
    ensures field <= lines[i] ==>
      var at := Carrying(lines[..i], field);
      at < |Values(lines, field)| && Values(lines, field)[at] == lines[i][|field|..]
  {
    var front := lines[..|lines| - 1];
    ValuesCounted(front, field);
    if i < |lines| - 1 {
      ValuesInOrder(front, field, i);
      assert front[..i] == lines[..i] && front[i] == lines[i];
    } else {
      assert lines[..i] == front;
    }
  }

  lemma {:induction false} ValuesCounted(lines: seq<string>, field: string)
    ensures |Values(lines, field)| == Carrying(lines, field)
  {
    if lines != [] {
      ValuesCounted(lines[..|lines| - 1], field);
    }
  }

  /**
   What a message says: it is nothing without a data line or where its data is no JSON; its name is its last event
   line's, or `message`; its number is its last id line's, 0 where that is empty or missing.
   */
  lemma MessageSays<D>(raw: string, json: Json<D>, other: string -> int)
    ensures var lines, m := Lines(raw), Message(raw, json, other);
      var data := json.parse(Join(TrimmedStarts(Values(lines, "data:"))));
      var named, numbered := LastField(lines, "event:"), LastField(lines, "id:");
      var number := if numbered >= 0 then Trim(lines[numbered][3..]) else "";
      && (m.None? <==> LastField(lines, "data:") < 0 || data.None?)
      && (m.Some? ==> data == Some(m.value.data))
      && (m.Some? ==> m.value.name == if named >= 0 then Trim(lines[named][6..]) else "message")
      && (m.Some? && number == "" ==> m.value.seqNo == 0)
      && (m.Some? && Digits(number) ==> m.value.seqNo == DigitsValue(number))
      && (m.Some? && number != "" && !Digits(number) ==> m.value.seqNo == other(number))
  {
    var lines := Lines(raw);
    MessageIs(raw, json, other);
    LastValue(lines, "event:");
    LastValue(lines, "id:");
    LastValue(lines, "data:");
    assert Trim("") == "";
    hide Lines, Values, Message, Join, Trim, Blank, TrimStart, TrimEnd, LastField;
  }

  lemma {:induction false} JoinCons(line: string, rest: seq<string>)
    requires rest != []
    ensures Join([line] + rest) == line + "\n" + Join(rest)
  {
    var all := [line] + rest;
    if |rest| == 1 {
      assert all[..1] == [line];
    } else {
      JoinCons(line, rest[..|rest| - 1]);
      assert all[..|all| - 1] == [line] + rest[..|rest| - 1];
    }
  }

  /** Joining lines and splitting a text undo each other. */
  lemma {:induction false} JoinSplits(lines: seq<string>)
    requires lines != [] && forall i :: 0 <= i < |lines| ==> '\n' !in lines[i]
    ensures Lines(Join(lines)) == lines
  {
    hide Join;
    if |lines| == 1 {
      LinesEnd(lines[0], 0);
      JoinOne(lines[0]);
      assert lines == [lines[0]];
    } else {
      JoinSplits(lines[1..]);
      JoinCons(lines[0], lines[1..]);
      LinesOf(lines[0], Join(lines[1..]));
      assert lines == [lines[0]] + lines[1..];
    }
  }

  lemma JoinOne(line: string)
    ensures Join([line]) == line
  {
  }

  lemma {:induction false} SplitJoins(s: string, i: nat)
    requires i <= |s| && '\n' !in s[..i]
    ensures Join(LinesFrom(s, i)) == s && forall k :: 0 <= k < |LinesFrom(s, i)| ==> '\n' !in LinesFrom(s, i)[k]
    decreases |s| - i
  {
    if i == |s| {
      assert s[..i] == s;
    } else if s[i] == '\n' {
      SplitJoins(s[i + 1..], 0);
      JoinCons(s[..i], LinesFrom(s[i + 1..], 0));
      assert s[..i] + "\n" + s[i + 1..] == s;
    } else {
      assert s[..i + 1] == s[..i] + [s[i]];
      SplitJoins(s, i + 1);
    }
  }

  // ---- Reading a stream ------------------------------------------------------------------------

  predicate SepAt(s: string, i: int) {
    0 <= i && i + 1 < |s| && s[i] == '\n' && s[i + 1] == '\n'
  }

  /** `indexOf("\n\n")`. */
  function Sep(s: string): (i: int)
    ensures i == -1 || SepAt(s, i)
    ensures forall j :: SepAt(s, j) ==> 0 <= i <= j
  {
    SepFrom(s, 0)
  }

  function SepFrom(s: string, from: nat): (i: int)
    requires from <= |s|
    ensures i == -1 || (from <= i && SepAt(s, i))
    ensures forall j :: SepAt(s, j) && from <= j ==> 0 <= i <= j
    decreases |s| - from
  {
    if from == |s| then -1 else if SepAt(s, from) then from else SepFrom(s, from + 1)
  }

  lemma SepIs(s: string, i: int)
    requires SepAt(s, i) && forall j :: 0 <= j < i ==> !SepAt(s, j)
    ensures Sep(s) == i
  {
  }

  datatype Reading<+D> = Reading(events: seq<Frame<D>>, rest: string)

  function Kept<D>(m: Option<Frame<D>>): seq<Frame<D>> {
    if m.Some? then [m.value] else []
  }

  /** All the messages a whole text completes, and the incomplete rest. */
  function Read<D>(text: string, json: Json<D>, other: string -> int): (r: Reading<D>)
    decreases |text|
  {
    var sep := Sep(text);
    if sep < 0 then Reading([], text)
    else
      var tail := Read(text[sep + 2..], json, other);
      Reading(Kept(Message(text[..sep], json, other)) + tail.events, tail.rest)
  }

  /** Reading goes on behind every message, whether it says something or nothing. */
  lemma ReadGoesOn<D>(block: string, rest: string, json: Json<D>, other: string -> int)
    requires forall i :: 0 <= i < |block| ==> !SepAt(block + "\n\n", i)
    ensures var m, r := Message(block, json, other), Read(rest, json, other);
      && Read(block + "\n\n" + rest, json, other).rest == r.rest
      && Read(block + "\n\n" + rest, json, other).events == (if m.Some? then [m.value] + r.events else r.events)
  {
    var text := block + "\n\n" + rest;
    forall i | 0 <= i < |block|
      ensures !SepAt(text, i)
    {
      assert !SepAt(block + "\n\n", i);
      assert text[i] == (block + "\n\n")[i] && text[i + 1] == (block + "\n\n")[i + 1];
    }
    SepIs(text, |block|);
    assert text[..|block|] == block && text[|block| + 2..] == rest;
    hide Message, Sep;
  }

  /** The client's loop over the chunks it receives; `buf` is what it holds back at the end. */
  method Sse<D>(chunks: seq<string>, json: Json<D>, other: string -> int) returns (events: seq<Frame<D>>, buf: string)
    ensures Reading(events, buf) == Read(Concat(chunks), json, other)
    ensures Sep(buf) == -1
  {
    assert chunks[..0] == [] && Concat(chunks[..0]) == "";
    hide Read, Sep, Message, Concat;
    buf, events := "", [];
    ReadStep("", json, other);
    for i := 0 to |chunks|
      invariant Reading(events, buf) == Read(Concat(chunks[..i]), json, other)
    {
      NextChunk(chunks, i, events, buf, json, other);
      buf := buf + chunks[i];
      var sep := Sep(buf);
      while sep >= 0
        invariant sep == Sep(buf)
        invariant Onto(events, Read(buf, json, other)) == Read(Concat(chunks[..i + 1]), json, other)
        decreases |buf|
      {
        NextMessage(events, buf, json, other);
        var raw := buf[..sep];
        buf := buf[sep + 2..];
        var evt := ParseSseMessage(raw, json, other);
        if evt.Some? {
          events := events + [evt.value];
        }
        sep := Sep(buf);
      }
      ReadStep(buf, json, other);
    }
    assert chunks[..|chunks|] == chunks;
    RestIsIncomplete(Concat(chunks), json, other);
  }

  function Onto<D>(events: seq<Frame<D>>, r: Reading<D>): Reading<D> {
    Reading(events + r.events, r.rest)
  }

  lemma NextMessage<D>(events: seq<Frame<D>>, buf: string, json: Json<D>, other: string -> int)
    requires Sep(buf) >= 0
    ensures var m := Message(buf[..Sep(buf)], json, other);
      var events' := if m.Some? then events + [m.value] else events;
      Onto(events, Read(buf, json, other)) == Onto(events', Read(buf[Sep(buf) + 2..], json, other))
  {
    ReadStep(buf, json, other);
    hide Read, Message, Sep;
  }

  lemma NextChunk<D>(
    chunks: seq<string>, i: nat, events: seq<Frame<D>>, buf: string, json: Json<D>, other: string -> int)
    requires i < |chunks| && Reading(events, buf) == Read(Concat(chunks[..i]), json, other)
    ensures Onto(events, Read(buf + chunks[i], json, other)) == Read(Concat(chunks[..i + 1]), json, other)
  {
    ReadOn(Concat(chunks[..i]), chunks[i], json, other);
    assert chunks[..i + 1][..i] == chunks[..i];
  }

  /** Reading on from where a text was left is reading the longer text. */
  lemma {:induction false} ReadOn<D>(text: string, more: string, json: Json<D>, other: string -> int)
    ensures var r := Read(text, json, other);
      var r' := Read(r.rest + more, json, other);
      Read(text + more, json, other) == Reading(r.events + r'.events, r'.rest)
    decreases |text|
  {
    hide Message, Sep, Read;
    ReadStep(text, json, other);
    ReadStep(text + more, json, other);
    var sep := Sep(text);
    if sep >= 0 {
      SepStays(text, more);
      ReadOn(text[sep + 2..], more, json, other);
      assert (text + more)[..sep] == text[..sep];
      assert (text + more)[sep + 2..] == text[sep + 2..] + more;
    }
  }

  lemma ReadStep<D>(s: string, json: Json<D>, other: string -> int)
    ensures var sep := Sep(s);
      Read(s, json, other) ==
        if sep < 0 then Reading([], s)
        else Reading(Kept(Message(s[..sep], json, other)) + Read(s[sep + 2..], json, other).events,
               Read(s[sep + 2..], json, other).rest)
  {
  }

  lemma SepStays(text: string, more: string)
    requires Sep(text) >= 0
    ensures Sep(text + more) == Sep(text)
  {
    var s := Sep(text);
    assert forall j :: 0 <= j < |text| ==> (text + more)[j] == text[j];
    forall j | 0 <= j < s
      ensures !SepAt(text + more, j)
    {
      assert !SepAt(text, j);
    }
    SepIs(text + more, s);
  }

  lemma {:induction false} RestIsIncomplete<D>(text: string, json: Json<D>, other: string -> int)
    ensures Sep(Read(text, json, other).rest) == -1
    decreases |text|
  {
    if Sep(text) >= 0 {
      RestIsIncomplete(text[Sep(text) + 2..], json, other);
    }
  }

  // ---- Round trip ------------------------------------------------------------------------------

  /** What the printer may be given: a one-line name without blanks at its ends, one-line JSON that parses back. */
  ghost predicate Sendable<D>(f: Frame<D>, json: Json<D>) {
    && f.seqNo >= 0
    && '\n' !in f.name && Trim(f.name) == f.name
    && var text := json.stringify(f.data);
       text != "" && '\n' !in text && !Blank(text[0]) && json.parse(text) == Some(f.data)
  }

  ghost predicate AllSendable<D>(frames: seq<Frame<D>>, json: Json<D>) {
    forall i :: 0 <= i < |frames| ==> Sendable(frames[i], json)
  }

  lemma {:induction false} LinesEnd(line: string, i: nat)
    requires i <= |line| && '\n' !in line
    ensures LinesFrom(line, i) == [line]
    decreases |line| - i
  {
    if i < |line| {
      LinesEnd(line, i + 1);
    }
  }

  lemma {:induction false} LinesCons(line: string, rest: string, i: nat)
    requires i <= |line| && '\n' !in line
    ensures LinesFrom(line + "\n" + rest, i) == [line] + Lines(rest)
    decreases |line| - i
  {
    var s := line + "\n" + rest;
    if i < |line| {
      assert s[i] == line[i];
      LinesCons(line, rest, i + 1);
    } else {
      assert s[i] == '\n' && s[..i] == line && s[i + 1..] == rest;
    }
  }

  lemma LinesOf(line: string, rest: string)
    requires '\n' !in line
    ensures Lines(line + "\n" + rest) == [line] + Lines(rest)
  {
    LinesCons(line, rest, 0);
  }

  lemma TrimDrops(s: string)
    ensures TrimStart(" " + s) == TrimStart(s)
  {
    assert (" " + s)[1..] == s;
  }

  lemma DigitsTrimmed(s: string)
    requires Digits(s)
    ensures Trim(s) == s
  {
    assert !Blank(s[0]) && !Blank(s[|s| - 1]);
  }

  lemma FrameLines<D>(f: Frame<D>, json: Json<D>)
    requires Sendable(f, json)
    ensures Lines(FrameBody(f, json)) ==
      ["id: " + Decimal(f.seqNo), "event: " + f.name, "data: " + json.stringify(f.data)]
  {
    DecimalReadsBack(f.seqNo);
    hide Lines, Trim, Blank, Decimal;
    var l1, l2, l3 := "id: " + Decimal(f.seqNo), "event: " + f.name, "data: " + json.stringify(f.data);
    assert FrameBody(f, json) == l1 + "\n" + (l2 + "\n" + l3);
    LinesOf(l1, l2 + "\n" + l3);
    LinesOf(l2, l3);
    LinesEnd(l3, 0);
  }

  /** What one printed frame says is what was printed. */
  lemma MessageOfFrame<D>(f: Frame<D>, json: Json<D>, other: string -> int)
    requires Sendable(f, json)
    ensures Message(FrameBody(f, json), json, other) == Some(f)
  {
    var digits, text := Decimal(f.seqNo), json.stringify(f.data);
    FrameLines(f, json);
    FieldsOfFrame(digits, f.name, text);
    DecimalReadsBack(f.seqNo);
    DigitsTrimmed(digits);
    assert TrimStart(text) == text;
    hide Lines, FrameBody, Values, Blank, Decimal, TrimStart, TrimEnd;
    assert TrimmedStarts([" " + text]) == [text];
  }

  lemma FieldsOfFrame(digits: string, name: string, text: string)
    ensures var lines := ["id: " + digits, "event: " + name, "data: " + text];
      && Values(lines, "id:") == [" " + digits] && Trim(" " + digits) == Trim(digits)
      && Values(lines, "event:") == [" " + name] && Trim(" " + name) == Trim(name)
      && Values(lines, "data:") == [" " + text] && TrimStart(" " + text) == TrimStart(text)
  {
    var l1, l2, l3 := "id: " + digits, "event: " + name, "data: " + text;
    assert "id:" <= l1 && "event:" <= l2 && "data:" <= l3;
    assert l1[3..] == " " + digits && l2[6..] == " " + name && l3[5..] == " " + text;
    TrimDrops(digits);
    TrimDrops(name);
    TrimDrops(text);
    hide Values, TrimStart, TrimEnd;
    ThreeFields(l1, l2, l3);
  }

  lemma ThreeFields(l1: string, l2: string, l3: string)
    requires StartsWith(l1, "id:") && StartsWith(l2, "event:") && StartsWith(l3, "data:")
    ensures Values([l1, l2, l3], "id:") == [l1[3..]]
    ensures Values([l1, l2, l3], "event:") == [l2[6..]]
    ensures Values([l1, l2, l3], "data:") == [l3[5..]]
  {
    OneField(l1);
    OneField(l2);
    OneField(l3);
    hide StartsWith;
    ValuesOfThree(l1, l2, l3, "id:");
    ValuesOfThree(l1, l2, l3, "event:");
    ValuesOfThree(l1, l2, l3, "data:");
    hide Values;
  }

  function ValueOf(line: string, field: string): seq<string> {
    if StartsWith(line, field) then [line[|field|..]] else []
  }

  lemma ValuesOfThree(l1: string, l2: string, l3: string, field: string)
    ensures Values([l1, l2, l3], field) == ValueOf(l1, field) + ValueOf(l2, field) + ValueOf(l3, field)
  {
    hide StartsWith;
    OneLineMore([], l1, field);
    OneLineMore([l1], l2, field);
    OneLineMore([l1, l2], l3, field);
    assert [] + [l1] == [l1] && [l1] + [l2] == [l1, l2] && [l1, l2] + [l3] == [l1, l2, l3];
    hide ValueOf;
  }

  lemma OneLineMore(lines: seq<string>, line: string, field: string)
    ensures Values(lines + [line], field) == Values(lines, field) + ValueOf(line, field)
    ensures Values([], field) == []
  {
    hide StartsWith;
    assert (lines + [line])[..|lines|] == lines;
  }

  /** Only a frame's end is a blank line. */
  lemma SepEndsFrame<D>(f: Frame<D>, json: Json<D>, more: string)
    requires Sendable(f, json)
    ensures Sep(FrameBody(f, json) + "\n\n" + more) == |FrameBody(f, json)|
  {
    DecimalReadsBack(f.seqNo);
    var l1, l2, l3 := "id: " + Decimal(f.seqNo), "event: " + f.name, "data: " + json.stringify(f.data);
    assert f.seqNo >= 0 && '\n' !in l1 && '\n' !in l2 && '\n' !in l3;
    hide *;
    assert FrameBody(f, json) == l1 + "\n" + l2 + "\n" + l3 by { Assoc(f, json); }
    ThreeLines(l1, l2, l3, more);
  }

  lemma Assoc<D>(f: Frame<D>, json: Json<D>)
    requires f.seqNo >= 0
    ensures FrameBody(f, json) ==
      ("id: " + Decimal(f.seqNo)) + "\n" + ("event: " + f.name) + "\n" + ("data: " + json.stringify(f.data))
  {
    hide Decimal;
  }

  lemma ThreeLines(l1: string, l2: string, l3: string, more: string)
    requires '\n' !in l1 && '\n' !in l2 && '\n' !in l3 && l1 != "" && l2 != "" && l3 != ""
    ensures var body := l1 + "\n" + l2 + "\n" + l3; Sep(body + "\n\n" + more) == |body|
  {
    var body := l1 + "\n" + l2 + "\n" + l3;
    var s := body + "\n\n" + more;
    var a, b := |l1|, |l1| + 1 + |l2|;
    assert forall j :: 0 <= j < a ==> s[j] == l1[j];
    assert forall j :: a + 1 <= j < b ==> s[j] == l2[j - a - 1];
    assert forall j :: b + 1 <= j < |body| ==> s[j] == l3[j - b - 1];
    assert s[|body|] == '\n' && s[|body| + 1] == '\n';
    SepIs(s, |body|);
  }

  /** A whole printed stream reads back as the events printed, and nothing is held back. */
  lemma {:induction false} StreamReadsBack<D>(frames: seq<Frame<D>>, json: Json<D>, other: string -> int)
    requires AllSendable(frames, json)
    ensures Read(StreamText(frames, json), json, other) == Reading(frames, "")
  {
    hide *;
    NothingReadsBack(json, other);
    Senders(frames, json);
    if frames != [] {
      var front, f := frames[..|frames| - 1], frames[|frames| - 1];
      StreamReadsBack(front, json, other);
      FrameReadsBack(f, json, other);
      ReadAfter(StreamText(front, json), FrameBody(f, json) + "\n\n", front, json, other);
      assert front + [f] == frames;
    }
  }

  lemma NothingReadsBack<D>(json: Json<D>, other: string -> int)
    ensures StreamText([], json) == "" && Read("", json, other) == Reading([], "")
  {
  }

  lemma Senders<D>(frames: seq<Frame<D>>, json: Json<D>)
    requires AllSendable(frames, json)
    ensures Numbered(frames)
    ensures frames != [] ==>
      var front, f := frames[..|frames| - 1], frames[|frames| - 1];
      && AllSendable(front, json) && Numbered(front) && Sendable(f, json) && f.seqNo >= 0
      && StreamText(frames, json) == StreamText(front, json) + (FrameBody(f, json) + "\n\n")
  {
    hide FrameBody;
  }

  /** After a text that leaves nothing unread, more text is read as if it came first. */
  lemma ReadAfter<D>(text: string, more: string, events: seq<Frame<D>>, json: Json<D>, other: string -> int)
    requires Read(text, json, other) == Reading(events, "")
    ensures Read(text + more, json, other) ==
      Reading(events + Read(more, json, other).events, Read(more, json, other).rest)
  {
    hide Read;
    ReadOn(text, more, json, other);
    assert "" + more == more;
  }

  lemma FrameReadsBack<D>(f: Frame<D>, json: Json<D>, other: string -> int)
    requires Sendable(f, json)
    ensures Read(FrameBody(f, json) + "\n\n", json, other) == Reading([f], "")
  {
    var body := FrameBody(f, json);
    SepEndsFrame(f, json, "");
    MessageOfFrame(f, json, other);
    var s := body + "\n\n";
    assert s == body + "\n\n" + "";
    assert s[..|body|] == body && s[|body| + 2..] == "";
    assert Read("", json, other) == Reading([], "");
  }

  /** How many frames the first `n` characters of the stream complete. */
  function Complete<D>(frames: seq<Frame<D>>, json: Json<D>, n: nat): (k: nat)
    requires Numbered(frames)
    ensures k <= |frames|
  {
    if frames == [] || |StreamText(frames, json)| <= n then |frames|
    else Complete(frames[..|frames| - 1], json, n)
  }

  /**
   Cut off anywhere, also inside a frame or its blank line, the stream yields exactly the frames it completed, and holds
   back exactly the characters after them.
   */
  lemma {:induction false} CutStreamReadsBack<D>(frames: seq<Frame<D>>, json: Json<D>, other: string -> int, n: nat)
    requires AllSendable(frames, json) && n <= |StreamText(frames, json)|
    ensures var k := Complete(frames, json, n);
      && StreamText(frames[..k], json) <= StreamText(frames, json)[..n]
      && Read(StreamText(frames, json)[..n], json, other)
           == Reading(frames[..k], StreamText(frames, json)[..n][|StreamText(frames[..k], json)|..])
  {
    if n == |StreamText(frames, json)| {
      CutAtEnd(frames, json, other);
    } else {
      hide Read, FrameBody;
      var front := frames[..|frames| - 1];
      var k := Complete(front, json, n);
      assert frames[..k] == front[..k];
      assert StreamText(frames, json)[..|StreamText(front, json)|] == StreamText(front, json);
      if n < |StreamText(front, json)| {
        CutStreamReadsBack(front, json, other, n);
        assert StreamText(frames, json)[..n] == StreamText(front, json)[..n];
      } else {
        CutInLast(frames, json, other, n);
      }
    }
  }

  lemma CutAtEnd<D>(frames: seq<Frame<D>>, json: Json<D>, other: string -> int)
    requires AllSendable(frames, json)
    ensures var text := StreamText(frames, json);
      && text <= text[..|text|] && frames[..|frames|] == frames && text[..|text|][|text|..] == ""
      && Read(text[..|text|], json, other) == Reading(frames, "")
  {
    StreamReadsBack(frames, json, other);
    var text := StreamText(frames, json);
    assert text[..|text|] == text;
  }

  lemma CutInLast<D>(frames: seq<Frame<D>>, json: Json<D>, other: string -> int, n: nat)
    requires AllSendable(frames, json) && frames != []
    requires var front := frames[..|frames| - 1]; |StreamText(front, json)| <= n < |StreamText(frames, json)|
    ensures var front := frames[..|frames| - 1];
      && front[..Complete(front, json, n)] == front
      && StreamText(front, json) <= StreamText(frames, json)[..n]
      && Read(StreamText(frames, json)[..n], json, other)
           == Reading(front, StreamText(frames, json)[..n][|StreamText(front, json)|..])
  {
    hide *;
    Senders(frames, json);
    var front, f := frames[..|frames| - 1], frames[|frames| - 1];
    WholeIsComplete(front, json, n);
    StreamReadsBack(front, json, other);
    var head, cut := StreamText(front, json), n - |StreamText(front, json)|;
    var part := (FrameBody(f, json) + "\n\n")[..cut];
    CutInFrame(f, json, other, cut);
    ReadAfter(head, part, front, json, other);
    assert StreamText(frames, json)[..n] == head + part;
    assert (head + part)[|head|..] == part;
  }

  lemma WholeIsComplete<D>(frames: seq<Frame<D>>, json: Json<D>, n: nat)
    requires Numbered(frames) && |StreamText(frames, json)| <= n
    ensures frames[..Complete(frames, json, n)] == frames
  {
  }

  lemma CutInFrame<D>(f: Frame<D>, json: Json<D>, other: string -> int, n: nat)
    requires Sendable(f, json) && n < |FrameBody(f, json)| + 2
    ensures var part := (FrameBody(f, json) + "\n\n")[..n]; Read(part, json, other) == Reading([], part)
  {
    PartHasNoSep(f, json, n);
    hide FrameBody, Sendable;
  }

  lemma PartHasNoSep<D>(f: Frame<D>, json: Json<D>, n: nat)
    requires Sendable(f, json) && n < |FrameBody(f, json)| + 2
    ensures Sep((FrameBody(f, json) + "\n\n")[..n]) == -1
  {
    SepEndsFrame(f, json, "");
    var s := FrameBody(f, json) + "\n\n";
    assert s + "" == s;
    var part := s[..n];
    forall j | SepAt(part, j)
      ensures false
    {
      assert SepAt(s, j);
    }
  }

  /**
   However the printed stream is cut into chunks, and wherever it breaks off, the client yields exactly the completed
   frames.
   */
  lemma AnyChunking<D>(frames: seq<Frame<D>>, json: Json<D>, other: string -> int, chunks: seq<string>)
    requires AllSendable(frames, json)
    requires Concat(chunks) <= StreamText(frames, json)
    ensures var k := Complete(frames, json, |Concat(chunks)|);
      && Read(Concat(chunks), json, other).events == frames[..k]
      && (Concat(chunks) == StreamText(frames, json) ==> Read(Concat(chunks), json, other) == Reading(frames, ""))
  {
    var n := |Concat(chunks)|;
    assert StreamText(frames, json)[..n] == Concat(chunks);
    CutStreamReadsBack(frames, json, other, n);
    StreamReadsBack(frames, json, other);
  }

  // ---- What the standard makes of a frame ------------------------------------------------------

  /** The buffers of section 9.2.6, and what it dispatches at a blank line. */
  datatype Buffers = Buffers(kind: string, data: string, lastId: string)

  function Colon(line: string, from: nat): (i: nat)
    requires from <= |line|
    ensures from <= i <= |line|
    decreases |line| - from
  {
    if from == |line| || line[from] == ':' then from else Colon(line, from + 1)
  }

  /** Section 9.2.6 on one line: a comment, or a field and its value less one leading space. */
  function Processed(b: Buffers, line: string): Buffers {
    var i := Colon(line, 0);
    if line != "" && i == 0 then b
    else
      var field := line[..i];
      var value :=
        if i == |line| then ""
        else if line[i + 1..] != "" && line[i + 1] == ' ' then line[i + 2..]
        else line[i + 1..];
      if field == "event" then b.(kind := value)
      else if field == "data" then b.(data := b.data + value + "\n")
      else if field == "id" && '\0' !in value then b.(lastId := value)
      else b
  }

  function ProcessedAll(b: Buffers, lines: seq<string>): Buffers {
    if lines == [] then b else Processed(ProcessedAll(b, lines[..|lines| - 1]), lines[|lines| - 1])
  }

  /**
   The event dispatched after these lines, if there is data: its trailing newline goes, a missing type is `message`.
   */
  function Dispatched(b: Buffers): Option<Buffers> {
    if b.data == "" then None
    else Some(Buffers(if b.kind == "" then "message" else b.kind, b.data[..|b.data| - 1], b.lastId))
  }

  lemma ColonAfter(field: string, rest: string, from: nat)
    requires from <= |field| && ':' !in field
    ensures Colon(field + ":" + rest, from) == |field|
    decreases |field| - from
  {
    assert (field + ":" + rest)[from] == if from < |field| then field[from] else ':';
    if from < |field| {
      ColonAfter(field, rest, from + 1);
    }
  }

  lemma FieldOf(b: Buffers, field: string, value: string)
    requires field != "" && ':' !in field
    ensures Processed(b, field + ": " + value) ==
      if field == "event" then b.(kind := value)
      else if field == "data" then b.(data := b.data + value + "\n")
      else if field == "id" && '\0' !in value then b.(lastId := value)
      else b
  {
    var line := field + ": " + value;
    assert line == field + ":" + (" " + value);
    ColonAfter(field, " " + value, 0);
    assert line[..|field|] == field && line[|field| + 1] == ' ' && line[|field| + 2..] == value;
  }

  /**
   A parser of the standard reads a printed frame as the client does: the same type, the same data, the same number.
   */
  lemma StandardReadsFrames<D>(f: Frame<D>, json: Json<D>, b: Buffers, other: string -> int)
    requires Sendable(f, json) && b.kind == b.data == "" && f.name != ""
    ensures Dispatched(ProcessedAll(b, Lines(FrameBody(f, json)))) ==
      Some(Buffers(f.name, json.stringify(f.data), Decimal(f.seqNo)))
    ensures Message(FrameBody(f, json), json, other) == Some(f)
  {
    FrameLines(f, json);
    MessageOfFrame(f, json, other);
    DecimalReadsBack(f.seqNo);
    FieldsDispatch(b, Decimal(f.seqNo), f.name, json.stringify(f.data));
    hide *;
  }

  lemma FieldsDispatch(b: Buffers, id: string, name: string, text: string)
    requires '\0' !in id && name != "" && b.kind == b.data == ""
    ensures Dispatched(ProcessedAll(b, ["id: " + id, "event: " + name, "data: " + text])) ==
      Some(Buffers(name, text, id))
  {
    hide Processed, ProcessedAll;
    assert "id" + ": " == "id: " && "event" + ": " == "event: " && "data" + ": " == "data: ";
    FieldOf(b, "id", id);
    FieldOf(b.(lastId := id), "event", name);
    FieldOf(b.(lastId := id, kind := name), "data", text);
    ThreeLinesProcessed(b, "id: " + id, "event: " + name, "data: " + text);
    assert ("" + text + "\n")[..|text|] == text;
  }

  lemma ThreeLinesProcessed(b: Buffers, l1: string, l2: string, l3: string)
    ensures ProcessedAll(b, [l1, l2, l3]) == Processed(Processed(Processed(b, l1), l2), l3)
  {
    hide Processed;
    assert [l1][..0] == [] && ProcessedAll(b, [l1]) == Processed(b, l1);
    assert [l1, l2][..1] == [l1] && ProcessedAll(b, [l1, l2]) == Processed(Processed(b, l1), l2);
    assert [l1, l2, l3][..2] == [l1, l2];
  }
}
