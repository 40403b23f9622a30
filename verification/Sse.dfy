/** The incremental parser of server-sent events.

    Text arrives in arbitrary pieces; an event ends at the first blank line ("\n\n" exactly, so a
    blank line written with carriage returns does not end one). */
module Sse {
  import opened Wrappers
  import opened Text

  datatype SseEvent = SseEvent(event: Option<string>, data: string)

  // ---------------------------------------------------------------- one block

  predicate IsEventLine(line: string) {
    "event:" <= line
  }

  predicate IsDataLine(line: string) {
    !IsEventLine(line) && "data:" <= line
  }

  function EventName(line: string): string
    requires IsEventLine(line)
  {
    Trim(line[6..])
  }

  function DataText(line: string): string
    requires IsDataLine(line)
  {
    var rest := line[5..];
    if rest != [] && rest[0] == ' ' then rest[1..] else rest
  }

  /** The name on the last event line. */
  function LastName(lines: seq<string>): Option<string> {
    if lines == [] then None
    else
      var line := StripCr(lines[|lines| - 1]);
      if IsEventLine(line) then Some(EventName(line)) else LastName(lines[..|lines| - 1])
  }

  /** The texts of the data lines, in order. */
  function DataTexts(lines: seq<string>): seq<string> {
    if lines == [] then []
    else
      var line := StripCr(lines[|lines| - 1]);
      DataTexts(lines[..|lines| - 1]) + (if IsDataLine(line) then [DataText(line)] else [])
  }

  function EventOfLines(lines: seq<string>): Option<SseEvent> {
    if DataTexts(lines) == [] && LastName(lines).None? then None
    else Some(SseEvent(LastName(lines), Join(DataTexts(lines))))
  }

  function BlockEvents(block: string): seq<SseEvent> {
    match EventOfLines(Lines(block))
    case None => []
    case Some(e) => [e]
  }

  // ---------------------------------------------------------------- draining a buffer

  predicate BlankAt(s: string, i: nat) {
    i + 1 < |s| && s[i] == '\n' && s[i + 1] == '\n'
  }

  /** The position of the first blank line, or the length if there is none. */
  function FirstBlank(s: string): (n: nat)
    ensures n <= |s| && (n < |s| ==> BlankAt(s, n))
    ensures forall i :: 0 <= i < n ==> !BlankAt(s, i)
  {
    if s == [] || BlankAt(s, 0) then 0
    else
      var n := 1 + FirstBlank(s[1..]);
      assert forall i :: 0 < i < |s| ==> BlankAt(s, i) == BlankAt(s[1..], i - 1);
      n
  }

  /** The events complete in a buffer, and what is left. */
  function Drain(s: string): (seq<SseEvent>, string)
    decreases |s|
  {
    var n := FirstBlank(s);
    if n == |s| then ([], s)
    else
      var (events, rest) := Drain(s[n + 2..]);
      (BlockEvents(s[..n + 2]) + events, rest)
  }

  lemma DrainStep(s: string)
    ensures FirstBlank(s) < |s| ==>
      var n := FirstBlank(s) + 2;
      Drain(s) == (BlockEvents(s[..n]) + Drain(s[n..]).0, Drain(s[n..]).1)
    ensures FirstBlank(s) == |s| ==> Drain(s) == ([], s)
  {
    hide FirstBlank, BlockEvents, BlankAt;
  }

  lemma FirstBlankExtends(s: string, t: string)
    requires FirstBlank(s) < |s|
    ensures FirstBlank(s + t) == FirstBlank(s)
  {
    var n, m := FirstBlank(s), FirstBlank(s + t);
    assert BlankAt(s + t, n);
    assert m < n ==> BlankAt(s, m);
  }

  /** Draining early or late is the same: what is left after draining one piece, with the next piece
      behind it, drains to the rest of the events. */
  lemma {:induction false} DrainSplit(s: string, t: string)
    ensures Drain(s + t).0 == Drain(s).0 + Drain(Drain(s).1 + t).0
    ensures Drain(s + t).1 == Drain(Drain(s).1 + t).1
    decreases |s|
  {
    hide Drain, BlockEvents;
    var n := FirstBlank(s);
    DrainStep(s);
    if n < |s| {
      FirstBlankExtends(s, t);
      DrainStep(s + t);
      assert (s + t)[..n + 2] == s[..n + 2] && (s + t)[n + 2..] == s[n + 2..] + t;
      DrainSplit(s[n + 2..], t);
    }
  }

  /** Nothing complete stays in the buffer. */
  lemma {:induction false} DrainIsComplete(s: string)
    ensures Drain(Drain(s).1) == ([], Drain(s).1)
    decreases |s|
  {
    hide Drain, FirstBlank, BlockEvents;
    var n := FirstBlank(s);
    DrainStep(s);
    if n < |s| {
      DrainIsComplete(s[n + 2..]);
    }
  }

  function Concat(chunks: seq<string>): string {
    if chunks == [] then "" else chunks[0] + Concat(chunks[1..])
  }

  /** Pushing pieces one after another. */
  function PushAll(buffer: string, chunks: seq<string>): (seq<SseEvent>, string)
    decreases |chunks|
  {
    if chunks == [] then ([], buffer)
    else
      var (events, buffer') := Drain(buffer + chunks[0]);
      var (more, rest) := PushAll(buffer', chunks[1..]);
      (events + more, rest)
  }

  /** However the text is cut, the events and the final buffer are those of one push of the whole. */
  lemma {:induction false} PushAllIsOnePush(buffer: string, chunks: seq<string>)
    requires Drain(buffer) == ([], buffer)
    ensures PushAll(buffer, chunks) == Drain(buffer + Concat(chunks))
    decreases |chunks|
  {
    hide Drain;
    if chunks == [] {
      assert buffer + Concat(chunks) == buffer;
    } else {
      var s, t := buffer + chunks[0], Concat(chunks[1..]);
      DrainIsComplete(s);
      PushAllIsOnePush(Drain(s).1, chunks[1..]);
      DrainSplit(s, t);
      assert buffer + Concat(chunks) == s + t;
    }
  }

  /** Two cuts of one text are indistinguishable to a new parser. */
  lemma ChunkingIndependent(a: seq<string>, b: seq<string>)
    requires Concat(a) == Concat(b)
    ensures PushAll("", a) == PushAll("", b)
  {
    PushAllIsOnePush("", a);
    PushAllIsOnePush("", b);
  }

  // ---------------------------------------------------------------- what ends an event

  lemma {:induction false} DrainShrinks(s: string)
    ensures |Drain(s).1| <= |s|
    decreases |s|
  {
    hide Drain, BlockEvents;
    var n := FirstBlank(s);
    DrainStep(s);
    if n < |s| {
      DrainShrinks(s[n + 2..]);
    }
  }

  /** A text stays in the buffer as it is exactly if no two of its line feeds are adjacent. */
  lemma WaitsExactlyWithoutBlank(s: string)
    ensures Drain(s) == ([], s) <==> forall i :: 0 <= i < |s| ==> !BlankAt(s, i)
  {
    hide Drain, BlockEvents;
    var n := FirstBlank(s);
    DrainStep(s);
    if n < |s| {
      assert BlankAt(s, n);
      DrainShrinks(s[n + 2..]);
    }
  }

  /** A text with every line feed written as carriage return and line feed. */
  function CrLf(s: string): string {
    if s == "" then "" else (if s[0] == '\n' then "\r\n" else [s[0]]) + CrLf(s[1..])
  }

  lemma {:induction false} NoBlankInCrLf(s: string)
    ensures CrLf(s) != "" ==> CrLf(s)[0] != '\n'
    ensures forall i :: 0 <= i < |CrLf(s)| ==> !BlankAt(CrLf(s), i)
  {
    if s != "" {
      var first, rest := if s[0] == '\n' then "\r\n" else [s[0]], CrLf(s[1..]);
      NoBlankInCrLf(s[1..]);
      forall i | 0 <= i < |CrLf(s)|
        ensures !BlankAt(CrLf(s), i)
      {
        if i >= |first| {
          assert !BlankAt(rest, i - |first|);
        }
      }
    }
  }

  /** So a stream whose lines end in carriage return and line feed, blank lines included, delivers
      nothing, however it is cut: it all waits in the buffer. */
  lemma CrLfDeliversNothing(s: string, pieces: seq<string>)
    requires Concat(pieces) == CrLf(s)
    ensures PushAll("", pieces) == ([], CrLf(s))
  {
    hide Drain, CrLf, Concat, PushAll, BlankAt;
    NoBlankInCrLf(s);
    WaitsExactlyWithoutBlank(CrLf(s));
    WaitsExactlyWithoutBlank("");
    PushAllIsOnePush("", pieces);
    assert "" + CrLf(s) == CrLf(s);
  }

  // ---------------------------------------------------------------- the parser as it runs

  lemma NoLines()
    ensures LastName([]) == None && DataTexts([]) == []
  {
  }

  lemma OneMoreLine(lines: seq<string>, raw: string)
    ensures var line := StripCr(raw);
            && LastName(lines + [raw]) == (if IsEventLine(line) then Some(EventName(line)) else LastName(lines))
            && DataTexts(lines + [raw]) == DataTexts(lines) + if IsDataLine(line) then [DataText(line)] else []
  {
    hide StripCr, EventName, DataText;
    assert (lines + [raw])[..|lines + [raw]| - 1] == lines;
  }

  lemma BlockEventsOf(block: string)
    ensures BlockEvents(block) == if EventOfLines(Lines(block)).Some? then [EventOfLines(Lines(block)).value] else []
  {
  }

  lemma Grouped(a: seq<SseEvent>, b: seq<SseEvent>, c: seq<SseEvent>)
    ensures a + (b + c) == (a + b) + c && a + [] == a
  {
  }

  class SseParser {
    var buffer: string

    constructor ()
      ensures buffer == ""
    {
      buffer := "";
    }

    method Push(chunk: string) returns (events: seq<SseEvent>)
      modifies this
      ensures events == Drain(old(buffer) + chunk).0 && buffer == Drain(old(buffer) + chunk).1
    {
      hide Drain, FirstBlank, BlockEvents, EventOfLines, Lines;
      buffer := buffer + chunk;
      ghost var whole := buffer;
      events := [];
      var pos := FirstBlank(buffer);
      while pos < |buffer|
        invariant pos == FirstBlank(buffer)
        invariant events + Drain(buffer).0 == Drain(whole).0 && Drain(buffer).1 == Drain(whole).1
        decreases |buffer|
      {
        DrainStep(buffer);
        var raw := buffer[..pos + 2];
        buffer := buffer[pos + 2..];
        BlockEventsOf(raw);
        Grouped(events, BlockEvents(raw), Drain(buffer).0);
        var event := ParseBlock(raw);
        if event.Some? {
          events := events + [event.value];
        }
        pos := FirstBlank(buffer);
      }
      DrainStep(buffer);
      assert events + [] == events;
    }

    static method ParseBlock(block: string) returns (r: Option<SseEvent>)
      ensures r == EventOfLines(Lines(block))
    {
      hide Lines, LastName, DataTexts, Trim, StripCr;
      var lines := Lines(block);
      var event: Option<string> := None;
      var dataLines := [];
      assert lines[..0] == [];
      NoLines();
      for i := 0 to |lines|
        invariant event == LastName(lines[..i]) && dataLines == DataTexts(lines[..i])
      {
        assert lines[..i + 1] == lines[..i] + [lines[i]];
        OneMoreLine(lines[..i], lines[i]);
        var line := StripCr(lines[i]);
        if "event:" <= line {
          event := Some(Trim(line[6..]));
        } else if "data:" <= line {
          var rest := line[5..];
          dataLines := dataLines + [if rest != [] && rest[0] == ' ' then rest[1..] else rest];
        }
      }
      assert lines[..|lines|] == lines;
      if dataLines == [] && event.None? {
        return None;
      }
      return Some(SseEvent(event, Join(dataLines)));
    }
  }

  // ---------------------------------------------------------------- what a block delivers

  /** A block delivers nothing exactly if it has neither a data line nor an event line. */
  lemma {:induction false} DeliversNothingExactly(lines: seq<string>)
    ensures DataTexts(lines) == []
            <==> forall i :: 0 <= i < |lines| ==> !IsDataLine(StripCr(lines[i]))
    ensures LastName(lines).None?
            <==> forall i :: 0 <= i < |lines| ==> !IsEventLine(StripCr(lines[i]))
    ensures EventOfLines(lines).None? <==>
            forall i :: 0 <= i < |lines| ==> !IsDataLine(StripCr(lines[i])) && !IsEventLine(StripCr(lines[i]))
  {
    hide StripCr, IsDataLine, IsEventLine, EventName, DataText, DataTexts, LastName;
    if lines == [] {
      NoLines();
    } else {
      var n := |lines| - 1;
      DeliversNothingExactly(lines[..n]);
      OneMoreLine(lines[..n], lines[n]);
      assert lines == lines[..n] + [lines[n]];
    }
  }

  /** The name is that of the last event line. */
  lemma {:induction false} LastNameWins(lines: seq<string>, i: nat)
    requires i < |lines| && IsEventLine(StripCr(lines[i]))
    requires forall j :: i < j < |lines| ==> !IsEventLine(StripCr(lines[j]))
    ensures EventOfLines(lines).Some? && EventOfLines(lines).value.event == Some(Trim(StripCr(lines[i])[6..]))
  {
    hide StripCr, Trim, DataTexts;
    if i < |lines| - 1 {
      LastNameWins(lines[..|lines| - 1], i);
    }
  }

  // ---------------------------------------------------------------- encoding

  function DataLines(pieces: seq<string>): (lines: seq<string>)
    ensures |lines| == |pieces|
    ensures forall i :: 0 <= i < |pieces| ==> lines[i] == "data: " + pieces[i]
  {
    seq(|pieces|, i requires 0 <= i < |pieces| => "data: " + pieces[i])
  }

  function EncodedLines(e: SseEvent): seq<string> {
    NameLines(e) + DataLines(Split(e.data))
  }

  function Encode(e: SseEvent): string {
    Unlines(EncodedLines(e)) + "\n"
  }

  predicate NameOk(e: SseEvent) {
    e.event.Some? ==> IsTrimmed(e.event.value) && OneLine(e.event.value)
  }

  /** No line of the data ends in a carriage return. */
  predicate NoTrailingCr(e: SseEvent) {
    forall i :: 0 <= i < |Split(e.data)| ==> StripCr(Split(e.data)[i]) == Split(e.data)[i]
  }

  lemma FirstBlankIs(s: string, n: nat)
    requires BlankAt(s, n) && forall i :: 0 <= i < n ==> !BlankAt(s, i)
    ensures FirstBlank(s) == n
  {
  }

  lemma BlankAfterLine(line: string, rest: string)
    requires line != [] && OneLine(line)
    ensures FirstBlank(line + "\n\n" + rest) == |line|
  {
    var s := line + "\n\n" + rest;
    assert BlankAt(s, |line|);
    assert forall i :: 0 <= i < |line| ==> s[i] == line[i];
    FirstBlankIs(s, |line|);
  }

  lemma BlankPastLine(line: string, t: string)
    requires line != [] && OneLine(line) && t != [] && t[0] != '\n' && FirstBlank(t) < |t|
    ensures FirstBlank(line + "\n" + t) == |line| + 1 + FirstBlank(t)
  {
    hide FirstBlank;
    var s := line + "\n" + t;
    var n := |line| + 1 + FirstBlank(t);
    assert BlankAt(s, n);
    forall i | 0 <= i < n
      ensures !BlankAt(s, i)
    {
      if i < |line| {
        assert s[i] == line[i];
      } else if i > |line| {
        assert BlankAt(s, i) == BlankAt(t, i - |line| - 1);
      }
    }
    FirstBlankIs(s, n);
  }

  lemma {:induction false} FirstBlankOfLines(lines: seq<string>, rest: string)
    requires lines != [] && forall i :: 0 <= i < |lines| ==> lines[i] != [] && OneLine(lines[i])
    ensures Unlines(lines) != []
    ensures FirstBlank(Unlines(lines) + "\n" + rest) == |Unlines(lines)| - 1
  {
    hide FirstBlank;
    if |lines| == 1 {
      BlankAfterLine(lines[0], rest);
      assert Unlines(lines) + "\n" + rest == lines[0] + "\n\n" + rest;
    } else {
      var t := Unlines(lines[1..]) + "\n" + rest;
      FirstBlankOfLines(lines[1..], rest);
      assert t[0] == lines[1..][0][0];
      BlankPastLine(lines[0], t);
      assert Unlines(lines) + "\n" + rest == lines[0] + "\n" + t;
    }
  }

  lemma StripBehind(head: string, s: string)
    requires head != [] && head[|head| - 1] != '\r'
    ensures StripCr(head + s) == head + StripCr(s)
  {
    if s != [] && s[|s| - 1] == '\r' {
      assert (head + s)[..|head + s| - 1] == head + s[..|s| - 1];
    } else {
      assert s == [] ==> head + s == head;
    }
  }

  lemma EncodedDataLine(piece: string)
    ensures var line := StripCr(StripCr("data: " + piece));
            IsDataLine(line) && DataText(line) == StripCr(StripCr(piece))
  {
    hide StripCr;
    var p := StripCr(StripCr(piece));
    StripBehind("data: ", piece);
    StripBehind("data: ", StripCr(piece));
    var line := "data: " + p;
    assert line[0] == 'd' && "data:" <= line && line[5..] == " " + p && line[6..] == p;
  }

  lemma {:induction false} DataOfDataLines(lines: seq<string>, pieces: seq<string>)
    requires DataTexts(lines) == []
    ensures DataTexts(lines + StripAll(DataLines(pieces))) == StripAll(StripAll(pieces))
    ensures LastName(lines + StripAll(DataLines(pieces))) == LastName(lines)
  {
    hide DataTexts, LastName, StripCr;
    if pieces == [] {
      assert lines + StripAll(DataLines(pieces)) == lines;
    } else {
      var n := |pieces| - 1;
      var front := lines + StripAll(DataLines(pieces[..n]));
      var line := StripCr("data: " + pieces[n]);
      DataOfDataLines(lines, pieces[..n]);
      EncodedDataLine(pieces[n]);
      OneMoreLine(front, line);
      assert lines + StripAll(DataLines(pieces)) == front + [line];
      assert StripAll(StripAll(pieces)) == StripAll(StripAll(pieces[..n])) + [StripCr(StripCr(pieces[n]))];
    }
  }

  /** What parsing an encoded event yields: the event with up to two carriage returns taken off the
      end of each data line. */
  lemma DrainEncode(e: SseEvent, rest: string)
    requires NameOk(e)
    ensures Drain(Encode(e) + rest)
            == ([SseEvent(e.event, Join(StripAll(StripAll(Split(e.data)))))] + Drain(rest).0, Drain(rest).1)
  {
    hide Drain, BlockEvents, FirstBlank, Unlines, EncodedLines;
    var lines, s := EncodedLines(e), Encode(e) + rest;
    LinesNotBlank(e);
    assert s == Unlines(lines) + "\n" + rest;
    FirstBlankOfLines(lines, rest);
    DrainStep(s);
    var n := |Unlines(lines)| - 1;
    assert s[..n + 2] == Encode(e) && s[n + 2..] == rest;
    EncodedBlock(e);
  }

  lemma LinesNotBlank(e: SseEvent)
    requires NameOk(e)
    ensures EncodedLines(e) != []
    ensures forall i :: 0 <= i < |EncodedLines(e)| ==> EncodedLines(e)[i] != [] && OneLine(EncodedLines(e)[i])
  {
    JoinSplit(e.data);
  }

  function NameLines(e: SseEvent): seq<string> {
    if e.event.Some? then ["event: " + e.event.value] else []
  }

  lemma EncodedBlock(e: SseEvent)
    requires NameOk(e)
    ensures BlockEvents(Encode(e)) == [SseEvent(e.event, Join(StripAll(StripAll(Split(e.data)))))]
  {
    hide DataTexts, LastName, StripCr, Unlines;
    var first, pieces := NameLines(e), Split(e.data);
    EncodedBlockLines(e);
    NameLine(e);
    DataOfDataLines(StripAll(first), pieces);
    OneMoreLine(StripAll(first) + StripAll(DataLines(pieces)), "");
    EmptyLine();
    assert DataTexts(Lines(Encode(e))) == StripAll(StripAll(pieces));
    assert |StripAll(StripAll(pieces))| > 0;
  }

  lemma EmptyLine()
    ensures StripCr("") == "" && !IsDataLine("") && !IsEventLine("")
    ensures Lines("\n") == [""]
  {
    assert LineEnd("\n") == 0;
    assert "\n"[1..] == "" && "\n"[..0] == "";
  }

  lemma EncodedBlockLines(e: SseEvent)
    requires NameOk(e)
    ensures Lines(Encode(e)) == StripAll(NameLines(e)) + StripAll(DataLines(Split(e.data))) + [""]
  {
    hide StripCr, Lines, Unlines;
    var lines := EncodedLines(e);
    JoinSplit(e.data);
    LinesOfUnlines(lines, "\n");
    EmptyLine();
    assert StripAll(lines) == StripAll(NameLines(e)) + StripAll(DataLines(Split(e.data)));
  }

  lemma NameLine(e: SseEvent)
    requires NameOk(e)
    ensures LastName(StripAll(NameLines(e))) == e.event
    ensures DataTexts(StripAll(NameLines(e))) == []
  {
    if e.event.Some? {
      var name := e.event.value;
      var line := "event: " + name;
      assert IsWhitespace('\r');
      assert line[|line| - 1] != '\r';
      assert StripCr(StripCr(line)) == line;
      assert IsEventLine(line) && line[6..] == " " + name;
      TrimOfTrimmed(name);
      assert StripAll(NameLines(e)) == [] + [line];
      OneMoreLine([], line);
    }
  }

  lemma {:induction false} LastNameOk(lines: seq<string>)
    requires forall i :: 0 <= i < |lines| ==> OneLine(lines[i])
    ensures LastName(lines).Some? ==> IsTrimmed(LastName(lines).value) && OneLine(LastName(lines).value)
  {
    hide IsTrimmed, OneLine, Trim, StripCr;
    if lines != [] {
      var n := |lines| - 1;
      var line := StripCr(lines[n]);
      StripCrOneLine(lines[n]);
      if IsEventLine(line) {
        RestOneLine(line, 6);
        TrimTrims(line[6..]);
      } else {
        LastNameOk(lines[..n]);
      }
    }
  }

  lemma RestOneLine(line: string, n: nat)
    requires OneLine(line) && n <= |line|
    ensures OneLine(line[n..])
  {
  }

  /** The parser only ever delivers names that are trimmed and on one line. */
  lemma {:induction false} DrainedNamesOk(s: string)
    ensures forall i :: 0 <= i < |Drain(s).0| ==> NameOk(Drain(s).0[i])
    decreases |s|
  {
    hide Drain, FirstBlank, BlockEvents, NameOk;
    DrainStep(s);
    if FirstBlank(s) < |s| {
      BlockNameOk(s[..FirstBlank(s) + 2]);
      DrainedNamesOk(s[FirstBlank(s) + 2..]);
    }
  }

  lemma BlockNameOk(block: string)
    ensures forall i :: 0 <= i < |BlockEvents(block)| ==> NameOk(BlockEvents(block)[i])
  {
    hide Lines, LastName, DataTexts, IsTrimmed, OneLine;
    LinesAreOneLine(block);
    LastNameOk(Lines(block));
  }

  /** An encoded event parses back to itself exactly when its name is trimmed and on one line and no line
      of its data ends in a carriage return; whatever text follows is not disturbed. */
  lemma RoundTripExactly(e: SseEvent, rest: string)
    ensures Drain(Encode(e) + rest) == ([e] + Drain(rest).0, Drain(rest).1) <==> NameOk(e) && NoTrailingCr(e)
  {
    hide Drain, Encode, NameOk, NoTrailingCr;
    if NameOk(e) {
      NamedRoundTrip(e, rest);
    } else {
      DrainedNamesOk(Encode(e) + rest);
      assert |Drain(Encode(e) + rest).0| > 0 ==> Drain(Encode(e) + rest).0[0] != e;
    }
  }

  lemma NamedRoundTrip(e: SseEvent, rest: string)
    requires NameOk(e)
    ensures Drain(Encode(e) + rest) == ([e] + Drain(rest).0, Drain(rest).1) <==> NoTrailingCr(e)
  {
    hide Drain, Encode, Split, Join, NameOk;
    var pieces := Split(e.data);
    var stripped := StripAll(StripAll(pieces));
    JoinSplit(e.data);
    DrainEncode(e, rest);
    if NoTrailingCr(e) {
      assert stripped == pieces;
    }
    if Drain(Encode(e) + rest).0 == [e] + Drain(rest).0 {
      assert ([SseEvent(e.event, Join(stripped))] + Drain(rest).0)[0] == ([e] + Drain(rest).0)[0];
      JoinInjective(stripped, pieces);
      forall i | 0 <= i < |pieces|
        ensures StripCr(pieces[i]) == pieces[i]
      {
        assert |stripped[i]| == |pieces[i]|;
      }
    }
  }
}
