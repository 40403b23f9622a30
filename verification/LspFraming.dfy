/** Content-Length framing, as in the Base Protocol section of the Language Server Protocol 3.17
    specification. A byte is a character below 256; header lines must be ASCII here. */
module LspFraming {
  import opened Wrappers
  import opened Text
  import Decimal

  datatype Failure = EndOfInput | NotText | BadLength | ShortBody | BadJson

  /** One more than the largest length the reader can hold. */
  const LENGTH_LIMIT := 0x1_0000_0000_0000_0000

  function WriteMsg(body: string): string {
    "Content-Length: " + Decimal.Print(|body|) + "\r\n\r\n" + body
  }

  function WriteAll(bodies: seq<string>): string {
    if bodies == [] then "" else WriteMsg(bodies[0]) + WriteAll(bodies[1..])
  }

  // ---------------------------------------------------------------- reading

  predicate IsAscii(s: string) {
    forall i :: 0 <= i < |s| ==> (s[i] as int) < 128
  }

  /** One line with its line feed, or all that is left. */
  function LineLength(s: string): (n: nat)
    ensures n <= |s| && (s != "" ==> n > 0)
  {
    if LineEnd(s) < |s| then LineEnd(s) + 1 else |s|
  }

  function ParseLength(s: string): Option<nat> {
    var digits := if s != "" && s[0] == '+' then s[1..] else s;
    if digits == "" || !Decimal.AllDigits(digits) || Decimal.Value(digits) >= LENGTH_LIMIT then None
    else Some(Decimal.Value(digits))
  }

  datatype Step = EndOfHeader | Continue(length: nat) | Refused

  /** What one header line does to the length read so far. */
  function HeaderStep(line: string, length: nat): Step {
    var t := TrimEnd(line);
    if t == "" then EndOfHeader
    else if "Content-Length:" <= t then
      var n := ParseLength(Trim(t[15..]));
      if n.Some? then Continue(n.value) else Refused
    else Continue(length)
  }

  /** The length announced by a header, and what follows the header. */
  function Header(s: string, length: nat): (r: Result<(nat, string), Failure>)
    ensures r.Ok? ==> |r.value.1| < |s| && s[|s| - |r.value.1|..] == r.value.1
    decreases |s|
  {
    if s == "" then Err(EndOfInput)
    else
      var n := LineLength(s);
      if !IsAscii(s[..n]) then Err(NotText)
      else
        var step := HeaderStep(s[..n], length);
        if step.EndOfHeader? then Ok((length, s[n..]))
        else if step.Refused? then Err(BadLength)
        else Header(s[n..], step.length)
  }

  /** One message body and what follows it. */
  function Read(s: string): (r: Result<(string, string), Failure>)
    ensures r.Ok? ==> |r.value.0| + |r.value.1| < |s|
    ensures r.Ok? ==> s[|s| - |r.value.0| - |r.value.1|..] == r.value.0 + r.value.1
  {
    var h := Header(s, 0);
    if h.Err? then Err(h.error)
    else
      var (n, rest) := h.value;
      if |rest| < n then Err(ShortBody)
      else
        assert rest[..n] + rest[n..] == rest;
        Ok((rest[..n], rest[n..]))
  }

  /** Every body that can be read, one after another, and what is left when reading fails. */
  function ReadAll(s: string): (seq<string>, string)
    decreases |s|
  {
    var r := Read(s);
    if r.Err? then ([], s)
    else
      var (bodies, left) := ReadAll(r.value.1);
      ([r.value.0] + bodies, left)
  }

  // ---------------------------------------------------------------- round trip

  lemma HeaderLine(line: string, tail: string, length: nat)
    requires OneLine(line) && IsAscii(line)
    ensures var s, step := line + "\n" + tail, HeaderStep(line + "\n", length);
            Header(s, length) == if step.EndOfHeader? then Ok((length, tail))
                                 else if step.Refused? then Err(BadLength)
                                 else Header(tail, step.length)
  {
    var s := line + "\n" + tail;
    LineEndOf(line, tail);
    assert s[..|line| + 1] == line + "\n" && s[|line| + 1..] == tail;
  }

  lemma DigitsAreText(s: string)
    requires Decimal.AllDigits(s)
    ensures OneLine(s) && IsAscii(s) && IsTrimmed(s)
  {
    assert forall i :: 0 <= i < |s| ==> Decimal.IsDigit(s[i]);
  }

  lemma LengthLine(n: nat, length: nat)
    requires n < LENGTH_LIMIT
    ensures OneLine("Content-Length: " + Decimal.Print(n) + "\r")
    ensures IsAscii("Content-Length: " + Decimal.Print(n) + "\r")
    ensures HeaderStep("Content-Length: " + Decimal.Print(n) + "\r\n", length) == Continue(n)
  {
    hide TrimEnd, Trim, ParseLength, IsAscii, OneLine;
    var p := Decimal.Print(n);
    var t := "Content-Length: " + p;
    LengthLineIsText(n);
    DigitsAreText(p);
    assert Decimal.IsDigit(p[|p| - 1]) && t[|t| - 1] == p[|p| - 1];
    TrimLineEnd(t);
    assert t[..15] == "Content-Length:" && t[15..] == " " + p;
    TrimOfTrimmed(p);
    PrintedLength(n);
  }

  lemma TrimLineEnd(t: string)
    requires t != "" && !IsWhitespace(t[|t| - 1])
    ensures TrimEnd(t + "\r\n") == t
  {
    assert (t + "\r\n")[..|t| + 1] == t + "\r" && (t + "\r")[..|t|] == t;
    assert TrimEnd(t + "\r\n") == TrimEnd(t + "\r") == TrimEnd(t);
  }

  lemma PrintedLength(n: nat)
    requires n < LENGTH_LIMIT
    ensures ParseLength(Decimal.Print(n)) == Some(n)
  {
    Decimal.ValueOfPrint(n);
    assert Decimal.IsDigit(Decimal.Print(n)[0]);
  }

  lemma LengthLineIsText(n: nat)
    ensures OneLine("Content-Length: " + Decimal.Print(n) + "\r")
    ensures IsAscii("Content-Length: " + Decimal.Print(n) + "\r")
  {
    DigitsAreText(Decimal.Print(n));
  }

  /** A written message is read back, and not one byte more is consumed. */
  lemma MessageRoundTrip(body: string, rest: string)
    requires |body| < LENGTH_LIMIT
    ensures Read(WriteMsg(body) + rest) == Ok((body, rest))
  {
    hide Header, HeaderStep;
    var line := "Content-Length: " + Decimal.Print(|body|) + "\r";
    LengthLine(|body|, 0);
    HeaderLine(line, "\r\n" + body + rest, 0);
    assert line + "\n" == "Content-Length: " + Decimal.Print(|body|) + "\r\n";
    assert WriteMsg(body) + rest == line + "\n" + ("\r\n" + body + rest);
    BlankLine(body + rest, |body|);
    assert "\r\n" + body + rest == "\r\n" + (body + rest);
    assert (body + rest)[..|body|] == body && (body + rest)[|body|..] == rest;
  }

  lemma BlankLine(tail: string, length: nat)
    ensures Header("\r\n" + tail, length) == Ok((length, tail))
  {
    assert "\r\n"[..1] == "\r" && "\r"[..0] == "";
    assert TrimEnd("\r\n") == TrimEnd("\r") == "";
    HeaderLine("\r", tail, length);
    assert "\r" + "\n" + tail == "\r\n" + tail;
  }

  /** Any list of bodies, written one after another, is read back, and exactly its bytes are
      consumed. */
  lemma {:induction false} FramingRoundTrip(bodies: seq<string>)
    requires forall i :: 0 <= i < |bodies| ==> |bodies[i]| < LENGTH_LIMIT
    ensures ReadAll(WriteAll(bodies)) == (bodies, "")
  {
    if bodies == [] {
      assert Read("").Err?;
    } else {
      hide Read, WriteMsg;
      FramingRoundTrip(bodies[1..]);
      MessageRoundTrip(bodies[0], WriteAll(bodies[1..]));
      assert bodies == [bodies[0]] + bodies[1..];
    }
  }

  /** Hence two lists of bodies that write the same bytes are the same list. */
  lemma FramingInjective(a: seq<string>, b: seq<string>)
    requires forall i :: 0 <= i < |a| ==> |a[i]| < LENGTH_LIMIT
    requires forall i :: 0 <= i < |b| ==> |b[i]| < LENGTH_LIMIT
    requires WriteAll(a) == WriteAll(b)
    ensures a == b
  {
    FramingRoundTrip(a);
    FramingRoundTrip(b);
  }

  /** Header lines of other names in front of the length change nothing. */
  lemma OtherHeaderSkipped(line: string, tail: string)
    requires OneLine(line) && IsAscii(line)
    requires TrimEnd(line + "\n") != "" && !("Content-Length:" <= TrimEnd(line + "\n"))
    ensures Read(line + "\n" + tail) == Read(tail)
  {
    HeaderLine(line, tail, 0);
  }

  // ---------------------------------------------------------------- a message cut short

  lemma UnendedHeader(s: string, length: nat)
    requires OneLine(s) && TrimEnd(s) != ""
    ensures Header(s, length).Err?
  {
    assert s != "";
    assert LineEnd(s) == |s|;
    assert s[..|s|] == s && s[|s|..] == "";
  }

  lemma {:induction false} TrimEndKeepsHead(s: string)
    requires s != "" && !IsWhitespace(s[0])
    ensures TrimEnd(s) != ""
  {
    if IsWhitespace(s[|s| - 1]) {
      TrimEndKeepsHead(s[..|s| - 1]);
    }
  }

  /** A message cut short is not taken for a message, with one exception: the last line feed of an
      empty one is not missed. */
  lemma CutMessage(body: string, k: nat)
    requires |body| < LENGTH_LIMIT && k < |WriteMsg(body)|
    ensures Read(WriteMsg(body)[..k]).Ok? <==> body == "" && k == |WriteMsg(body)| - 1
  {
    hide Header, HeaderStep;
    var line := "Content-Length: " + Decimal.Print(|body|) + "\r";
    var s := WriteMsg(body)[..k];
    LengthLine(|body|, 0);
    assert line + "\n" == "Content-Length: " + Decimal.Print(|body|) + "\r\n";
    assert WriteMsg(body) == line + "\n" + ("\r\n" + body);
    if k <= |line| {
      assert s == line[..k];
      CutInLine(line, k);
    } else {
      var j := k - |line| - 1;
      var tail := ("\r\n" + body)[..j];
      assert s == line + "\n" + tail;
      HeaderLine(line, tail, 0);
      CutAfterLine(body, j);
    }
  }

  lemma CutInLine(line: string, k: nat)
    requires OneLine(line) && line != "" && line[0] == 'C' && k <= |line|
    ensures Header(line[..k], 0).Err?
  {
    if k > 0 {
      TrimEndKeepsHead(line[..k]);
      UnendedHeader(line[..k], 0);
    }
  }

  lemma CutAfterLine(body: string, j: nat)
    requires j < |body| + 2
    ensures var h := Header(("\r\n" + body)[..j], |body|);
            h.Ok? && |h.value.1| >= h.value.0 <==> body == "" && j == 1
  {
    var tail := ("\r\n" + body)[..j];
    if j == 1 {
      assert tail == "\r" && LineEnd(tail) == 1;
      assert tail[..1] == "\r" && tail[1..] == "";
      assert TrimEnd("\r") == "" by { assert "\r"[..0] == ""; }
      assert HeaderStep("\r", |body|).EndOfHeader?;
    } else if j >= 2 {
      assert tail == "\r\n" + body[..j - 2];
      BlankLine(body[..j - 2], |body|);
    }
  }

  // ---------------------------------------------------------------- the reader as it runs

  lemma HeaderUnfold(s: string, length: nat)
    ensures s == "" ==> Header(s, length) == Err(EndOfInput)
    ensures s != "" ==>
              var n := LineLength(s);
              var step := HeaderStep(s[..n], length);
              Header(s, length) == if !IsAscii(s[..n]) then Err(NotText)
                                   else if step.EndOfHeader? then Ok((length, s[n..]))
                                   else if step.Refused? then Err(BadLength)
                                   else Header(s[n..], step.length)
  {
    hide HeaderStep, IsAscii, LineLength;
  }

  lemma ReadFromHeader(s: string)
    ensures var h := Header(s, 0);
            Read(s) == if h.Err? then Err(h.error)
                       else if |h.value.1| < h.value.0 then Err(ShortBody)
                       else Ok((h.value.1[..h.value.0], h.value.1[h.value.0..]))
  {
    hide Header;
  }

  predicate EndsIn(all: string, rest: string) {
    |rest| <= |all| && all[|all| - |rest|..] == rest
  }

  lemma EndsInItself(all: string)
    ensures EndsIn(all, all)
  {
  }

  lemma EndsInTail(all: string, rest: string, n: nat)
    requires EndsIn(all, rest) && n <= |rest|
    ensures EndsIn(all, rest[n..])
  {
    var k := |all| - |rest|;
    assert all[k..][n..] == all[k + n..];
  }

  class Pipe {
    var rest: string

    constructor (text: string)
      ensures rest == text
    {
      rest := text;
    }

    /** Line by line up to a blank line, then the body. What is left after a failure is some part of
        the input. */
    method ReadMsg() returns (r: Result<string, Failure>)
      modifies this
      ensures Read(old(rest)).Ok? ==> r == Ok(Read(old(rest)).value.0) && rest == Read(old(rest)).value.1
      ensures Read(old(rest)).Err? ==> r == Err(Read(old(rest)).error)
      ensures EndsIn(old(rest), rest)
    {
      hide Header, Read, TrimEnd, Trim, IsAscii, ParseLength, LineLength, EndsIn;
      ghost var all := rest;
      ReadFromHeader(all);
      EndsInItself(all);
      var length: nat := 0;
      while true
        invariant Header(rest, length) == Header(all, 0)
        invariant EndsIn(all, rest)
        decreases |rest|
      {
        HeaderUnfold(rest, length);
        if rest == "" {
          return Err(EndOfInput);
        }
        var line := rest[..LineLength(rest)];
        EndsInTail(all, rest, |line|);
        rest := rest[|line|..];
        if !IsAscii(line) {
          return Err(NotText);
        }
        var t := TrimEnd(line);
        if t == "" {
          break;
        }
        if "Content-Length:" <= t {
          var n := ParseLength(Trim(t[15..]));
          if n.None? {
            return Err(BadLength);
          }
          length := n.value;
        }
      }
      if |rest| < length {
        return Err(ShortBody);
      }
      EndsInTail(all, rest, length);
      r := Ok(rest[..length]);
      rest := rest[length..];
    }
  }
}
