/** A parser that undoes the canonical printer, and the injectivity theorem it yields.

    String escapes follow section 7 of RFC 8259; of the \u forms only those the printer emits
    (two leading zeros) are read back. A number is the longest run of number characters. */
module JsonParser {
  import opened Json
  import opened Canonical
  import Decimal

  datatype Parsed<+T> = Fail | Got(value: T, rest: string)

  // ---------------------------------------------------------------- the parser

  predicate IsHexDigit(c: char) {
    '0' <= c <= '9' || 'a' <= c <= 'f'
  }

  function HexValue(c: char): (d: nat)
    requires IsHexDigit(c)
    ensures d < 16
  {
    if c <= '9' then c as int - 48 else c as int - 87
  }

  /** The character after a backslash (and what follows a `u`). */
  function ParseEscape(s: string): (r: Parsed<char>)
    ensures r.Got? ==> |r.rest| < |s|
  {
    if s == [] then Fail
    else if s[0] == '\"' || s[0] == '\\' then Got(s[0], s[1..])
    else if s[0] == 'n' then Got('\n', s[1..])
    else if s[0] == 'r' then Got('\r', s[1..])
    else if s[0] == 't' then Got('\t', s[1..])
    else if s[0] == 'b' then Got(8 as char, s[1..])
    else if s[0] == 'f' then Got(12 as char, s[1..])
    else if |s| >= 5 && s[0] == 'u' && s[1] == '0' && s[2] == '0' && IsHexDigit(s[3]) && IsHexDigit(s[4]) then
      Got((16 * HexValue(s[3]) + HexValue(s[4])) as char, s[5..])
    else Fail
  }

  /** The characters of a string literal up to its closing quote. */
  function ParseChars(s: string): (r: Parsed<string>)
    ensures r.Got? ==> |r.rest| < |s|
    decreases |s|
  {
    if s == [] then Fail
    else if s[0] == '\"' then Got("", s[1..])
    else if s[0] == '\\' then
      match ParseEscape(s[1..])
      case Fail => Fail
      case Got(c, rest) =>
        match ParseChars(rest)
        case Fail => Fail
        case Got(cs, rest') => Got([c] + cs, rest')
    else
      match ParseChars(s[1..])
      case Fail => Fail
      case Got(cs, rest) => Got([s[0]] + cs, rest)
  }

  function ParseString(s: string): (r: Parsed<string>)
    ensures r.Got? ==> |r.rest| < |s|
  {
    if s != [] && s[0] == '\"' then ParseChars(s[1..]) else Fail
  }

  function NumberLength(s: string): (n: nat)
    ensures n <= |s|
  {
    if s == [] || !IsNumberChar(s[0]) then 0 else 1 + NumberLength(s[1..])
  }

  function ParseNumber(s: string): (r: Parsed<Json>)
    ensures r.Got? ==> |r.rest| < |s|
  {
    var n := NumberLength(s);
    if IsFloatToken(s[..n]) then Got(Float(s[..n]), s[n..])
    else if Decimal.IsIntToken(s[..n]) then Got(Int(Decimal.ParseInt(s[..n])), s[n..])
    else Fail
  }

  function ParseValue(s: string): (r: Parsed<Json>)
    ensures r.Got? ==> |r.rest| < |s|
    decreases |s|, 0
  {
    if s == [] then Fail
    else if s[0] == '{' then
      if |s| > 1 && s[1] == '}' then Got(Obj([]), s[2..])
      else
        match ParseMembers(s[1..])
        case Fail => Fail
        case Got(ms, rest) => Got(Obj(ms), rest)
    else if s[0] == '[' then
      if |s| > 1 && s[1] == ']' then Got(Arr([]), s[2..])
      else
        match ParseItems(s[1..])
        case Fail => Fail
        case Got(items, rest) => Got(Arr(items), rest)
    else if s[0] == '\"' then
      match ParseString(s)
      case Fail => Fail
      case Got(cs, rest) => Got(Str(cs), rest)
    else if "null" <= s then Got(Null, s[4..])
    else if "true" <= s then Got(Bool(true), s[4..])
    else if "false" <= s then Got(Bool(false), s[5..])
    else ParseNumber(s)
  }

  /** One or more values separated by commas, closed by a bracket. */
  function ParseItems(s: string): (r: Parsed<seq<Json>>)
    ensures r.Got? ==> |r.rest| < |s|
    decreases |s|, 1
  {
    match ParseValue(s)
    case Fail => Fail
    case Got(v, rest) =>
      if rest == [] then Fail
      else if rest[0] == ']' then Got([v], rest[1..])
      else if rest[0] == ',' then
        match ParseItems(rest[1..])
        case Fail => Fail
        case Got(vs, rest') => Got([v] + vs, rest')
      else Fail
  }

  function ParseMember(s: string): (r: Parsed<Member>)
    ensures r.Got? ==> |r.rest| < |s|
    decreases |s|, 1
  {
    match ParseString(s)
    case Fail => Fail
    case Got(key, rest) =>
      if rest == [] || rest[0] != ':' then Fail
      else
        match ParseValue(rest[1..])
        case Fail => Fail
        case Got(v, rest') => Got(Member(key, v), rest')
  }

  function ParseMembers(s: string): (r: Parsed<seq<Member>>)
    ensures r.Got? ==> |r.rest| < |s|
    decreases |s|, 2
  {
    match ParseMember(s)
    case Fail => Fail
    case Got(m, rest) =>
      if rest == [] then Fail
      else if rest[0] == '}' then Got([m], rest[1..])
      else if rest[0] == ',' then
        match ParseMembers(rest[1..])
        case Fail => Fail
        case Got(ms, rest') => Got([m] + ms, rest')
      else Fail
  }

  // ---------------------------------------------------------------- strings round trip

  lemma HexRoundTrip(d: nat)
    requires d < 16
    ensures IsHexDigit(HexDigit(d)) && HexValue(HexDigit(d)) == d
  {
  }

  lemma ParseEscapeChar(c: char, rest: string)
    requires EscapeChar(c) != [c]
    ensures EscapeChar(c)[0] == '\\'
    ensures ParseEscape(EscapeChar(c)[1..] + rest) == Got(c, rest)
  {
    var e := EscapeChar(c);
    var s := e[1..] + rest;
    if |e| == 2 {
      assert s[0] == e[1] && s[1..] == rest;
    } else {
      HexRoundTrip(c as int / 16);
      HexRoundTrip(c as int % 16);
      assert s[0] == 'u' && s[1] == '0' && s[2] == '0' && s[5..] == rest;
      assert s[3] == HexDigit(c as int / 16) && s[4] == HexDigit(c as int % 16);
    }
  }

  lemma {:induction false} ParseCharsOfEscape(t: string, rest: string)
    ensures ParseChars(Escape(t) + "\"" + rest) == Got(t, rest)
  {
    hide ParseChars, EscapeChar;
    var s := Escape(t) + "\"" + rest;
    if t == [] {
      ParseNoChar(rest);
      assert s == "\"" + rest;
    } else {
      var tail := Escape(t[1..]) + "\"" + rest;
      ParseCharsOfEscape(t[1..], rest);
      assert s == EscapeChar(t[0]) + tail;
      ParseOneChar(t[0], tail, t[1..], rest);
      assert t == [t[0]] + t[1..];
    }
  }

  lemma ParseNoChar(rest: string)
    ensures ParseChars("\"" + rest) == Got("", rest)
  {
    assert ("\"" + rest)[1..] == rest;
  }

  lemma ParseOneChar(c: char, tail: string, cs: string, rest: string)
    requires ParseChars(tail) == Got(cs, rest)
    ensures ParseChars(EscapeChar(c) + tail) == Got([c] + cs, rest)
  {
    var s := EscapeChar(c) + tail;
    if EscapeChar(c) == [c] {
      assert s[0] == c && s[1..] == tail;
    } else {
      ParseEscapeChar(c, tail);
      assert s[1..] == EscapeChar(c)[1..] + tail;
    }
  }

  lemma ParseStringOfQuote(t: string, rest: string)
    ensures ParseString(Quote(t) + rest) == Got(t, rest)
  {
    hide ParseChars, Escape;
    ParseCharsOfEscape(t, rest);
    var s := Quote(t) + rest;
    assert s == "\"" + (Escape(t) + "\"" + rest);
    assert s[0] == '\"' && s[1..] == Escape(t) + "\"" + rest;
  }

  // ---------------------------------------------------------------- numbers round trip

  /** Nothing that could extend a number follows. */
  predicate Delimited(rest: string) {
    rest == [] || !IsNumberChar(rest[0])
  }

  lemma {:induction false} NumberLengthOfToken(t: string, rest: string)
    requires forall i :: 0 <= i < |t| ==> IsNumberChar(t[i])
    requires Delimited(rest)
    ensures NumberLength(t + rest) == |t|
  {
    if t == [] {
      assert t + rest == rest;
    } else {
      NumberLengthOfToken(t[1..], rest);
      assert (t + rest)[1..] == t[1..] + rest;
    }
  }

  lemma IntTokenIsNumber(t: string)
    requires Decimal.IsIntToken(t)
    ensures forall i :: 0 <= i < |t| ==> IsNumberChar(t[i]) && !IsFractionMark(t[i])
  {
    forall i | 0 <= i < |t|
      ensures IsNumberChar(t[i]) && !IsFractionMark(t[i])
    {
      if t[0] == '-' && i > 0 {
        assert Decimal.IsDigit(t[1..][i - 1]);
      }
    }
  }

  lemma ParseNumberRoundTrip(v: Json, rest: string)
    requires v.Int? || v.Float?
    requires Delimited(rest)
    ensures ParseNumber(Print(v) + rest) == Got(v, rest)
  {
    var t := Print(v);
    if v.Int? {
      Decimal.ParseIntOfPrintInt(v.n);
      IntTokenIsNumber(t);
    }
    NumberLengthOfToken(t, rest);
    assert (t + rest)[..|t|] == t && (t + rest)[|t|..] == rest;
  }

  // ---------------------------------------------------------------- values round trip

  /** How a printed value starts decides which branch the parser takes. */
  lemma FirstChar(v: Json)
    ensures Print(v) != []
    ensures (v.Int? || v.Float?) ==> '0' <= Print(v)[0] <= '9' || Print(v)[0] == '-'
    ensures Print(v)[0] != ']' && Print(v)[0] != '}'
  {
    if v.Int? {
      Decimal.ParseIntOfPrintInt(v.n);
    }
  }

  lemma NumberBranch(s: string)
    requires s != [] && ('0' <= s[0] <= '9' || s[0] == '-')
    ensures ParseValue(s) == ParseNumber(s)
  {
  }

  lemma ObjectBranch(s: string, ms: seq<Member>, rest: string)
    requires s != [] && s[0] != '}' && ParseMembers(s) == Got(ms, rest)
    ensures ParseValue("{" + s) == Got(Obj(ms), rest)
  {
    assert ("{" + s)[1..] == s;
  }

  lemma ArrayBranch(s: string, items: seq<Json>, rest: string)
    requires s != [] && s[0] != ']' && ParseItems(s) == Got(items, rest)
    ensures ParseValue("[" + s) == Got(Arr(items), rest)
  {
    assert ("[" + s)[1..] == s;
  }

  lemma StringBranch(t: string, rest: string)
    ensures ParseValue(Quote(t) + rest) == Got(Str(t), rest)
  {
    ParseStringOfQuote(t, rest);
  }

  lemma ConstantBranch(v: Json, rest: string)
    requires v.Null? || v.Bool? || v == Arr([]) || v == Obj([])
    ensures ParseValue(Print(v) + rest) == Got(v, rest)
  {
    var t := Print(v);
    var s := t + rest;
    assert s[..|t|] == t && s[|t|..] == rest;
  }

  lemma ItemsLast(s: string, v: Json, rest: string)
    requires ParseValue(s) == Got(v, "]" + rest)
    ensures ParseItems(s) == Got([v], rest)
  {
    assert ("]" + rest)[1..] == rest;
  }

  lemma ItemsNext(s: string, v: Json, s': string, vs: seq<Json>, rest: string)
    requires ParseValue(s) == Got(v, "," + s') && ParseItems(s') == Got(vs, rest)
    ensures ParseItems(s) == Got([v] + vs, rest)
  {
    assert ("," + s')[1..] == s';
  }

  lemma MembersLast(s: string, m: Member, rest: string)
    requires ParseMember(s) == Got(m, "}" + rest)
    ensures ParseMembers(s) == Got([m], rest)
  {
    assert ("}" + rest)[1..] == rest;
  }

  lemma MembersNext(s: string, m: Member, s': string, ms: seq<Member>, rest: string)
    requires ParseMember(s) == Got(m, "," + s') && ParseMembers(s') == Got(ms, rest)
    ensures ParseMembers(s) == Got([m] + ms, rest)
  {
    assert ("," + s')[1..] == s';
  }

  lemma MemberBranch(key: string, v: Json, s: string, rest: string)
    requires ParseValue(s) == Got(v, rest)
    ensures ParseMember(Quote(key) + (":" + s)) == Got(Member(key, v), rest)
  {
    ParseStringOfQuote(key, ":" + s);
    assert (":" + s)[1..] == s;
  }

  lemma Regroup(a: string, b: string, c: string, d: string)
    ensures (a + b + c) + d == a + (b + (c + d))
  {
  }

  /** The parser gives back every value from its printed form followed by any delimiter. */
  lemma {:induction false} ParsePrint(v: Json, rest: string)
    requires Delimited(rest)
    ensures ParseValue(Print(v) + rest) == Got(v, rest)
    decreases v
  {
    match v
    case Int(_) =>
      FirstChar(v);
      NumberBranch(Print(v) + rest);
      ParseNumberRoundTrip(v, rest);
    case Float(_) =>
      FirstChar(v);
      NumberBranch(Print(v) + rest);
      ParseNumberRoundTrip(v, rest);
    case Str(t) =>
      StringBranch(t, rest);
    case Arr(items) =>
      if items == [] {
        ConstantBranch(v, rest);
      } else {
        ParseItemsPrint(items, rest);
        FirstChar(items[0]);
        var s := PrintItems(items) + ("]" + rest);
        ArrayBranch(s, items, rest);
        Regroup("[", PrintItems(items), "]", rest);
      }
    case Obj(ms) =>
      if ms == [] {
        ConstantBranch(v, rest);
      } else {
        ParseMembersPrint(ms, rest);
        var s := PrintMembers(ms) + ("}" + rest);
        assert s[0] == PrintMember(ms[0])[0] == '\"';
        ObjectBranch(s, ms, rest);
        Regroup("{", PrintMembers(ms), "}", rest);
      }
    case _ =>
      ConstantBranch(v, rest);
  }

  lemma {:induction false} ParseItemsPrint(items: seq<Json>, rest: string)
    requires items != []
    ensures ParseItems(PrintItems(items) + ("]" + rest)) == Got(items, rest)
    decreases items
  {
    var s := PrintItems(items) + ("]" + rest);
    assert items == [items[0]] + items[1..];
    if |items| == 1 {
      ParsePrint(items[0], "]" + rest);
      ItemsLast(s, items[0], rest);
      assert items == [items[0]];
    } else {
      var tail := PrintItems(items[1..]) + ("]" + rest);
      ParsePrint(items[0], "," + tail);
      ParseItemsPrint(items[1..], rest);
      Regroup(Print(items[0]), ",", PrintItems(items[1..]), "]" + rest);
      ItemsNext(s, items[0], tail, items[1..], rest);
    }
  }

  lemma {:induction false} ParseMemberPrint(m: Member, rest: string)
    requires Delimited(rest)
    ensures ParseMember(PrintMember(m) + rest) == Got(m, rest)
    decreases m
  {
    hide ParseMember, ParseValue, Quote, Print, Delimited;
    ParsePrint(m.value, rest);
    MemberBranch(m.key, m.value, Print(m.value) + rest, rest);
    Regroup(Quote(m.key), ":", Print(m.value), rest);
  }

  lemma {:induction false} ParseMembersPrint(ms: seq<Member>, rest: string)
    requires ms != []
    ensures ParseMembers(PrintMembers(ms) + ("}" + rest)) == Got(ms, rest)
    decreases ms
  {
    var s := PrintMembers(ms) + ("}" + rest);
    assert ms == [ms[0]] + ms[1..];
    if |ms| == 1 {
      ParseMemberPrint(ms[0], "}" + rest);
      MembersLast(s, ms[0], rest);
      assert ms == [ms[0]];
    } else {
      var tail := PrintMembers(ms[1..]) + ("}" + rest);
      ParseMemberPrint(ms[0], "," + tail);
      ParseMembersPrint(ms[1..], rest);
      Regroup(PrintMember(ms[0]), ",", PrintMembers(ms[1..]), "}" + rest);
      MembersNext(s, ms[0], tail, ms[1..], rest);
    }
  }

  // ---------------------------------------------------------------- injectivity

  /** Plain printing is injective, order of members included. */
  lemma PrintInjective(v: Json, w: Json)
    requires Print(v) == Print(w)
    ensures v == w
  {
    ParsePrint(v, "");
    ParsePrint(w, "");
    assert Print(v) + "" == Print(v) && Print(w) + "" == Print(w);
  }

  /** Two values have the same canonical text exactly when they are the same value with objects
      read as finite maps. */
  lemma CanonicalInjective(v: Json, w: Json)
    requires WellFormed(v) && WellFormed(w)
    ensures CanonicalJson(v) == CanonicalJson(w) <==> Denote(v) == Denote(w)
  {
    NormalizeCorrect(v);
    NormalizeCorrect(w);
    if CanonicalJson(v) == CanonicalJson(w) {
      PrintInjective(Normalize(v), Normalize(w));
    }
    if Denote(v) == Denote(w) {
      NormalFormUnique(Normalize(v), Normalize(w));
    }
  }

  /** Reading canonical text back gives the value that was written, objects read as maps. */
  lemma ParseCanonical(v: Json, rest: string)
    requires WellFormed(v) && Delimited(rest)
    ensures ParseValue(CanonicalJson(v) + rest) == Got(Normalize(v), rest)
    ensures Denote(Normalize(v)) == Denote(v)
  {
    NormalizeCorrect(v);
    ParsePrint(Normalize(v), rest);
  }
}
