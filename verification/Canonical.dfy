/** Canonical JSON: keys sorted at every level, no spaces.

    `Print` writes a value as it stands, `Normalize` sorts the members of every object, and
    `CanonicalJson` is their composition; `WriteCanonical` is the loop that appends the text to a
    buffer in one pass. */
module Canonical {
  import opened Json
  import opened Order
  import Decimal

  // ---------------------------------------------------------------- strings

  function HexDigit(d: nat): (c: char)
    requires d < 16
  {
    if d < 10 then (48 + d) as char else (87 + d) as char
  }

  /** The escape of one character: the two-character forms where JSON has one, a \u00XX form for
      the other control characters, the character itself otherwise. */
  function EscapeChar(c: char): (s: string)
    ensures s != []
  {
    if c == '\"' then "\\\""
    else if c == '\\' then "\\\\"
    else if c == '\n' then "\\n"
    else if c == '\r' then "\\r"
    else if c == '\t' then "\\t"
    else if c as int == 8 then "\\b"
    else if c as int == 12 then "\\f"
    else if c as int < 32 then "\\u00" + [HexDigit(c as int / 16), HexDigit(c as int % 16)]
    else [c]
  }

  function Escape(s: string): string {
    if s == [] then [] else EscapeChar(s[0]) + Escape(s[1..])
  }

  function Quote(s: string): string {
    "\"" + Escape(s) + "\""
  }

  // ---------------------------------------------------------------- printing

  function Print(v: Json): string
    decreases v
  {
    match v
    case Null => "null"
    case Bool(b) => if b then "true" else "false"
    case Int(n) => Decimal.PrintInt(n)
    case Float(t) => t
    case Str(s) => Quote(s)
    case Arr(items) => "[" + PrintItems(items) + "]"
    case Obj(ms) => "{" + PrintMembers(ms) + "}"
  }

  function PrintItems(items: seq<Json>): string
    decreases items
  {
    if items == [] then ""
    else if |items| == 1 then Print(items[0])
    else Print(items[0]) + "," + PrintItems(items[1..])
  }

  function PrintMember(m: Member): string
    decreases m
  {
    Quote(m.key) + ":" + Print(m.value)
  }

  function PrintMembers(ms: seq<Member>): string
    decreases ms
  {
    if ms == [] then ""
    else if |ms| == 1 then PrintMember(ms[0])
    else PrintMember(ms[0]) + "," + PrintMembers(ms[1..])
  }

  // ---------------------------------------------------------------- sorting

  function Insert(m: Member, ms: seq<Member>): (r: seq<Member>)
    ensures |r| == |ms| + 1
  {
    if ms == [] || !Less(ms[0].key, m.key) then [m] + ms else [ms[0]] + Insert(m, ms[1..])
  }

  function Sort(ms: seq<Member>): (r: seq<Member>)
    ensures |r| == |ms|
  {
    if ms == [] then [] else Insert(ms[0], Sort(ms[1..]))
  }

  function Normalize(v: Json): Json
    decreases v
  {
    match v
    case Arr(items) => Arr(NormalizeItems(items))
    case Obj(ms) => Obj(Sort(NormalizeMembers(ms)))
    case _ => v
  }

  function NormalizeItems(items: seq<Json>): (r: seq<Json>)
    ensures |r| == |items|
    decreases items
  {
    if items == [] then [] else [Normalize(items[0])] + NormalizeItems(items[1..])
  }

  function NormalizeMembers(ms: seq<Member>): (r: seq<Member>)
    ensures |r| == |ms|
    ensures forall i :: 0 <= i < |ms| ==> r[i].key == ms[i].key
    decreases ms
  {
    if ms == [] then []
    else [Member(ms[0].key, Normalize(ms[0].value))] + NormalizeMembers(ms[1..])
  }

  function CanonicalJson(v: Json): string {
    Print(Normalize(v))
  }

  predicate StrictlySorted(ms: seq<Member>) {
    forall i, j :: 0 <= i < j < |ms| ==> Less(ms[i].key, ms[j].key)
  }

  /** Normal form: members strictly sorted by key, at every level. */
  predicate Normal(v: Json) {
    match v
    case Arr(items) => forall i :: 0 <= i < |items| ==> Normal(items[i])
    case Obj(ms) => StrictlySorted(ms) && forall i :: 0 <= i < |ms| ==> Normal(ms[i].value)
    case _ => true
  }

  lemma SortedIsDistinct(ms: seq<Member>)
    requires StrictlySorted(ms)
    ensures Distinct(ms)
  {
    forall i, j | 0 <= i < j < |ms|
      ensures ms[i].key != ms[j].key
    {
      LessTrichotomy(ms[i].key, ms[j].key);
    }
  }

  // ---------------------------------------------------------------- sorting keeps the meaning

  /** Insertion keeps strict order, adds one member and nothing else. */
  lemma {:induction false} InsertSorted(m: Member, ms: seq<Member>)
    requires StrictlySorted(ms)
    requires forall i :: 0 <= i < |ms| ==> ms[i].key != m.key
    ensures StrictlySorted(Insert(m, ms))
    ensures forall x :: x in Insert(m, ms) <==> x == m || x in ms
  {
    if ms != [] {
      LessTrichotomy(ms[0].key, m.key);
      assert ms == [ms[0]] + ms[1..];
      if Less(ms[0].key, m.key) {
        InsertSorted(m, ms[1..]);
        var r := Insert(m, ms[1..]);
        forall j | 0 <= j < |r|
          ensures Less(ms[0].key, r[j].key)
        {
          assert r[j] in r;
        }
      } else {
        forall j | 0 <= j < |ms|
          ensures Less(m.key, ms[j].key)
        {
          if j > 0 {
            LessTransitive(m.key, ms[0].key, ms[j].key);
          }
        }
      }
    }
  }

  lemma {:induction false} SortSorts(ms: seq<Member>)
    requires Distinct(ms)
    ensures StrictlySorted(Sort(ms))
    ensures forall x :: x in Sort(ms) <==> x in ms
  {
    if ms != [] {
      assert ms == [ms[0]] + ms[1..];
      SortSorts(ms[1..]);
      var t := Sort(ms[1..]);
      forall i | 0 <= i < |t|
        ensures t[i].key != ms[0].key
      {
        assert t[i] in ms[1..];
      }
      InsertSorted(ms[0], t);
    }
  }

  /** Two lists of distinct keys with the same members denote the same map. */
  lemma SameMembersSameMap(a: seq<Member>, b: seq<Member>)
    requires Distinct(a) && Distinct(b)
    requires forall x :: x in a <==> x in b
    ensures DenoteMembers(a) == DenoteMembers(b)
  {
    DenoteMembersKeys(a);
    DenoteMembersKeys(b);
    forall k | k in DenoteMembers(a)
      ensures k in DenoteMembers(b) && DenoteMembers(a)[k] == DenoteMembers(b)[k]
    {
      var i :| 0 <= i < |a| && a[i].key == k;
      assert a[i] in b;
      var j :| 0 <= j < |b| && b[j] == a[i];
      DenoteMembersAt(a, i);
      DenoteMembersAt(b, j);
    }
    forall k | k in DenoteMembers(b)
      ensures k in DenoteMembers(a)
    {
      var j :| 0 <= j < |b| && b[j].key == k;
      assert b[j] in a;
    }
  }

  /** Normalizing yields a normal form with the same meaning. */
  lemma {:induction false} NormalizeCorrect(v: Json)
    requires WellFormed(v)
    ensures Normal(Normalize(v)) && Denote(Normalize(v)) == Denote(v)
    decreases v
  {
    match v
    case Arr(items) =>
      NormalizeItemsCorrect(items);
    case Obj(ms) =>
      NormalizeMembersCorrect(ms);
      var ns := NormalizeMembers(ms);
      assert Distinct(ns);
      SortSorts(ns);
      SortedIsDistinct(Sort(ns));
      SameMembersSameMap(Sort(ns), ns);
      forall i | 0 <= i < |ms|
        ensures Normal(Sort(ns)[i].value)
      {
        assert Sort(ns)[i] in ns;
      }
    case _ =>
  }

  lemma {:induction false} NormalizeItemsCorrect(items: seq<Json>)
    requires forall i :: 0 <= i < |items| ==> WellFormed(items[i])
    ensures forall i :: 0 <= i < |items| ==> Normal(NormalizeItems(items)[i])
    ensures DenoteItems(NormalizeItems(items)) == DenoteItems(items)
    decreases items
  {
    if items != [] {
      NormalizeCorrect(items[0]);
      NormalizeItemsCorrect(items[1..]);
      assert NormalizeItems(items)[1..] == NormalizeItems(items[1..]);
    }
  }

  lemma {:induction false} NormalizeMembersCorrect(ms: seq<Member>)
    requires forall i :: 0 <= i < |ms| ==> WellFormed(ms[i].value)
    ensures forall m :: m in NormalizeMembers(ms) ==> Normal(m.value)
    ensures DenoteMembers(NormalizeMembers(ms)) == DenoteMembers(ms)
    decreases ms
  {
    if ms != [] {
      NormalizeCorrect(ms[0].value);
      NormalizeMembersCorrect(ms[1..]);
      assert NormalizeMembers(ms)[1..] == NormalizeMembers(ms[1..]);
    }
  }

  // ---------------------------------------------------------------- normal forms are unique

  /** A meaning has at most one normal form: sorting leaves no trace of insertion order. */
  lemma {:induction false} NormalFormUnique(v: Json, w: Json)
    requires Normal(v) && Normal(w) && Denote(v) == Denote(w)
    ensures v == w
    decreases v
  {
    match v
    case Arr(items) =>
      NormalItemsUnique(items, w.items);
    case Obj(ms) =>
      NormalMembersUnique(ms, w.members);
    case _ =>
  }

  lemma {:induction false} NormalItemsUnique(a: seq<Json>, b: seq<Json>)
    requires forall i :: 0 <= i < |a| ==> Normal(a[i])
    requires forall i :: 0 <= i < |b| ==> Normal(b[i])
    requires DenoteItems(a) == DenoteItems(b)
    ensures a == b
    decreases a
  {
    assert |DenoteItems(a)| == |a| && |DenoteItems(b)| == |b|;
    if a != [] {
      DenoteItemsAt(a, 0);
      DenoteItemsAt(b, 0);
      NormalFormUnique(a[0], b[0]);
      assert DenoteItems(a)[1..] == DenoteItems(a[1..]);
      assert DenoteItems(b)[1..] == DenoteItems(b[1..]);
      NormalItemsUnique(a[1..], b[1..]);
      assert a == [a[0]] + a[1..] && b == [b[0]] + b[1..];
    }
  }

  /** The first key of a strictly sorted list is the least key of its map. */
  lemma FirstKeyLeast(a: seq<Member>, b: seq<Member>)
    requires StrictlySorted(a) && StrictlySorted(b) && a != []
    requires DenoteMembers(a) == DenoteMembers(b)
    ensures b != [] && !Less(b[0].key, a[0].key)
  {
    DenoteMembersKeys(a);
    DenoteMembersKeys(b);
    assert a[0].key in DenoteMembers(b);
    assert b != [];
    assert b[0].key in DenoteMembers(a);
    var i :| 0 <= i < |a| && a[i].key == b[0].key;
    LessTrichotomy(a[0].key, b[0].key);
  }

  lemma {:induction false} NormalMembersUnique(a: seq<Member>, b: seq<Member>)
    requires StrictlySorted(a) && StrictlySorted(b)
    requires forall i :: 0 <= i < |a| ==> Normal(a[i].value)
    requires forall i :: 0 <= i < |b| ==> Normal(b[i].value)
    requires DenoteMembers(a) == DenoteMembers(b)
    ensures a == b
    decreases a
  {
    if a == [] {
      if b != [] {
        FirstKeyLeast(b, a);
      }
    } else {
      FirstKeyLeast(a, b);
      FirstKeyLeast(b, a);
      LessTrichotomy(a[0].key, b[0].key);
      SortedIsDistinct(a);
      SortedIsDistinct(b);
      DenoteMembersAt(a, 0);
      DenoteMembersAt(b, 0);
      NormalFormUnique(a[0].value, b[0].value);
      TailMap(a);
      TailMap(b);
      NormalMembersUnique(a[1..], b[1..]);
      assert a == [a[0]] + a[1..] && b == [b[0]] + b[1..];
    }
  }

  lemma TailMap(a: seq<Member>)
    requires Distinct(a) && a != []
    ensures DenoteMembers(a[1..]) == DenoteMembers(a) - {a[0].key}
  {
    HeadKeyOnce(a);
    UpdateRemoved(DenoteMembers(a[1..]), a[0].key, Denote(a[0].value));
    hide Denote;
  }

  lemma HeadKeyOnce(a: seq<Member>)
    requires Distinct(a) && a != []
    ensures a[0].key !in DenoteMembers(a[1..])
  {
    hide DenoteMembers;
    DenoteMembersKeys(a[1..]);
  }

  lemma UpdateRemoved(m: map<string, Meaning>, k: string, v: Meaning)
    requires k !in m
    ensures m[k := v] - {k} == m
  {
  }
}
