/** The canonical printer as it runs: one pass over the value, appending to a text buffer. */
module CanonicalWriter {
  import opened Json
  import opened Canonical
  import opened Order

  /** The growing output string. */
  class Buffer {
    var text: string

    constructor ()
      ensures text == ""
    {
      text := "";
    }

    method PushStr(s: string)
      modifies this
      ensures text == old(text) + s
    {
      text := text + s;
    }
  }

  // ---------------------------------------------------------------- sorting the key vector

  function InsertKey(k: string, ks: seq<string>): seq<string> {
    if ks == [] || !Less(ks[0], k) then [k] + ks else [ks[0]] + InsertKey(k, ks[1..])
  }

  function SortKeys(ks: seq<string>): seq<string> {
    if ks == [] then [] else InsertKey(ks[0], SortKeys(ks[1..]))
  }

  lemma {:induction false} KeysOfInsert(m: Member, ms: seq<Member>)
    ensures Keys(Insert(m, ms)) == InsertKey(m.key, Keys(ms))
  {
    if ms != [] {
      KeysOfInsert(m, ms[1..]);
      assert Keys(ms)[1..] == Keys(ms[1..]);
    }
  }

  /** Sorting the keys and sorting the members by key agree. */
  lemma {:induction false} KeysOfSort(ms: seq<Member>)
    ensures Keys(Sort(ms)) == SortKeys(Keys(ms))
  {
    if ms != [] {
      KeysOfSort(ms[1..]);
      KeysOfInsert(ms[0], Sort(ms[1..]));
      assert Keys(ms)[1..] == Keys(ms[1..]);
    }
  }

  /** Looking a key up in the map. */
  function IndexOf(ms: seq<Member>, key: string): (i: nat)
    requires exists j :: 0 <= j < |ms| && ms[j].key == key
    ensures i < |ms| && ms[i].key == key
  {
    if ms[0].key == key then 0
    else
      assert exists j :: 0 <= j < |ms[1..]| && ms[1..][j].key == key by {
        var j :| 0 <= j < |ms| && ms[j].key == key;
        assert ms[1..][j - 1].key == key;
      }
      1 + IndexOf(ms[1..], key)
  }

  lemma {:induction false} NormalizeMembersAt(ms: seq<Member>, i: nat)
    requires i < |ms|
    ensures NormalizeMembers(ms)[i] == Member(ms[i].key, Normalize(ms[i].value))
  {
    if i > 0 {
      NormalizeMembersAt(ms[1..], i - 1);
    }
  }

  /** The i-th sorted key is in the map, and its value normalizes to the i-th member of the
      normal form. */
  lemma SortedLookup(ms: seq<Member>, i: nat)
    requires Distinct(ms) && i < |ms|
    ensures var key := Sort(NormalizeMembers(ms))[i].key;
            && (exists j :: 0 <= j < |ms| && ms[j].key == key)
            && Sort(NormalizeMembers(ms))[i] == Member(key, Normalize(ms[IndexOf(ms, key)].value))
  {
    hide Sort, NormalizeMembers, Normalize, IndexOf;
    var ns := NormalizeMembers(ms);
    SortSorts(ns);
    assert Sort(ns)[i] in ns;
    var j :| 0 <= j < |ns| && ns[j] == Sort(ns)[i];
    NormalizeMembersAt(ms, j);
    assert ms[j].key == ns[j].key;
    assert IndexOf(ms, ns[j].key) == j;
  }

  /** What is still to be written after `i` members. */
  function MembersTail(ms: seq<Member>, i: nat): string
    requires i <= |ms|
  {
    if i == |ms| then "" else if i == 0 then PrintMembers(ms) else "," + PrintMembers(ms[i..])
  }

  function ItemsTail(items: seq<Json>, i: nat): string
    requires i <= |items|
  {
    if i == |items| then "" else if i == 0 then PrintItems(items) else "," + PrintItems(items[i..])
  }

  lemma MembersTailStep(ms: seq<Member>, i: nat)
    requires i < |ms|
    ensures MembersTail(ms, i) == (if i > 0 then "," else "") + PrintMember(ms[i]) + MembersTail(ms, i + 1)
  {
    hide PrintMember, PrintMembers;
    assert ms[0..] == ms;
    PrintFromMember(ms, i);
    Comma(PrintMember(ms[i]), if i + 1 < |ms| then "," + PrintMembers(ms[i + 1..]) else "");
  }

  lemma PrintFromMember(ms: seq<Member>, i: nat)
    requires i < |ms|
    ensures PrintMembers(ms[i..])
            == PrintMember(ms[i]) + if i + 1 < |ms| then "," + PrintMembers(ms[i + 1..]) else ""
  {
    hide PrintMember;
    assert ms[i..][1..] == ms[i + 1..];
    if i + 1 < |ms| {
      hide PrintMembers;
      assert PrintMember(ms[i]) + "," + PrintMembers(ms[i + 1..])
             == PrintMember(ms[i]) + ("," + PrintMembers(ms[i + 1..]));
    }
  }

  lemma Comma(a: string, b: string)
    ensures "," + (a + b) == "," + a + b && "" + a + b == a + b
  {
  }

  lemma ItemsTailStep(items: seq<Json>, i: nat)
    requires i < |items|
    ensures ItemsTail(items, i) == (if i > 0 then "," else "") + Print(items[i]) + ItemsTail(items, i + 1)
  {
    hide Print, PrintItems;
    assert items[0..] == items;
    PrintFromItem(items, i);
    Comma(Print(items[i]), if i + 1 < |items| then "," + PrintItems(items[i + 1..]) else "");
  }

  lemma PrintFromItem(items: seq<Json>, i: nat)
    requires i < |items|
    ensures PrintItems(items[i..]) == Print(items[i]) + if i + 1 < |items| then "," + PrintItems(items[i + 1..]) else ""
  {
    hide Print;
    assert items[i..][1..] == items[i + 1..];
    if i + 1 < |items| {
      hide PrintItems;
      assert Print(items[i]) + "," + PrintItems(items[i + 1..]) == Print(items[i]) + ("," + PrintItems(items[i + 1..]));
    }
  }

  lemma {:induction false} NormalizeItemsAt(items: seq<Json>, i: nat)
    requires i < |items|
    ensures NormalizeItems(items)[i] == Normalize(items[i])
  {
    if i > 0 {
      NormalizeItemsAt(items[1..], i - 1);
    }
  }

  /** One round of either loop: the separator and the piece move from the tail to the text. */
  lemma Advance(text: string, sep: string, piece: string, next: string, target: string)
    requires text + (sep + piece + next) == target
    ensures (text + sep + piece) + next == target
  {
    assert text + (sep + piece + next) == (text + sep + piece) + next;
  }

  lemma Join(text: string, a: string, b: string, c: string)
    ensures text + a + b + c == text + (a + b + c)
  {
  }

  // ---------------------------------------------------------------- the writer

  /** Appends exactly the canonical text of the value and touches nothing else. */
  method WriteCanonical(v: Json, out: Buffer)
    requires WellFormed(v)
    modifies out
    ensures out.text == old(out.text) + CanonicalJson(v)
    decreases v, 2
  {
    match v
    case Obj(ms) =>
      WriteMembers(v, ms, out);
    case Arr(items) =>
      WriteItems(v, items, out);
    case _ =>
      out.PushStr(Print(v));
  }

  method WriteMembers(v: Json, ms: seq<Member>, out: Buffer)
    requires v == Obj(ms) && WellFormed(v)
    modifies out
    ensures out.text == old(out.text) + CanonicalJson(v)
    decreases v, 1
  {
    ghost var start := out.text;
    ghost var ns := Sort(NormalizeMembers(ms));
    var keys := SortKeys(Keys(ms));
    assert keys == Keys(ns) by {
      KeysOfSort(NormalizeMembers(ms));
      assert Keys(NormalizeMembers(ms)) == Keys(ms);
    }
    out.PushStr("{");
    for i := 0 to |keys|
      invariant out.text + MembersTail(ns, i) == start + "{" + PrintMembers(ns)
    {
      SortedLookup(ms, i);
      MembersTailStep(ns, i);
      Advance(out.text, if i > 0 then "," else "", PrintMember(ns[i]), MembersTail(ns, i + 1),
              start + "{" + PrintMembers(ns));
      ghost var before := out.text + if i > 0 then "," else "";
      if i > 0 {
        out.PushStr(",");
      }
      assert out.text == before;
      WriteMember(v, ms, IndexOf(ms, keys[i]), out);
    }
    out.PushStr("}");
    Join(start, "{", PrintMembers(ns), "}");
  }

  method WriteMember(v: Json, ms: seq<Member>, i: nat, out: Buffer)
    requires v == Obj(ms) && WellFormed(v) && i < |ms|
    modifies out
    ensures out.text == old(out.text) + PrintMember(Member(ms[i].key, Normalize(ms[i].value)))
    decreases v, 0
  {
    Join(out.text, Quote(ms[i].key), ":", CanonicalJson(ms[i].value));
    out.PushStr(Quote(ms[i].key));
    out.PushStr(":");
    WriteCanonical(ms[i].value, out);
  }

  method WriteItems(v: Json, items: seq<Json>, out: Buffer)
    requires v == Arr(items) && WellFormed(v)
    modifies out
    ensures out.text == old(out.text) + CanonicalJson(v)
    decreases v, 1
  {
    ghost var start := out.text;
    ghost var ns := NormalizeItems(items);
    out.PushStr("[");
    for i := 0 to |items|
      invariant out.text + ItemsTail(ns, i) == start + "[" + PrintItems(ns)
    {
      NormalizeItemsAt(items, i);
      ItemsTailStep(ns, i);
      Advance(out.text, if i > 0 then "," else "", Print(ns[i]), ItemsTail(ns, i + 1),
              start + "[" + PrintItems(ns));
      ghost var before := out.text + if i > 0 then "," else "";
      if i > 0 {
        out.PushStr(",");
      }
      assert out.text == before;
      WriteCanonical(items[i], out);
    }
    out.PushStr("]");
    Join(start, "[", PrintItems(ns), "]");
  }

  /** The canonical text of a value, built in a fresh buffer. */
  method CanonicalText(v: Json) returns (s: string)
    requires WellFormed(v)
    ensures s == CanonicalJson(v)
  {
    var out := new Buffer();
    WriteCanonical(v, out);
    s := out.text;
  }
}
