/** JSON values as the printer sees them.

    Objects are association lists in insertion order; a well-formed value has distinct keys at
    every level, which is what the map type of the original guarantees. What an object *means*
    is the finite map given by `Denote`: insertion order is invisible there. */
module Json {

  /** The characters a floating-point literal may hold. */
  predicate IsNumberChar(c: char) {
    '0' <= c <= '9' || c == '+' || c == '-' || c == '.' || c == 'e' || c == 'E'
  }

  predicate IsFractionMark(c: char) {
    c == '.' || c == 'e' || c == 'E'
  }

  /** Floats stay opaque: a value is its shortest printed form, which always carries a point or
      an exponent and so is never mistaken for an integer. */
  predicate IsFloatToken(s: string) {
    && s != []
    && ('0' <= s[0] <= '9' || s[0] == '-')
    && (forall i :: 0 <= i < |s| ==> IsNumberChar(s[i]))
    && (exists i :: 0 <= i < |s| && IsFractionMark(s[i]))
  }

  lemma PointFiveIsFloat()
    ensures IsFloatToken("0.5")
  {
    assert IsFractionMark("0.5"[1]);
  }

  type FloatToken = s: string | IsFloatToken(s) ghost witness (PointFiveIsFloat(); "0.5")

  datatype Json =
    | Null
    | Bool(b: bool)
    | Int(n: int)
    | Float(token: FloatToken)
    | Str(s: string)
    | Arr(items: seq<Json>)
    | Obj(members: seq<Member>)

  datatype Member = Member(key: string, value: Json)

  function Keys(ms: seq<Member>): (ks: seq<string>)
    ensures |ks| == |ms|
    ensures forall i :: 0 <= i < |ms| ==> ks[i] == ms[i].key
  {
    seq(|ms|, i requires 0 <= i < |ms| => ms[i].key)
  }

  predicate Distinct(ms: seq<Member>) {
    forall i, j :: 0 <= i < j < |ms| ==> ms[i].key != ms[j].key
  }

  predicate WellFormed(v: Json) {
    match v
    case Arr(items) => forall i :: 0 <= i < |items| ==> WellFormed(items[i])
    case Obj(ms) => Distinct(ms) && forall i :: 0 <= i < |ms| ==> WellFormed(ms[i].value)
    case _ => true
  }

  /** A value with objects read as finite maps. */
  datatype Meaning =
    | MNull
    | MBool(b: bool)
    | MInt(n: int)
    | MFloat(token: string)
    | MStr(s: string)
    | MArr(items: seq<Meaning>)
    | MObj(members: map<string, Meaning>)

  function Denote(v: Json): Meaning
    decreases v
  {
    match v
    case Null => MNull
    case Bool(b) => MBool(b)
    case Int(n) => MInt(n)
    case Float(t) => MFloat(t)
    case Str(s) => MStr(s)
    case Arr(items) => MArr(DenoteItems(items))
    case Obj(ms) => MObj(DenoteMembers(ms))
  }

  function DenoteItems(items: seq<Json>): (r: seq<Meaning>)
    ensures |r| == |items|
    decreases items
  {
    if items == [] then [] else [Denote(items[0])] + DenoteItems(items[1..])
  }

  function DenoteMembers(ms: seq<Member>): map<string, Meaning>
    decreases ms
  {
    if ms == [] then map[] else DenoteMembers(ms[1..])[ms[0].key := Denote(ms[0].value)]
  }

  lemma {:induction false} DenoteItemsAt(items: seq<Json>, i: nat)
    requires i < |items|
    ensures DenoteItems(items)[i] == Denote(items[i])
  {
    if i > 0 {
      DenoteItemsAt(items[1..], i - 1);
    }
  }

  lemma {:induction false} DenoteMembersKeys(ms: seq<Member>)
    ensures forall k :: k in DenoteMembers(ms) <==> exists i :: 0 <= i < |ms| && ms[i].key == k
  {
    if ms != [] {
      DenoteMembersKeys(ms[1..]);
      forall k | k in DenoteMembers(ms)
        ensures exists i :: 0 <= i < |ms| && ms[i].key == k
      {
        if k == ms[0].key {
          assert ms[0].key == k;
        } else {
          assert k in DenoteMembers(ms[1..]);
          var i :| 0 <= i < |ms[1..]| && ms[1..][i].key == k;
          assert ms[i + 1].key == k;
        }
      }
      forall i | 0 <= i < |ms|
        ensures ms[i].key in DenoteMembers(ms)
      {
        if i > 0 {
          assert ms[1..][i - 1].key == ms[i].key;
        }
      }
    }
  }

  lemma {:induction false} DenoteMembersAt(ms: seq<Member>, i: nat)
    requires Distinct(ms) && i < |ms|
    ensures ms[i].key in DenoteMembers(ms)
    ensures DenoteMembers(ms)[ms[i].key] == Denote(ms[i].value)
  {
    DenoteMembersKeys(ms);
    if i > 0 {
      assert Distinct(ms[1..]);
      DenoteMembersAt(ms[1..], i - 1);
    }
  }

  /** A value of the original's type: its maps cannot repeat a key. */
  type Value = v: Json | WellFormed(v) witness Null

  /** Objects with the same keys in the same places and values of equal meaning mean the same. */
  lemma {:induction false} SameShapeSameMap(a: seq<Member>, b: seq<Member>)
    requires |a| == |b|
    requires forall i :: 0 <= i < |a| ==> a[i].key == b[i].key && Denote(a[i].value) == Denote(b[i].value)
    ensures DenoteMembers(a) == DenoteMembers(b)
  {
    if a != [] {
      SameShapeSameMap(a[1..], b[1..]);
    }
  }

  /** Conversely, objects that mean the same give the same meaning to a key they both place. */
  lemma SameMapSameAt(a: seq<Member>, i: nat, b: seq<Member>, j: nat)
    requires Distinct(a) && Distinct(b) && i < |a| && j < |b|
    requires a[i].key == b[j].key && DenoteMembers(a) == DenoteMembers(b)
    ensures Denote(a[i].value) == Denote(b[j].value)
  {
    DenoteMembersAt(a, i);
    DenoteMembersAt(b, j);
  }

  /** Records, that is objects with the same keys in the same places, mean the same exactly when
      they agree field by field. */
  lemma SameKeysSameMap(a: seq<Member>, b: seq<Member>)
    requires |a| == |b| && Distinct(a) && Distinct(b)
    requires forall i :: 0 <= i < |a| ==> a[i].key == b[i].key
    ensures Denote(Obj(a)) == Denote(Obj(b))
            <==> forall i :: 0 <= i < |a| ==> Denote(a[i].value) == Denote(b[i].value)
  {
    if DenoteMembers(a) == DenoteMembers(b) {
      forall i | 0 <= i < |a|
        ensures Denote(a[i].value) == Denote(b[i].value)
      {
        SameMapSameAt(a, i, b, i);
      }
    } else if forall i :: 0 <= i < |a| ==> Denote(a[i].value) == Denote(b[i].value) {
      SameShapeSameMap(a, b);
    }
  }
}
