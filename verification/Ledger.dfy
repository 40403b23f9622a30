/** The append-only ledger: what an entry hashes to, how rows are chained, and what the last
    hash of a chain commits to. */
module Ledger {
  import opened Wrappers
  import opened Json
  import opened Canonical
  import opened Hashing
  import JsonParser

  datatype OverrideMark = OverrideMark(marked: bool, reason: Option<string>)

  /** The part of an entry that its author writes. */
  datatype Content = Content(
    kind: string,
    actor: string,
    payload: Value,
    overrideMark: Option<OverrideMark>,
    fakeMarker: Option<string>,
    ts: string)

  datatype Entry = Entry(seqNo: nat, prevHash: string, entryHash: string, content: Content)

  // ---------------------------------------------------------------- the hashed body

  function OptionJson(o: Option<string>): Json {
    match o
    case None => Null
    case Some(s) => Str(s)
  }

  function OverrideJson(o: Option<OverrideMark>): Json {
    match o
    case None => Null
    case Some(m) =>
      Obj([Member("marked", Bool(m.marked))] + if m.reason.Some? then [Member("reason", Str(m.reason.value))] else [])
  }

  function BodyMembers(c: Content): seq<Member> {
    [Member("kind", Str(c.kind)),
     Member("actor", Str(c.actor)),
     Member("payload", c.payload),
     Member("override", OverrideJson(c.overrideMark)),
     Member("fake_marker", OptionJson(c.fakeMarker)),
     Member("ts", Str(c.ts))]
  }

  function HashBody(c: Content): string {
    CanonicalJson(Obj(BodyMembers(c)))
  }

  function Preimage(prev: string, c: Content): string {
    prev + HashBody(c)
  }

  function ChainHash(h: Hash, prev: string, c: Content): Digest {
    h(Preimage(prev, c))
  }

  /** Equal up to the insertion order of object keys in the payload. */
  predicate SameContent(c: Content, d: Content) {
    && c.kind == d.kind
    && c.actor == d.actor
    && Denote(c.payload) == Denote(d.payload)
    && c.overrideMark == d.overrideMark
    && c.fakeMarker == d.fakeMarker
    && c.ts == d.ts
  }

  lemma OverrideWellFormed(o: Option<OverrideMark>)
    ensures WellFormed(OverrideJson(o))
  {
    assert "marked"[0] != "reason"[0];
  }

  lemma BodyWellFormed(c: Content)
    ensures WellFormed(Obj(BodyMembers(c)))
  {
    var ms := BodyMembers(c);
    OverrideWellFormed(c.overrideMark);
    assert |ms[0].key| == 4 && |ms[1].key| == 5 && |ms[2].key| == 7;
    assert |ms[3].key| == 8 && |ms[4].key| == 11 && |ms[5].key| == 2;
  }

  lemma OverrideInjective(o: Option<OverrideMark>, p: Option<OverrideMark>)
    requires Denote(OverrideJson(o)) == Denote(OverrideJson(p))
    ensures o == p
  {
    OverrideWellFormed(o);
    OverrideWellFormed(p);
    if o.Some? && p.Some? {
      var a, b := OverrideJson(o).members, OverrideJson(p).members;
      SameMapSameAt(a, 0, b, 0);
      DenoteMembersKeys(a);
      DenoteMembersKeys(b);
      assert "marked"[0] != "reason"[0];
      assert |a| == 2 ==> a[1].key in DenoteMembers(b);
      assert |b| == 2 ==> b[1].key in DenoteMembers(a);
      if |a| == 2 {
        SameMapSameAt(a, 1, b, 1);
      }
    }
  }

  lemma SameFieldsSameContent(c: Content, d: Content)
    ensures var a, b := BodyMembers(c), BodyMembers(d);
            (forall i :: 0 <= i < 6 ==> Denote(a[i].value) == Denote(b[i].value)) <==> SameContent(c, d)
  {
    var a, b := BodyMembers(c), BodyMembers(d);
    if forall i :: 0 <= i < 6 ==> Denote(a[i].value) == Denote(b[i].value) {
      assert Denote(a[0].value) == Denote(b[0].value);
      assert Denote(a[1].value) == Denote(b[1].value);
      assert Denote(a[2].value) == Denote(b[2].value);
      assert Denote(a[3].value) == Denote(b[3].value);
      assert Denote(a[4].value) == Denote(b[4].value);
      assert Denote(a[5].value) == Denote(b[5].value);
      OverrideInjective(c.overrideMark, d.overrideMark);
    }
  }

  /** The body text determines the content, and is determined by it. */
  lemma BodyInjective(c: Content, d: Content)
    ensures HashBody(c) == HashBody(d) <==> SameContent(c, d)
  {
    var a, b := BodyMembers(c), BodyMembers(d);
    BodyWellFormed(c);
    BodyWellFormed(d);
    JsonParser.CanonicalInjective(Obj(a), Obj(b));
    SameFieldsSameContent(c, d);
    SameKeysSameMap(a, b);
  }

  /** Previous hash and body cannot run into each other: a body starts with a brace, a digest
      never does, and every digest has the same length. */
  lemma PreimageInjective(p: string, c: Content, q: string, d: Content)
    requires p == "" || IsDigest(p)
    requires q == "" || IsDigest(q)
    requires Preimage(p, c) == Preimage(q, d)
    ensures p == q && HashBody(c) == HashBody(d)
  {
    assert HashBody(c)[0] == '{' && HashBody(d)[0] == '{';
    assert Preimage(p, c)[0] == if p == "" then '{' else p[0];
    assert Preimage(q, d)[0] == if q == "" then '{' else q[0];
    assert !IsHex('{');
    if (p == "") == (q == "") {
      assert p == Preimage(p, c)[..|p|] && q == Preimage(q, d)[..|q|];
      assert HashBody(c) == Preimage(p, c)[|p|..] && HashBody(d) == Preimage(q, d)[|q|..];
    }
  }

  // ---------------------------------------------------------------- chains

  function PrevHash(rows: seq<Entry>, i: nat): string
    requires i <= |rows|
  {
    if i == 0 then "" else rows[i - 1].entryHash
  }

  predicate RowOk(h: Hash, rows: seq<Entry>, i: nat)
    requires i < |rows|
  {
    && rows[i].prevHash == PrevHash(rows, i)
    && rows[i].entryHash == ChainHash(h, PrevHash(rows, i), rows[i].content)
  }

  predicate ChainOk(h: Hash, rows: seq<Entry>) {
    forall i :: 0 <= i < |rows| ==> RowOk(h, rows, i)
  }

  function RowText(rows: seq<Entry>, i: nat): string
    requires i < |rows|
  {
    Preimage(PrevHash(rows, i), rows[i].content)
  }

  predicate SameContents(t: seq<Entry>, u: seq<Entry>) {
    |t| == |u| && forall k :: 0 <= k < |t| ==> SameContent(t[k].content, u[k].content)
  }

  /** The two tables hash two different texts to one digest. */
  ghost predicate CollisionBetween(h: Hash, t: seq<Entry>, u: seq<Entry>) {
    exists a, b :: 0 <= a < |t| && 0 <= b < |u| && Collide(h, RowText(t, a), RowText(u, b))
  }

  /** A hash in a verified table binds everything up to it: a second verified table that reaches
      the same hash reaches it in the same row, with the same content in every row before, unless
      the two tables exhibit a collision. */
  lemma {:induction false} HashBindsHistory(h: Hash, t: seq<Entry>, i: nat, u: seq<Entry>, j: nat)
    requires ChainOk(h, t) && ChainOk(h, u) && i < |t| && j < |u|
    requires t[i].entryHash == u[j].entryHash
    ensures CollisionBetween(h, t, u)
            || (i == j && forall k :: 0 <= k <= i ==> SameContent(t[k].content, u[k].content))
    decreases i
  {
    hide HashBody, SameContent, Collide;
    assert RowOk(h, t, i) && RowOk(h, u, j);
    if RowText(t, i) != RowText(u, j) {
      DifferentTextsCollide(h, t, i, u, j);
    } else {
      PrevIsDigest(h, t, i);
      PrevIsDigest(h, u, j);
      PreimageInjective(PrevHash(t, i), t[i].content, PrevHash(u, j), u[j].content);
      BodyInjective(t[i].content, u[j].content);
      if i > 0 {
        HashBindsHistory(h, t, i - 1, u, j - 1);
      }
    }
  }

  lemma DifferentTextsCollide(h: Hash, t: seq<Entry>, i: nat, u: seq<Entry>, j: nat)
    requires i < |t| && j < |u| && RowOk(h, t, i) && RowOk(h, u, j)
    requires t[i].entryHash == u[j].entryHash && RowText(t, i) != RowText(u, j)
    ensures CollisionBetween(h, t, u)
  {
    assert Collide(h, RowText(t, i), RowText(u, j));
  }

  lemma PrevIsDigest(h: Hash, t: seq<Entry>, i: nat)
    requires ChainOk(h, t) && i < |t|
    ensures if i == 0 then PrevHash(t, i) == "" else IsDigest(PrevHash(t, i)) && PrevHash(t, i) != ""
  {
    if i > 0 {
      assert RowOk(h, t, i - 1);
    }
  }

  /** Chains over the same contents carry the same hashes. */
  lemma {:induction false} SameContentsSameHash(h: Hash, t: seq<Entry>, u: seq<Entry>, n: nat)
    requires ChainOk(h, t) && ChainOk(h, u) && n <= |t| && n <= |u|
    requires forall k :: 0 <= k < n ==> SameContent(t[k].content, u[k].content)
    ensures PrevHash(t, n) == PrevHash(u, n)
  {
    if n > 0 {
      SameContentsSameHash(h, t, u, n - 1);
      assert RowOk(h, t, n - 1) && RowOk(h, u, n - 1);
      BodyInjective(t[n - 1].content, u[n - 1].content);
    }
  }

  /** Verified tables end in the same hash exactly if they have the same length and the same content
      in every row, unless they exhibit a collision. */
  lemma HeadBindsTable(h: Hash, t: seq<Entry>, u: seq<Entry>)
    requires ChainOk(h, t) && ChainOk(h, u)
    ensures SameContents(t, u) ==> PrevHash(t, |t|) == PrevHash(u, |u|)
    ensures PrevHash(t, |t|) == PrevHash(u, |u|) ==> SameContents(t, u) || CollisionBetween(h, t, u)
  {
    if SameContents(t, u) {
      SameContentsSameHash(h, t, u, |t|);
    }
    assert |t| > 0 ==> RowOk(h, t, |t| - 1);
    assert |u| > 0 ==> RowOk(h, u, |u| - 1);
    if |t| > 0 && |u| > 0 && PrevHash(t, |t|) == PrevHash(u, |u|) {
      HashBindsHistory(h, t, |t| - 1, u, |u| - 1);
    }
  }

  /** Rewriting the content of one row and leaving both hash columns alone breaks the chain at
      exactly that row (or collides); rewriting it to the same content does not break it. */
  lemma EditBreaksChainThere(h: Hash, t: seq<Entry>, k: nat, c: Content)
    requires ChainOk(h, t) && k < |t|
    ensures var u := t[k := t[k].(content := c)];
            && (forall i :: 0 <= i < |t| && i != k ==> RowOk(h, u, i))
            && (SameContent(c, t[k].content) ==> RowOk(h, u, k))
            && (RowOk(h, u, k) ==> SameContent(c, t[k].content) || Collide(h, RowText(t, k), RowText(u, k)))
  {
    var u := t[k := t[k].(content := c)];
    forall i | 0 <= i < |t| && i != k
      ensures RowOk(h, u, i)
    {
      assert RowOk(h, t, i);
      assert PrevHash(u, i) == PrevHash(t, i);
    }
    assert RowOk(h, t, k);
    assert PrevHash(u, k) == PrevHash(t, k);
    BodyInjective(c, t[k].content);
    if RowOk(h, u, k) && !SameContent(c, t[k].content) {
      var p := PrevHash(t, k);
      assert RowText(t, k)[|p|..] == HashBody(t[k].content) && RowText(u, k)[|p|..] == HashBody(c);
    }
  }

  /** What the last hash does not say by itself: every prefix of a chain is a chain, so a table
      cut short still verifies; only a remembered head hash tells the two apart. */
  lemma PrefixVerifies(h: Hash, t: seq<Entry>, n: nat)
    requires ChainOk(h, t) && n <= |t|
    ensures ChainOk(h, t[..n])
    ensures n < |t| ==> PrevHash(t[..n], n) != PrevHash(t, |t|) || CollisionBetween(h, t[..n], t)
  {
    forall i | 0 <= i < n
      ensures RowOk(h, t[..n], i)
    {
      assert RowOk(h, t, i);
    }
    HeadBindsTable(h, t[..n], t);
  }

  // ---------------------------------------------------------------- the store

  datatype BrokenChain = BrokenChain(seqNo: nat, expected: string, found: string)

  /** The row an append writes after a table. */
  function NextRow(h: Hash, rows: seq<Entry>, c: Content): Entry {
    var prev := PrevHash(rows, |rows|);
    Entry(if rows == [] then 1 else rows[|rows| - 1].seqNo + 1, prev, ChainHash(h, prev, c), c)
  }

  function Appended(h: Hash, rows: seq<Entry>, cs: seq<Content>): seq<Entry>
    decreases |cs|
  {
    if cs == [] then rows else Appended(h, rows + [NextRow(h, rows, cs[0])], cs[1..])
  }

  lemma {:induction false} AppendKeepsChain(h: Hash, rows: seq<Entry>, c: Content)
    requires ChainOk(h, rows)
    ensures ChainOk(h, rows + [NextRow(h, rows, c)])
  {
    var t := rows + [NextRow(h, rows, c)];
    forall i | 0 <= i < |t|
      ensures RowOk(h, t, i)
    {
      assert i < |rows| ==> RowOk(h, rows, i);
      assert PrevHash(t, i) == PrevHash(rows, i);
    }
  }

  /** Every run of appends on an empty table yields a verifying chain holding exactly the
      appended contents, numbered from one. */
  lemma RunOfAppends(h: Hash, cs: seq<Content>)
    ensures var t := Appended(h, [], cs);
            ChainOk(h, t) && |t| == |cs|
            && forall i :: 0 <= i < |cs| ==> t[i].content == cs[i] && t[i].seqNo == i + 1
  {
    var rows: seq<Entry> := [];
    AppendsExtend(h, rows, cs);
    var t := Appended(h, rows, cs);
    forall i | 0 <= i < |cs|
      ensures t[i].content == cs[i]
    {
      assert t[|rows| + i].content == cs[i];
    }
  }

  predicate Numbered(rows: seq<Entry>) {
    forall i :: 0 <= i < |rows| ==> rows[i].seqNo == i + 1
  }

  lemma {:induction false} AppendsExtend(h: Hash, rows: seq<Entry>, cs: seq<Content>)
    requires ChainOk(h, rows)
    ensures var t := Appended(h, rows, cs);
            && ChainOk(h, t) && |t| == |rows| + |cs| && t[..|rows|] == rows
            && (Numbered(rows) ==> Numbered(t))
            && (forall i :: 0 <= i < |cs| ==> t[|rows| + i].content == cs[i])
    decreases |cs|
  {
    hide ChainOk, NextRow, Numbered;
    if cs != [] {
      var rows' := rows + [NextRow(h, rows, cs[0])];
      AppendKeepsChain(h, rows, cs[0]);
      NextRowFits(h, rows, cs[0]);
      AppendsExtend(h, rows', cs[1..]);
      var t := Appended(h, rows', cs[1..]);
      assert t[..|rows|] == rows'[..|rows|] == rows;
      assert t[|rows|] == rows'[|rows|];
      forall i | 0 <= i < |cs|
        ensures t[|rows| + i].content == cs[i]
      {
        if i > 0 {
          assert t[|rows'| + (i - 1)].content == cs[1..][i - 1];
        }
      }
    }
  }

  lemma NextRowFits(h: Hash, rows: seq<Entry>, c: Content)
    ensures NextRow(h, rows, c).content == c
    ensures Numbered(rows) ==> Numbered(rows + [NextRow(h, rows, c)])
  {
    hide ChainHash, PrevHash;
  }

  // ---------------------------------------------------------------- what verification accepts

  function ContentsOf(t: seq<Entry>): (cs: seq<Content>)
    ensures |cs| == |t| && forall i :: 0 <= i < |t| ==> cs[i] == t[i].content
  {
    seq(|t|, i requires 0 <= i < |t| => t[i].content)
  }

  predicate SameHashes(t: seq<Entry>, u: seq<Entry>) {
    |t| == |u| && forall i :: 0 <= i < |t| ==> t[i].prevHash == u[i].prevHash && t[i].entryHash == u[i].entryHash
  }

  /** Exactly the tables whose hash columns an honest run of appends of the same contents would have
      written are accepted: verification says that a table was chained, not that it was left alone. */
  lemma AcceptedExactlyIfAppended(h: Hash, t: seq<Entry>)
    ensures ChainOk(h, t) <==> SameHashes(t, Appended(h, [], ContentsOf(t)))
  {
    var u := Appended(h, [], ContentsOf(t));
    RunOfAppends(h, ContentsOf(t));
    if ChainOk(h, t) {
      forall i | 0 <= i < |t|
        ensures t[i].prevHash == u[i].prevHash && t[i].entryHash == u[i].entryHash
      {
        SameContentsSameHash(h, t, u, i);
        SameContentsSameHash(h, t, u, i + 1);
        assert RowOk(h, t, i) && RowOk(h, u, i);
      }
    } else if SameHashes(t, u) {
      forall i | 0 <= i < |t|
        ensures RowOk(h, t, i)
      {
        assert RowOk(h, u, i) && PrevHash(t, i) == PrevHash(u, i);
      }
    }
  }

  /** In particular any rows may be cut from the end and any contents chained in their place: the
      result is accepted, and only its last hash differs, unless nothing was changed or two texts of
      the tables collide. */
  lemma RewrittenTailVerifies(h: Hash, t: seq<Entry>, k: nat, cs: seq<Content>)
    requires ChainOk(h, t) && k <= |t|
    ensures var u := Appended(h, t[..k], cs);
            && ChainOk(h, u) && |u| == k + |cs| && u[..k] == t[..k]
            && (forall i :: 0 <= i < |cs| ==> u[k + i].content == cs[i])
            && (PrevHash(u, |u|) == PrevHash(t, |t|) ==> SameContents(u, t) || CollisionBetween(h, u, t))
  {
    PrefixVerifies(h, t, k);
    AppendsExtend(h, t[..k], cs);
    HeadBindsTable(h, Appended(h, t[..k], cs), t);
  }

  class LedgerStore {
    const sha256: Hash
    var rows: seq<Entry>

    constructor (sha256: Hash)
      ensures this.sha256 == sha256 && rows == []
    {
      this.sha256 := sha256;
      rows := [];
    }

    /** Chains the entry to the last row, whatever derived fields it came with. */
    method Append(entry: Entry) returns (stored: Entry)
      modifies this
      ensures stored == NextRow(sha256, old(rows), entry.content)
      ensures rows == old(rows) + [stored]
      ensures stored.content == entry.content
      ensures stored.prevHash == if old(rows) == [] then "" else old(rows)[|old(rows)| - 1].entryHash
      ensures stored.entryHash == sha256(stored.prevHash + HashBody(entry.content))
      ensures stored.seqNo == if old(rows) == [] then 1 else old(rows)[|old(rows)| - 1].seqNo + 1
      ensures old(ChainOk(sha256, rows)) ==> ChainOk(sha256, rows)
    {
      if ChainOk(sha256, rows) {
        AppendKeepsChain(sha256, rows, entry.content);
      }
      var prevHash := if rows == [] then "" else rows[|rows| - 1].entryHash;
      stored := entry.(prevHash := prevHash);
      stored := stored.(entryHash := ChainHash(sha256, prevHash, stored.content));
      stored := stored.(seqNo := if rows == [] then 1 else rows[|rows| - 1].seqNo + 1);
      rows := rows + [stored];
    }

    /** Counts the rows if the whole table is a chain; otherwise reports the first row that is
        not, with the hash it should have had. */
    method VerifyChain() returns (r: Result<nat, BrokenChain>)
      ensures r.Ok? <==> ChainOk(sha256, rows)
      ensures r.Ok? ==> r.value == |rows|
      ensures r.Err? ==> exists k: nat ::
        && k < |rows| && !RowOk(sha256, rows, k)
        && (forall i :: 0 <= i < k ==> RowOk(sha256, rows, i))
        && var expected := ChainHash(sha256, PrevHash(rows, k), rows[k].content);
           r.error == BrokenChain(rows[k].seqNo, expected, rows[k].entryHash)
    {
      var expectedPrev := "";
      var count := 0;
      while count < |rows|
        invariant count <= |rows| && expectedPrev == PrevHash(rows, count)
        invariant forall i :: 0 <= i < count ==> RowOk(sha256, rows, i)
      {
        var row := rows[count];
        var recomputed := ChainHash(sha256, expectedPrev, row.content);
        if row.prevHash != expectedPrev || row.entryHash != recomputed {
          assert !RowOk(sha256, rows, count);
          return Err(BrokenChain(row.seqNo, recomputed, row.entryHash));
        }
        expectedPrev := row.entryHash;
        count := count + 1;
      }
      return Ok(count);
    }
  }
}
