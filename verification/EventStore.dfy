/** The append-only event store: an event table and a head table per aggregate, kept in step by
    appends that name the head they expect. */
module EventStore {
  import opened Wrappers

  datatype StoredEvent<+E> = StoredEvent(aggregate: string, seqNo: int, body: E)

  datatype Db<+E> = Db(heads: map<string, int>, events: seq<StoredEvent<E>>)

  datatype Conflict = Conflict(aggregate: string, expected: int, found: int)

  function Head<E>(db: Db<E>, a: string): int {
    if a in db.heads then db.heads[a] else 0
  }

  /** The rows of one aggregate in table order. */
  function Rows<E>(events: seq<StoredEvent<E>>, a: string): (r: seq<StoredEvent<E>>)
    ensures forall e :: e in r ==> e.aggregate == a
  {
    if events == [] then []
    else if events[0].aggregate == a then [events[0]] + Rows(events[1..], a)
    else Rows(events[1..], a)
  }

  function Bodies<E>(rows: seq<StoredEvent<E>>): (r: seq<E>)
    ensures |r| == |rows|
    ensures forall i :: 0 <= i < |rows| ==> r[i] == rows[i].body
  {
    seq(|rows|, i requires 0 <= i < |rows| => rows[i].body)
  }

  /** The log of an aggregate. */
  function Log<E>(db: Db<E>, a: string): seq<E> {
    Bodies(Rows(db.events, a))
  }

  /** The rows an accepted batch adds. */
  function Batch<E>(a: string, head: int, bodies: seq<E>): (r: seq<StoredEvent<E>>)
    ensures |r| == |bodies|
    ensures forall i :: 0 <= i < |bodies| ==> r[i] == StoredEvent(a, head + 1 + i, bodies[i])
  {
    seq(|bodies|, i requires 0 <= i < |bodies| => StoredEvent(a, head + 1 + i, bodies[i]))
  }

  function Appended<E>(db: Db<E>, a: string, expected: int, bodies: seq<E>): Db<E> {
    if Head(db, a) != expected then db
    else Db(db.heads[a := expected + |bodies|], db.events + Batch(a, expected, bodies))
  }

  function AppendResult<E>(db: Db<E>, a: string, expected: int, bodies: seq<E>): Result<int, Conflict> {
    if Head(db, a) != expected then Err(Conflict(a, expected, Head(db, a))) else Ok(expected + |bodies|)
  }

  /** Numbered without gap or repeat from one to the head, for every aggregate. */
  ghost predicate Consistent<E>(db: Db<E>) {
    forall a :: Numbered(Rows(db.events, a), Head(db, a))
  }

  predicate Numbered<E>(rows: seq<StoredEvent<E>>, head: int) {
    |rows| == head && forall i :: 0 <= i < |rows| ==> rows[i].seqNo == i + 1
  }

  // ---------------------------------------------------------------- one append

  lemma RowsCons<E>(e: StoredEvent<E>, s: seq<StoredEvent<E>>, a: string)
    ensures Rows([e] + s, a) == (if e.aggregate == a then [e] else []) + Rows(s, a)
  {
    assert ([e] + s)[1..] == s;
  }

  lemma NoRows<E>(s: seq<StoredEvent<E>>, a: string)
    requires s == []
    ensures Rows(s, a) == []
  {
  }

  lemma {:induction false} RowsConcat<E>(s: seq<StoredEvent<E>>, t: seq<StoredEvent<E>>, a: string)
    ensures Rows(s + t, a) == Rows(s, a) + Rows(t, a)
  {
    hide Rows;
    if s == [] {
      NoRows(s, a);
      assert s + t == t && Rows(s, a) + Rows(t, a) == Rows(t, a);
    } else {
      RowsConcat(s[1..], t, a);
      RowsCons(s[0], s[1..], a);
      RowsCons(s[0], s[1..] + t, a);
      assert s == [s[0]] + s[1..] && s + t == [s[0]] + (s[1..] + t);
    }
  }

  lemma {:induction false} RowsAll<E>(s: seq<StoredEvent<E>>, a: string)
    ensures (forall e :: e in s ==> e.aggregate == a) ==> Rows(s, a) == s
    ensures (forall e :: e in s ==> e.aggregate != a) ==> Rows(s, a) == []
  {
    if s != [] {
      RowsAll(s[1..], a);
      assert s[0] in s && s == [s[0]] + s[1..];
    }
  }

  /** An append adds its whole batch, contiguously, after the log of its own aggregate, or changes
      nothing at all; the logs and heads of other aggregates stay as they are; and the two tables
      stay in step. */
  lemma AppendCorrect<E>(db: Db<E>, a: string, expected: int, bodies: seq<E>)
    requires Consistent(db)
    ensures var db' := Appended(db, a, expected, bodies);
            && Consistent(db')
            && Log(db', a) == Log(db, a) + (if Head(db, a) == expected then bodies else [])
            && Head(db', a) == Head(db, a) + (if Head(db, a) == expected then |bodies| else 0)
            && (AppendResult(db, a, expected, bodies).Err? ==> db' == db)
            && (AppendResult(db, a, expected, bodies).Ok? ==> AppendResult(db, a, expected, bodies) == Ok(Head(db', a)))
            && forall b :: b != a ==> Log(db', b) == Log(db, b) && Head(db', b) == Head(db, b)
  {
    hide Rows;
    var db' := Appended(db, a, expected, bodies);
    if Head(db, a) == expected {
      var batch := Batch(a, expected, bodies);
      forall b
        ensures Rows(db'.events, b) == Rows(db.events, b) + (if b == a then batch else [])
      {
        RowsConcat(db.events, batch, b);
        RowsAll(batch, b);
      }
      assert Numbered(Rows(db.events, a), Head(db, a));
      forall b
        ensures Numbered(Rows(db'.events, b), Head(db', b))
      {
        assert Numbered(Rows(db.events, b), Head(db, b));
      }
    } else {
      assert Log(db, a) + [] == Log(db, a);
    }
  }

  /** The rows behind the first `from`. */
  function After<E>(rows: seq<StoredEvent<E>>, from: nat): seq<StoredEvent<E>> {
    if |rows| <= from then [] else rows[from..]
  }

  lemma OneMoreRow<E>(events: seq<StoredEvent<E>>, i: nat, a: string, from: nat)
    requires i < |events| && Numbered(Rows(events, a), |Rows(events, a)|)
    ensures After(Rows(events[..i + 1], a), from)
            == After(Rows(events[..i], a), from)
               + if events[i].aggregate == a && events[i].seqNo > from then [events[i]] else []
  {
    var r := Rows(events[..i], a);
    RowsPrefix(events, i, a);
    hide Rows;
    if events[i].aggregate == a {
      assert Rows(events, a)[|r|] == events[i];
      assert |r| >= from ==> (r + [events[i]])[from..] == r[from..] + [events[i]];
    }
  }

  // ---------------------------------------------------------------- runs of appends

  datatype Request<+E> = Request(aggregate: string, expected: int, bodies: seq<E>)

  /** The store after a sequence of requests on an empty one. */
  function DbAfter<E>(reqs: seq<Request<E>>): Db<E> {
    if reqs == [] then Db(map[], [])
    else
      var r := reqs[|reqs| - 1];
      Appended(DbAfter(reqs[..|reqs| - 1]), r.aggregate, r.expected, r.bodies)
  }

  predicate Accepted<E>(reqs: seq<Request<E>>, i: nat)
    requires i < |reqs|
  {
    Head(DbAfter(reqs[..i]), reqs[i].aggregate) == reqs[i].expected
  }

  lemma {:induction false} RunConsistent<E>(reqs: seq<Request<E>>)
    ensures Consistent(DbAfter(reqs))
  {
    if reqs != [] {
      var r := reqs[|reqs| - 1];
      RunConsistent(reqs[..|reqs| - 1]);
      AppendCorrect(DbAfter(reqs[..|reqs| - 1]), r.aggregate, r.expected, r.bodies);
    }
  }

  lemma {:induction false} HeadsGrow<E>(reqs: seq<Request<E>>, m: nat, a: string)
    requires m <= |reqs|
    ensures Head(DbAfter(reqs[..m]), a) <= Head(DbAfter(reqs), a)
    ensures Log(DbAfter(reqs[..m]), a) <= Log(DbAfter(reqs), a)
  {
    if m == |reqs| {
      assert reqs[..m] == reqs;
    } else {
      var n := |reqs| - 1;
      HeadsGrow(reqs[..n], m, a);
      assert reqs[..n][..m] == reqs[..m];
      RunConsistent(reqs[..n]);
      AppendCorrect(DbAfter(reqs[..n]), reqs[n].aggregate, reqs[n].expected, reqs[n].bodies);
    }
  }

  /** Of the writers that hold one head of one aggregate, at most one gets a non-empty batch in. */
  lemma OneWinnerPerHead<E>(reqs: seq<Request<E>>, i: nat, j: nat)
    requires i < j < |reqs|
    requires reqs[i].aggregate == reqs[j].aggregate && reqs[i].expected == reqs[j].expected
    requires Accepted(reqs, i) && reqs[i].bodies != []
    ensures !Accepted(reqs, j)
  {
    var a := reqs[i].aggregate;
    RunConsistent(reqs[..i]);
    AppendCorrect(DbAfter(reqs[..i]), a, reqs[i].expected, reqs[i].bodies);
    assert reqs[..i + 1][..i] == reqs[..i];
    HeadsGrow(reqs[..j], i + 1, a);
    assert reqs[..j][..i + 1] == reqs[..i + 1];
  }

  // ---------------------------------------------------------------- the store as it runs

  class Store<E> {
    var heads: map<string, int>
    var events: seq<StoredEvent<E>>

    function View(): Db<E>
      reads this
    {
      Db(heads, events)
    }

    constructor ()
      ensures View() == Db(map[], []) && Consistent(View())
    {
      heads, events := map[], [];
    }

    method HeadSeq(a: string) returns (head: int)
      ensures head == Head(View(), a)
    {
      head := if a in heads then heads[a] else 0;
    }

    method Append(a: string, expected: int, bodies: seq<E>) returns (r: Result<int, Conflict>)
      modifies this
      ensures r == AppendResult(old(View()), a, expected, bodies)
      ensures View() == Appended(old(View()), a, expected, bodies)
    {
      var found := HeadSeq(a);
      if found != expected {
        return Err(Conflict(a, expected, found));
      }
      var newHead := found + |bodies|;
      heads := heads[a := newHead];
      var n := found;
      ghost var was := events;
      for i := 0 to |bodies|
        invariant n == found + i && heads == old(heads)[a := newHead]
        invariant events == was + Batch(a, expected, bodies)[..i]
      {
        n := n + 1;
        events := events + [StoredEvent(a, n, bodies[i])];
      }
      assert Batch(a, expected, bodies)[..|bodies|] == Batch(a, expected, bodies);
      return Ok(newHead);
    }

    /** The rows of the aggregate behind the first `from`, in order. */
    method Read(a: string, from: nat) returns (out: seq<StoredEvent<E>>)
      requires Consistent(View())
      ensures from <= Head(View(), a) ==> Bodies(out) == Log(View(), a)[from..]
      ensures from > Head(View(), a) ==> out == []
      ensures forall i :: 0 <= i < |out| ==> out[i].aggregate == a && out[i].seqNo == from + 1 + i
    {
      out := [];
      assert Numbered(Rows(events, a), Head(View(), a));
      assert events[..0] == [] && After(Rows(events[..0], a), from) == [];
      hide Rows;
      for i := 0 to |events|
        invariant out == After(Rows(events[..i], a), from)
      {
        OneMoreRow(events, i, a, from);
        if events[i].aggregate == a && events[i].seqNo > from {
          out := out + [events[i]];
        }
      }
      assert events[..|events|] == events;
    }
  }

  lemma RowsPrefix<E>(events: seq<StoredEvent<E>>, i: nat, a: string)
    requires i < |events|
    ensures Rows(events[..i + 1], a) == Rows(events[..i], a) + (if events[i].aggregate == a then [events[i]] else [])
    ensures Rows(events[..i + 1], a) <= Rows(events, a)
  {
    RowsConcat(events[..i], [events[i]], a);
    assert events[..i] + [events[i]] == events[..i + 1];
    RowsConcat(events[..i + 1], events[i + 1..], a);
    assert events[..i + 1] + events[i + 1..] == events;
  }
}
