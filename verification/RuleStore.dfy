/** The table of persisted permission rules, and what evaluating it over a profile decides. */
module RuleStore {
  import opened Wrappers
  import opened Permission

  datatype RuleRecord = RuleRecord(
    id: nat, profile: string, tool: string, scopePrefix: Option<string>, decision: Decision, createdAt: string)

  datatype Table = Table(rows: seq<RuleRecord>, nextId: nat)

  // ---------------------------------------------------------------- table operations

  predicate SameKey(r: RuleRecord, profile: string, tool: string, scopePrefix: Option<string>) {
    r.profile == profile && r.tool == tool && r.scopePrefix == scopePrefix
  }

  function Filter(rows: seq<RuleRecord>, keep: RuleRecord -> bool): (r: seq<RuleRecord>)
    ensures forall x :: x in r <==> x in rows && keep(x)
  {
    if rows == [] then []
    else
      assert rows == [rows[0]] + rows[1..];
      (if keep(rows[0]) then [rows[0]] else []) + Filter(rows[1..], keep)
  }

  /** Replaces the rule with the same key, if any, by one with a new id. */
  function SetRule(t: Table, profile: string, tool: string, scopePrefix: Option<string>,
                   decision: Decision, createdAt: string): Table
  {
    Table(Filter(t.rows, r => !SameKey(r, profile, tool, scopePrefix))
          + [RuleRecord(t.nextId, profile, tool, scopePrefix, decision, createdAt)],
          t.nextId + 1)
  }

  function RemoveRule(t: Table, id: nat): Table {
    t.(rows := Filter(t.rows, (r: RuleRecord) => r.id != id))
  }

  /** Ids grow along the table and never repeat; no two rules share a key. */
  predicate Valid(t: Table) {
    && IdsAscend(t.rows)
    && (forall i :: 0 <= i < |t.rows| ==> t.rows[i].id < t.nextId)
    && (forall i, j :: 0 <= i < j < |t.rows| ==>
          !SameKey(t.rows[j], t.rows[i].profile, t.rows[i].tool, t.rows[i].scopePrefix))
  }

  predicate IdsAscend(rows: seq<RuleRecord>) {
    forall i, j :: 0 <= i < j < |rows| ==> rows[i].id < rows[j].id
  }

  lemma {:induction false} FilterKeepsOrder(rows: seq<RuleRecord>, keep: RuleRecord -> bool)
    requires IdsAscend(rows)
    ensures IdsAscend(Filter(rows, keep))
  {
    if rows != [] {
      FilterKeepsOrder(rows[1..], keep);
      var f := Filter(rows[1..], keep);
      forall k | 0 <= k < |f|
        ensures rows[0].id < f[k].id
      {
        assert f[k] in rows[1..];
        var m :| 0 <= m < |rows[1..]| && rows[1..][m] == f[k];
      }
    }
  }

  lemma FilterValid(t: Table, keep: RuleRecord -> bool)
    requires Valid(t)
    ensures Valid(t.(rows := Filter(t.rows, keep)))
  {
    var f := Filter(t.rows, keep);
    FilterKeepsOrder(t.rows, keep);
    forall i | 0 <= i < |f|
      ensures f[i] in t.rows
    {
      assert f[i] in f;
    }
    forall i, j | 0 <= i < j < |f|
      ensures !SameKey(f[j], f[i].profile, f[i].tool, f[i].scopePrefix)
    {
      var a :| 0 <= a < |t.rows| && t.rows[a] == f[i];
      var b :| 0 <= b < |t.rows| && t.rows[b] == f[j];
      assert f[i].id < f[j].id;
      assert a < b;
    }
  }

  lemma SetValid(t: Table, profile: string, tool: string, scopePrefix: Option<string>,
                 decision: Decision, createdAt: string)
    requires Valid(t)
    ensures Valid(SetRule(t, profile, tool, scopePrefix, decision, createdAt))
  {
    var keep := r => !SameKey(r, profile, tool, scopePrefix);
    FilterValid(t, keep);
    var f := Filter(t.rows, keep);
    forall i | 0 <= i < |f|
      ensures keep(f[i]) && f[i].id < t.nextId
    {
      assert f[i] in f;
    }
  }

  datatype Op =
    | Set(profile: string, tool: string, scopePrefix: Option<string>, decision: Decision, createdAt: string)
    | Remove(id: nat)

  function Apply(t: Table, op: Op): Table {
    match op
    case Set(p, tool, s, d, c) => SetRule(t, p, tool, s, d, c)
    case Remove(id) => RemoveRule(t, id)
  }

  function TableAfter(ops: seq<Op>): Table {
    if ops == [] then Table([], 1) else Apply(TableAfter(ops[..|ops| - 1]), ops[|ops| - 1])
  }

  /** After any run of sets and removals, keys and ids are unique. */
  lemma {:induction false} RunValid(ops: seq<Op>)
    ensures Valid(TableAfter(ops))
  {
    if ops != [] {
      var t := TableAfter(ops[..|ops| - 1]);
      RunValid(ops[..|ops| - 1]);
      match ops[|ops| - 1]
      case Set(p, tool, s, d, c) => SetValid(t, p, tool, s, d, c);
      case Remove(id) => FilterValid(t, (r: RuleRecord) => r.id != id);
    }
  }

  // ---------------------------------------------------------------- the listing

  function Reverse(rows: seq<RuleRecord>): (r: seq<RuleRecord>)
    ensures |r| == |rows|
    ensures forall i :: 0 <= i < |rows| ==> r[i] == rows[|rows| - 1 - i]
  {
    if rows == [] then [] else Reverse(rows[1..]) + [rows[0]]
  }

  predicate Scoped(r: RuleRecord, profile: string) {
    r.profile == profile && r.scopePrefix.Some?
  }

  predicate Matrix(r: RuleRecord, profile: string) {
    r.profile == profile && r.scopePrefix.None?
  }

  function ScopedRows(rows: seq<RuleRecord>, profile: string): (f: seq<RuleRecord>)
    ensures forall r :: r in f <==> r in rows && Scoped(r, profile)
  {
    Filter(rows, r => Scoped(r, profile))
  }

  function MatrixRows(rows: seq<RuleRecord>, profile: string): (f: seq<RuleRecord>)
    ensures forall r :: r in f <==> r in rows && Matrix(r, profile)
  {
    Filter(rows, r => Matrix(r, profile))
  }

  /** Scoped rules before matrix rules, each newest first. */
  function Listing(t: Table, profile: string): seq<RuleRecord> {
    Reverse(ScopedRows(t.rows, profile)) + Reverse(MatrixRows(t.rows, profile))
  }

  predicate Precedes(a: RuleRecord, b: RuleRecord) {
    (a.scopePrefix.Some? && b.scopePrefix.None?) || (a.scopePrefix.Some? == b.scopePrefix.Some? && a.id > b.id)
  }

  lemma ReversedInOrder(f: seq<RuleRecord>, g: seq<RuleRecord>, i: nat, j: nat)
    requires IdsAscend(f) && IdsAscend(g)
    requires forall k :: 0 <= k < |f| ==> f[k].scopePrefix.Some?
    requires forall k :: 0 <= k < |g| ==> g[k].scopePrefix.None?
    requires i < j < |f| + |g|
    ensures Precedes((Reverse(f) + Reverse(g))[i], (Reverse(f) + Reverse(g))[j])
  {
    hide Reverse;
    var x, y := Reverse(f), Reverse(g);
    if j < |f| {
      assert (x + y)[i] == x[i] == f[|f| - 1 - i] && (x + y)[j] == x[j] == f[|f| - 1 - j];
    } else if i < |f| {
      assert (x + y)[i] == x[i] == f[|f| - 1 - i] && (x + y)[j] == y[j - |f|] == g[|g| - 1 - (j - |f|)];
    } else {
      assert (x + y)[i] == y[i - |f|] == g[|g| - 1 - (i - |f|)];
      assert (x + y)[j] == y[j - |f|] == g[|g| - 1 - (j - |f|)];
    }
  }

  /** The order of the listing, as the query asks for it: scoped rules first, ids descending. */
  lemma ListingOrdered(t: Table, profile: string, i: nat, j: nat)
    requires Valid(t) && i < j < |Listing(t, profile)|
    ensures Precedes(Listing(t, profile)[i], Listing(t, profile)[j])
  {
    var f, g := ScopedRows(t.rows, profile), MatrixRows(t.rows, profile);
    FilterKeepsOrder(t.rows, r => Scoped(r, profile));
    FilterKeepsOrder(t.rows, r => Matrix(r, profile));
    assert forall k :: 0 <= k < |f| ==> f[k] in f;
    assert forall k :: 0 <= k < |g| ==> g[k] in g;
    ReversedInOrder(f, g, i, j);
  }

  lemma ListingMembers(t: Table, profile: string)
    ensures forall r :: r in Listing(t, profile) <==> r in t.rows && r.profile == profile
  {
    var f, g := ScopedRows(t.rows, profile), MatrixRows(t.rows, profile);
    forall r
      ensures r in Listing(t, profile) <==> r in t.rows && r.profile == profile
    {
      if r in f {
        var k :| 0 <= k < |f| && f[k] == r;
        assert Reverse(f)[|f| - 1 - k] == r;
      }
      if r in g {
        var k :| 0 <= k < |g| && g[k] == r;
        assert Reverse(g)[|g| - 1 - k] == r;
      }
    }
  }

  function ToRules(rows: seq<RuleRecord>): (r: seq<Rule>)
    ensures |r| == |rows|
    ensures forall i :: 0 <= i < |rows| ==> r[i] == Rule(rows[i].tool, rows[i].scopePrefix, rows[i].decision)
  {
    seq(|rows|, i requires 0 <= i < |rows| => Rule(rows[i].tool, rows[i].scopePrefix, rows[i].decision))
  }

  /** What a session of the profile decides: the persisted rules laid over the profile's own. */
  function Effective(t: Table, base: seq<Rule>, profile: string, tool: string, scope: string): Decision {
    Evaluate(Overlay(base, ToRules(Listing(t, profile))), tool, scope)
  }

  predicate Hit(r: RuleRecord, profile: string, tool: string, scope: string) {
    r.profile == profile && r.tool == tool && Fits(r.scopePrefix, scope)
  }

  /** `a` outranks `b`: scoped over matrix, then newer over older. */
  predicate Outranks(a: RuleRecord, b: RuleRecord) {
    (a.scopePrefix.Some? && b.scopePrefix.None?) || (a.scopePrefix.Some? == b.scopePrefix.Some? && a.id >= b.id)
  }

  /** The rule that decides: it applies, and outranks every rule that applies. */
  ghost predicate Winner(t: Table, w: RuleRecord, profile: string, tool: string, scope: string) {
    && w in t.rows && Hit(w, profile, tool, scope)
    && forall r :: r in t.rows && Hit(r, profile, tool, scope) ==> Outranks(w, r)
  }

  /** The newest scoped rule whose prefix fits decides, else the matrix rule of the tool, else the
      profile itself. */
  lemma KeyedEvaluation(t: Table, base: seq<Rule>, profile: string, tool: string, scope: string)
    requires Valid(t)
    ensures forall w :: Winner(t, w, profile, tool, scope) ==> Effective(t, base, profile, tool, scope) == w.decision
    ensures (forall r :: r in t.rows ==> !Hit(r, profile, tool, scope))
            ==> Effective(t, base, profile, tool, scope) == Evaluate(base, tool, scope)
    ensures (exists r :: r in t.rows && Hit(r, profile, tool, scope)) ==> exists w :: Winner(t, w, profile, tool, scope)
  {
    if exists r :: r in t.rows && Hit(r, profile, tool, scope) {
      var w0 := DecidedByWinner(t, base, profile, tool, scope);
      forall w | Winner(t, w, profile, tool, scope)
        ensures w == w0
      {
        WinnerUnique(t, w, w0, profile, tool, scope);
      }
    } else {
      NoHitNoOverride(t, base, profile, tool, scope);
    }
  }

  lemma NoHitNoOverride(t: Table, base: seq<Rule>, profile: string, tool: string, scope: string)
    requires forall r :: r in t.rows ==> !Hit(r, profile, tool, scope)
    ensures Effective(t, base, profile, tool, scope) == Evaluate(base, tool, scope)
  {
    var list := Listing(t, profile);
    ListingMembers(t, profile);
    OverlayDecides(base, ToRules(list), tool, scope);
    forall i | 0 <= i < |list|
      ensures !Matches(ToRules(list)[i], tool, scope)
    {
      assert list[i] in list;
    }
  }

  lemma DecidedByWinner(t: Table, base: seq<Rule>, profile: string, tool: string, scope: string)
    returns (w: RuleRecord)
    requires Valid(t) && exists r :: r in t.rows && Hit(r, profile, tool, scope)
    ensures Winner(t, w, profile, tool, scope) && Effective(t, base, profile, tool, scope) == w.decision
  {
    var list := Listing(t, profile);
    var rules := ToRules(list);
    ListingMembers(t, profile);
    var r :| r in t.rows && Hit(r, profile, tool, scope);
    assert r in list;
    var k :| 0 <= k < |list| && list[k] == r;
    var i := LeastHit(list, profile, tool, scope, k);
    w := list[i];
    LeastHitWins(t, profile, tool, scope, i);
    forall j | 0 <= j < |list|
      ensures Matches(rules[j], tool, scope) <==> Hit(list[j], profile, tool, scope)
    {
      assert list[j] in list;
    }
    FirstMatchDecides(rules, tool, scope, i);
    OverlayDecides(base, rules, tool, scope);
    assert Matches(rules[i], tool, scope);
  }

  function LeastHit(list: seq<RuleRecord>, profile: string, tool: string, scope: string, k: nat): (i: nat)
    requires k < |list| && Hit(list[k], profile, tool, scope)
    ensures i <= k && Hit(list[i], profile, tool, scope)
    ensures forall j :: 0 <= j < i ==> !Hit(list[j], profile, tool, scope)
  {
    if Hit(list[0], profile, tool, scope) then 0 else 1 + LeastHit(list[1..], profile, tool, scope, k - 1)
  }

  lemma LeastHitWins(t: Table, profile: string, tool: string, scope: string, i: nat)
    requires Valid(t) && i < |Listing(t, profile)| && Hit(Listing(t, profile)[i], profile, tool, scope)
    requires forall j :: 0 <= j < i ==> !Hit(Listing(t, profile)[j], profile, tool, scope)
    ensures Winner(t, Listing(t, profile)[i], profile, tool, scope)
  {
    ListingMembers(t, profile);
    hide Listing, Valid, Outranks, Precedes, Fits;
    var list := Listing(t, profile);
    assert list[i] in list;
    forall r | r in t.rows && Hit(r, profile, tool, scope)
      ensures Outranks(list[i], r)
    {
      assert r in list;
      var j :| 0 <= j < |list| && list[j] == r;
      if i < j {
        ListingOrdered(t, profile, i, j);
      }
      OutranksByOrder(list[i], r);
    }
  }

  lemma OutranksByOrder(a: RuleRecord, b: RuleRecord)
    ensures a == b || Precedes(a, b) ==> Outranks(a, b)
  {
  }

  lemma WinnerUnique(t: Table, v: RuleRecord, w: RuleRecord, profile: string, tool: string, scope: string)
    requires Valid(t) && Winner(t, v, profile, tool, scope) && Winner(t, w, profile, tool, scope)
    ensures v == w
  {
    assert Outranks(v, w) && Outranks(w, v);
    var i :| 0 <= i < |t.rows| && t.rows[i] == v;
    var j :| 0 <= j < |t.rows| && t.rows[j] == w;
  }

  // ---------------------------------------------------------------- what a change changes

  lemma SetMembers(t: Table, profile: string, tool: string, scopePrefix: Option<string>,
                   decision: Decision, createdAt: string)
    ensures var t' := SetRule(t, profile, tool, scopePrefix, decision, createdAt);
            forall r :: r in t'.rows <==> r == RuleRecord(t.nextId, profile, tool, scopePrefix, decision, createdAt)
                                          || (r in t.rows && !SameKey(r, profile, tool, scopePrefix))
  {
  }

  /** Two tables in which the same rules apply decide alike. */
  lemma SameHitsSameDecision(t: Table, t': Table, base: seq<Rule>, profile: string, tool: string, scope: string)
    requires Valid(t) && Valid(t')
    requires forall r :: Hit(r, profile, tool, scope) ==> (r in t.rows <==> r in t'.rows)
    ensures Effective(t, base, profile, tool, scope) == Effective(t', base, profile, tool, scope)
  {
    KeyedEvaluation(t, base, profile, tool, scope);
    KeyedEvaluation(t', base, profile, tool, scope);
    if r :| r in t.rows && Hit(r, profile, tool, scope) {
      var w :| Winner(t, w, profile, tool, scope);
      assert Winner(t', w, profile, tool, scope);
    }
  }

  /** A scoped set decides every scope its prefix covers, at once; a matrix set decides every scope
      of the tool that no scoped rule covers; nothing else changes: not another tool or profile,
      not a scope outside the prefix, not a scope held by a scoped rule. */
  lemma SetTakesEffect(t: Table, base: seq<Rule>,
                       p: string, tool: string, prefix: Option<string>, d: Decision, at: string,
                       p': string, tool': string, scope: string)
    requires Valid(t)
    ensures var t' := SetRule(t, p, tool, prefix, d, at);
            var covered := p' == p && tool' == tool && Fits(prefix, scope)
                           && (prefix.None? ==>
                                 forall r :: r in t.rows && r.scopePrefix.Some? ==> !Hit(r, p, tool, scope));
            Effective(t', base, p', tool', scope) == if covered then d else Effective(t, base, p', tool', scope)
  {
    var t' := SetRule(t, p, tool, prefix, d, at);
    SetValid(t, p, tool, prefix, d, at);
    SetMembers(t, p, tool, prefix, d, at);
    if p' == p && tool' == tool && Fits(prefix, scope) {
      if prefix.Some? || forall r :: r in t.rows && r.scopePrefix.Some? ==> !Hit(r, p, tool, scope) {
        var added := RuleRecord(t.nextId, p, tool, prefix, d, at);
        assert Winner(t', added, p, tool, scope);
        KeyedEvaluation(t', base, p, tool, scope);
      } else {
        MatrixSetYields(t, base, p, tool, d, at, scope);
      }
    } else {
      SameHitsSameDecision(t, t', base, p', tool', scope);
    }
  }

  lemma MatrixSetYields(t: Table, base: seq<Rule>, p: string, tool: string, d: Decision, at: string, scope: string)
    requires Valid(t) && exists r :: r in t.rows && r.scopePrefix.Some? && Hit(r, p, tool, scope)
    ensures Effective(SetRule(t, p, tool, None, d, at), base, p, tool, scope) == Effective(t, base, p, tool, scope)
  {
    var t' := SetRule(t, p, tool, None, d, at);
    SetValid(t, p, tool, None, d, at);
    SetMembers(t, p, tool, None, d, at);
    KeyedEvaluation(t, base, p, tool, scope);
    KeyedEvaluation(t', base, p, tool, scope);
    var r :| r in t.rows && r.scopePrefix.Some? && Hit(r, p, tool, scope);
    var w :| Winner(t, w, p, tool, scope);
    assert Outranks(w, r);
    assert Winner(t', w, p, tool, scope);
  }

  /** Removing a rule changes nothing where that rule did not apply or did not win. */
  lemma RemoveTakesEffect(t: Table, base: seq<Rule>, id: nat, profile: string, tool: string, scope: string)
    requires Valid(t)
    requires forall w :: Winner(t, w, profile, tool, scope) ==> w.id != id
    ensures Valid(RemoveRule(t, id))
    ensures Effective(RemoveRule(t, id), base, profile, tool, scope) == Effective(t, base, profile, tool, scope)
  {
    var t' := RemoveRule(t, id);
    FilterValid(t, (r: RuleRecord) => r.id != id);
    KeyedEvaluation(t, base, profile, tool, scope);
    KeyedEvaluation(t', base, profile, tool, scope);
    if r :| r in t.rows && Hit(r, profile, tool, scope) {
      var w :| Winner(t, w, profile, tool, scope);
      assert Winner(t', w, profile, tool, scope);
    }
  }

  /** Removing leaves exactly the rules of other ids. Where the removed rule decided, the next one in rank
      does, or the profile itself if no other applies. */
  lemma RemoveReveals(t: Table, base: seq<Rule>, id: nat, profile: string, tool: string, scope: string)
    requires Valid(t)
    ensures var t' := RemoveRule(t, id);
            Valid(t') && t'.nextId == t.nextId && forall r :: r in t'.rows <==> r in t.rows && r.id != id
    ensures forall v :: NextInRank(t, id, v, profile, tool, scope) ==>
              Effective(RemoveRule(t, id), base, profile, tool, scope) == v.decision
    ensures (forall r :: r in t.rows && Hit(r, profile, tool, scope) ==> r.id == id) ==>
              Effective(RemoveRule(t, id), base, profile, tool, scope) == Evaluate(base, tool, scope)
  {
    var t' := RemoveRule(t, id);
    FilterValid(t, (r: RuleRecord) => r.id != id);
    KeyedEvaluation(t', base, profile, tool, scope);
    forall v | NextInRank(t, id, v, profile, tool, scope)
      ensures Winner(t', v, profile, tool, scope)
    {
    }
  }

  /** Applies and outranks every other rule that applies, the one of the id left aside. */
  ghost predicate NextInRank(t: Table, id: nat, v: RuleRecord, profile: string, tool: string, scope: string) {
    && v in t.rows && v.id != id && Hit(v, profile, tool, scope)
    && forall r :: r in t.rows && r.id != id && Hit(r, profile, tool, scope) ==> Outranks(v, r)
  }

  lemma ListingStep(r: RuleRecord, rows: seq<RuleRecord>, profile: string)
    ensures Reverse(ScopedRows([r] + rows, profile))
            == Reverse(ScopedRows(rows, profile)) + (if Scoped(r, profile) then [r] else [])
    ensures Reverse(MatrixRows([r] + rows, profile))
            == Reverse(MatrixRows(rows, profile)) + (if Matrix(r, profile) then [r] else [])
  {
    assert ([r] + rows)[1..] == rows;
    assert ScopedRows([r] + rows, profile) == (if Scoped(r, profile) then [r] else []) + ScopedRows(rows, profile);
    assert MatrixRows([r] + rows, profile) == (if Matrix(r, profile) then [r] else []) + MatrixRows(rows, profile);
  }

  // ---------------------------------------------------------------- the store as it runs

  class Store {
    var rows: seq<RuleRecord>
    var nextId: nat

    function View(): Table
      reads this
    {
      Table(rows, nextId)
    }

    constructor ()
      ensures View() == Table([], 1) && Valid(View())
    {
      rows, nextId := [], 1;
    }

    method Delete(keep: RuleRecord -> bool) returns (n: nat)
      modifies this`rows
      ensures rows == Filter(old(rows), keep)
      ensures n == |old(rows)| - |rows|
    {
      hide Filter;
      var kept, before := [], rows;
      assert before[0..] == before && [] + Filter(before, keep) == Filter(before, keep);
      for i := 0 to |before|
        invariant kept + Filter(before[i..], keep) == Filter(before, keep)
      {
        FilterFrom(before, i, keep);
        if keep(before[i]) {
          kept := kept + [before[i]];
        }
      }
      FilterNone(keep);
      FilterLength(before, keep);
      assert before[|before|..] == [] && kept + [] == kept;
      n := |before| - |kept|;
      rows := kept;
    }

    method Set(profile: string, tool: string, scopePrefix: Option<string>, decision: Decision, createdAt: string)
      returns (record: RuleRecord)
      requires Valid(View())
      modifies this
      ensures View() == SetRule(old(View()), profile, tool, scopePrefix, decision, createdAt) && Valid(View())
      ensures record == RuleRecord(old(nextId), profile, tool, scopePrefix, decision, createdAt)
    {
      SetValid(View(), profile, tool, scopePrefix, decision, createdAt);
      var _ := Delete(r => !SameKey(r, profile, tool, scopePrefix));
      record := RuleRecord(nextId, profile, tool, scopePrefix, decision, createdAt);
      rows := rows + [record];
      nextId := nextId + 1;
    }

    method Remove(id: nat) returns (existed: bool)
      requires Valid(View())
      modifies this
      ensures View() == RemoveRule(old(View()), id) && Valid(View())
      ensures existed <==> exists r :: r in old(rows) && r.id == id
    {
      FilterValid(View(), (r: RuleRecord) => r.id != id);
      FilterLength(rows, (r: RuleRecord) => r.id != id);
      var n := Delete((r: RuleRecord) => r.id != id);
      existed := n > 0;
    }

    method ListForProfile(profile: string) returns (list: seq<RuleRecord>)
      ensures list == Listing(View(), profile)
    {
      var scoped, matrix := [], [];
      var i := |rows|;
      while i > 0
        invariant 0 <= i <= |rows|
        invariant scoped == Reverse(ScopedRows(rows[i..], profile))
        invariant matrix == Reverse(MatrixRows(rows[i..], profile))
      {
        i := i - 1;
        assert rows[i..] == [rows[i]] + rows[i + 1..];
        ListingStep(rows[i], rows[i + 1..], profile);
        if Scoped(rows[i], profile) {
          scoped := scoped + [rows[i]];
        }
        if Matrix(rows[i], profile) {
          matrix := matrix + [rows[i]];
        }
      }
      assert rows[0..] == rows;
      list := scoped + matrix;
    }
  }

  lemma FilterNone(keep: RuleRecord -> bool)
    ensures Filter([], keep) == []
  {
  }

  lemma FilterFrom(rows: seq<RuleRecord>, i: nat, keep: RuleRecord -> bool)
    requires i < |rows|
    ensures Filter(rows[i..], keep) == (if keep(rows[i]) then [rows[i]] else []) + Filter(rows[i + 1..], keep)
  {
    assert rows[i..][1..] == rows[i + 1..];
  }

  lemma {:induction false} FilterLength(rows: seq<RuleRecord>, keep: RuleRecord -> bool)
    ensures |Filter(rows, keep)| <= |rows|
    ensures |Filter(rows, keep)| == |rows| <==> forall r :: r in rows ==> keep(r)
  {
    if rows != [] {
      assert rows == [rows[0]] + rows[1..];
      FilterLength(rows[1..], keep);
    }
  }
}
