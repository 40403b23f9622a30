/** The pool of squad processes: a counting semaphore in front of a list of free slots.

    Each atomic action of a client is a step; clients interleave freely. A lease that is dropped
    pushes its slot and then releases its permit. An acquire that fails after taking its slot
    (spawn or readiness fails, or the waiting task is cancelled) releases the permit but not the
    slot: that slot is leaked, and the model keeps count of it. */
module SquadPool {

  datatype Client = HasPermit | Starting(slot: nat) | Leased(slot: nat) | Returned

  datatype Pool = Pool(
    capacity: nat,
    permits: nat,
    free: seq<nat>,
    leaked: set<nat>,
    clients: map<nat, Client>)

  datatype Step =
    | TakePermit(c: nat)
    | Pop(c: nat)
    | PopPanics(c: nat)
    | Ready(c: nat)
    | Fail(c: nat)
    | Push(c: nat)
    | Release(c: nat)

  function New(capacity: nat): Pool {
    Pool(capacity, capacity, seq(capacity, i => i), {}, map[])
  }

  predicate Enabled(p: Pool, s: Step) {
    match s
    case TakePermit(c) => c !in p.clients && p.permits > 0
    case Pop(c) => c in p.clients && p.clients[c].HasPermit? && p.free != []
    case PopPanics(c) => c in p.clients && p.clients[c].HasPermit? && p.free == []
    case Ready(c) => c in p.clients && p.clients[c].Starting?
    case Fail(c) => c in p.clients && p.clients[c].Starting?
    case Push(c) => c in p.clients && p.clients[c].Leased?
    case Release(c) => c in p.clients && p.clients[c].Returned?
  }

  function Next(p: Pool, s: Step): Pool
    requires Enabled(p, s)
  {
    match s
    case TakePermit(c) => p.(permits := p.permits - 1, clients := p.clients[c := HasPermit])
    case Pop(c) =>
      var n := |p.free| - 1;
      p.(free := p.free[..n], clients := p.clients[c := Starting(p.free[n])])
    case PopPanics(c) => p.(permits := p.permits + 1, clients := p.clients - {c})
    case Ready(c) => p.(clients := p.clients[c := Leased(p.clients[c].slot)])
    case Fail(c) =>
      p.(permits := p.permits + 1, leaked := p.leaked + {p.clients[c].slot}, clients := p.clients - {c})
    case Push(c) => p.(free := p.free + [p.clients[c].slot], clients := p.clients[c := Returned])
    case Release(c) => p.(permits := p.permits + 1, clients := p.clients - {c})
  }

  // ---------------------------------------------------------------- the invariant

  predicate Holds(k: Client) {
    k.Starting? || k.Leased?
  }

  function Holders(p: Pool): set<nat> {
    set c | c in p.clients && Holds(p.clients[c])
  }

  /** Clients between the permit and the pop, or between the push and the release. */
  function InGap(p: Pool): set<nat> {
    set c | c in p.clients && !Holds(p.clients[c])
  }

  /** Free, held and leaked slots are all slots, without repeats, and no slot has two holders. */
  ghost predicate SlotsPartitioned(p: Pool) {
    && (forall i, j :: 0 <= i < j < |p.free| ==> p.free[i] != p.free[j])
    && (forall x :: x in p.free ==> x < p.capacity && x !in p.leaked)
    && (forall x :: x in p.leaked ==> x < p.capacity)
    && (forall c :: c in Holders(p) ==>
          p.clients[c].slot < p.capacity && p.clients[c].slot !in p.free && p.clients[c].slot !in p.leaked)
    && (forall c, d :: c in Holders(p) && d in Holders(p) && c != d ==> p.clients[c].slot != p.clients[d].slot)
    && (forall x :: 0 <= x < p.capacity ==>
          x in p.free || x in p.leaked || exists c :: c in Holders(p) && p.clients[c].slot == x)
  }

  predicate CountsMatch(p: Pool) {
    && p.permits + |p.clients| == p.capacity
    && |p.free| + |p.leaked| + |Holders(p)| == p.capacity
  }

  ghost predicate Inv(p: Pool) {
    SlotsPartitioned(p) && CountsMatch(p)
  }

  lemma NewInv(capacity: nat)
    ensures Inv(New(capacity))
  {
    var p := New(capacity);
    forall x | 0 <= x < capacity
      ensures x in p.free
    {
      assert p.free[x] == x;
    }
    assert Holders(p) == {};
  }

  lemma StepKeepsCounts(p: Pool, s: Step)
    requires CountsMatch(p) && Enabled(p, s)
    requires s.Fail? ==> p.clients[s.c].slot !in p.leaked
    ensures CountsMatch(Next(p, s))
  {
    var p' := Next(p, s);
    var c := s.c;
    assert |p'.clients| == |p'.clients.Keys| && |p.clients| == |p.clients.Keys|;
    if s.TakePermit? {
      assert p'.clients.Keys == p.clients.Keys + {c};
    } else if s.PopPanics? || s.Fail? || s.Release? {
      assert p'.clients.Keys == p.clients.Keys - {c};
    } else {
      assert p'.clients.Keys == p.clients.Keys;
    }
    HoldersAfter(p, s);
  }

  lemma HoldersAfter(p: Pool, s: Step)
    requires Enabled(p, s)
    ensures Holders(Next(p, s)) == match s
                                   case Pop(c) => Holders(p) + {c}
                                   case Fail(c) => Holders(p) - {c}
                                   case Push(c) => Holders(p) - {c}
                                   case _ => Holders(p)
    ensures s.c in Holders(p) <==> s.Fail? || s.Push? || s.Ready?
  {
  }

  lemma PopKeepsPartition(p: Pool, c: nat)
    requires SlotsPartitioned(p) && Enabled(p, Pop(c))
    ensures SlotsPartitioned(Next(p, Pop(c)))
  {
    var p' := Next(p, Pop(c));
    var n := |p.free| - 1;
    HoldersAfter(p, Pop(c));
    forall x
      ensures x in p.free <==> x in p'.free || x == p.free[n]
      ensures p.free[n] !in p'.free
    {
      assert p.free == p'.free + [p.free[n]];
    }
    assert c in Holders(p') && p'.clients[c].slot == p.free[n];
    forall x | 0 <= x < p.capacity
      ensures x in p'.free || x in p'.leaked || exists d :: d in Holders(p') && p'.clients[d].slot == x
    {
      if x !in p.free && x !in p.leaked {
        var d :| d in Holders(p) && p.clients[d].slot == x;
        assert d in Holders(p') && p'.clients[d].slot == x;
      }
    }
  }

  lemma PushKeepsPartition(p: Pool, c: nat)
    requires SlotsPartitioned(p) && Enabled(p, Push(c))
    ensures SlotsPartitioned(Next(p, Push(c)))
  {
    var p' := Next(p, Push(c));
    HoldersAfter(p, Push(c));
    forall x | 0 <= x < p.capacity
      ensures x in p'.free || x in p'.leaked || exists d :: d in Holders(p') && p'.clients[d].slot == x
    {
      if x !in p'.free && x !in p.leaked {
        var d :| d in Holders(p) && p.clients[d].slot == x;
        assert d in Holders(p') && p'.clients[d].slot == x;
      }
    }
  }

  lemma FailKeepsPartition(p: Pool, c: nat)
    requires SlotsPartitioned(p) && Enabled(p, Fail(c))
    ensures SlotsPartitioned(Next(p, Fail(c)))
  {
    var p' := Next(p, Fail(c));
    HoldersAfter(p, Fail(c));
    forall x | 0 <= x < p.capacity
      ensures x in p'.free || x in p'.leaked || exists d :: d in Holders(p') && p'.clients[d].slot == x
    {
      if x !in p.free && x !in p'.leaked {
        var d :| d in Holders(p) && p.clients[d].slot == x;
        assert d in Holders(p') && p'.clients[d].slot == x;
      }
    }
  }

  /** The other steps move no slot. */
  lemma OtherKeepsPartition(p: Pool, s: Step)
    requires SlotsPartitioned(p) && Enabled(p, s) && !s.Pop? && !s.Push? && !s.Fail?
    ensures SlotsPartitioned(Next(p, s))
  {
    var p' := Next(p, s);
    HoldersAfter(p, s);
    forall d | d in Holders(p)
      ensures p'.clients[d].slot == p.clients[d].slot
    {
    }
    forall x | 0 <= x < p.capacity
      ensures x in p'.free || x in p'.leaked || exists d :: d in Holders(p') && p'.clients[d].slot == x
    {
      if x !in p.free && x !in p.leaked {
        var d :| d in Holders(p) && p.clients[d].slot == x;
        assert d in Holders(p') && p'.clients[d].slot == x;
      }
    }
  }

  /** Every step of every client keeps the invariant. */
  lemma StepKeepsInv(p: Pool, s: Step)
    requires Inv(p) && Enabled(p, s)
    ensures Inv(Next(p, s))
  {
    HoldersAfter(p, s);
    StepKeepsCounts(p, s);
    match s
    case Pop(c) => PopKeepsPartition(p, c);
    case Push(c) => PushKeepsPartition(p, c);
    case Fail(c) => FailKeepsPartition(p, c);
    case _ => OtherKeepsPartition(p, s);
  }

  /** Free plus leaked slots equal free permits plus clients in a gap. */
  lemma SlotsMatchPermits(p: Pool)
    requires Inv(p)
    ensures |p.free| + |p.leaked| == p.permits + |InGap(p)|
  {
    assert p.clients.Keys == Holders(p) + InGap(p);
    assert |p.clients| == |p.clients.Keys|;
  }

  // ---------------------------------------------------------------- runs

  predicate CanRun(p: Pool, steps: seq<Step>)
    decreases |steps|
  {
    steps == [] || (Enabled(p, steps[0]) && CanRun(Next(p, steps[0]), steps[1..]))
  }

  function After(p: Pool, steps: seq<Step>): Pool
    requires CanRun(p, steps)
    decreases |steps|
  {
    if steps == [] then p else After(Next(p, steps[0]), steps[1..])
  }

  lemma {:induction false} RunKeepsInv(p: Pool, steps: seq<Step>)
    requires Inv(p) && CanRun(p, steps)
    ensures Inv(After(p, steps))
    decreases |steps|
  {
    if steps != [] {
      StepKeepsInv(p, steps[0]);
      RunKeepsInv(Next(p, steps[0]), steps[1..]);
    }
  }

  predicate NoFailure(steps: seq<Step>) {
    forall i :: 0 <= i < |steps| ==> !steps[i].Fail?
  }

  lemma NoPanicYet(p: Pool, step: Step)
    requires Inv(p) && p.leaked == {} && Enabled(p, step) && !step.Fail?
    ensures !step.PopPanics? && Next(p, step).leaked == {}
  {
    assert step.PopPanics? ==> step.c in InGap(p);
    SlotsMatchPermits(p);
  }

  /** As long as no slot has leaked and no acquire fails, a client with a permit always finds a free
      slot: no run ever reaches the panic. */
  lemma {:induction false} NoLeakNoPanic(p: Pool, steps: seq<Step>)
    requires Inv(p) && p.leaked == {} && CanRun(p, steps) && NoFailure(steps)
    ensures After(p, steps).leaked == {}
    ensures forall i :: 0 <= i < |steps| ==> !steps[i].PopPanics?
    decreases |steps|
  {
    if steps != [] {
      NoPanicYet(p, steps[0]);
      StepKeepsInv(p, steps[0]);
      hide Inv, Next, Enabled;
      NoLeakNoPanic(Next(p, steps[0]), steps[1..]);
      assert forall i :: 0 < i < |steps| ==> steps[i] == steps[1..][i - 1];
    }
  }

  // ---------------------------------------------------------------- what a leak leads to

  ghost function Max(s: set<nat>): (m: nat)
    ensures forall x :: x in s ==> x <= m
  {
    if s == {} then 0
    else
      var x :| x in s;
      var m := Max(s - {x});
      assert s == (s - {x}) + {x};
      if x > m then x else m
  }

  function ReturnedClients(p: Pool): set<nat> {
    set c | c in p.clients && p.clients[c].Returned?
  }

  /** With a leaked slot there is always a harmless step that brings the panic closer: let a
      client finish returning, else let a newcomer take a permit, else let a permit holder pop. */
  lemma StepTowardsPanic(p: Pool) returns (s: Step)
    requires Inv(p) && p.leaked != {}
    ensures Enabled(p, s) && !s.Fail?
    ensures s.PopPanics? || (s.Release? && ReturnedClients(Next(p, s)) < ReturnedClients(p))
            || (s.TakePermit? && ReturnedClients(Next(p, s)) == ReturnedClients(p))
            || (s.Pop? && ReturnedClients(Next(p, s)) == ReturnedClients(p) && p.permits == 0)
  {
    if c :| c in p.clients && p.clients[c].Returned? {
      s := Release(c);
      assert c in ReturnedClients(p) && c !in ReturnedClients(Next(p, s));
    } else if p.permits > 0 {
      s := TakePermit(Max(p.clients.Keys) + 1);
    } else {
      SlotsMatchPermits(p);
      assert InGap(p) != {};
      var c :| c in InGap(p);
      s := if p.free == [] then PopPanics(c) else Pop(c);
    }
  }

  lemma SmallerSet(a: set<nat>, b: set<nat>)
    requires a < b
    ensures |a| < |b|
  {
    assert b == a + (b - a);
  }

  /** Once a slot has leaked, clients that only acquire and release, with no further failure, can
      be scheduled so that one of them holds a permit and finds no slot. */
  lemma LeakLeadsToPanic(p: Pool) returns (steps: seq<Step>)
    requires Inv(p) && p.leaked != {}
    ensures CanRun(p, steps) && NoFailure(steps)
    ensures steps != [] && steps[|steps| - 1].PopPanics?
    decreases |ReturnedClients(p)|, p.permits, |p.free|
  {
    var s := StepTowardsPanic(p);
    steps := [s];
    if !s.PopPanics? {
      if s.Release? {
        SmallerSet(ReturnedClients(Next(p, s)), ReturnedClients(p));
      }
      StepKeepsInv(p, s);
      var rest := LeakLeadsToPanic(Next(p, s));
      steps := steps + rest;
      assert steps[1..] == rest;
    }
  }

  ghost predicate PanicReachable(p: Pool) {
    exists steps: seq<Step> :: CanRun(p, steps) && NoFailure(steps) && steps != [] && steps[|steps| - 1].PopPanics?
  }

  /** The one-to-one promise between permits and free slots holds exactly as long as no slot has
      leaked: a panic is reachable without a further failure if and only if one has. */
  lemma PanicExactlyAfterLeak(p: Pool)
    requires Inv(p)
    ensures PanicReachable(p) <==> p.leaked != {}
  {
    if p.leaked != {} {
      var steps := LeakLeadsToPanic(p);
    } else if PanicReachable(p) {
      var steps: seq<Step> :| CanRun(p, steps) && NoFailure(steps) && steps != [] && steps[|steps| - 1].PopPanics?;
      NoLeakNoPanic(p, steps);
    }
  }

  /** One failing acquire is enough: from a new pool it leads to a leak, and from there to the panic. */
  lemma FailureLeadsToPanic(capacity: nat)
    requires capacity > 0
    ensures var p := New(capacity);
            && CanRun(p, [TakePermit(0), Pop(0), Fail(0)])
            && After(p, [TakePermit(0), Pop(0), Fail(0)]).leaked == {capacity - 1}
            && PanicReachable(After(p, [TakePermit(0), Pop(0), Fail(0)]))
  {
    hide CanRun, After, Inv, PanicReachable, New, Next, Enabled;
    var p := New(capacity);
    NewInv(capacity);
    FirstFailure(capacity);
    var p1 := Next(p, TakePermit(0));
    var p2 := Next(p1, Pop(0));
    var p3 := Next(p2, Fail(0));
    NoStep(p3);
    OneStep(p2, Fail(0), []);
    OneStep(p1, Pop(0), [Fail(0)] + []);
    OneStep(p, TakePermit(0), [Pop(0)] + ([Fail(0)] + []));
    var steps := [TakePermit(0)] + ([Pop(0)] + ([Fail(0)] + []));
    assert steps == [TakePermit(0), Pop(0), Fail(0)];
    RunKeepsInv(p, steps);
    PanicExactlyAfterLeak(p3);
  }

  lemma FirstFailure(capacity: nat)
    requires capacity > 0
    ensures var p := New(capacity);
            && Enabled(p, TakePermit(0)) && Enabled(Next(p, TakePermit(0)), Pop(0))
            && Enabled(Next(Next(p, TakePermit(0)), Pop(0)), Fail(0))
            && Next(Next(Next(p, TakePermit(0)), Pop(0)), Fail(0)).leaked == {capacity - 1}
  {
    var p2 := Next(Next(New(capacity), TakePermit(0)), Pop(0));
    assert p2.clients[0] == Starting(capacity - 1);
  }

  lemma NoStep(p: Pool)
    ensures CanRun(p, []) && After(p, []) == p
  {
  }

  lemma OneStep(p: Pool, step: Step, rest: seq<Step>)
    requires Enabled(p, step) && CanRun(Next(p, step), rest)
    ensures CanRun(p, [step] + rest) && After(p, [step] + rest) == After(Next(p, step), rest)
  {
    assert ([step] + rest)[1..] == rest;
  }

  /** In every run from a new pool: no slot has two holders, at most `capacity` minus the leaked
      slots are held at once, and without failures no client ever panics. */
  lemma PoolSafety(capacity: nat, steps: seq<Step>)
    requires CanRun(New(capacity), steps)
    ensures var p := After(New(capacity), steps);
            && Inv(p)
            && |Holders(p)| + |p.leaked| <= capacity
            && |p.free| + |p.leaked| == p.permits + |InGap(p)|
    ensures NoFailure(steps) ==> forall i :: 0 <= i < |steps| ==> !steps[i].PopPanics?
  {
    var p := New(capacity);
    NewInv(capacity);
    RunKeepsInv(p, steps);
    CapacityConstant(p, steps);
    SlotsMatchPermits(After(p, steps));
    if NoFailure(steps) {
      NoLeakNoPanic(p, steps);
    }
  }

  lemma {:induction false} CapacityConstant(p: Pool, steps: seq<Step>)
    requires CanRun(p, steps)
    ensures After(p, steps).capacity == p.capacity
    decreases |steps|
  {
    if steps != [] {
      CapacityConstant(Next(p, steps[0]), steps[1..]);
    }
  }

  // ---------------------------------------------------------------- the pool as it runs

  /** The shared state of the pool, one method per atomic action. */
  class SquadPool {
    const capacity: nat
    var permits: nat
    var free: seq<nat>

    constructor (capacity: nat)
      requires capacity > 0
      ensures this.capacity == capacity && permits == capacity && free == New(capacity).free
    {
      this.capacity := capacity;
      permits := capacity;
      free := seq(capacity, i => i);
    }

    predicate Shows(p: Pool)
      reads this
    {
      capacity == p.capacity && permits == p.permits && free == p.free
    }

    /** Waits for a permit; here, takes one that is available. */
    method AcquireOwned(ghost p: Pool, ghost c: nat)
      requires Shows(p) && Enabled(p, TakePermit(c))
      modifies this
      ensures Shows(Next(p, TakePermit(c)))
    {
      permits := permits - 1;
    }

    method PopFree(ghost p: Pool, ghost c: nat) returns (slot: nat)
      requires Shows(p) && Enabled(p, Pop(c))
      modifies this
      ensures Shows(Next(p, Pop(c))) && Next(p, Pop(c)).clients[c] == Starting(slot)
    {
      slot := free[|free| - 1];
      free := free[..|free| - 1];
    }

    /** Dropping a lease: the slot goes back first, then the permit. */
    method DropLease(ghost p: Pool, ghost c: nat, slot: nat)
      requires Shows(p) && Enabled(p, Push(c)) && p.clients[c].slot == slot
      modifies this
      ensures Enabled(Next(p, Push(c)), Release(c)) && Shows(Next(Next(p, Push(c)), Release(c)))
    {
      free := free + [slot];
      permits := permits + 1;
    }

    /** An acquire that fails after the pop drops its permit alone. */
    method DropPermit(ghost p: Pool, ghost c: nat)
      requires Shows(p) && Enabled(p, Fail(c))
      modifies this
      ensures Shows(Next(p, Fail(c)))
    {
      permits := permits + 1;
    }
  }
}
