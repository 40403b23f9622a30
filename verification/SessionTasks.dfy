/** The hub under its busy discipline: a task of a session runs only after it set the busy mark,
    asks for one permission at a time, and clears the mark at its end. Answers, subscribers and
    events come from outside at any time. */
module SessionTasks {
  import opened Wrappers
  import opened SessionHub
  import Broadcast

  /** A running task, and the permission request it is blocked on. */
  datatype Task = Task(session: string, asking: Option<nat>)

  datatype Site = Site(world: World, tasks: map<nat, Task>)

  datatype Move =
    | Begin(t: nat, s: string)
    | Request(t: nat, tool: string, scope: string)
    | Advance(t: nat)
    | End(t: nat)
    | Outside(step: Step)

  /** The next step of a call in progress. */
  function NextOf(w: World, r: nat): Step
    requires r in w.requests
  {
    match w.requests[r].phase
    case Numbered => Enter(r)
    case Registered => Announce(r)
    case Waiting => Wake(r)
    case _ => Leave(r)
  }

  predicate Possible(x: Site, m: Move) {
    match m
    case Begin(t, s) => t !in x.tasks
    case Request(t, _, _) => t in x.tasks && x.tasks[t].asking.None?
    case Advance(t) =>
      && t in x.tasks && x.tasks[t].asking.Some?
      && var r := x.tasks[t].asking.value; r in x.world.requests && !x.world.requests[r].phase.Done?
    case End(t) => t in x.tasks && x.tasks[t].asking.None?
    case Outside(step) =>
      Enabled(x.world, step) && (step.Ensure? || step.Emit? || step.Attach? || step.Read? || step.Reply?)
  }

  function Moved(x: Site, m: Move): Site
    requires Possible(x, m)
  {
    var w := x.world;
    match m
    case Begin(t, s) =>
      if Started(w.hub, s).1 then Site(Next(w, Start(s)), x.tasks[t := Task(s, None)]) else x
    case Request(t, tool, scope) =>
      var s := x.tasks[t].session;
      Site(Next(w, Ask(s, tool, scope)), x.tasks[t := Task(s, Some(w.hub.nextId))])
    case Advance(t) =>
      var r := x.tasks[t].asking.value;
      var w' := Next(w, NextOf(w, r));
      Site(w', if w'.requests[r].phase.Done? then x.tasks[t := x.tasks[t].(asking := None)] else x.tasks)
    case End(t) => Site(Next(w, Finish(x.tasks[t].session)), x.tasks - {t})
    case Outside(step) => x.(world := Next(w, step))
  }

  predicate ValidMoves(x: Site, ms: seq<Move>)
    decreases |ms|
  {
    ms == [] || (Possible(x, ms[0]) && ValidMoves(Moved(x, ms[0]), ms[1..]))
  }

  function AfterMoves(x: Site, ms: seq<Move>): Site
    requires ValidMoves(x, ms)
    decreases |ms|
  {
    if ms == [] then x else AfterMoves(Moved(x, ms[0]), ms[1..])
  }

  function Opening(maxSessions: nat): Site {
    Site(Initial(maxSessions), map[])
  }

  // ---------------------------------------------------------------- what the discipline keeps

  /** A request not yet woken and not yet answered. */
  predicate Open(w: World, r: nat) {
    r in w.requests && w.requests[r].phase in {Registered, Waiting} && r !in w.hub.channels
  }

  predicate AskFine(w: World, s: string, r: nat)
    requires s in w.hub.sessions
  {
    && r in w.requests && w.requests[r].session == s && !w.requests[r].phase.Done?
    && (Open(w, r) ==> w.hub.sessions[s].pending == Some(r))
  }

  predicate FineIn(w: World, task: Task) {
    && task.session in w.hub.sessions && w.hub.sessions[task.session].busy
    && (task.asking.Some? ==> AskFine(w, task.session, task.asking.value))
  }

  predicate TaskFine(x: Site, t: nat)
    requires t in x.tasks
  {
    FineIn(x.world, x.tasks[t])
  }

  /** The session of a task, and the request it waits for, are as they were. */
  predicate Untouched(w: World, w': World, task: Task) {
    && task.session in w.hub.sessions && task.session in w'.hub.sessions
    && w'.hub.sessions[task.session].busy == w.hub.sessions[task.session].busy
    && w'.hub.sessions[task.session].pending == w.hub.sessions[task.session].pending
    && (task.asking.Some? && task.asking.value in w.requests ==>
          var q := task.asking.value;
          q in w'.requests && w'.requests[q] == w.requests[q] && (q in w'.hub.channels <==> q in w.hub.channels))
  }

  lemma UntouchedStaysFine(w: World, w': World, task: Task)
    requires FineIn(w, task) && Untouched(w, w', task)
    ensures FineIn(w', task)
  {
  }

  /** Setting or clearing a busy mark touches one session only. */
  lemma BusyIsLocal(w: World, step: Step)
    requires step.Start? || step.Finish?
    ensures var w' := Next(w, step);
            && w'.requests == w.requests && w'.hub.channels == w.hub.channels
            && w'.hub.sessions.Keys == w.hub.sessions.Keys
            && (forall z :: z in w.hub.sessions && z != step.s ==> w'.hub.sessions[z] == w.hub.sessions[z])
            && (step.Start? && step.s in w.hub.sessions ==> w'.hub.sessions[step.s].busy)
            && (step.Finish? && step.s in w.hub.sessions ==> !w'.hub.sessions[step.s].busy)
  {
  }

  ghost predicate HasTask(x: Site, s: string) {
    exists t :: t in x.tasks && x.tasks[t].session == s
  }

  ghost predicate Disciplined(x: Site) {
    && Inv(x.world)
    && (forall t :: t in x.tasks ==> TaskFine(x, t))
    && (forall t, u :: t in x.tasks && u in x.tasks && t != u ==> x.tasks[t].session != x.tasks[u].session)
    && (forall s :: s in x.world.hub.sessions && x.world.hub.sessions[s].busy ==> HasTask(x, s))
  }

  /** The requests are as they were, and so is every session but one. */
  predicate OnlySessionChanged(w: World, w': World, s: string) {
    && w'.requests == w.requests && w'.hub.channels == w.hub.channels && w'.hub.sessions.Keys == w.hub.sessions.Keys
    && forall z :: z in w.hub.sessions && z != s ==> w'.hub.sessions[z] == w.hub.sessions[z]
  }

  lemma ElsewhereFine(w: World, w': World, s: string, task: Task)
    requires FineIn(w, task) && task.session != s && OnlySessionChanged(w, w', s)
    ensures FineIn(w', task)
  {
    UntouchedStaysFine(w, w', task);
  }

  lemma FineTask(x: Site, t: nat)
    requires Disciplined(x) && t in x.tasks
    ensures FineIn(x.world, x.tasks[t])
  {
    hide Inv;
    assert TaskFine(x, t);
  }

  /** The task of a busy session, when the tasks after a move include those of before. */
  lemma TaskRemains(x: Site, x': Site, z: string)
    requires HasTask(x, z) && forall u :: u in x.tasks && x.tasks[u].session == z ==> u in x'.tasks
    requires forall u :: u in x.tasks && u in x'.tasks ==> x'.tasks[u].session == x.tasks[u].session
    ensures HasTask(x', z)
  {
    var u :| u in x.tasks && x.tasks[u].session == z;
    assert u in x'.tasks && x'.tasks[u].session == z;
  }

  lemma MovedTo(x: Site, m: Move)
    requires Possible(x, m)
    ensures var w, x' := x.world, Moved(x, m);
            match m
            case Begin(t, s) =>
              && t !in x.tasks
              && x' == if Started(w.hub, s).1 then Site(Next(w, Start(s)), x.tasks[t := Task(s, None)]) else x
            case Request(t, tool, scope) =>
              && t in x.tasks
              && x' == Site(Next(w, Ask(x.tasks[t].session, tool, scope)),
                            x.tasks[t := Task(x.tasks[t].session, Some(w.hub.nextId))])
            case End(t) => t in x.tasks && x' == Site(Next(w, Finish(x.tasks[t].session)), x.tasks - {t})
            case Outside(step) => Enabled(w, step) && x' == x.(world := Next(w, step))
            case Advance(_) => true
  {
    hide Next;
  }

  lemma AdvancedTo(x: Site, t: nat)
    requires Possible(x, Advance(t))
    ensures t in x.tasks && x.tasks[t].asking.Some?
    ensures var w, x', r := x.world, Moved(x, Advance(t)), x.tasks[t].asking.value;
            && r in w.requests && !w.requests[r].phase.Done? && Enabled(w, NextOf(w, r))
            && x'.world == Next(w, NextOf(w, r)) && r in x'.world.requests
            && x'.tasks == if x'.world.requests[r].phase.Done? then x.tasks[t := x.tasks[t].(asking := None)]
                           else x.tasks
  {
    AdvanceIsLocal(x.world, x.tasks[t].asking.value);
    hide Next;
  }

  lemma BeginKeeps(x: Site, t: nat, s: string)
    requires Disciplined(x) && Possible(x, Begin(t, s))
    ensures Disciplined(Moved(x, Begin(t, s)))
  {
    hide Inv, Next, FineIn, HasTask, Moved, Possible, Started;
    var x' := Moved(x, Begin(t, s));
    MovedTo(x, Begin(t, s));
    StepKeepsInv(x.world, Start(s));
    BusyIsLocal(x.world, Start(s));
    if x' != x {
      BegunTasksFine(x, t, s);
      forall z | z in x'.world.hub.sessions && x'.world.hub.sessions[z].busy
        ensures HasTask(x', z)
      {
        if z == s {
          TaskOf(x', t);
        } else {
          TaskRemains(x, x', z);
        }
      }
    }
  }

  lemma TaskOf(x: Site, t: nat)
    requires t in x.tasks
    ensures HasTask(x, x.tasks[t].session)
  {
  }

  lemma BegunTasksFine(x: Site, t: nat, s: string)
    requires Disciplined(x) && Possible(x, Begin(t, s)) && Started(x.world.hub, s).1
    ensures var x' := Moved(x, Begin(t, s));
            forall u :: u in x'.tasks ==> TaskFine(x', u) && (u != t ==> x'.tasks[u].session != s)
  {
    var x' := Moved(x, Begin(t, s));
    BusyIsLocal(x.world, Start(s));
    hide Inv, Next, AskFine;
    forall u | u in x'.tasks
      ensures TaskFine(x', u) && (u != t ==> x'.tasks[u].session != s)
    {
      if u != t {
        FineTask(x, u);
        ElsewhereFine(x.world, x'.world, s, x.tasks[u]);
      }
    }
  }

  lemma EndKeeps(x: Site, t: nat)
    requires Disciplined(x) && Possible(x, End(t))
    ensures Disciplined(Moved(x, End(t)))
  {
    hide Inv, Next, AskFine, HasTask, Moved, Possible;
    MovedTo(x, End(t));
    var x', s := Moved(x, End(t)), x.tasks[t].session;
    StepKeepsInv(x.world, Finish(s));
    BusyIsLocal(x.world, Finish(s));
    FineTask(x, t);
    forall u | u in x'.tasks
      ensures TaskFine(x', u)
    {
      FineTask(x, u);
      ElsewhereFine(x.world, x'.world, s, x.tasks[u]);
    }
    forall z | z in x'.world.hub.sessions && x'.world.hub.sessions[z].busy
      ensures HasTask(x', z)
    {
      TaskRemains(x, x', z);
    }
  }

  /** The same tasks in the same sessions, with sessions as busy as before. */
  lemma SameTasks(x: Site, x': Site)
    requires Disciplined(x) && Inv(x'.world)
    requires x'.tasks.Keys == x.tasks.Keys && forall t :: t in x.tasks ==> x'.tasks[t].session == x.tasks[t].session
    requires forall t :: t in x'.tasks ==> TaskFine(x', t)
    requires forall s :: s in x'.world.hub.sessions && x'.world.hub.sessions[s].busy
               ==> s in x.world.hub.sessions && x.world.hub.sessions[s].busy
    ensures Disciplined(x')
  {
    hide Inv, HasTask, FineIn;
    forall s | s in x'.world.hub.sessions && x'.world.hub.sessions[s].busy
      ensures HasTask(x', s)
    {
      TaskRemains(x, x', s);
    }
  }

  lemma RequestKeeps(x: Site, m: Move)
    requires Disciplined(x) && m.Request? && Possible(x, m)
    ensures Disciplined(Moved(x, m))
  {
    hide Inv, FineIn, Next, Moved, Possible;
    MovedTo(x, m);
    var x', s := Moved(x, m), x.tasks[m.t].session;
    StepKeepsInv(x.world, Ask(s, m.tool, m.scope));
    AskLeavesSessions(x.world, s, m.tool, m.scope);
    forall u | u in x'.tasks
      ensures TaskFine(x', u)
    {
      FineTask(x, u);
      if u == m.t {
        AskedIsFine(x.world, x.tasks[u], m.tool, m.scope);
      } else {
        UnaskedIsFine(x.world, Ask(s, m.tool, m.scope), x.tasks[u]);
      }
    }
    SameTasks(x, x');
  }

  lemma AskLeavesSessions(w: World, s: string, tool: string, scope: string)
    ensures Next(w, Ask(s, tool, scope)).hub.sessions == w.hub.sessions
  {
  }

  lemma AskedIsFine(w: World, task: Task, tool: string, scope: string)
    requires FineIn(w, task)
    ensures FineIn(Next(w, Ask(task.session, tool, scope)), Task(task.session, Some(w.hub.nextId)))
  {
  }

  lemma UnaskedIsFine(w: World, step: Step, task: Task)
    requires Inv(w) && FineIn(w, task) && step.Ask?
    ensures FineIn(Next(w, step), task)
  {
    NumberIsFresh(w);
    hide Inv;
    UntouchedStaysFine(w, Next(w, step), task);
  }

  /** A call moves on within its own session. */
  lemma AdvanceIsLocal(w: World, r: nat)
    requires r in w.requests && !w.requests[r].phase.Done?
    ensures var w', s := Next(w, NextOf(w, r)), w.requests[r].session;
            && w'.hub.channels == w.hub.channels
            && w'.hub.sessions.Keys == w.hub.sessions.Keys
            && (forall z :: z in w.hub.sessions && z != s ==> w'.hub.sessions[z] == w.hub.sessions[z])
            && (s in w.hub.sessions ==> w'.hub.sessions[s].busy == w.hub.sessions[s].busy)
            && w'.requests.Keys == w.requests.Keys && w'.requests[r].session == s
            && (forall q :: q in w.requests && q != r ==> w'.requests[q] == w.requests[q])
  {
  }

  lemma AdvanceKeepsAsk(w: World, r: nat)
    requires r in w.requests && w.requests[r].session in w.hub.sessions && !w.requests[r].phase.Done?
    requires AskFine(w, w.requests[r].session, r)
    ensures var w', s := Next(w, NextOf(w, r)), w.requests[r].session;
            s in w'.hub.sessions && r in w'.requests && (w'.requests[r].phase.Done? || AskFine(w', s, r))
  {
  }

  lemma AdvanceKeeps(x: Site, t: nat)
    requires Disciplined(x) && Possible(x, Advance(t))
    ensures Disciplined(Moved(x, Advance(t)))
  {
    hide Inv, Next, NextOf, AskFine, Moved, Possible;
    AdvancedTo(x, t);
    var x', r := Moved(x, Advance(t)), x.tasks[t].asking.value;
    FineTask(x, t);
    assert AskFine(x.world, x.tasks[t].session, r);
    OwnRequest(x.world, x.tasks[t].session, r);
    StepKeepsInv(x.world, NextOf(x.world, r));
    AdvanceIsLocal(x.world, r);
    AdvanceKeepsAsk(x.world, r);
    forall u | u in x'.tasks
      ensures TaskFine(x', u)
    {
      if u != t {
        OtherTaskStaysFine(x, x'.world, t, u);
      }
    }
    hide FineIn;
    SameTasks(x, x');
  }

  lemma OwnRequest(w: World, s: string, r: nat)
    requires s in w.hub.sessions && AskFine(w, s, r)
    ensures r in w.requests && w.requests[r].session == s
  {
  }

  lemma OtherTaskStaysFine(x: Site, w': World, t: nat, u: nat)
    requires Disciplined(x) && t in x.tasks && u in x.tasks && t != u && x.tasks[t].asking.Some?
    requires x.tasks[t].asking.value in x.world.requests
    requires x.world.requests[x.tasks[t].asking.value].session == x.tasks[t].session
    requires w'.hub.channels == x.world.hub.channels && w'.hub.sessions.Keys == x.world.hub.sessions.Keys
    requires forall z :: z in x.world.hub.sessions && z != x.tasks[t].session ==>
               w'.hub.sessions[z] == x.world.hub.sessions[z]
    requires w'.requests.Keys == x.world.requests.Keys
    requires forall q :: q in x.world.requests && q != x.tasks[t].asking.value ==> w'.requests[q] == x.world.requests[q]
    ensures FineIn(w', x.tasks[u])
  {
    hide Inv;
    assert TaskFine(x, u) && x.tasks[u].session != x.tasks[t].session;
    UntouchedStaysFine(x.world, w', x.tasks[u]);
  }

  predicate KeptSession(h: Hub, h': Hub, z: string)
    requires z in h.sessions
  {
    && z in h'.sessions && h'.sessions[z].busy == h.sessions[z].busy
    && (h'.sessions[z].pending == h.sessions[z].pending
        || (h.sessions[z].pending.Some? && h.sessions[z].pending.value in h'.channels))
  }

  /** Outside steps leave tasks alone: a request that is still open is still pending. */
  lemma OutsideIsHarmless(w: World, step: Step)
    requires Inv(w) && Enabled(w, step)
    requires step.Ensure? || step.Emit? || step.Attach? || step.Read? || step.Reply?
    ensures var w' := Next(w, step);
            && w'.requests == w.requests
            && (forall q :: q in w.hub.channels ==> q in w'.hub.channels)
            && (forall z :: z in w.hub.sessions ==> KeptSession(w.hub, w'.hub, z))
            && (forall z :: z in w'.hub.sessions && w'.hub.sessions[z].busy ==> z in w.hub.sessions)
  {
    hide Inv, Broadcast.Sent, Broadcast.Joined, Broadcast.Read, RequestId;
  }

  lemma OutsideKeeps(x: Site, step: Step)
    requires Disciplined(x) && Possible(x, Outside(step))
    ensures Disciplined(Moved(x, Outside(step)))
  {
    hide Inv, Next, Moved;
    MovedTo(x, Outside(step));
    var x' := Moved(x, Outside(step));
    StepKeepsInv(x.world, step);
    OutsideIsHarmless(x.world, step);
    forall u | u in x'.tasks
      ensures TaskFine(x', u)
    {
      assert TaskFine(x, u);
      assert KeptSession(x.world.hub, x'.world.hub, x.tasks[u].session);
    }
    SameTasks(x, x');
  }

  lemma {:induction false} MovesKeep(x: Site, ms: seq<Move>)
    requires Disciplined(x) && ValidMoves(x, ms)
    ensures Disciplined(AfterMoves(x, ms))
    decreases |ms|
  {
    hide Disciplined;
    if ms != [] {
      match ms[0] {
        case Begin(t, s) => BeginKeeps(x, t, s);
        case Request(_, _, _) => RequestKeeps(x, ms[0]);
        case Advance(t) => AdvanceKeeps(x, t);
        case End(t) => EndKeeps(x, t);
        case Outside(step) => OutsideKeeps(x, step);
      }
      MovesKeep(Moved(x, ms[0]), ms[1..]);
    }
  }

  lemma OpeningDisciplined(maxSessions: nat)
    ensures Disciplined(Opening(maxSessions))
  {
    InitialInv(maxSessions);
  }

  // ---------------------------------------------------------------- what it gives

  /** No session ever has two running tasks, and a session accepts a new one exactly when it has
      none. */
  lemma OneTaskPerSession(maxSessions: nat, ms: seq<Move>, s: string)
    requires ValidMoves(Opening(maxSessions), ms)
    ensures var x := AfterMoves(Opening(maxSessions), ms);
            && (forall t, u :: t in x.tasks && u in x.tasks && x.tasks[t].session == x.tasks[u].session ==> t == u)
            && (Started(x.world.hub, s).1 <==> s in x.world.hub.sessions && !HasTask(x, s))
  {
    OpeningDisciplined(maxSessions);
    MovesKeep(Opening(maxSessions), ms);
    var x := AfterMoves(Opening(maxSessions), ms);
    if HasTask(x, s) {
      var t :| t in x.tasks && x.tasks[t].session == s;
      assert TaskFine(x, t);
    }
  }

  /** While a task waits for a permission, the answer that names its request is accepted, and
      whatever happens afterwards it is the one the call returns. */
  lemma AnswerInTimeCounts(maxSessions: nat, ms: seq<Move>, t: nat, allow: bool, later: seq<Step>)
    requires ValidMoves(Opening(maxSessions), ms)
    requires var x := AfterMoves(Opening(maxSessions), ms);
             && t in x.tasks && x.tasks[t].asking.Some? && Open(x.world, x.tasks[t].asking.value)
             && var answer := Reply(x.tasks[t].session, RequestId(x.tasks[t].asking.value), allow);
                ValidRun(Next(x.world, answer), later)
    ensures var x := AfterMoves(Opening(maxSessions), ms);
            var r := x.tasks[t].asking.value;
            var answer := Reply(x.tasks[t].session, RequestId(r), allow);
            && Resolved(x.world.hub, answer.s, answer.id, allow).1
            && var w := Run(Next(x.world, answer), later);
               r in w.requests && w.requests[r].phase in {Registered, Waiting, Woken(allow), Done(allow)}
  {
    OpeningDisciplined(maxSessions);
    MovesKeep(Opening(maxSessions), ms);
    var x := AfterMoves(Opening(maxSessions), ms);
    var r := x.tasks[t].asking.value;
    var answer := Reply(x.tasks[t].session, RequestId(r), allow);
    assert TaskFine(x, t);
    StepKeepsInv(x.world, answer);
    AnswerIsReturned(Next(x.world, answer), r, allow, later);
  }

  lemma NoStep(w: World)
    ensures ValidRun(w, []) && Run(w, []) == w
  {
  }

  lemma {:induction false} OneMoreStep(w: World, steps: seq<Step>, step: Step)
    requires ValidRun(w, steps) && Enabled(Run(w, steps), step)
    ensures ValidRun(w, steps + [step]) && Run(w, steps + [step]) == Next(Run(w, steps), step)
    decreases |steps|
  {
    hide Next, Enabled;
    if steps == [] {
      assert steps + [step] == [step] && [step][1..] == [];
      NoStep(Next(w, step));
    } else {
      OneMoreStep(Next(w, steps[0]), steps[1..], step);
      assert (steps + [step])[1..] == steps[1..] + [step];
    }
  }

  function WaitingSteps(s: string): seq<Step> {
    [Ensure(s)] + [Ask(s, "bash", "")] + [Enter(1)] + [Announce(1)]
  }

  /** A call that is entered, seen from the start. */
  lemma FirstCallEnters(maxSessions: nat, s: string)
    requires maxSessions > 0
    ensures var w := Next(Next(Initial(maxSessions), Ensure(s)), Ask(s, "bash", ""));
            && Enabled(w, Enter(1))
            && var w' := Next(w, Enter(1));
               && At(w', 1, Registered) && w'.requests[1].session == s && w'.hub.nextId == 2
               && s in w'.hub.sessions && w'.hub.sessions[s].pending == Some(1)
  {
    var w1 := Next(Initial(maxSessions), Ensure(s));
    assert w1.hub.sessions == map[s := EMPTY_SESSION] && w1.hub.nextId == 1;
  }

  lemma ThenWaits(w: World, r: nat)
    requires At(w, r, Registered) && w.requests[r].session in w.hub.sessions
    ensures var w', s := Next(w, Announce(r)), w.requests[r].session;
            && At(w', r, Waiting) && w'.requests[r].session == s && w'.hub.nextId == w.hub.nextId
            && s in w'.hub.sessions && w'.hub.sessions[s].pending == w.hub.sessions[s].pending
  {
    hide Broadcast.Sent;
  }

  lemma FirstCallWaits(maxSessions: nat, s: string)
    requires maxSessions > 0
    ensures ValidRun(Initial(maxSessions), WaitingSteps(s))
    ensures var w := Run(Initial(maxSessions), WaitingSteps(s));
            && At(w, 1, Waiting) && w.requests[1].session == s && w.hub.nextId == 2
            && s in w.hub.sessions && w.hub.sessions[s].pending == Some(1)
  {
    hide Run, ValidRun, Next;
    var w, ask := Initial(maxSessions), Ask(s, "bash", "");
    FirstCallEnters(maxSessions, s);
    ThenWaits(Next(Next(Next(w, Ensure(s)), ask), Enter(1)), 1);
    NoStep(w);
    assert [] + [Ensure(s)] == [Ensure(s)];
    OneMoreStep(w, [], Ensure(s));
    OneMoreStep(w, [Ensure(s)], ask);
    OneMoreStep(w, [Ensure(s)] + [ask], Enter(1));
    OneMoreStep(w, [Ensure(s)] + [ask] + [Enter(1)], Announce(1));
  }

  function OverlapSteps(s: string): seq<Step> {
    WaitingSteps(s) + [Ask(s, "bash", "")]
  }

  /** Two calls do overlap: the hub itself lets a second one begin while the first waits. */
  lemma OverlapHappens(maxSessions: nat, s: string)
    requires maxSessions > 0
    ensures var steps := OverlapSteps(s);
            ValidRun(Initial(maxSessions), steps)
            && var w := Run(Initial(maxSessions), steps);
               && Inv(w) && At(w, 1, Waiting) && At(w, 2, Numbered)
               && w.requests[1].session == w.requests[2].session == s
               && s in w.hub.sessions && w.hub.sessions[s].pending == Some(1)
  {
    hide Run, ValidRun, Inv, WaitingSteps;
    FirstCallWaits(maxSessions, s);
    OneMoreStep(Initial(maxSessions), WaitingSteps(s), Ask(s, "bash", ""));
    InitialInv(maxSessions);
    RunKeepsInv(Initial(maxSessions), OverlapSteps(s));
  }

  /** Without the discipline the clearing of the pending request is not safe: of two calls that
      overlap in one session, the later one silences the first, and the end of the first silences
      the later one. */
  lemma OverlappingCallsCollide(w: World, q: nat, r: nat, allow: bool)
    requires Inv(w) && q != r && At(w, q, Waiting) && At(w, r, Numbered)
    requires w.requests[q].session == w.requests[r].session
    requires w.requests[q].session in w.hub.sessions && w.hub.sessions[w.requests[q].session].pending == Some(q)
    ensures var s := w.requests[q].session;
            var w1 := Next(w, Enter(r));
            var w2 := Next(Next(w1, Wake(q)), Leave(q));
            && !Resolved(w1.hub, s, RequestId(q), allow).1
            && At(w2, q, Done(false)) && At(w2, r, Registered)
            && !Resolved(w2.hub, s, RequestId(r), allow).1
  {
    RequestIdInjective(q, r);
    assert PendingFine(w, w.requests[q].session);
  }

  predicate Pends(h: Hub, s: string, r: nat) {
    s in h.sessions && h.sessions[s].pending == Some(r)
  }

  /** Another call enters the session, a call of it leaves, or the request is answered. */
  predicate Disturbs(w: World, step: Step, s: string, r: nat) {
    || (step.Enter? && step.r in w.requests && w.requests[step.r].session == s)
    || (step.Leave? && step.r in w.requests && w.requests[step.r].session == s)
    || (step.Reply? && step.s == s && step.id == RequestId(r))
  }

  predicate Undisturbed(w: World, steps: seq<Step>, s: string, r: nat)
    requires ValidRun(w, steps)
    decreases |steps|
  {
    steps == [] || (!Disturbs(w, steps[0], s, r) && Undisturbed(Next(w, steps[0]), steps[1..], s, r))
  }

  predicate EnteredBefore(w: World, r: nat) {
    r in w.requests && !w.requests[r].phase.Numbered?
  }

  lemma EnteredForGood(w: World, r: nat, step: Step)
    requires Inv(w) && EnteredBefore(w, r) && Enabled(w, step)
    ensures EnteredBefore(Next(w, step), r)
  {
    assert RequestFine(w, r);
    hide Inv, RequestFine, Broadcast.Sent, Broadcast.Joined, Broadcast.Read, RequestId;
  }

  /** Any answer accepted in the session is one that names the pending request. */
  lemma PendsAfter(w: World, s: string, r: nat, step: Step)
    requires EnteredBefore(w, r) && Enabled(w, step)
    ensures Pends(Next(w, step).hub, s, r) <==> Pends(w.hub, s, r) && !Disturbs(w, step, s, r)
  {
    hide Broadcast.Sent, Broadcast.Joined, Broadcast.Read, RequestId;
    if step.Reply? && Matches(w.hub, s, step.id) {
      RequestIdInjective(w.hub.sessions[s].pending.value, r);
    }
  }

  lemma {:induction false} PendsExactlyIfUndisturbed(w: World, s: string, r: nat, steps: seq<Step>)
    requires Inv(w) && EnteredBefore(w, r) && ValidRun(w, steps)
    ensures Pends(Run(w, steps).hub, s, r) <==> Pends(w.hub, s, r) && Undisturbed(w, steps, s, r)
    decreases |steps|
  {
    hide Inv, Next, Enabled, EnteredBefore, Pends, Disturbs;
    if steps != [] {
      StepKeepsInv(w, steps[0]);
      EnteredForGood(w, r, steps[0]);
      PendsAfter(w, s, r, steps[0]);
      PendsExactlyIfUndisturbed(Next(w, steps[0]), s, r, steps[1..]);
    }
  }

  /** Without the discipline, in any schedule: from the moment a request is entered in its session, the
      answer that names it is accepted exactly as long as no other call has entered the session, no call of
      it has left, and no answer to it was accepted. */
  lemma AcceptedExactlyIfUndisturbed(maxSessions: nat, before: seq<Step>, r: nat, steps: seq<Step>, allow: bool)
    requires ValidRun(Initial(maxSessions), before)
    requires var w := Run(Initial(maxSessions), before);
             && At(w, r, Numbered) && w.requests[r].session in w.hub.sessions && ValidRun(Next(w, Enter(r)), steps)
    ensures var w := Run(Initial(maxSessions), before);
            var w', s := Next(w, Enter(r)), w.requests[r].session;
            Resolved(Run(w', steps).hub, s, RequestId(r), allow).1 <==> Undisturbed(w', steps, s, r)
  {
    InitialInv(maxSessions);
    RunKeepsInv(Initial(maxSessions), before);
    var w := Run(Initial(maxSessions), before);
    var w', s := Next(w, Enter(r)), w.requests[r].session;
    StepKeepsInv(w, Enter(r));
    assert EnteredBefore(w', r) && Pends(w'.hub, s, r);
    hide Inv, Next, Enabled, EnteredBefore, Undisturbed, Run, ValidRun;
    PendsExactlyIfUndisturbed(w', s, r, steps);
    var h := Run(w', steps).hub;
    if s in h.sessions && h.sessions[s].pending.Some? {
      RequestIdInjective(h.sessions[s].pending.value, r);
    }
  }
}
