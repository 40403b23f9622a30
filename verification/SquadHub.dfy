/** Live squad tasks: an event log with subscribers until the task finishes, a human gate, and a kill
    switch. Every critical section of the hub is one atomic function here and one method of the
    class at the end. */
module SquadHub {
  import opened Wrappers
  import Broadcast
  import Canonical
  import JsonParser

  datatype Event = StopNotice(reason: string) | OtherEvent(text: string)

  /** `live` is the presence of the event sender, `pending` the gate whose answer is awaited, `abort`
      the handle of the running task. */
  datatype Task = Task(
    log: seq<Event>, live: bool, subs: Broadcast.Subscribers<Event>,
    pending: Option<nat>, stopped: bool, abort: Option<nat>)

  /** The hub, what was sent to each gate, and the handles aborted so far. */
  datatype Hub = Hub(tasks: map<string, Task>, nextSeq: nat, sent: map<nat, bool>, aborted: set<nat>)

  const NEW_TASK := Task([], true, map[], None, false, None)

  function New(): Hub {
    Hub(map[], 1, map[], {})
  }

  // ---------------------------------------------------------------- task names

  /** Lower-case hexadecimal without leading zeros. */
  function Hex(n: nat): (s: string)
    ensures s != []
  {
    if n < 16 then [Canonical.HexDigit(n)] else Hex(n / 16) + [Canonical.HexDigit(n % 16)]
  }

  lemma {:induction false} HexInjective(m: nat, n: nat)
    requires Hex(m) == Hex(n)
    ensures m == n
  {
    JsonParser.HexRoundTrip(m % 16);
    JsonParser.HexRoundTrip(n % 16);
    assert Hex(m)[|Hex(m)| - 1] == Canonical.HexDigit(m % 16);
    assert Hex(n)[|Hex(n)| - 1] == Canonical.HexDigit(n % 16);
    if m >= 16 && n >= 16 {
      assert Hex(m / 16) == Hex(m)[..|Hex(m)| - 1] == Hex(n / 16);
      HexInjective(m / 16, n / 16);
    }
  }

  function TaskId(n: nat): string {
    "sq" + Hex(n)
  }

  // ---------------------------------------------------------------- critical sections

  function Updated(h: Hub, t: string, task: Task): Hub {
    h.(tasks := h.tasks[t := task])
  }

  /** The number of a new task is drawn outside the lock. */
  function Drawn(h: Hub): Hub {
    h.(nextSeq := h.nextSeq + 1)
  }

  /** A new task replaces whatever subscribers may have created under its name. */
  function Inserted(h: Hub, n: nat): Hub {
    Updated(h, TaskId(n), NEW_TASK)
  }

  /** The log always grows; subscribers hear of it only while the task is live. */
  function Published(h: Hub, t: string, e: Event): Hub {
    if t !in h.tasks then h
    else
      var task := h.tasks[t];
      Updated(h, t, task.(log := task.log + [e], subs := if task.live then Broadcast.Sent(task.subs, e) else task.subs))
  }

  function Finished(h: Hub, t: string): Hub {
    if t in h.tasks then Updated(h, t, h.tasks[t].(live := false)) else h
  }

  /** After the finish a subscriber gets the snapshot and no receiver. */
  function Subscribed(h: Hub, t: string, k: nat): Hub {
    var task := if t in h.tasks then h.tasks[t] else NEW_TASK;
    Updated(h, t, if task.live then task.(subs := Broadcast.Joined(task.subs, k, task.log)) else task)
  }

  /** A gate takes the place of whatever was pending, stopped or not. */
  function Gated(h: Hub, t: string, g: nat): (Hub, bool) {
    if t in h.tasks then (Updated(h, t, h.tasks[t].(pending := Some(g))), true) else (h, false)
  }

  function Resolved(h: Hub, t: string, allow: bool): (Hub, bool) {
    if t !in h.tasks || h.tasks[t].pending.None? then (h, false)
    else
      var g := h.tasks[t].pending.value;
      (Updated(h, t, h.tasks[t].(pending := None)).(sent := h.sent[g := allow]), true)
  }

  /** A handle of a stopped task is aborted at once. */
  function AbortRegistered(h: Hub, t: string, a: nat): Hub {
    if t !in h.tasks then h
    else if h.tasks[t].stopped then h.(aborted := h.aborted + {a})
    else Updated(h, t, h.tasks[t].(abort := Some(a)))
  }

  /** The critical section of the kill switch: mark, abort, refuse the pending gate. */
  function Stopped(h: Hub, t: string): (Hub, bool) {
    if t !in h.tasks then (h, false)
    else
      var task := h.tasks[t];
      (Hub(h.tasks[t := task.(stopped := true, abort := None, pending := None)], h.nextSeq,
           if task.pending.Some? then h.sent[task.pending.value := false] else h.sent,
           if task.abort.Some? then h.aborted + {task.abort.value} else h.aborted), true)
  }

  // ---------------------------------------------------------------- all interleavings

  datatype Gate = Gate(task: string, returned: Option<bool>)

  /** An accepted answer, with the gate that got it. */
  datatype Answer = Answer(task: string, allow: bool, gate: nat)

  /** The hub, the numbers drawn for tasks not inserted yet, the gate calls, and two histories that no
      code reads: accepted answers, and the length of the log when a task finished. */
  datatype World = World(
    hub: Hub, drawn: set<nat>, gates: map<nat, Gate>, nextGate: nat,
    answers: seq<Answer>, closedAt: map<string, nat>)

  datatype Step =
    | Draw
    | Insert(n: nat)
    | Emit(t: string, e: Event)
    | Close(t: string)
    | Attach(t: string, k: nat)
    | Read(t: string, k: nat)
    | Ask(t: string)
    | Wake(g: nat)
    | Reply(t: string, allow: bool)
    | RegisterAbort(t: string, a: nat)
    | Stop(t: string)

  predicate Enabled(w: World, step: Step) {
    match step
    case Insert(n) => n in w.drawn
    case Attach(t, k) => t in w.hub.tasks ==> k !in w.hub.tasks[t].subs
    case Read(t, k) => t in w.hub.tasks && Broadcast.CanRead(w.hub.tasks[t].subs, k)
    case Wake(g) => g in w.gates && w.gates[g].returned.None?
    case _ => true
  }

  /** A gate returns the answer if one was sent, and a refusal at the timeout or when its sender is
      gone. */
  function Received(h: Hub, g: nat): bool {
    if g in h.sent then h.sent[g] else false
  }

  function Next(w: World, step: Step): World
    requires Enabled(w, step)
  {
    var h := w.hub;
    match step
    case Draw => w.(hub := Drawn(h), drawn := w.drawn + {h.nextSeq})
    case Insert(n) => w.(hub := Inserted(h, n), drawn := w.drawn - {n})
    case Emit(t, e) => w.(hub := Published(h, t, e))
    case Close(t) =>
      w.(hub := Finished(h, t),
         closedAt := if t in h.tasks && h.tasks[t].live then w.closedAt[t := |h.tasks[t].log|] else w.closedAt)
    case Attach(t, k) => w.(hub := Subscribed(h, t, k))
    case Read(t, k) => w.(hub := Updated(h, t, h.tasks[t].(subs := Broadcast.Read(h.tasks[t].subs, k))))
    case Ask(t) =>
      var (h', ok) := Gated(h, t, w.nextGate);
      var gate := Gate(t, if ok then None else Some(false));
      w.(hub := h', gates := w.gates[w.nextGate := gate], nextGate := w.nextGate + 1)
    case Wake(g) => w.(gates := w.gates[g := w.gates[g].(returned := Some(Received(h, g)))])
    case Reply(t, allow) =>
      var (h', ok) := Resolved(h, t, allow);
      if ok then w.(hub := h', answers := w.answers + [Answer(t, allow, h.tasks[t].pending.value)]) else w
    case RegisterAbort(t, a) => w.(hub := AbortRegistered(h, t, a))
    case Stop(t) => w.(hub := Stopped(h, t).0)
  }

  predicate ValidRun(w: World, steps: seq<Step>)
    decreases |steps|
  {
    steps == [] || (Enabled(w, steps[0]) && ValidRun(Next(w, steps[0]), steps[1..]))
  }

  function Run(w: World, steps: seq<Step>): World
    requires ValidRun(w, steps)
    decreases |steps|
  {
    if steps == [] then w else Run(Next(w, steps[0]), steps[1..])
  }

  function Initial(): World {
    World(New(), {}, map[], 0, [], map[])
  }

  // ---------------------------------------------------------------- what always holds

  /** What the subscribers of a task were sent: the log up to the finish. */
  function Aired(w: World, t: string): seq<Event>
    requires t in w.hub.tasks
  {
    var task := w.hub.tasks[t];
    if task.live then task.log
    else if t in w.closedAt && w.closedAt[t] <= |task.log| then task.log[..w.closedAt[t]]
    else []
  }

  ghost predicate LogFine(w: World, t: string)
    requires t in w.hub.tasks
  {
    var task := w.hub.tasks[t];
    && (!task.live ==> t in w.closedAt && w.closedAt[t] <= |task.log|)
    && Broadcast.AllFollow(task.subs, Aired(w, t))
  }

  predicate PendingFine(w: World, t: string)
    requires t in w.hub.tasks
  {
    var task := w.hub.tasks[t];
    && (task.pending.Some? ==>
          task.pending.value in w.gates && w.gates[task.pending.value].task == t && task.pending.value !in w.hub.sent)
    && (task.stopped ==> task.abort.None?)
  }

  predicate AnsweredWith(w: World, g: nat, a: Answer)
    requires g in w.gates
  {
    a == Answer(w.gates[g].task, true, g)
  }

  ghost predicate GateFine(w: World, g: nat)
    requires g in w.gates
  {
    && g < w.nextGate
    && (w.gates[g].returned == Some(true) ==> g in w.hub.sent && w.hub.sent[g])
    && (g in w.hub.sent && w.hub.sent[g] ==> exists i :: 0 <= i < |w.answers| && AnsweredWith(w, g, w.answers[i]))
  }

  ghost predicate Inv(w: World) {
    && (forall t :: t in w.hub.tasks ==> LogFine(w, t))
    && (forall t :: t in w.hub.tasks ==> PendingFine(w, t))
    && (forall g :: g in w.gates ==> GateFine(w, g))
    && (forall g :: g in w.hub.sent ==> g in w.gates)
    && (forall i, j :: 0 <= i < j < |w.answers| ==> w.answers[i].gate != w.answers[j].gate)
    && (forall i :: 0 <= i < |w.answers| ==> w.answers[i].gate in w.hub.sent)
  }

  lemma InitialInv()
    ensures Inv(Initial())
  {
  }

  // ---------------------------------------------------------------- every step keeps it

  lemma LogsKept(w: World, step: Step)
    requires Inv(w) && Enabled(w, step)
    ensures forall t :: t in Next(w, step).hub.tasks ==> LogFine(Next(w, step), t)
  {
    var w' := Next(w, step);
    forall t | t in w'.hub.tasks
      ensures LogFine(w', t)
    {
      LogKept(w, step, t);
    }
  }

  lemma LogKept(w: World, step: Step, t: string)
    requires Inv(w) && Enabled(w, step) && t in Next(w, step).hub.tasks
    ensures LogFine(Next(w, step), t)
  {
    hide PendingFine, GateFine, TaskId, Broadcast.AllFollow, Broadcast.Sent, Broadcast.Joined, Broadcast.Read;
    assert t in w.hub.tasks ==> LogFine(w, t);
    NobodyFollows();
    if step.Emit? && step.t == t {
      EmitKeepsLog(w, step);
    } else if step.Attach? && step.t == t && Next(w, step).hub.tasks[t].live {
      var task := if t in w.hub.tasks then w.hub.tasks[t] else NEW_TASK;
      Broadcast.JoiningFollows(task.subs, step.k, task.log);
    } else if step.Read? && step.t == t {
      Broadcast.ReadingFollows(w.hub.tasks[t].subs, step.k, Aired(w, t));
    } else if step.Close? && step.t == t && w.hub.tasks[t].live {
      assert w.hub.tasks[t].log[..|w.hub.tasks[t].log|] == w.hub.tasks[t].log;
    }
  }

  lemma NobodyFollows()
    ensures Broadcast.AllFollow(NEW_TASK.subs, NEW_TASK.log)
  {
  }

  lemma EmitKeepsLog(w: World, step: Step)
    requires step.Emit? && step.t in w.hub.tasks && LogFine(w, step.t)
    ensures LogFine(Next(w, step), step.t)
  {
    var task := w.hub.tasks[step.t];
    if task.live {
      Broadcast.SendingFollows(task.subs, task.log, step.e);
    } else {
      assert (task.log + [step.e])[..w.closedAt[step.t]] == task.log[..w.closedAt[step.t]];
    }
  }

  /** Steps that send nothing to a gate and put up no gate. */
  lemma QuietStepKeepsPending(w: World, step: Step)
    requires Inv(w) && Enabled(w, step) && !step.Stop? && !step.Reply? && !step.Ask?
    ensures forall t :: t in Next(w, step).hub.tasks ==> PendingFine(Next(w, step), t)
  {
    hide LogFine, GateFine, TaskId;
    var w' := Next(w, step);
    forall t | t in w'.hub.tasks
      ensures PendingFine(w', t)
    {
      assert t in w.hub.tasks ==> PendingFine(w, t);
    }
  }

  lemma PendingKept(w: World, step: Step)
    requires Inv(w) && Enabled(w, step)
    ensures forall t :: t in Next(w, step).hub.tasks ==> PendingFine(Next(w, step), t)
  {
    if step.Ask? {
      AskKeepsPending(w, step);
    } else if step.Stop? || step.Reply? {
      AnswerKeepsPending(w, step);
    } else {
      QuietStepKeepsPending(w, step);
    }
  }

  lemma AskKeepsPending(w: World, step: Step)
    requires Inv(w) && Enabled(w, step) && step.Ask?
    ensures forall t :: t in Next(w, step).hub.tasks ==> PendingFine(Next(w, step), t)
  {
    hide LogFine;
    assert forall g :: g in w.gates ==> GateFine(w, g);
    forall t | t in Next(w, step).hub.tasks
      ensures PendingFine(Next(w, step), t)
    {
      assert PendingFine(w, t);
    }
  }

  lemma AnswerKeepsPending(w: World, step: Step)
    requires Inv(w) && Enabled(w, step) && (step.Stop? || step.Reply?)
    ensures forall t :: t in Next(w, step).hub.tasks ==> PendingFine(Next(w, step), t)
  {
    hide LogFine, GateFine;
    assert step.t in w.hub.tasks ==> PendingFine(w, step.t);
    forall t | t in Next(w, step).hub.tasks
      ensures PendingFine(Next(w, step), t)
    {
      assert PendingFine(w, t);
    }
  }

  lemma AnswerKept(w: World, step: Step, g: nat)
    requires g in w.gates && g in w.hub.sent && w.hub.sent[g] && GateFine(w, g) && Enabled(w, step)
    requires g in Next(w, step).gates && Next(w, step).gates[g].task == w.gates[g].task
    requires w.answers <= Next(w, step).answers
    ensures exists i :: 0 <= i < |Next(w, step).answers| && AnsweredWith(Next(w, step), g, Next(w, step).answers[i])
  {
    hide Next;
    var i :| 0 <= i < |w.answers| && AnsweredWith(w, g, w.answers[i]);
    assert AnsweredWith(Next(w, step), g, Next(w, step).answers[i]);
  }

  /** What a step does to gates: at most one is sent a value, that of the pending gate of its task. */
  lemma GatesAfter(w: World, step: Step)
    requires Enabled(w, step)
    ensures var w' := Next(w, step);
            && w.answers <= w'.answers && w.nextGate <= w'.nextGate
            && (forall g :: g in w'.gates ==>
                  g in w.gates || (step.Ask? && g == w.nextGate && w'.gates[g].returned != Some(true)))
            && (forall g :: g in w.gates && g != w.nextGate ==> g in w'.gates && w'.gates[g].task == w.gates[g].task)
            && (step.Ask? ==> w'.nextGate == w.nextGate + 1)
    ensures var w' := Next(w, step);
            forall g :: g in w.gates && g != w.nextGate ==>
              || w'.gates[g].returned == w.gates[g].returned
              || w'.gates[g].returned == Some(Received(w.hub, g))
    ensures !step.Stop? && !step.Reply? ==> Next(w, step).hub.sent == w.hub.sent
  {
    hide TaskId, Broadcast.Sent, Broadcast.Joined, Broadcast.Read;
  }

  lemma SentAfter(w: World, step: Step)
    requires Enabled(w, step) && (step.Stop? || step.Reply?) && step.t in w.hub.tasks
    ensures var w', p := Next(w, step), w.hub.tasks[step.t].pending;
            && (p.None? ==> w'.hub.sent == w.hub.sent)
            && (p.Some? ==> w'.hub.sent == w.hub.sent[p.value := step.Reply? && step.allow])
            && (p.Some? && step.Reply? ==> w'.answers == w.answers + [Answer(step.t, step.allow, p.value)])
  {
  }

  lemma GatesKept(w: World, step: Step)
    requires Inv(w) && Enabled(w, step)
    ensures forall g :: g in Next(w, step).gates ==> GateFine(Next(w, step), g)
  {
    hide LogFine, TaskId, Next;
    var w' := Next(w, step);
    GatesAfter(w, step);
    assert w.nextGate !in w.gates by {
      assert forall g :: g in w.gates ==> GateFine(w, g);
    }
    forall g | g in w'.gates
      ensures GateFine(w', g)
    {
      GateKept(w, step, g);
    }
  }

  lemma GateKept(w: World, step: Step, g: nat)
    requires Inv(w) && Enabled(w, step) && w.nextGate !in w.gates && g in Next(w, step).gates
    ensures GateFine(Next(w, step), g)
  {
    hide LogFine, TaskId, Next;
    var w' := Next(w, step);
    GatesAfter(w, step);
    if g in w.gates {
      assert GateFine(w, g);
      if g in w.hub.sent && w.hub.sent[g] {
        AnswerKept(w, step, g);
      }
    }
    if (step.Stop? || step.Reply?) && step.t in w.hub.tasks {
      assert PendingFine(w, step.t);
      SentAfter(w, step);
      if step.Reply? && step.allow && w.hub.tasks[step.t].pending == Some(g) {
        assert AnsweredWith(w', g, w'.answers[|w.answers|]);
      }
    } else {
      UnsentOtherwise(w, step);
    }
  }

  lemma UnsentOtherwise(w: World, step: Step)
    requires Enabled(w, step) && !((step.Stop? || step.Reply?) && step.t in w.hub.tasks)
    ensures Next(w, step).hub.sent == w.hub.sent
  {
    hide TaskId, Broadcast.Sent, Broadcast.Joined, Broadcast.Read;
  }

  lemma AnswersKept(w: World, step: Step)
    requires Inv(w) && Enabled(w, step)
    ensures var w' := Next(w, step);
            && (forall g :: g in w'.hub.sent ==> g in w'.gates)
            && (forall i, j :: 0 <= i < j < |w'.answers| ==> w'.answers[i].gate != w'.answers[j].gate)
            && (forall i :: 0 <= i < |w'.answers| ==> w'.answers[i].gate in w'.hub.sent)
  {
    hide LogFine, GateFine, TaskId;
    if (step.Stop? || step.Reply?) && step.t in w.hub.tasks {
      assert PendingFine(w, step.t);
    }
  }

  lemma StepKeepsInv(w: World, step: Step)
    requires Inv(w) && Enabled(w, step)
    ensures Inv(Next(w, step))
  {
    LogsKept(w, step);
    PendingKept(w, step);
    GatesKept(w, step);
    AnswersKept(w, step);
    hide LogFine, GateFine, PendingFine, Next;
  }

  lemma {:induction false} RunKeepsInv(w: World, steps: seq<Step>)
    requires Inv(w) && ValidRun(w, steps)
    ensures Inv(Run(w, steps))
    decreases |steps|
  {
    if steps != [] {
      StepKeepsInv(w, steps[0]);
      RunKeepsInv(Next(w, steps[0]), steps[1..]);
    }
  }

  // ---------------------------------------------------------------- the event stream

  /** A task may yet be inserted under the name: its number is drawn, or still to come. */
  predicate MayCome(w: World, n: nat) {
    n in w.drawn || n >= w.hub.nextSeq
  }

  ghost predicate Issuable(w: World, t: string) {
    exists n :: MayCome(w, n) && t == TaskId(n)
  }

  predicate Inserts(step: Step, t: string) {
    step.Insert? && TaskId(step.n) == t
  }

  /** The name of a task that was inserted is not issued again. */
  lemma IssuedOnce(w: World, n: nat)
    requires !MayCome(w, n)
    ensures !Issuable(w, TaskId(n))
  {
    if Issuable(w, TaskId(n)) {
      var m :| MayCome(w, m) && TaskId(n) == TaskId(m);
      assert Hex(m) == TaskId(m)[2..] == TaskId(n)[2..] == Hex(n);
      HexInjective(m, n);
    }
  }

  lemma StepKeepsUnissuable(w: World, t: string, step: Step)
    requires !Issuable(w, t) && Enabled(w, step)
    ensures !Issuable(Next(w, step), t) && !Inserts(step, t)
  {
    var w' := Next(w, step);
    assert forall n :: MayCome(w', n) ==> MayCome(w, n);
    assert step.Insert? ==> MayCome(w, step.n);
  }

  /** The live sender of a finished task does not come back under a name that cannot be issued. */
  lemma {:induction false} NeverLiveAgain(w: World, t: string, steps: seq<Step>)
    requires t in w.hub.tasks && !w.hub.tasks[t].live && !Issuable(w, t) && ValidRun(w, steps)
    ensures var h := Run(w, steps).hub; t in h.tasks && !h.tasks[t].live
    decreases |steps|
  {
    if steps != [] {
      StepKeepsUnissuable(w, t, steps[0]);
      NeverLiveAgain(Next(w, steps[0]), t, steps[1..]);
    }
  }

  /** Drawing numbers up to an issuable one, and inserting it, starts a task afresh. */
  lemma InsertionRun(w: World, n: nat) returns (steps: seq<Step>)
    requires MayCome(w, n)
    ensures ValidRun(w, steps)
    ensures TaskId(n) in Run(w, steps).hub.tasks && Run(w, steps).hub.tasks[TaskId(n)] == NEW_TASK
    decreases if n in w.drawn then 0 else n - w.hub.nextSeq + 1
  {
    hide TaskId;
    if n in w.drawn {
      steps := [Insert(n)];
      assert steps[1..] == [];
    } else {
      var rest := InsertionRun(Next(w, Draw), n);
      steps := [Draw] + rest;
      assert steps[1..] == rest;
    }
  }

  predicate LiveIn(h: Hub, t: string) {
    t in h.tasks && h.tasks[t].live
  }

  ghost predicate Revivable(w: World, t: string) {
    exists steps :: ValidRun(w, steps) && LiveIn(Run(w, steps).hub, t)
  }

  /** Exactly the issuable names come back to life after a finish. */
  lemma LiveAgainExactlyIfIssuable(w: World, t: string)
    requires t in w.hub.tasks && !w.hub.tasks[t].live
    ensures Revivable(w, t) <==> Issuable(w, t)
  {
    if Issuable(w, t) {
      var n :| MayCome(w, n) && t == TaskId(n);
      var steps := InsertionRun(w, n);
      assert LiveIn(Run(w, steps).hub, t);
    } else if Revivable(w, t) {
      var steps :| ValidRun(w, steps) && LiveIn(Run(w, steps).hub, t);
      NeverLiveAgain(w, t, steps);
    }
  }

  /** Such a name exists: a subscription creates the task of a number not drawn yet, the kill switch
      stops and finishes it, and the real task then runs under it. */
  lemma SubscribedNameComesBack()
    ensures var t := TaskId(1);
            var stopped := Next(Next(Next(Initial(), Attach(t, 0)), Stop(t)), Close(t));
            var created := Next(Next(stopped, Draw), Insert(1));
            && !LiveIn(stopped.hub, t) && t in stopped.hub.tasks && stopped.hub.tasks[t].stopped
            && LiveIn(created.hub, t) && !created.hub.tasks[t].stopped && created.hub.tasks[t].subs == map[]
  {
    hide TaskId;
  }

  predicate Subscribes(h: Hub, t: string, k: nat) {
    t in h.tasks && k in h.tasks[t].subs
  }

  lemma SubscriberAfter(w: World, t: string, k: nat, step: Step)
    requires Enabled(w, step) && step != Attach(t, k)
    ensures Subscribes(Next(w, step).hub, t, k) <==> Subscribes(w.hub, t, k) && !Inserts(step, t)
  {
    hide TaskId;
  }

  /** A subscriber leaves the table exactly when a new task is inserted under the name. */
  lemma {:induction false} StaysExactlyWithoutInsertion(w: World, t: string, k: nat, steps: seq<Step>)
    requires Subscribes(w.hub, t, k) && ValidRun(w, steps)
    requires forall i :: 0 <= i < |steps| ==> steps[i] != Attach(t, k)
    ensures Subscribes(Run(w, steps).hub, t, k) <==> forall i :: 0 <= i < |steps| ==> !Inserts(steps[i], t)
    decreases |steps|
  {
    hide Next, Enabled, Subscribes, Inserts;
    if steps != [] {
      SubscriberAfter(w, t, k, steps[0]);
      if Inserts(steps[0], t) {
        GoneForGood(Next(w, steps[0]), t, k, steps[1..]);
      } else {
        StaysExactlyWithoutInsertion(Next(w, steps[0]), t, k, steps[1..]);
        assert forall i :: 0 < i < |steps| ==> steps[i] == steps[1..][i - 1];
      }
    }
  }

  lemma {:induction false} GoneForGood(w: World, t: string, k: nat, steps: seq<Step>)
    requires !Subscribes(w.hub, t, k) && ValidRun(w, steps)
    requires forall i :: 0 <= i < |steps| ==> steps[i] != Attach(t, k)
    ensures !Subscribes(Run(w, steps).hub, t, k)
    decreases |steps|
  {
    hide Next, Enabled, Subscribes, Inserts;
    if steps != [] {
      SubscriberAfter(w, t, k, steps[0]);
      GoneForGood(Next(w, steps[0]), t, k, steps[1..]);
    }
  }

  /** What a step sends to one subscriber, or lets it take: events come only while the task is live. */
  function SignalOf(w: World, step: Step, t: string, k: nat): seq<Broadcast.Signal<Event>> {
    match step
    case Emit(u, e) => if u == t && LiveIn(w.hub, t) then [Broadcast.Heard(e)] else []
    case Read(u, j) => if u == t && j == k then [Broadcast.Taken] else []
    case _ => []
  }

  function SignalsTo(w: World, steps: seq<Step>, t: string, k: nat): seq<Broadcast.Signal<Event>>
    requires ValidRun(w, steps)
    decreases |steps|
  {
    if steps == [] then []
    else SignalOf(w, steps[0], t, k) + SignalsTo(Next(w, steps[0]), steps[1..], t, k)
  }

  lemma SignalsArrive(w: World, step: Step, t: string, k: nat)
    requires Enabled(w, step) && Subscribes(w.hub, t, k) && !Inserts(step, t)
    ensures Subscribes(Next(w, step).hub, t, k)
    ensures Next(w, step).hub.tasks[t].subs[k]
            == Broadcast.AfterSignals(w.hub.tasks[t].subs[k], SignalOf(w, step, t, k))
  {
    hide Broadcast.Delivered, TaskId;
    assert forall signal: Broadcast.Signal<Event> :: [signal][1..] == [];
  }

  lemma {:induction false} SubscriberAfterRun(w: World, steps: seq<Step>, t: string, k: nat)
    requires ValidRun(w, steps) && Subscribes(w.hub, t, k)
    requires forall i :: 0 <= i < |steps| ==> !Inserts(steps[i], t)
    ensures Subscribes(Run(w, steps).hub, t, k)
    ensures Run(w, steps).hub.tasks[t].subs[k]
            == Broadcast.AfterSignals(w.hub.tasks[t].subs[k], SignalsTo(w, steps, t, k))
    decreases |steps|
  {
    hide Next, Enabled, SignalOf, Inserts;
    if steps != [] {
      SignalsArrive(w, steps[0], t, k);
      assert forall i :: 0 <= i < |steps[1..]| ==> steps[1..][i] == steps[i + 1];
      SubscriberAfterRun(Next(w, steps[0]), steps[1..], t, k);
      Broadcast.SignalsConcat(w.hub.tasks[t].subs[k], SignalOf(w, steps[0], t, k),
                              SignalsTo(Next(w, steps[0]), steps[1..], t, k));
    }
  }

  /** The log of a task up to its finish, if it has finished. */
  predicate AiredLog(w: World, t: string, log: seq<Event>) {
    t in w.hub.tasks
    && var task := w.hub.tasks[t];
       if task.live then log == task.log
       else t in w.closedAt && w.closedAt[t] <= |task.log| && log == task.log[..w.closedAt[t]]
  }

  lemma JustAttached(w: World, t: string, k: nat)
    requires Enabled(w, Attach(t, k)) && (t in w.hub.tasks ==> w.hub.tasks[t].live)
    ensures var h := Next(w, Attach(t, k)).hub;
            && Subscribes(h, t, k)
            && h.tasks[t].subs[k] == Broadcast.Subscriber(h.tasks[t].log, [], [], false)
  {
  }

  lemma FollowsAired(w: World, t: string, k: nat)
    requires Inv(w) && Subscribes(w.hub, t, k)
    ensures Broadcast.Follows(w.hub.tasks[t].subs[k], Aired(w, t)) && AiredLog(w, t, Aired(w, t))
  {
    assert LogFine(w, t);
  }

  /** In every interleaving, from the moment it attaches to a live task and as long as no new task is inserted
      under the name: a subscriber has lost something exactly if some event came, before the finish, while 256
      were waiting for it. Otherwise the log as it was then, what it has taken and what waits for it are the
      log up to the finish, so that with nothing waiting it has seen all of that. */
  lemma SubscriberSeesTheLog(before: seq<Step>, t: string, k: nat, steps: seq<Step>)
    requires ValidRun(Initial(), before)
    requires var w := Run(Initial(), before);
             && Enabled(w, Attach(t, k)) && (t in w.hub.tasks ==> w.hub.tasks[t].live)
             && ValidRun(Next(w, Attach(t, k)), steps)
    requires forall i :: 0 <= i < |steps| ==> !Inserts(steps[i], t)
    ensures var w := Next(Run(Initial(), before), Attach(t, k));
            var w', signals := Run(w, steps), SignalsTo(w, steps, t, k);
            && Subscribes(w'.hub, t, k) && t in w.hub.tasks
            && var sub := w'.hub.tasks[t].subs[k];
               && (sub.lagged <==> !Broadcast.KeepsUp(signals, 0))
               && (Broadcast.KeepsUp(signals, 0) ==>
                     && AiredLog(w', t, w.hub.tasks[t].log + sub.seen + sub.unread)
                     && sub.seen + sub.unread == Broadcast.HeardOf(signals)
                     && |sub.unread| == Broadcast.Waiting(signals, 0))
               && (Broadcast.KeepsUp(signals, 0) && Broadcast.Waiting(signals, 0) == 0 ==>
                     AiredLog(w', t, w.hub.tasks[t].log + sub.seen))
  {
    InitialInv();
    RunKeepsInv(Initial(), before);
    var w0 := Run(Initial(), before);
    StepKeepsInv(w0, Attach(t, k));
    var w := Next(w0, Attach(t, k));
    JustAttached(w0, t, k);
    RunKeepsInv(w, steps);
    hide Inv, Next, Enabled, Inserts, AiredLog, Run, ValidRun, SignalsTo, Aired;
    hide Broadcast.AfterSignals, Broadcast.KeepsUp, Broadcast.Waiting, Broadcast.HeardOf, Broadcast.Follows;
    SubscriberAfterRun(w, steps, t, k);
    FollowsAired(Run(w, steps), t, k);
    Broadcast.SinceJoining(w.hub.tasks[t].log, SignalsTo(w, steps, t, k), Aired(Run(w, steps), t));
  }

  /** A subscriber that such an insertion cuts off has by then been sent the whole log of the old task, up to
      the finish if it had finished, unless some event came while 256 were waiting for it; the new task starts
      with no log and nobody listening. */
  lemma CutOffHasTheLog(before: seq<Step>, n: nat, k: nat, steps: seq<Step>)
    requires ValidRun(Initial(), before)
    requires var w := Run(Initial(), before);
             && Enabled(w, Attach(TaskId(n), k)) && (TaskId(n) in w.hub.tasks ==> w.hub.tasks[TaskId(n)].live)
             && ValidRun(Next(w, Attach(TaskId(n), k)), steps)
             && Enabled(Run(Next(w, Attach(TaskId(n), k)), steps), Insert(n))
    requires forall i :: 0 <= i < |steps| ==> !Inserts(steps[i], TaskId(n))
    ensures var w, t := Next(Run(Initial(), before), Attach(TaskId(n), k)), TaskId(n);
            var w', signals := Run(w, steps), SignalsTo(w, steps, t, k);
            var entry := Next(w', Insert(n)).hub.tasks[t];
            && Subscribes(w'.hub, t, k) && t in w.hub.tasks
            && (Broadcast.KeepsUp(signals, 0) ==>
                  AiredLog(w', t, w.hub.tasks[t].log + w'.hub.tasks[t].subs[k].seen + w'.hub.tasks[t].subs[k].unread))
            && entry.live && entry.log == [] && entry.subs == map[] && !entry.stopped && entry.pending.None?
  {
    hide TaskId, AiredLog, Inserts;
    SubscriberSeesTheLog(before, TaskId(n), k, steps);
  }

  // ---------------------------------------------------------------- the kill switch

  /** A handle that nothing holds and nobody has aborted. */
  predicate Unheld(h: Hub, a: nat) {
    a !in h.aborted && forall u :: u in h.tasks ==> h.tasks[u].abort != Some(a)
  }

  /** A handle in place for the kill switch of one task to find. */
  predicate Held(h: Hub, t: string, a: nat) {
    && a !in h.aborted && t in h.tasks && !h.tasks[t].stopped && h.tasks[t].abort == Some(a)
    && forall u :: u in h.tasks && u != t ==> h.tasks[u].abort != Some(a)
  }

  predicate Registers(step: Step, a: nat) {
    step.RegisterAbort? && step.a == a
  }

  /** Another handle for the task, or a new task under its name. */
  predicate Displaces(step: Step, t: string) {
    Inserts(step, t) || (step.RegisterAbort? && step.t == t)
  }

  /** A displacement comes before the first kill switch of the task. */
  predicate DisplacedFirst(steps: seq<Step>, t: string) {
    steps != [] && steps[0] != Stop(t) && (Displaces(steps[0], t) || DisplacedFirst(steps[1..], t))
  }

  lemma StepOnHandle(w: World, t: string, a: nat, step: Step)
    requires Enabled(w, step) && !Registers(step, a)
    ensures Unheld(w.hub, a) ==> Unheld(Next(w, step).hub, a)
    ensures Held(w.hub, t, a) ==>
              var h := Next(w, step).hub;
              if step == Stop(t) then a in h.aborted
              else if Displaces(step, t) then Unheld(h, a)
              else Held(h, t, a)
  {
    hide Next, Unheld, Held, Displaces;
    if Unheld(w.hub, a) {
      StepOnUnheld(w, a, step);
    }
    if Held(w.hub, t, a) {
      StepOnHeld(w, t, a, step);
    }
  }

  lemma StepOnUnheld(w: World, a: nat, step: Step)
    requires Enabled(w, step) && !Registers(step, a) && Unheld(w.hub, a)
    ensures Unheld(Next(w, step).hub, a)
  {
    hide TaskId, Broadcast.Sent, Broadcast.Joined, Broadcast.Read;
  }

  predicate TouchesHandles(step: Step) {
    step.Insert? || step.RegisterAbort? || step.Stop?
  }

  predicate HandlesKept(h: Hub, h': Hub) {
    && h'.aborted == h.aborted
    && (forall u :: u in h.tasks ==>
          u in h'.tasks && h'.tasks[u].abort == h.tasks[u].abort && h'.tasks[u].stopped == h.tasks[u].stopped)
    && (forall u :: u in h'.tasks && u !in h.tasks ==> h'.tasks[u].abort == None)
  }

  lemma OtherStepsKeepHandles(w: World, step: Step)
    requires Enabled(w, step) && !TouchesHandles(step)
    ensures HandlesKept(w.hub, Next(w, step).hub)
  {
    hide HandlesKept;
    if step.Emit? || step.Attach? || step.Read? {
      LogStepsKeepHandles(w, step);
    } else {
      GateStepsKeepHandles(w, step);
    }
  }

  lemma GateStepsKeepHandles(w: World, step: Step)
    requires Enabled(w, step) && (step.Draw? || step.Close? || step.Ask? || step.Wake? || step.Reply?)
    ensures HandlesKept(w.hub, Next(w, step).hub)
  {
  }

  lemma LogStepsKeepHandles(w: World, step: Step)
    requires Enabled(w, step) && (step.Emit? || step.Attach? || step.Read?)
    ensures HandlesKept(w.hub, Next(w, step).hub)
  {
    hide TaskId, Broadcast.Sent, Broadcast.Joined, Broadcast.Read;
  }

  lemma KeptIsHeld(h: Hub, h': Hub, t: string, a: nat)
    requires Held(h, t, a) && HandlesKept(h, h')
    ensures Held(h', t, a)
  {
  }

  lemma StepOnHeld(w: World, t: string, a: nat, step: Step)
    requires Enabled(w, step) && !Registers(step, a) && Held(w.hub, t, a)
    ensures var h := Next(w, step).hub;
            if step == Stop(t) then a in h.aborted
            else if Displaces(step, t) then Unheld(h, a)
            else Held(h, t, a)
  {
    if TouchesHandles(step) {
      TouchedHeld(w, t, a, step);
    } else {
      OtherStepsKeepHandles(w, step);
      KeptIsHeld(w.hub, Next(w, step).hub, t, a);
    }
    hide Next, HandlesKept, Held, Unheld, TaskId;
  }

  lemma TouchedHeld(w: World, t: string, a: nat, step: Step)
    requires Enabled(w, step) && !Registers(step, a) && Held(w.hub, t, a) && TouchesHandles(step)
    ensures var h := Next(w, step).hub;
            if step == Stop(t) then a in h.aborted
            else if Displaces(step, t) then Unheld(h, a)
            else Held(h, t, a)
  {
    hide TaskId;
  }

  lemma {:induction false} AbortedForGood(w: World, a: nat, steps: seq<Step>)
    requires a in w.hub.aborted && ValidRun(w, steps)
    ensures a in Run(w, steps).hub.aborted
    decreases |steps|
  {
    if steps != [] {
      AbortedForGood(Next(w, steps[0]), a, steps[1..]);
    }
  }

  lemma {:induction false} LostForGood(w: World, a: nat, steps: seq<Step>)
    requires Unheld(w.hub, a) && ValidRun(w, steps)
    requires forall i :: 0 <= i < |steps| ==> !Registers(steps[i], a)
    ensures Unheld(Run(w, steps).hub, a)
    decreases |steps|
  {
    hide Unheld, Held, Next, Displaces;
    if steps != [] {
      StepOnHandle(w, "", a, steps[0]);
      LostForGood(Next(w, steps[0]), a, steps[1..]);
    }
  }

  /** Where a registered handle ends up. */
  lemma {:induction false} FateOfHandle(w: World, t: string, a: nat, steps: seq<Step>)
    requires Held(w.hub, t, a) && ValidRun(w, steps)
    requires forall i :: 0 <= i < |steps| ==> !Registers(steps[i], a)
    ensures var h := Run(w, steps).hub;
            if DisplacedFirst(steps, t) then Unheld(h, a) else a in h.aborted || Held(h, t, a)
    decreases |steps|
  {
    hide Unheld, Held, Next, Displaces;
    if steps != [] {
      var w' := Next(w, steps[0]);
      StepOnHandle(w, t, a, steps[0]);
      if steps[0] == Stop(t) {
        AbortedForGood(w', a, steps[1..]);
      } else if Displaces(steps[0], t) {
        LostForGood(w', a, steps[1..]);
      } else {
        FateOfHandle(w', t, a, steps[1..]);
      }
    }
  }

  /** A handle registered once, on an existing task, is aborted by a kill switch thrown later exactly
      if the task was already stopped, or nothing displaced the handle before the first kill switch. */
  lemma StopAfterRegister(w: World, t: string, a: nat, between: seq<Step>)
    requires t in w.hub.tasks && Unheld(w.hub, a) && ValidRun(Next(w, RegisterAbort(t, a)), between)
    requires forall i :: 0 <= i < |between| ==> !Registers(between[i], a)
    ensures a in Next(Run(Next(w, RegisterAbort(t, a)), between), Stop(t)).hub.aborted
            <==> w.hub.tasks[t].stopped || !DisplacedFirst(between, t)
  {
    var w1 := Next(w, RegisterAbort(t, a));
    var w2 := Run(w1, between);
    if w.hub.tasks[t].stopped {
      AbortedForGood(w1, a, between);
    } else {
      FateOfHandle(w1, t, a, between);
      StepOnHandle(w2, t, a, Stop(t));
    }
  }

  /** The stop mark of a task after some steps: set by its kill switch, lost with a new task under its
      name. */
  predicate MarkAfter(stopped: bool, steps: seq<Step>, t: string)
    decreases |steps|
  {
    if steps == [] then stopped
    else MarkAfter(steps[0] == Stop(t) || (stopped && !Inserts(steps[0], t)), steps[1..], t)
  }

  lemma StepOnMark(w: World, t: string, step: Step)
    requires t in w.hub.tasks && Enabled(w, step)
    ensures var h := Next(w, step).hub;
            && t in h.tasks
            && h.tasks[t].stopped == (step == Stop(t) || (w.hub.tasks[t].stopped && !Inserts(step, t)))
  {
    hide TaskId;
  }

  lemma {:induction false} MarkKept(w: World, t: string, steps: seq<Step>)
    requires t in w.hub.tasks && ValidRun(w, steps)
    ensures var h := Run(w, steps).hub;
            t in h.tasks && h.tasks[t].stopped == MarkAfter(w.hub.tasks[t].stopped, steps, t)
    decreases |steps|
  {
    hide Next, Inserts;
    if steps != [] {
      StepOnMark(w, t, steps[0]);
      MarkKept(Next(w, steps[0]), t, steps[1..]);
    }
  }

  /** In the other order it is aborted at once, exactly if the stop mark is still there; under a name
      that cannot be issued it always is. */
  lemma RegisterAfterStop(w: World, t: string, a: nat, between: seq<Step>)
    requires t in w.hub.tasks && Unheld(w.hub, a) && ValidRun(Next(w, Stop(t)), between)
    requires forall i :: 0 <= i < |between| ==> !Registers(between[i], a)
    ensures a in Next(Run(Next(w, Stop(t)), between), RegisterAbort(t, a)).hub.aborted
            <==> MarkAfter(true, between, t)
    ensures !Issuable(w, t) ==> MarkAfter(true, between, t)
  {
    var w1 := Next(w, Stop(t));
    StepOnHandle(w, t, a, Stop(t));
    MarkKept(w1, t, between);
    LostForGood(w1, a, between);
    if !Issuable(w, t) {
      StepKeepsUnissuable(w, t, Stop(t));
      StopIsForGood(w1, t, between);
    }
  }

  /** Under a name that cannot be issued nothing takes the stop mark away, and only another
      registration displaces a handle. */
  lemma {:induction false} StopIsForGood(w: World, t: string, steps: seq<Step>)
    requires !Issuable(w, t) && ValidRun(w, steps)
    ensures MarkAfter(true, steps, t)
    ensures forall i :: 0 <= i < |steps| ==> !Inserts(steps[i], t)
    decreases |steps|
  {
    if steps != [] {
      StepKeepsUnissuable(w, t, steps[0]);
      StopIsForGood(Next(w, steps[0]), t, steps[1..]);
    }
  }

  /** A kill switch that nothing interrupts is the last thing the subscribers of a live task hear. */
  lemma StopIsHeardLast(w: World, t: string, reason: string, k: nat)
    requires Inv(w) && t in w.hub.tasks && w.hub.tasks[t].live && k in w.hub.tasks[t].subs
    ensures var task := Next(Next(Next(w, Stop(t)), Emit(t, StopNotice(reason))), Close(t)).hub.tasks[t];
            && !task.live && task.stopped && task.log == w.hub.tasks[t].log + [StopNotice(reason)]
            && k in task.subs
            && (!task.subs[k].lagged ==> task.subs[k].snapshot + task.subs[k].seen + task.subs[k].unread == task.log)
  {
    var w1 := Next(w, Stop(t));
    var w2 := Next(w1, Emit(t, StopNotice(reason)));
    StepKeepsInv(w, Stop(t));
    StepKeepsInv(w1, Emit(t, StopNotice(reason)));
    assert LogFine(w2, t);
    assert Broadcast.Follows(w2.hub.tasks[t].subs[k], w2.hub.tasks[t].log);
  }

  // ---------------------------------------------------------------- gates

  /** What a gate will return is settled: it was sent this value. */
  predicate Settled(w: World, g: nat, allow: bool) {
    && g in w.gates && g in w.hub.sent && w.hub.sent[g] == allow
    && (w.gates[g].returned.Some? ==> w.gates[g].returned.value ==> allow)
  }

  lemma StepKeepsSettled(w: World, g: nat, allow: bool, step: Step)
    requires Inv(w) && Settled(w, g, allow) && Enabled(w, step)
    ensures Settled(Next(w, step), g, allow)
  {
    assert GateFine(w, g);
    if (step.Stop? || step.Reply?) && step.t in w.hub.tasks {
      assert PendingFine(w, step.t);
    }
  }

  lemma {:induction false} RunKeepsSettled(w: World, g: nat, allow: bool, steps: seq<Step>)
    requires Inv(w) && Settled(w, g, allow) && ValidRun(w, steps)
    ensures Settled(Run(w, steps), g, allow)
    decreases |steps|
  {
    if steps != [] {
      StepKeepsInv(w, steps[0]);
      StepKeepsSettled(w, g, allow, steps[0]);
      RunKeepsSettled(Next(w, steps[0]), g, allow, steps[1..]);
    }
  }

  /** A gate that was answered before it returned. */
  predicate Decided(w: World, g: nat, allow: bool) {
    Settled(w, g, allow) && (w.gates[g].returned.Some? ==> w.gates[g].returned.value == allow)
  }

  lemma StepKeepsDecided(w: World, g: nat, allow: bool, step: Step)
    requires Inv(w) && Decided(w, g, allow) && Enabled(w, step)
    ensures Decided(Next(w, step), g, allow)
  {
    StepKeepsSettled(w, g, allow, step);
    GatesAfter(w, step);
    assert GateFine(w, g);
    hide Inv, Next;
  }

  lemma {:induction false} RunKeepsDecided(w: World, g: nat, allow: bool, steps: seq<Step>)
    requires Inv(w) && Decided(w, g, allow) && ValidRun(w, steps)
    ensures Decided(Run(w, steps), g, allow)
    decreases |steps|
  {
    hide Inv, Next, Enabled, Decided;
    if steps != [] {
      StepKeepsInv(w, steps[0]);
      StepKeepsDecided(w, g, allow, steps[0]);
      RunKeepsDecided(Next(w, steps[0]), g, allow, steps[1..]);
    }
  }

  /** An answer while a gate is pending and has not returned is accepted, and is what the gate returns,
      whatever happens afterwards. */
  lemma AnswerIsReturned(w: World, t: string, g: nat, allow: bool, later: seq<Step>)
    requires Inv(w) && t in w.hub.tasks && w.hub.tasks[t].pending == Some(g) && g in w.gates
    requires w.gates[g].returned.None? && ValidRun(Next(w, Reply(t, allow)), later)
    ensures Resolved(w.hub, t, allow).1
    ensures var w' := Run(Next(w, Reply(t, allow)), later);
            g in w'.gates && (w'.gates[g].returned == None || w'.gates[g].returned == Some(allow))
  {
    assert PendingFine(w, t);
    StepKeepsInv(w, Reply(t, allow));
    assert Decided(Next(w, Reply(t, allow)), g, allow);
    RunKeepsDecided(Next(w, Reply(t, allow)), g, allow, later);
  }

  /** A gate that is pending when the kill switch is thrown can only return a refusal, and later
      answers do not reach it. */
  lemma PendingGateRefusedAtStop(w: World, t: string, g: nat, later: seq<Step>)
    requires Inv(w) && t in w.hub.tasks && w.hub.tasks[t].pending == Some(g) && ValidRun(Next(w, Stop(t)), later)
    ensures var w' := Run(Next(w, Stop(t)), later); g in w'.gates && w'.gates[g].returned != Some(true)
  {
    assert PendingFine(w, t) && GateFine(w, g);
    StepKeepsInv(w, Stop(t));
    RunKeepsSettled(Next(w, Stop(t)), g, false, later);
  }

  /** Stopping does not close the door: a gate asked for afterwards is still put up, and granted if
      somebody answers. */
  lemma GateAfterStopCanBeGranted(w: World, t: string)
    requires Inv(w) && t in w.hub.tasks
    ensures var w1 := Next(w, Stop(t));
            var w2 := Next(Next(w1, Ask(t)), Reply(t, true));
            && w1.hub.tasks[t].stopped
            && Enabled(w2, Wake(w.nextGate))
            && Next(w2, Wake(w.nextGate)).gates[w.nextGate].returned == Some(true)
  {
    hide LogFine, GateFine, PendingFine;
    var w2 := Next(Next(w, Stop(t)), Ask(t));
    assert w2.hub.tasks[t].pending == Some(w.nextGate);
    assert Next(w2, Reply(t, true)).hub.sent[w.nextGate];
  }

  /** A gate displaced by a later one cannot be answered any more. */
  predicate Orphaned(w: World, g: nat) {
    && g in w.gates && g < w.nextGate && g !in w.hub.sent && w.gates[g].returned != Some(true)
    && forall t :: t in w.hub.tasks ==> w.hub.tasks[t].pending != Some(g)
  }

  lemma {:induction false} OrphanIsRefused(w: World, g: nat, steps: seq<Step>)
    requires Orphaned(w, g) && ValidRun(w, steps)
    ensures Orphaned(Run(w, steps), g)
    decreases |steps|
  {
    if steps != [] {
      OrphanIsRefused(Next(w, steps[0]), g, steps[1..]);
    }
  }

  lemma NewGateDisplacesOld(w: World, t: string, g: nat)
    requires Inv(w) && t in w.hub.tasks && w.hub.tasks[t].pending == Some(g)
    ensures Orphaned(Next(w, Ask(t)), g)
  {
    assert forall u :: u in w.hub.tasks ==> PendingFine(w, u);
    assert GateFine(w, g);
  }

  /** In every interleaving a gate returns true only if `true` was accepted for its task while it was
      the one pending, and no gate gets two answers. */
  lemma GrantedOnlyByAnswer(steps: seq<Step>, g: nat)
    requires ValidRun(Initial(), steps)
    ensures var w := Run(Initial(), steps);
            && (g in w.gates && w.gates[g].returned == Some(true) ==> Answer(w.gates[g].task, true, g) in w.answers)
            && (forall i, j :: 0 <= i < j < |w.answers| ==> w.answers[i].gate != w.answers[j].gate)
  {
    InitialInv();
    RunKeepsInv(Initial(), steps);
    var w := Run(Initial(), steps);
    if g in w.gates && w.gates[g].returned == Some(true) {
      assert GateFine(w, g);
    }
  }

  // ---------------------------------------------------------------- the hub as it runs

  class SquadHub {
    var tasks: map<string, Task>
    var nextTaskSeq: nat
    /** The far ends of the hub's channels and handles. */
    var sent: map<nat, bool>
    var aborted: set<nat>

    function View(): Hub
      reads this
    {
      Hub(tasks, nextTaskSeq, sent, aborted)
    }

    constructor ()
      ensures View() == New()
    {
      tasks, nextTaskSeq, sent, aborted := map[], 1, map[], {};
    }

    /** Draws a number, then inserts under the lock; nothing comes in between here. */
    method CreateTask() returns (t: string)
      modifies this
      ensures View() == Inserted(Drawn(old(View())), old(nextTaskSeq)) && t == TaskId(old(nextTaskSeq))
    {
      t := TaskId(nextTaskSeq);
      nextTaskSeq := nextTaskSeq + 1;
      tasks := tasks[t := NEW_TASK];
    }

    method Publish(t: string, e: Event)
      modifies this
      ensures View() == Published(old(View()), t, e)
    {
      if t in tasks {
        var task := tasks[t];
        task := task.(log := task.log + [e]);
        if task.live {
          task := task.(subs := Broadcast.Sent(task.subs, e));
        }
        tasks := tasks[t := task];
      }
    }

    method FinishTask(t: string)
      modifies this
      ensures View() == Finished(old(View()), t)
    {
      if t in tasks {
        tasks := tasks[t := tasks[t].(live := false)];
      }
    }

    method Subscribe(t: string, k: nat) returns (snapshot: seq<Event>, receiver: bool)
      modifies this
      ensures View() == Subscribed(old(View()), t, k)
      ensures snapshot == View().tasks[t].log && receiver == View().tasks[t].live
    {
      if t !in tasks {
        tasks := tasks[t := NEW_TASK];
      }
      var task := tasks[t];
      snapshot, receiver := task.log, task.live;
      if receiver {
        tasks := tasks[t := task.(subs := Broadcast.Joined(task.subs, k, snapshot))];
      }
    }

    /** The critical section of a gate request; the wait follows outside it. */
    method BeginGate(t: string, g: nat) returns (ok: bool)
      modifies this
      ensures (View(), ok) == Gated(old(View()), t, g)
    {
      ok := t in tasks;
      if ok {
        tasks := tasks[t := tasks[t].(pending := Some(g))];
      }
    }

    method ResolveHitl(t: string, allow: bool) returns (ok: bool)
      modifies this
      ensures (View(), ok) == Resolved(old(View()), t, allow)
    {
      if t !in tasks {
        return false;
      }
      var p := tasks[t].pending;
      if p.None? {
        return false;
      }
      tasks := tasks[t := tasks[t].(pending := None)];
      sent := sent[p.value := allow];
      ok := true;
    }

    method Register(t: string, handle: nat)
      modifies this
      ensures View() == AbortRegistered(old(View()), t, handle)
    {
      if t in tasks {
        if tasks[t].stopped {
          aborted := aborted + {handle};
        } else {
          tasks := tasks[t := tasks[t].(abort := Some(handle))];
        }
      }
    }

    /** The three critical sections of the kill switch; between them anything may happen when other
        threads run, nothing does here. */
    method EmergencyStop(t: string, reason: string) returns (ok: bool)
      modifies this
      ensures ok == Stopped(old(View()), t).1
      ensures View() == if ok then Finished(Published(Stopped(old(View()), t).0, t, StopNotice(reason)), t)
                        else old(View())
    {
      ok := StopNow(t);
      if ok {
        Publish(t, StopNotice(reason));
        FinishTask(t);
      }
    }

    method StopNow(t: string) returns (ok: bool)
      modifies this
      ensures (View(), ok) == Stopped(old(View()), t)
    {
      if t !in tasks {
        return false;
      }
      var task := tasks[t];
      if task.abort.Some? {
        aborted := aborted + {task.abort.value};
      }
      if task.pending.Some? {
        sent := sent[task.pending.value := false];
      }
      tasks := tasks[t := task.(stopped := true, abort := None, pending := None)];
      ok := true;
    }
  }
}
