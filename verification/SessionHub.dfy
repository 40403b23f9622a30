/** Live web sessions: an event log with subscribers, at most one permission request waiting for an
    answer, and a busy mark per session. Every critical section of the hub is one atomic function
    here and one method of the class at the end. */
module SessionHub {
  import opened Wrappers
  import Broadcast
  import Decimal

  datatype Event = PermissionRequested(id: string, tool: string, scope: string) | OtherEvent(text: string)

  /** `pending` is the number of the request that waits; its answer channel has a sender as long as
      it is pending and no longer. */
  datatype Session = Session(log: seq<Event>, subs: Broadcast.Subscribers<Event>, pending: Option<nat>, busy: bool)

  /** The hub, and what was sent on the answer channel of each request. */
  datatype Hub = Hub(sessions: map<string, Session>, maxSessions: nat, nextId: nat, channels: map<nat, bool>)

  const EMPTY_SESSION := Session([], map[], None, false)

  function New(maxSessions: nat): Hub {
    Hub(map[], maxSessions, 1, map[])
  }

  function RequestId(r: nat): string {
    "perm-" + Decimal.Print(r)
  }

  lemma RequestIdInjective(q: nat, r: nat)
    ensures RequestId(q) == RequestId(r) <==> q == r
  {
    if RequestId(q) == RequestId(r) {
      assert Decimal.Print(q) == RequestId(q)[5..] == RequestId(r)[5..] == Decimal.Print(r);
      Decimal.PrintInjective(q, r);
    }
  }

  // ---------------------------------------------------------------- critical sections

  function EnsuredSession(h: Hub, s: string): (Hub, bool) {
    if s in h.sessions then (h, true)
    else if |h.sessions| >= h.maxSessions then (h, false)
    else (h.(sessions := h.sessions[s := EMPTY_SESSION]), true)
  }

  function Published(h: Hub, s: string, e: Event): Hub {
    if s !in h.sessions then h
    else
      var state := h.sessions[s];
      h.(sessions := h.sessions[s := state.(log := state.log + [e], subs := Broadcast.Sent(state.subs, e))])
  }

  /** Creates the session if there is none, whatever the limit. */
  function Subscribed(h: Hub, s: string, k: nat): Hub {
    var state := if s in h.sessions then h.sessions[s] else EMPTY_SESSION;
    h.(sessions := h.sessions[s := state.(subs := Broadcast.Joined(state.subs, k, state.log))])
  }

  function SetPending(h: Hub, s: string, p: Option<nat>): Hub
    requires s in h.sessions
  {
    h.(sessions := h.sessions[s := h.sessions[s].(pending := p)])
  }

  /** A request takes the place of whatever was pending. */
  function Entered(h: Hub, s: string, r: nat): (Hub, bool) {
    if s in h.sessions then (SetPending(h, s, Some(r)), true) else (h, false)
  }

  /** The end of a request clears whatever is pending. */
  function Cleared(h: Hub, s: string): Hub {
    if s in h.sessions then SetPending(h, s, None) else h
  }

  /** An answer goes to the pending request if it names it, and to no other. */
  function Matches(h: Hub, s: string, id: string): bool {
    s in h.sessions && h.sessions[s].pending.Some? && RequestId(h.sessions[s].pending.value) == id
  }

  function Resolved(h: Hub, s: string, id: string, allow: bool): (Hub, bool) {
    if !Matches(h, s, id) then (h, false)
    else
      var r := h.sessions[s].pending.value;
      (SetPending(h, s, None).(channels := h.channels[r := allow]), true)
  }

  function SetBusy(h: Hub, s: string, busy: bool): Hub
    requires s in h.sessions
  {
    h.(sessions := h.sessions[s := h.sessions[s].(busy := busy)])
  }

  function Started(h: Hub, s: string): (Hub, bool) {
    if s in h.sessions && !h.sessions[s].busy then (SetBusy(h, s, true), true) else (h, false)
  }

  function Finished(h: Hub, s: string): Hub {
    if s in h.sessions then SetBusy(h, s, false) else h
  }

  // ---------------------------------------------------------------- all interleavings

  /** Where a call of `request_permission` stands. */
  datatype Phase = Numbered | Registered | Waiting | Woken(allowed: bool) | Done(allowed: bool)

  datatype Request = Request(session: string, tool: string, scope: string, phase: Phase)

  /** An answer that was accepted, with the request that got it. */
  datatype Answer = Answer(session: string, id: string, allow: bool, request: nat)

  /** The hub, the calls in progress, and the history of accepted answers, which no code reads. */
  datatype World = World(hub: Hub, requests: map<nat, Request>, answers: seq<Answer>)

  datatype Step =
    | Ensure(s: string)
    | Emit(s: string, e: Event)
    | Attach(s: string, k: nat)
    | Read(s: string, k: nat)
    | Ask(s: string, tool: string, scope: string)
    | Enter(r: nat)
    | Announce(r: nat)
    | Wake(r: nat)
    | Leave(r: nat)
    | Reply(s: string, id: string, allow: bool)
    | Start(s: string)
    | Finish(s: string)

  predicate At(w: World, r: nat, phase: Phase) {
    r in w.requests && w.requests[r].phase == phase
  }

  /** Other events than requests are published freely. */
  predicate Enabled(w: World, step: Step) {
    match step
    case Attach(s, k) => s in w.hub.sessions ==> k !in w.hub.sessions[s].subs
    case Read(s, k) => s in w.hub.sessions && Broadcast.CanRead(w.hub.sessions[s].subs, k)
    case Emit(_, e) => e.OtherEvent?
    case Enter(r) => At(w, r, Numbered)
    case Announce(r) => At(w, r, Registered)
    case Wake(r) => At(w, r, Waiting)
    case Leave(r) => r in w.requests && w.requests[r].phase.Woken?
    case _ => true
  }

  function Moved(w: World, r: nat, phase: Phase): map<nat, Request>
    requires r in w.requests
  {
    w.requests[r := w.requests[r].(phase := phase)]
  }

  /** A waiting call gets the answer if one was sent, and a refusal at the timeout or when its sender
      is gone. */
  function Received(h: Hub, r: nat): bool {
    if r in h.channels then h.channels[r] else false
  }

  /** What the session is told about a request. */
  function Notice(q: Request, r: nat): Event {
    PermissionRequested(RequestId(r), q.tool, q.scope)
  }

  function Next(w: World, step: Step): World
    requires Enabled(w, step)
  {
    var h := w.hub;
    match step
    case Ensure(s) => w.(hub := EnsuredSession(h, s).0)
    case Emit(s, e) => w.(hub := Published(h, s, e))
    case Attach(s, k) => w.(hub := Subscribed(h, s, k))
    case Read(s, k) =>
      var state := h.sessions[s];
      w.(hub := h.(sessions := h.sessions[s := state.(subs := Broadcast.Read(state.subs, k))]))
    case Ask(s, tool, scope) =>
      w.(hub := h.(nextId := h.nextId + 1), requests := w.requests[h.nextId := Request(s, tool, scope, Numbered)])
    case Enter(r) =>
      var (h', ok) := Entered(h, w.requests[r].session, r);
      w.(hub := h', requests := Moved(w, r, if ok then Registered else Done(false)))
    case Announce(r) =>
      var q := w.requests[r];
      w.(hub := Published(h, q.session, Notice(q, r)), requests := Moved(w, r, Waiting))
    case Wake(r) => w.(requests := Moved(w, r, Woken(Received(h, r))))
    case Leave(r) =>
      w.(hub := Cleared(h, w.requests[r].session), requests := Moved(w, r, Done(w.requests[r].phase.allowed)))
    case Reply(s, id, allow) =>
      var (h', ok) := Resolved(h, s, id, allow);
      if ok then World(h', w.requests, w.answers + [Answer(s, id, allow, h.sessions[s].pending.value)]) else w
    case Start(s) => w.(hub := Started(h, s).0)
    case Finish(s) => w.(hub := Finished(h, s))
  }

  predicate ValidRun(w: World, steps: seq<Step>)
    decreases |steps|
  {
    steps == [] || (Enabled(w, steps[0]) && ValidRun(Next(w, steps[0]), steps[1..]))
  }

  function Run(w: World, steps: seq<Step>): World
    requires ValidRun(w, steps)
    decreases |steps|
  {
    if steps == [] then w else Run(Next(w, steps[0]), steps[1..])
  }

  function Initial(maxSessions: nat): World {
    World(New(maxSessions), map[], [])
  }

  // ---------------------------------------------------------------- what always holds

  predicate Answered(w: World, r: nat, a: Answer) {
    a.request == r && r in w.requests && a.session == w.requests[r].session && a.id == RequestId(r)
    && r in w.hub.channels && w.hub.channels[r] == a.allow
  }

  predicate RequestFine(w: World, r: nat)
    requires r in w.requests
  {
    var phase := w.requests[r].phase;
    && r < w.hub.nextId
    && (phase.Numbered? ==> r !in w.hub.channels)
    && ((phase.Woken? || phase.Done?) && phase.allowed ==> r in w.hub.channels && w.hub.channels[r])
  }

  predicate PendingFine(w: World, s: string)
    requires s in w.hub.sessions
  {
    var p := w.hub.sessions[s].pending;
    p.Some? ==>
      && p.value in w.requests && w.requests[p.value].session == s && p.value !in w.hub.channels
      && !w.requests[p.value].phase.Numbered? && !w.requests[p.value].phase.Done?
  }

  ghost predicate ChannelFine(w: World, r: nat) {
    exists i :: 0 <= i < |w.answers| && w.answers[i].request == r
  }

  ghost predicate Inv(w: World) {
    && (forall r :: r in w.requests ==> RequestFine(w, r))
    && (forall s :: s in w.hub.sessions ==> PendingFine(w, s))
    && (forall i :: 0 <= i < |w.answers| ==> Answered(w, w.answers[i].request, w.answers[i]))
    && (forall i, j :: 0 <= i < j < |w.answers| ==> w.answers[i].request != w.answers[j].request)
    && (forall r :: r in w.hub.channels ==> ChannelFine(w, r))
    && (forall s :: s in w.hub.sessions ==> Broadcast.AllFollow(w.hub.sessions[s].subs, w.hub.sessions[s].log))
  }

  lemma InitialInv(maxSessions: nat)
    ensures Inv(Initial(maxSessions))
  {
  }

  predicate SamePending(h: Hub, h': Hub, s: string)
    requires s in h'.sessions
  {
    h'.sessions[s].pending.None? || (s in h.sessions && h.sessions[s].pending == h'.sessions[s].pending)
  }

  ghost predicate SubscribersFine(h: Hub) {
    forall s :: s in h.sessions ==> Broadcast.AllFollow(h.sessions[s].subs, h.sessions[s].log)
  }

  /** A change of the sessions that sets no request pending. */
  lemma QuietChange(w: World, h': Hub)
    requires Inv(w) && SubscribersFine(h')
    requires h'.nextId == w.hub.nextId && h'.channels == w.hub.channels
    requires forall s :: s in h'.sessions ==> SamePending(w.hub, h', s)
    ensures Inv(w.(hub := h'))
  {
    var w' := w.(hub := h');
    forall r | r in w'.requests
      ensures RequestFine(w', r)
    {
      assert RequestFine(w, r);
    }
    forall s | s in h'.sessions
      ensures PendingFine(w', s)
    {
      assert SamePending(w.hub, h', s);
      assert s in w.hub.sessions ==> PendingFine(w, s);
    }
    forall i | 0 <= i < |w.answers|
      ensures Answered(w', w.answers[i].request, w.answers[i])
    {
      assert Answered(w, w.answers[i].request, w.answers[i]);
    }
    forall r | r in w'.hub.channels
      ensures ChannelFine(w', r)
    {
      assert ChannelFine(w, r);
    }
  }

  lemma OneSessionFine(h: Hub, s: string, state: Session)
    requires SubscribersFine(h) && Broadcast.AllFollow(state.subs, state.log)
    ensures SubscribersFine(h.(sessions := h.sessions[s := state]))
  {
  }

  lemma PublishFine(h: Hub, s: string, e: Event)
    requires SubscribersFine(h)
    ensures SubscribersFine(Published(h, s, e))
  {
    if s in h.sessions {
      var state := h.sessions[s];
      Broadcast.SendingFollows(state.subs, state.log, e);
      OneSessionFine(h, s, state.(log := state.log + [e], subs := Broadcast.Sent(state.subs, e)));
    }
  }

  lemma SubscribeFine(h: Hub, s: string, k: nat)
    requires SubscribersFine(h)
    ensures SubscribersFine(Subscribed(h, s, k))
  {
    var state := if s in h.sessions then h.sessions[s] else EMPTY_SESSION;
    Broadcast.JoiningFollows(state.subs, k, state.log);
    OneSessionFine(h, s, state.(subs := Broadcast.Joined(state.subs, k, state.log)));
  }

  lemma SubscriberStepKeepsInv(w: World, step: Step)
    requires Inv(w) && Enabled(w, step)
    requires step.Emit? || step.Attach? || step.Read?
    ensures Inv(Next(w, step))
  {
    var h := w.hub;
    if step.Emit? {
      PublishFine(h, step.s, step.e);
    } else if step.Attach? {
      SubscribeFine(h, step.s, step.k);
    } else {
      var state := h.sessions[step.s];
      Broadcast.ReadingFollows(state.subs, step.k, state.log);
      OneSessionFine(h, step.s, state.(subs := Broadcast.Read(state.subs, step.k)));
    }
    hide Inv, Broadcast.Sent, Broadcast.Joined, Broadcast.Read, Broadcast.AllFollow;
    QuietChange(w, Next(w, step).hub);
  }

  lemma EmptyFollows()
    ensures Broadcast.AllFollow(EMPTY_SESSION.subs, EMPTY_SESSION.log)
  {
  }

  lemma BusyLeavesLogs(w: World, step: Step)
    requires SubscribersFine(w.hub) && Broadcast.AllFollow(EMPTY_SESSION.subs, EMPTY_SESSION.log)
    requires step.Ensure? || step.Start? || step.Finish?
    ensures SubscribersFine(Next(w, step).hub)
  {
    hide Broadcast.AllFollow;
  }

  lemma BusyStepKeepsInv(w: World, step: Step)
    requires Inv(w) && Enabled(w, step)
    requires step.Ensure? || step.Start? || step.Finish?
    ensures Inv(Next(w, step))
  {
    hide Broadcast.AllFollow, RequestFine, PendingFine, Answered, ChannelFine;
    EmptyFollows();
    BusyLeavesLogs(w, step);
    hide Inv;
    QuietChange(w, Next(w, step).hub);
  }

  /** A call moves on: nothing but its phase changes. */
  lemma MoveKeepsInv(w: World, r: nat, phase: Phase)
    requires Inv(w) && r in w.requests && !phase.Numbered?
    requires (phase.Woken? || phase.Done?) && phase.allowed ==> r in w.hub.channels && w.hub.channels[r]
    requires phase.Done? ==> forall s :: s in w.hub.sessions ==> w.hub.sessions[s].pending != Some(r)
    ensures Inv(w.(requests := Moved(w, r, phase)))
  {
    var w' := w.(requests := Moved(w, r, phase));
    forall q | q in w'.requests
      ensures RequestFine(w', q)
    {
      assert RequestFine(w, q);
    }
    forall s | s in w'.hub.sessions
      ensures PendingFine(w', s)
    {
      assert PendingFine(w, s);
    }
    forall i | 0 <= i < |w.answers|
      ensures Answered(w', w.answers[i].request, w.answers[i])
    {
      assert Answered(w, w.answers[i].request, w.answers[i]);
    }
    forall q | q in w'.hub.channels
      ensures ChannelFine(w', q)
    {
      assert ChannelFine(w, q);
    }
  }

  lemma AnsweredCallsExist(w: World)
    requires Inv(w)
    ensures forall r :: r in w.hub.channels ==> r in w.requests
  {
    forall r | r in w.hub.channels
      ensures r in w.requests
    {
      assert ChannelFine(w, r);
      var i :| 0 <= i < |w.answers| && w.answers[i].request == r;
      assert Answered(w, w.answers[i].request, w.answers[i]);
    }
  }

  lemma NumberIsFresh(w: World)
    requires Inv(w)
    ensures w.hub.nextId !in w.requests
  {
    assert forall q :: q in w.requests ==> RequestFine(w, q);
  }

  lemma AskKeepsInv(w: World, step: Step)
    requires Inv(w) && step.Ask?
    ensures Inv(Next(w, step))
  {
    var w', r := Next(w, step), w.hub.nextId;
    NumberIsFresh(w);
    assert r !in w.hub.channels by {
      AnsweredCallsExist(w);
    }
    forall q | q in w'.requests
      ensures RequestFine(w', q)
    {
      assert q in w.requests ==> RequestFine(w, q);
    }
    forall s | s in w'.hub.sessions
      ensures PendingFine(w', s)
    {
      assert PendingFine(w, s);
    }
    forall i | 0 <= i < |w.answers|
      ensures Answered(w', w.answers[i].request, w.answers[i])
    {
      assert Answered(w, w.answers[i].request, w.answers[i]);
    }
    forall q | q in w'.hub.channels
      ensures ChannelFine(w', q)
    {
      assert ChannelFine(w, q);
    }
  }

  lemma PendingChange(w: World, s: string, r: nat)
    requires Inv(w) && s in w.hub.sessions && At(w, r, Registered)
    requires w.requests[r].session == s && r !in w.hub.channels
    ensures Inv(w.(hub := SetPending(w.hub, s, Some(r))))
  {
    var w' := w.(hub := SetPending(w.hub, s, Some(r)));
    OneSessionFine(w.hub, s, w.hub.sessions[s].(pending := Some(r)));
    forall t | t in w'.hub.sessions
      ensures PendingFine(w', t)
    {
      assert PendingFine(w, t);
    }
    forall q | q in w'.requests
      ensures RequestFine(w', q)
    {
      assert RequestFine(w, q);
    }
    forall i | 0 <= i < |w.answers|
      ensures Answered(w', w.answers[i].request, w.answers[i])
    {
      assert Answered(w, w.answers[i].request, w.answers[i]);
    }
    forall q | q in w'.hub.channels
      ensures ChannelFine(w', q)
    {
      assert ChannelFine(w, q);
    }
  }

  lemma EnterKeepsInv(w: World, r: nat)
    requires Inv(w) && Enabled(w, Enter(r))
    ensures Inv(Next(w, Enter(r)))
  {
    var s := w.requests[r].session;
    assert RequestFine(w, r);
    assert forall t :: t in w.hub.sessions ==> PendingFine(w, t);
    if s in w.hub.sessions {
      MoveKeepsInv(w, r, Registered);
      PendingChange(w.(requests := Moved(w, r, Registered)), s, r);
    } else {
      MoveKeepsInv(w, r, Done(false));
    }
  }

  lemma AnnounceKeepsInv(w: World, r: nat)
    requires Inv(w) && Enabled(w, Announce(r))
    ensures Inv(Next(w, Announce(r)))
  {
    var q := w.requests[r];
    var e := Notice(q, r);
    PublishFine(w.hub, q.session, e);
    MoveKeepsInv(w, r, Waiting);
    QuietChange(w.(requests := Moved(w, r, Waiting)), Published(w.hub, q.session, e));
  }

  lemma LeaveKeepsInv(w: World, r: nat)
    requires Inv(w) && Enabled(w, Leave(r))
    ensures Inv(Next(w, Leave(r)))
  {
    var s := w.requests[r].session;
    assert RequestFine(w, r);
    assert forall t :: t in w.hub.sessions ==> PendingFine(w, t);
    var h' := Cleared(w.hub, s);
    if s in w.hub.sessions {
      OneSessionFine(w.hub, s, w.hub.sessions[s].(pending := None));
    }
    QuietChange(w, h');
    var cleared := w.(hub := h');
    assert forall t :: t in h'.sessions ==> PendingFine(cleared, t);
    MoveKeepsInv(cleared, r, Done(w.requests[r].phase.allowed));
  }

  lemma AnswersAfterReply(w: World, step: Step)
    requires Inv(w) && step.Reply? && Matches(w.hub, step.s, step.id)
    ensures var w', r := Next(w, step), w.hub.sessions[step.s].pending.value;
            && (forall i :: 0 <= i < |w'.answers| ==> Answered(w', w'.answers[i].request, w'.answers[i]))
            && (forall i :: 0 <= i < |w.answers| ==> w'.answers[i].request != r)
            && (forall q :: q in w'.hub.channels ==> ChannelFine(w', q))
  {
    var w', r := Next(w, step), w.hub.sessions[step.s].pending.value;
    assert PendingFine(w, step.s);
    var a := Answer(step.s, step.id, step.allow, r);
    assert w'.answers == w.answers + [a];
    forall i | 0 <= i < |w'.answers|
      ensures Answered(w', w'.answers[i].request, w'.answers[i])
      ensures i < |w.answers| ==> w'.answers[i].request != r
    {
      assert i < |w.answers| ==> Answered(w, w.answers[i].request, w.answers[i]);
    }
    forall q | q in w'.hub.channels
      ensures ChannelFine(w', q)
    {
      if q == r {
        assert w'.answers[|w.answers|].request == q;
      } else {
        assert ChannelFine(w, q);
        var i :| 0 <= i < |w.answers| && w.answers[i].request == q;
        assert w'.answers[i].request == q;
      }
    }
  }

  lemma ReplyKeepsInv(w: World, step: Step)
    requires Inv(w) && step.Reply?
    ensures Inv(Next(w, step))
  {
    hide ChannelFine, Answered, Broadcast.AllFollow;
    if Matches(w.hub, step.s, step.id) {
      var s, w' := step.s, Next(w, step);
      assert PendingFine(w, s);
      OneSessionFine(w.hub, s, w.hub.sessions[s].(pending := None));
      AnswersAfterReply(w, step);
      forall q | q in w'.requests
        ensures RequestFine(w', q)
      {
        assert RequestFine(w, q);
      }
      forall t | t in w'.hub.sessions
        ensures PendingFine(w', t)
      {
        assert PendingFine(w, t);
      }
    }
  }

  lemma StepKeepsInv(w: World, step: Step)
    requires Inv(w) && Enabled(w, step)
    ensures Inv(Next(w, step))
  {
    hide Inv;
    match step {
      case Ask(_, _, _) => AskKeepsInv(w, step);
      case Enter(r) => EnterKeepsInv(w, r);
      case Announce(r) => AnnounceKeepsInv(w, r);
      case Wake(r) => WakeKeepsInv(w, r);
      case Leave(r) => LeaveKeepsInv(w, r);
      case Reply(_, _, _) => ReplyKeepsInv(w, step);
      case Emit(_, _) => SubscriberStepKeepsInv(w, step);
      case Attach(_, _) => SubscriberStepKeepsInv(w, step);
      case Read(_, _) => SubscriberStepKeepsInv(w, step);
      case _ => BusyStepKeepsInv(w, step);
    }
  }

  lemma WakeKeepsInv(w: World, r: nat)
    requires Inv(w) && Enabled(w, Wake(r))
    ensures Inv(Next(w, Wake(r)))
  {
    MoveKeepsInv(w, r, Woken(Received(w.hub, r)));
  }

  lemma {:induction false} RunKeepsInv(w: World, steps: seq<Step>)
    requires Inv(w) && ValidRun(w, steps)
    ensures Inv(Run(w, steps))
    decreases |steps|
  {
    if steps != [] {
      StepKeepsInv(w, steps[0]);
      RunKeepsInv(Next(w, steps[0]), steps[1..]);
    }
  }

  // ---------------------------------------------------------------- permissions

  predicate Allows(a: Answer, s: string, r: nat) {
    a.session == s && a.id == RequestId(r) && a.allow
  }

  /** In every interleaving, a call returns true only if an answer naming its own request, on its own
      session, with `allow`, was accepted; and no request is ever answered twice. */
  lemma GrantedOnlyByItsAnswer(maxSessions: nat, steps: seq<Step>, r: nat)
    requires ValidRun(Initial(maxSessions), steps)
    ensures var w := Run(Initial(maxSessions), steps);
            && (At(w, r, Done(true)) ==>
                  exists i :: 0 <= i < |w.answers| && Allows(w.answers[i], w.requests[r].session, r))
            && (forall i, j :: 0 <= i < j < |w.answers| ==> w.answers[i].id != w.answers[j].id)
  {
    var w := Run(Initial(maxSessions), steps);
    InitialInv(maxSessions);
    RunKeepsInv(Initial(maxSessions), steps);
    if At(w, r, Done(true)) {
      assert RequestFine(w, r);
      assert ChannelFine(w, r);
      var i :| 0 <= i < |w.answers| && w.answers[i].request == r;
      assert Answered(w, r, w.answers[i]);
    }
    forall i, j | 0 <= i < j < |w.answers|
      ensures w.answers[i].id != w.answers[j].id
    {
      assert Answered(w, w.answers[i].request, w.answers[i]) && Answered(w, w.answers[j].request, w.answers[j]);
      RequestIdInjective(w.answers[i].request, w.answers[j].request);
    }
  }

  /** An answer is refused, and changes nothing, exactly when its id is not that of the request now
      pending; in particular when that request has been answered or has returned. */
  lemma StaleAnswerChangesNothing(w: World, s: string, id: string, allow: bool)
    requires Inv(w)
    ensures Resolved(w.hub, s, id, allow).1 <==>
            s in w.hub.sessions && exists r :: w.hub.sessions[s].pending == Some(r) && RequestId(r) == id
    ensures !Resolved(w.hub, s, id, allow).1 ==> Next(w, Reply(s, id, allow)) == w
    ensures forall r :: RequestId(r) == id && (r in w.hub.channels || (r in w.requests && w.requests[r].phase.Done?))
              ==> !Resolved(w.hub, s, id, allow).1
  {
    if Matches(w.hub, s, id) {
      var p := w.hub.sessions[s].pending.value;
      assert PendingFine(w, s);
      forall r | RequestId(r) == id
        ensures r == p
      {
        RequestIdInjective(r, p);
      }
    }
  }

  /** From the moment a call is answered before it wakes, it can only return that answer. */
  predicate Settled(w: World, r: nat, allow: bool) {
    && r in w.hub.channels && w.hub.channels[r] == allow && r in w.requests
    && w.requests[r].phase in {Registered, Waiting, Woken(allow), Done(allow)}
  }

  lemma StepKeepsSettled(w: World, r: nat, allow: bool, step: Step)
    requires Inv(w) && Settled(w, r, allow) && Enabled(w, step)
    ensures Settled(Next(w, step), r, allow)
  {
    hide RequestFine, Answered, ChannelFine, Broadcast.AllFollow;
    hide Broadcast.Sent, Broadcast.Joined, Broadcast.Read, RequestId;
    if step.Reply? && Matches(w.hub, step.s, step.id) {
      assert PendingFine(w, step.s);
    } else {
      ChannelsKept(w, step);
    }
    NumberIsFresh(w);
    hide Inv, PendingFine;
  }

  lemma ChannelsKept(w: World, step: Step)
    requires Enabled(w, step) && !(step.Reply? && Matches(w.hub, step.s, step.id))
    ensures Next(w, step).hub.channels == w.hub.channels
  {
    hide Broadcast.Sent, Broadcast.Joined, Broadcast.Read, RequestId;
  }

  lemma {:induction false} AnswerIsReturned(w: World, r: nat, allow: bool, steps: seq<Step>)
    requires Inv(w) && Settled(w, r, allow) && ValidRun(w, steps)
    ensures Settled(Run(w, steps), r, allow)
    decreases |steps|
  {
    if steps != [] {
      StepKeepsInv(w, steps[0]);
      StepKeepsSettled(w, r, allow, steps[0]);
      AnswerIsReturned(Next(w, steps[0]), r, allow, steps[1..]);
    }
  }

  // ---------------------------------------------------------------- what people are asked

  predicate Shown(w: World, r: nat)
    requires r in w.requests
  {
    var q := w.requests[r];
    q.phase.Registered? || q.phase.Waiting? || q.phase.Woken? ==>
      q.session in w.hub.sessions && (q.phase.Registered? || Notice(q, r) in w.hub.sessions[q.session].log)
  }

  predicate IsNoticeOf(w: World, s: string, e: Event, r: nat) {
    r in w.requests && w.requests[r].session == s
    && e == PermissionRequested(RequestId(r), w.requests[r].tool, w.requests[r].scope)
    && !w.requests[r].phase.Numbered? && !w.requests[r].phase.Registered?
  }

  ghost predicate Genuine(w: World, s: string, e: Event) {
    e.PermissionRequested? ==> exists r :: IsNoticeOf(w, s, e, r)
  }

  ghost predicate NoticesFine(w: World) {
    && (forall r :: r in w.requests ==> Shown(w, r))
    && (forall s, e :: s in w.hub.sessions && e in w.hub.sessions[s].log ==> Genuine(w, s, e))
  }

  lemma NoticeKept(w: World, step: Step, s: string, e: Event)
    requires Inv(w) && Enabled(w, step) && Genuine(w, s, e)
    ensures Genuine(Next(w, step), s, e)
  {
    if e.PermissionRequested? {
      var r :| IsNoticeOf(w, s, e, r);
      assert RequestFine(w, r);
      assert IsNoticeOf(Next(w, step), s, e, r);
    }
  }

  /** The log of a session after a step: as before, or with one event more. */
  lemma LogAfter(w: World, step: Step, s: string)
    requires Enabled(w, step) && s in Next(w, step).hub.sessions
    ensures var log := Next(w, step).hub.sessions[s].log;
            var before := if s in w.hub.sessions then w.hub.sessions[s].log else [];
            || log == before
            || (step.Emit? && step.s == s && log == before + [step.e])
            || (step.Announce? && w.requests[step.r].session == s
                && log == before + [Notice(w.requests[step.r], step.r)])
  {
  }

  lemma SessionsStay(w: World, step: Step, s: string)
    requires Enabled(w, step) && s in w.hub.sessions
    ensures s in Next(w, step).hub.sessions && w.hub.sessions[s].log <= Next(w, step).hub.sessions[s].log
  {
  }

  lemma StepKeepsNotices(w: World, step: Step)
    requires Inv(w) && NoticesFine(w) && Enabled(w, step)
    ensures NoticesFine(Next(w, step))
  {
    var w' := Next(w, step);
    forall s, e | s in w'.hub.sessions && e in w'.hub.sessions[s].log
      ensures Genuine(w', s, e)
    {
      LogAfter(w, step, s);
      if s in w.hub.sessions && e in w.hub.sessions[s].log {
        NoticeKept(w, step, s, e);
      } else if step.Announce? {
        assert IsNoticeOf(w', s, e, step.r);
      }
    }
    forall r | r in w'.requests
      ensures Shown(w', r)
    {
      ShownKept(w, step, r);
    }
  }

  /** How a call in progress may move, and that it stays what it is. */
  lemma RequestAfter(w: World, step: Step, r: nat)
    requires Inv(w) && Enabled(w, step) && r in Next(w, step).requests
    ensures r !in w.requests ==> Next(w, step).requests[r].phase.Numbered?
    ensures r in w.requests ==>
              var q, q' := w.requests[r], Next(w, step).requests[r];
              && q'.session == q.session && q'.tool == q.tool && q'.scope == q.scope
              && (q'.phase.Registered? ==> q.phase.Registered? || (step == Enter(r) && q.session in w.hub.sessions))
              && (q'.phase.Waiting? || q'.phase.Woken? ==> q.phase.Waiting? || q.phase.Woken? || step == Announce(r))
  {
    hide Broadcast.Sent, Broadcast.Joined, Broadcast.Read, Broadcast.AllFollow, PendingFine, Answered, ChannelFine;
    assert r in w.requests ==> RequestFine(w, r);
  }

  lemma AnnounceShows(w: World, r: nat)
    requires Enabled(w, Announce(r)) && w.requests[r].session in w.hub.sessions
    ensures Shown(Next(w, Announce(r)), r)
  {
    hide Broadcast.Sent;
  }

  lemma ShownKept(w: World, step: Step, r: nat)
    requires Inv(w) && NoticesFine(w) && Enabled(w, step) && r in Next(w, step).requests
    ensures Shown(Next(w, step), r)
  {
    RequestAfter(w, step, r);
    if r in w.requests {
      assert Shown(w, r);
      if w.requests[r].session in w.hub.sessions {
        SessionsStay(w, step, w.requests[r].session);
        if step == Announce(r) {
          AnnounceShows(w, r);
        }
      }
    }
    hide Inv, NoticesFine, Next, Enabled;
  }

  lemma {:induction false} RunKeepsNotices(w: World, steps: seq<Step>)
    requires Inv(w) && NoticesFine(w) && ValidRun(w, steps)
    ensures NoticesFine(Run(w, steps))
    decreases |steps|
  {
    if steps != [] {
      StepKeepsInv(w, steps[0]);
      StepKeepsNotices(w, steps[0]);
      RunKeepsNotices(Next(w, steps[0]), steps[1..]);
    }
  }

  lemma RequestsStay(w: World, step: Step, r: nat)
    requires Inv(w) && Enabled(w, step) && r in w.requests
    ensures var q, w' := w.requests[r], Next(w, step);
            && r in w'.requests && w'.requests[r].session == q.session
            && w'.requests[r].tool == q.tool && w'.requests[r].scope == q.scope
  {
    hide Broadcast.Sent, Broadcast.Joined, Broadcast.Read;
    NumberIsFresh(w);
    hide Inv;
  }

  lemma {:induction false} RequestsStayInRun(w: World, steps: seq<Step>, r: nat)
    requires Inv(w) && ValidRun(w, steps) && r in w.requests
    ensures var q, w' := w.requests[r], Run(w, steps);
            && r in w'.requests && w'.requests[r].session == q.session
            && w'.requests[r].tool == q.tool && w'.requests[r].scope == q.scope
    decreases |steps|
  {
    hide Inv, Next, Enabled;
    if steps != [] {
      StepKeepsInv(w, steps[0]);
      RequestsStay(w, steps[0], r);
      RequestsStayInRun(Next(w, steps[0]), steps[1..], r);
    }
  }

  /** A request stays what it was asked as, for ever. */
  lemma AskedForGood(maxSessions: nat, before: seq<Step>, s: string, tool: string, scope: string, steps: seq<Step>)
    requires ValidRun(Initial(maxSessions), before)
    requires ValidRun(Next(Run(Initial(maxSessions), before), Ask(s, tool, scope)), steps)
    ensures var w := Run(Initial(maxSessions), before);
            var w', r := Run(Next(w, Ask(s, tool, scope)), steps), w.hub.nextId;
            && r !in w.requests && r in w'.requests
            && w'.requests[r].session == s && w'.requests[r].tool == tool && w'.requests[r].scope == scope
  {
    InitialInv(maxSessions);
    RunKeepsInv(Initial(maxSessions), before);
    var w := Run(Initial(maxSessions), before);
    NumberIsFresh(w);
    StepKeepsInv(w, Ask(s, tool, scope));
    RequestsStayInRun(Next(w, Ask(s, tool, scope)), steps, w.hub.nextId);
  }

  predicate InLog(w: World, s: string, e: Event) {
    s in w.hub.sessions && e in w.hub.sessions[s].log
  }

  /** In every interleaving: while a request waits, the log of its session shows it with its own
      tool and scope; and an id shown anywhere is that of a request of that session, for exactly the
      tool and the scope shown with it. */
  lemma PeopleSeeWhatTheyAllow(maxSessions: nat, steps: seq<Step>)
    requires ValidRun(Initial(maxSessions), steps)
    ensures var w := Run(Initial(maxSessions), steps);
            && (forall r :: r in w.requests && w.requests[r].phase.Waiting? ==>
                  InLog(w, w.requests[r].session,
                        PermissionRequested(RequestId(r), w.requests[r].tool, w.requests[r].scope)))
            && (forall s, e, r :: InLog(w, s, e) && e.PermissionRequested? && e.id == RequestId(r) ==>
                  IsNoticeOf(w, s, e, r))
  {
    InitialInv(maxSessions);
    RunKeepsNotices(Initial(maxSessions), steps);
    var w := Run(Initial(maxSessions), steps);
    forall r | r in w.requests && w.requests[r].phase.Waiting?
      ensures InLog(w, w.requests[r].session,
                    PermissionRequested(RequestId(r), w.requests[r].tool, w.requests[r].scope))
    {
      assert Shown(w, r);
    }
    forall s, e, r | InLog(w, s, e) && e.PermissionRequested? && e.id == RequestId(r)
      ensures IsNoticeOf(w, s, e, r)
    {
      assert Genuine(w, s, e);
      var q :| IsNoticeOf(w, s, e, q);
      RequestIdInjective(q, r);
    }
  }

  // ---------------------------------------------------------------- subscribers

  predicate Subscribes(h: Hub, s: string, k: nat) {
    s in h.sessions && k in h.sessions[s].subs
  }

  /** What a step sends to one subscriber, or lets it take. */
  function SignalOf(w: World, step: Step, s: string, k: nat): seq<Broadcast.Signal<Event>>
    requires Enabled(w, step)
  {
    match step
    case Emit(t, e) => if t == s then [Broadcast.Heard(e)] else []
    case Announce(r) => if w.requests[r].session == s then [Broadcast.Heard(Notice(w.requests[r], r))] else []
    case Read(t, j) => if t == s && j == k then [Broadcast.Taken] else []
    case _ => []
  }

  function SignalsTo(w: World, steps: seq<Step>, s: string, k: nat): seq<Broadcast.Signal<Event>>
    requires ValidRun(w, steps)
    decreases |steps|
  {
    if steps == [] then []
    else SignalOf(w, steps[0], s, k) + SignalsTo(Next(w, steps[0]), steps[1..], s, k)
  }

  lemma SubscriberAfter(w: World, step: Step, s: string, k: nat)
    requires Enabled(w, step) && Subscribes(w.hub, s, k)
    ensures Subscribes(Next(w, step).hub, s, k)
    ensures Next(w, step).hub.sessions[s].subs[k]
            == Broadcast.AfterSignals(w.hub.sessions[s].subs[k], SignalOf(w, step, s, k))
  {
    hide Broadcast.Delivered, RequestId;
    assert forall signal: Broadcast.Signal<Event> :: [signal][1..] == [];
  }

  lemma {:induction false} SubscriberAfterRun(w: World, steps: seq<Step>, s: string, k: nat)
    requires ValidRun(w, steps) && Subscribes(w.hub, s, k)
    ensures Subscribes(Run(w, steps).hub, s, k)
    ensures Run(w, steps).hub.sessions[s].subs[k]
            == Broadcast.AfterSignals(w.hub.sessions[s].subs[k], SignalsTo(w, steps, s, k))
    decreases |steps|
  {
    hide Next, Enabled, SignalOf;
    if steps != [] {
      SubscriberAfter(w, steps[0], s, k);
      SubscriberAfterRun(Next(w, steps[0]), steps[1..], s, k);
      Broadcast.SignalsConcat(w.hub.sessions[s].subs[k], SignalOf(w, steps[0], s, k),
                              SignalsTo(Next(w, steps[0]), steps[1..], s, k));
    }
  }

  /** In every interleaving, from the moment it attaches: a subscriber has lost something exactly if some
      event of its session came while 256 were waiting for it. Otherwise the log as it was then, what it has
      taken and what waits for it are the log, so that with nothing waiting it has seen all of it. */
  lemma SubscriberSeesTheLog(maxSessions: nat, before: seq<Step>, s: string, k: nat, steps: seq<Step>)
    requires ValidRun(Initial(maxSessions), before)
    requires var w := Run(Initial(maxSessions), before);
             Enabled(w, Attach(s, k)) && ValidRun(Next(w, Attach(s, k)), steps)
    ensures var w := Next(Run(Initial(maxSessions), before), Attach(s, k));
            var h, signals := Run(w, steps).hub, SignalsTo(w, steps, s, k);
            && Subscribes(h, s, k) && s in w.hub.sessions
            && var sub := h.sessions[s].subs[k];
               && (sub.lagged <==> !Broadcast.KeepsUp(signals, 0))
               && (Broadcast.KeepsUp(signals, 0) ==>
                     && w.hub.sessions[s].log + sub.seen + sub.unread == h.sessions[s].log
                     && sub.seen + sub.unread == Broadcast.HeardOf(signals)
                     && |sub.unread| == Broadcast.Waiting(signals, 0))
               && (Broadcast.KeepsUp(signals, 0) && Broadcast.Waiting(signals, 0) == 0 ==>
                     w.hub.sessions[s].log + sub.seen == h.sessions[s].log)
  {
    InitialInv(maxSessions);
    RunKeepsInv(Initial(maxSessions), before);
    var w0 := Run(Initial(maxSessions), before);
    StepKeepsInv(w0, Attach(s, k));
    var w := Next(w0, Attach(s, k));
    JustAttached(w0, s, k);
    RunKeepsInv(w, steps);
    hide Inv, Next, Enabled, Run, ValidRun, SignalsTo;
    hide Broadcast.AfterSignals, Broadcast.KeepsUp, Broadcast.Waiting, Broadcast.HeardOf, Broadcast.Follows;
    SubscriberAfterRun(w, steps, s, k);
    FollowsLog(Run(w, steps), s, k);
    Broadcast.SinceJoining(w.hub.sessions[s].log, SignalsTo(w, steps, s, k), Run(w, steps).hub.sessions[s].log);
  }

  lemma JustAttached(w: World, s: string, k: nat)
    requires Enabled(w, Attach(s, k))
    ensures var h := Next(w, Attach(s, k)).hub;
            Subscribes(h, s, k) && h.sessions[s].subs[k] == Broadcast.Subscriber(h.sessions[s].log, [], [], false)
  {
  }

  lemma FollowsLog(w: World, s: string, k: nat)
    requires Inv(w) && Subscribes(w.hub, s, k)
    ensures Broadcast.Follows(w.hub.sessions[s].subs[k], w.hub.sessions[s].log)
  {
  }

  // ---------------------------------------------------------------- the limit

  /** Creation through `EnsureSession` respects the limit, subscription does not ask. */
  lemma OnlyEnsureIsLimited(h: Hub, s: string, k: nat)
    ensures EnsuredSession(h, s).1 <==> s in h.sessions || |h.sessions| < h.maxSessions
    ensures s in EnsuredSession(h, s).0.sessions <==> EnsuredSession(h, s).1
    ensures s in Subscribed(h, s, k).sessions
    ensures |Subscribed(h, s, k).sessions| == |h.sessions| + if s in h.sessions then 0 else 1
  {
    var h' := Subscribed(h, s, k);
    assert h'.sessions.Keys == h.sessions.Keys + {s};
    assert |h.sessions| == |h.sessions.Keys| && |h'.sessions| == |h'.sessions.Keys|;
  }

  // ---------------------------------------------------------------- the hub as it runs

  /** The table behind the mutex, the request counter, and the answer channels. */
  class SessionHub {
    var sessions: map<string, Session>
    const maxSessions: nat
    var nextRequestId: nat
    var channels: map<nat, bool>

    function View(): Hub
      reads this
    {
      Hub(sessions, maxSessions, nextRequestId, channels)
    }

    constructor (maxSessions: nat)
      ensures View() == New(maxSessions)
    {
      this.maxSessions := maxSessions;
      sessions, nextRequestId, channels := map[], 1, map[];
    }

    method EnsureSession(s: string) returns (ok: bool)
      modifies this
      ensures (View(), ok) == EnsuredSession(old(View()), s)
    {
      if s in sessions {
        return true;
      }
      if |sessions| >= maxSessions {
        return false;
      }
      sessions := sessions[s := EMPTY_SESSION];
      ok := true;
    }

    method Publish(s: string, e: Event)
      modifies this
      ensures View() == Published(old(View()), s, e)
    {
      if s in sessions {
        var state := sessions[s];
        state := state.(log := state.log + [e]);
        sessions := sessions[s := state.(subs := Broadcast.Sent(state.subs, e))];
      }
    }

    method Subscribe(s: string, k: nat) returns (snapshot: seq<Event>)
      modifies this
      ensures View() == Subscribed(old(View()), s, k)
      ensures snapshot == View().sessions[s].log
    {
      if s !in sessions {
        sessions := sessions[s := EMPTY_SESSION];
      }
      var state := sessions[s];
      snapshot := state.log;
      sessions := sessions[s := state.(subs := Broadcast.Joined(state.subs, k, snapshot))];
    }

    /** The first critical section of a permission request. */
    method BeginRequest(s: string) returns (r: nat, ok: bool)
      modifies this
      ensures r == old(nextRequestId)
      ensures (View(), ok) == Entered(old(View()).(nextId := old(nextRequestId) + 1), s, r)
    {
      r := nextRequestId;
      nextRequestId := nextRequestId + 1;
      ok := s in sessions;
      if ok {
        sessions := sessions[s := sessions[s].(pending := Some(r))];
      }
    }

    /** The last critical section of a permission request, after the wait. */
    method EndRequest(s: string, r: nat) returns (allowed: bool)
      modifies this
      ensures View() == Cleared(old(View()), s)
      ensures allowed == Received(old(View()), r)
    {
      allowed := if r in channels then channels[r] else false;
      if s in sessions {
        sessions := sessions[s := sessions[s].(pending := None)];
      }
    }

    method ResolvePermission(s: string, id: string, allow: bool) returns (ok: bool)
      modifies this
      ensures (View(), ok) == Resolved(old(View()), s, id, allow)
    {
      if s !in sessions {
        return false;
      }
      var p := sessions[s].pending;
      if p.None? || RequestId(p.value) != id {
        return false;
      }
      sessions := sessions[s := sessions[s].(pending := None)];
      channels := channels[p.value := allow];
      ok := true;
    }

    method TryStart(s: string) returns (ok: bool)
      modifies this
      ensures (View(), ok) == Started(old(View()), s)
    {
      ok := s in sessions && !sessions[s].busy;
      if ok {
        sessions := sessions[s := sessions[s].(busy := true)];
      }
    }

    method FinishBusy(s: string)
      modifies this
      ensures View() == Finished(old(View()), s)
    {
      if s in sessions {
        sessions := sessions[s := sessions[s].(busy := false)];
      }
    }
  }
}
