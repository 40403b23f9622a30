/** Durable sessions: a conversation is the replay of an aggregate of the event store.

    Any number of sessions share the store. A session remembers the head it last saw and appends
    only against it; opening is two statements, reading the head and reading the events, so that
    others may commit between them. */
module DurableSession {
  import opened Wrappers
  import opened EventStore

  datatype Event<+M> =
    | Started
    | EpochStarted(summary: string)
    | Message(message: M)
    | Unreadable
    | OtherKind(kind: string)

  // ---------------------------------------------------------------- replay

  /** Where the last epoch begins: just after its event, or at the start of the log. */
  function EpochStart<M>(log: seq<Event<M>>): (n: nat)
    ensures n <= |log|
    ensures n > 0 ==> log[n - 1].EpochStarted?
    ensures forall i :: n <= i < |log| ==> !log[i].EpochStarted?
  {
    if log == [] then 0
    else if log[|log| - 1].EpochStarted? then |log|
    else EpochStart(log[..|log| - 1])
  }

  function Messages<M>(log: seq<Event<M>>): seq<M> {
    if log == [] then []
    else Messages(log[..|log| - 1]) + (if log[|log| - 1].Message? then [log[|log| - 1].message] else [])
  }

  function Epochs<M>(log: seq<Event<M>>): nat {
    if log == [] then 0
    else Epochs(log[..|log| - 1]) + (if log[|log| - 1].EpochStarted? then 1 else 0)
  }

  /** What replaying a log leaves. */
  function Replay<M>(log: seq<Event<M>>): seq<M> {
    if log == [] then []
    else
      var e := log[|log| - 1];
      if e.EpochStarted? then []
      else Replay(log[..|log| - 1]) + (if e.Message? then [e.message] else [])
  }

  /** It is the committed history: the messages since the last epoch began, and nothing else. */
  lemma {:induction false} ReplayIsLastEpoch<M>(log: seq<Event<M>>)
    ensures Replay(log) == Messages(log[EpochStart(log)..])
  {
    if log != [] && !log[|log| - 1].EpochStarted? {
      var init := log[..|log| - 1];
      var n := EpochStart(log);
      ReplayIsLastEpoch(init);
      assert log[n..][..|log| - 1 - n] == init[n..];
    }
  }

  predicate Readable<M>(log: seq<Event<M>>) {
    forall i :: 0 <= i < |log| ==> !log[i].Unreadable?
  }

  lemma ReplayStep<M>(log: seq<Event<M>>, e: Event<M>)
    ensures e.Message? ==> Replay(log + [e]) == Replay(log) + [e.message]
    ensures e.EpochStarted? ==> Replay(log + [e]) == []
    ensures !e.Message? && !e.EpochStarted? ==> Replay(log + [e]) == Replay(log)
    ensures Epochs(log + [e]) == Epochs(log) + (if e.EpochStarted? then 1 else 0)
  {
    assert (log + [e])[..|log|] == log;
  }

  lemma {:induction false} ReplayMessages<M>(log: seq<Event<M>>, ms: seq<M>)
    ensures Replay(log + Wrap(ms)) == Replay(log) + ms
    ensures Epochs(log + Wrap(ms)) == Epochs(log)
    decreases |ms|
  {
    hide Replay, Epochs, Wrap;
    if ms == [] {
      assert log + Wrap(ms) == log && Replay(log) + ms == Replay(log);
    } else {
      ReplayStep(log, Message(ms[0]));
      ReplayMessages(log + [Message(ms[0])], ms[1..]);
      WrapCons(log, ms);
      assert Replay(log) + ms == Replay(log) + [ms[0]] + ms[1..];
    }
  }

  function Wrap<M>(ms: seq<M>): (r: seq<Event<M>>)
    ensures |r| == |ms|
    ensures forall i :: 0 <= i < |ms| ==> r[i] == Message(ms[i])
  {
    seq(|ms|, i requires 0 <= i < |ms| => Message(ms[i]))
  }

  lemma WrapCons<M>(log: seq<Event<M>>, ms: seq<M>)
    requires ms != []
    ensures log + Wrap(ms) == log + [Message(ms[0])] + Wrap(ms[1..])
  {
  }

  // ---------------------------------------------------------------- one session, atomic steps

  datatype Sess<+M> =
    | Opening(aggregate: string, head: int)
    | Live(aggregate: string, messages: seq<M>, head: int, persisted: nat, epoch: nat)

  datatype Failure = StoreConflict(conflict: Conflict) | Malformed(aggregate: string, seqNo: int)

  /** Opening, second statement: `head` was read some time before, the events are read now. */
  function Opened<M>(db: Db<Event<M>>, a: string, head: int): (Db<Event<M>>, Result<Sess<M>, Failure>) {
    if head == 0 then
      match AppendResult(db, a, 0, [Started])
      case Err(c) => (db, Err(StoreConflict(c)))
      case Ok(newHead) => (Appended(db, a, 0, [Started]), Ok(Live(a, [], newHead, 0, 0)))
    else if Readable(Log(db, a)) then
      var log := Log(db, a);
      (db, Ok(Live(a, Replay(log), head, |Replay(log)|, Epochs(log))))
    else (db, Err(Malformed(a, FirstUnreadable(Log(db, a)) + 1)))
  }

  function FirstUnreadable<M>(log: seq<Event<M>>): (n: nat)
    requires !Readable(log)
    ensures n < |log| && log[n].Unreadable? && Readable(log[..n])
  {
    if log[0].Unreadable? then 0 else 1 + FirstUnreadable(log[1..])
  }

  function Persisted<M>(db: Db<Event<M>>, s: Sess<M>): (Db<Event<M>>, Sess<M>, Result<nat, Conflict>)
    requires s.Live? && s.persisted <= |s.messages|
  {
    var pending := s.messages[s.persisted..];
    if pending == [] then (db, s, Ok(0))
    else
      match AppendResult(db, s.aggregate, s.head, Wrap(pending))
      case Err(c) => (db, s, Err(c))
      case Ok(newHead) =>
        (Appended(db, s.aggregate, s.head, Wrap(pending)),
         s.(head := newHead, persisted := |s.messages|), Ok(|pending|))
  }

  function Compacted<M>(db: Db<Event<M>>, s: Sess<M>, summary: string, baseline: M)
    : (Db<Event<M>>, Sess<M>, Result<(), Conflict>)
    requires s.Live?
  {
    var bodies := [EpochStarted(summary), Message(baseline)];
    match AppendResult(db, s.aggregate, s.head, bodies)
    case Err(c) => (db, s, Err(c))
    case Ok(newHead) =>
      (Appended(db, s.aggregate, s.head, bodies),
       s.(head := newHead, messages := [baseline], persisted := 1, epoch := s.epoch + 1), Ok(()))
  }

  // ---------------------------------------------------------------- what a session knows

  /** A session whose head is current holds the committed history; no head is ahead of the store. */
  ghost predicate Faithful<M>(db: Db<Event<M>>, s: Sess<M>) {
    match s
    case Opening(a, head) => 0 <= head <= Head(db, a)
    case Live(a, messages, head, persisted, epoch) =>
      && 0 < head <= Head(db, a)
      && persisted <= |messages|
      && (head == Head(db, a) ==> messages[..persisted] == Replay(Log(db, a)) && epoch == Epochs(Log(db, a)))
  }

  lemma FaithfulFrame<M>(db: Db<Event<M>>, db': Db<Event<M>>, s: Sess<M>)
    requires Faithful(db, s)
    requires Head(db', s.aggregate) > Head(db, s.aggregate)
             || (Head(db', s.aggregate) == Head(db, s.aggregate) && Log(db', s.aggregate) == Log(db, s.aggregate))
    ensures Faithful(db', s)
  {
  }

  /** How a step may change the store: nothing, or a longer log of one aggregate. */
  ghost predicate Advances<M>(db: Db<Event<M>>, db': Db<Event<M>>) {
    forall a ::
      && Log(db, a) <= Log(db', a)
      && (Head(db', a) > Head(db, a) || (Head(db', a) == Head(db, a) && Log(db', a) == Log(db, a)))
  }

  lemma AppendAdvances<M>(db: Db<Event<M>>, a: string, expected: int, bodies: seq<Event<M>>)
    requires Consistent(db) && bodies != []
    ensures Advances(db, Appended(db, a, expected, bodies))
  {
    AppendCorrect(db, a, expected, bodies);
  }

  lemma HeadIsLogLength<M>(db: Db<Event<M>>, a: string)
    requires Consistent(db)
    ensures Head(db, a) == |Log(db, a)|
  {
    assert Numbered(Rows(db.events, a), Head(db, a));
  }

  /** Opening with any head read earlier yields a faithful session. */
  lemma OpenedFaithful<M>(db: Db<Event<M>>, a: string, head: int)
    requires Consistent(db) && 0 <= head <= Head(db, a)
    ensures var (db', r) := Opened(db, a, head);
            Consistent(db') && Advances(db, db') && (r.Ok? ==> Faithful(db', r.value))
  {
    if head == 0 {
      AppendCorrect(db, a, 0, [Started]);
      AppendAdvances(db, a, 0, [Started]);
      HeadIsLogLength(db, a);
      if Head(db, a) == 0 {
        var log: seq<Event<M>> := [];
        ReplayStep(log, Started);
        assert Log(db, a) == log && log + [Started] == [Started];
      }
    } else {
      var log := Log(db, a);
      assert Replay(log)[..|Replay(log)|] == Replay(log);
    }
  }

  lemma PersistedFaithful<M>(db: Db<Event<M>>, s: Sess<M>)
    requires Consistent(db) && s.Live? && Faithful(db, s)
    ensures var (db', s', r) := Persisted(db, s);
            && Consistent(db') && Advances(db, db') && Faithful(db', s')
            && s'.aggregate == s.aggregate && s'.messages == s.messages
            && (r.Ok? && s.head == Head(db, s.aggregate) ==> Replay(Log(db', s.aggregate)) == s.messages)
            && (forall a :: a != s.aggregate ==> Log(db', a) == Log(db, a))
            && (r.Err? ==> db' == db)
  {
    hide Log, Replay, Epochs, Consistent, Wrap;
    var pending := s.messages[s.persisted..];
    if pending != [] {
      AppendCorrect(db, s.aggregate, s.head, Wrap(pending));
      AppendAdvances(db, s.aggregate, s.head, Wrap(pending));
      ReplayMessages(Log(db, s.aggregate), pending);
      assert s.messages[..s.persisted] + pending == s.messages;
      assert s.messages[..|s.messages|] == s.messages;
    } else {
      assert s.messages[..s.persisted] == s.messages;
    }
  }

  /** Persisting without anything new changes nothing. Otherwise it succeeds exactly if the head is current;
      then the log grows by exactly the pending messages, in order, and the session stands at the new head
      with nothing pending. A refusal names both heads and changes nothing. */
  lemma PersistsExactly<M>(db: Db<Event<M>>, s: Sess<M>)
    requires Consistent(db) && s.Live? && Faithful(db, s)
    ensures var (db', s', r) := Persisted(db, s);
            var pending, log := s.messages[s.persisted..], Log(db, s.aggregate);
            && (pending == [] ==> r == Ok(0) && db' == db && s' == s)
            && (pending != [] && s.head != Head(db, s.aggregate) ==>
                  r == Err(Conflict(s.aggregate, s.head, Head(db, s.aggregate))) && db' == db && s' == s)
            && (pending != [] && s.head == Head(db, s.aggregate) ==>
                  && r == Ok(|s.messages| - s.persisted)
                  && |Log(db', s.aggregate)| == |log| + |pending| && log <= Log(db', s.aggregate)
                  && (forall i :: |log| <= i < |log| + |pending| ==>
                        Log(db', s.aggregate)[i] == Message(pending[i - |log|]))
                  && s' == Live(s.aggregate, s.messages, Head(db', s.aggregate), |s.messages|, s.epoch))
  {
    hide Log, Consistent;
    var pending := s.messages[s.persisted..];
    if pending != [] {
      AppendCorrect(db, s.aggregate, s.head, Wrap(pending));
    }
  }

  /** A compaction succeeds exactly if the head is current; then the log grows by the new epoch and its
      baseline, which is all the session still holds. A refusal names both heads and changes nothing. */
  lemma CompactsExactly<M>(db: Db<Event<M>>, s: Sess<M>, summary: string, baseline: M)
    requires Consistent(db) && s.Live? && Faithful(db, s)
    ensures var (db', s', r) := Compacted(db, s, summary, baseline);
            && (s.head != Head(db, s.aggregate) ==>
                  r == Err(Conflict(s.aggregate, s.head, Head(db, s.aggregate))) && db' == db && s' == s)
            && (s.head == Head(db, s.aggregate) ==>
                  && r == Ok(())
                  && Log(db', s.aggregate) == Log(db, s.aggregate) + [EpochStarted(summary), Message(baseline)]
                  && s' == Live(s.aggregate, [baseline], Head(db', s.aggregate), 1, s.epoch + 1))
  {
    hide Log, Consistent;
    AppendCorrect(db, s.aggregate, s.head, [EpochStarted(summary), Message(baseline)]);
  }

  /** Opening, when the head read first was `head`: a session new at that time starts the log unless somebody
      did in between; any other gets the history as it now is, against the head read first, unless some
      message of it cannot be read. */
  lemma OpensExactly<M>(db: Db<Event<M>>, a: string, head: int)
    requires Consistent(db) && 0 <= head <= Head(db, a)
    ensures var (db', r) := Opened(db, a, head);
            var log := Log(db, a);
            && (head == 0 && Head(db, a) == 0 ==>
                  r == Ok(Live(a, [], 1, 0, 0)) && Log(db', a) == [Started] && Head(db', a) == 1)
            && (head == 0 && Head(db, a) > 0 ==> r == Err(StoreConflict(Conflict(a, 0, Head(db, a)))) && db' == db)
            && (head > 0 ==> db' == db)
            && (head > 0 && Readable(log) ==>
                  var history := Messages(log[EpochStart(log)..]);
                  r == Ok(Live(a, history, head, |history|, Epochs(log))))
            && (head > 0 && !Readable(log) ==>
                  && r.Err? && r.error.Malformed? && r.error.aggregate == a && 1 <= r.error.seqNo <= |log|
                  && log[r.error.seqNo - 1].Unreadable? && Readable(log[..r.error.seqNo - 1]))
  {
    hide Log, Consistent, Replay, EpochStart, Messages, Epochs;
    if head == 0 {
      AppendCorrect(db, a, 0, [Started]);
      HeadIsLogLength(db, a);
    } else {
      ReplayIsLastEpoch(Log(db, a));
    }
  }

  lemma CompactedFaithful<M>(db: Db<Event<M>>, s: Sess<M>, summary: string, baseline: M)
    requires Consistent(db) && s.Live? && Faithful(db, s)
    ensures var (db', s', r) := Compacted(db, s, summary, baseline);
            && Consistent(db') && Advances(db, db') && Faithful(db', s')
            && s'.aggregate == s.aggregate
            && (r.Ok? ==> s'.messages == [baseline] && Replay(Log(db', s.aggregate)) == [baseline])
            && (forall a :: a != s.aggregate ==> Log(db', a) == Log(db, a))
            && (r.Err? ==> db' == db && s' == s)
  {
    var bodies := [EpochStarted(summary), Message(baseline)];
    AppendCorrect(db, s.aggregate, s.head, bodies);
    AppendAdvances(db, s.aggregate, s.head, bodies);
    var log := Log(db, s.aggregate);
    ReplayStep(log, EpochStarted(summary));
    ReplayStep(log + [EpochStarted(summary)], Message(baseline));
    assert log + bodies == log + [EpochStarted(summary)] + [Message(baseline)];
    assert [baseline][..1] == [baseline];
  }

  // ---------------------------------------------------------------- many sessions

  datatype World<+M> = World(db: Db<Event<M>>, sessions: map<nat, Sess<M>>)

  datatype Step<+M> =
    | BeginOpen(i: nat, aggregate: string)
    | FinishOpen(i: nat)
    | Extend(i: nat, added: seq<M>)
    | Persist(i: nat)
    | Compact(i: nat, summary: string, baseline: M)
    | Crash(i: nat)

  predicate Enabled<M>(w: World<M>, st: Step<M>) {
    match st
    case BeginOpen(i, _) => i !in w.sessions
    case FinishOpen(i) => i in w.sessions && w.sessions[i].Opening?
    case Crash(i) => i in w.sessions
    case Persist(i) => i in w.sessions && w.sessions[i].Live? && w.sessions[i].persisted <= |w.sessions[i].messages|
    case Extend(i, _) => i in w.sessions && w.sessions[i].Live?
    case Compact(i, _, _) => i in w.sessions && w.sessions[i].Live?
  }

  function Next<M>(w: World<M>, st: Step<M>): World<M>
    requires Enabled(w, st)
  {
    match st
    case BeginOpen(i, a) => w.(sessions := w.sessions[i := Opening(a, Head(w.db, a))])
    case FinishOpen(i) =>
      var (db', r) := Opened(w.db, w.sessions[i].aggregate, w.sessions[i].head);
      World(db', match r case Ok(s) => w.sessions[i := s] case Err(_) => w.sessions - {i})
    case Extend(i, added) =>
      w.(sessions := w.sessions[i := w.sessions[i].(messages := w.sessions[i].messages + added)])
    case Persist(i) =>
      var (db', s', _) := Persisted(w.db, w.sessions[i]);
      World(db', w.sessions[i := s'])
    case Compact(i, summary, baseline) =>
      var (db', s', _) := Compacted(w.db, w.sessions[i], summary, baseline);
      World(db', w.sessions[i := s'])
    case Crash(i) => w.(sessions := w.sessions - {i})
  }

  ghost predicate Inv<M>(w: World<M>) {
    Consistent(w.db) && forall i :: i in w.sessions ==> Faithful(w.db, w.sessions[i])
  }

  lemma OthersKept<M>(w: World<M>, db': Db<Event<M>>)
    requires Inv(w) && Advances(w.db, db')
    ensures forall i :: i in w.sessions ==> Faithful(db', w.sessions[i])
  {
    forall i | i in w.sessions
      ensures Faithful(db', w.sessions[i])
    {
      FaithfulFrame(w.db, db', w.sessions[i]);
    }
  }

  /** Every step of any session keeps every session faithful, and logs only grow. */
  lemma StepKeepsInv<M>(w: World<M>, st: Step<M>)
    requires Inv(w) && Enabled(w, st)
    ensures Inv(Next(w, st)) && Advances(w.db, Next(w, st).db)
  {
    var w' := Next(w, st);
    match st
    case FinishOpen(i) =>
      OpenedFaithful(w.db, w.sessions[i].aggregate, w.sessions[i].head);
      OthersKept(w, w'.db);
    case Persist(i) =>
      PersistedFaithful(w.db, w.sessions[i]);
      OthersKept(w, w'.db);
    case Compact(i, summary, baseline) =>
      CompactedFaithful(w.db, w.sessions[i], summary, baseline);
      OthersKept(w, w'.db);
    case Extend(i, added) =>
      var s := w.sessions[i];
      assert (s.messages + added)[..s.persisted] == s.messages[..s.persisted];
    case BeginOpen(i, a) =>
      HeadIsLogLength(w.db, a);
    case _ =>
  }

  ghost predicate Run<M>(ws: seq<World<M>>, steps: seq<Step<M>>) {
    && |ws| == |steps| + 1
    && ws[0] == World(Db(map[], []), map[])
    && forall k :: 0 <= k < |steps| ==> Enabled(ws[k], steps[k]) && ws[k + 1] == Next(ws[k], steps[k])
  }

  /** In every interleaving, from an empty store, every world satisfies the invariant. */
  lemma {:induction false} RunKeepsInv<M>(ws: seq<World<M>>, steps: seq<Step<M>>, k: nat)
    requires Run(ws, steps) && k < |ws|
    ensures Inv(ws[k])
  {
    if k > 0 {
      RunKeepsInv(ws, steps, k - 1);
      StepKeepsInv(ws[k - 1], steps[k - 1]);
    }
  }

  /** A session that is current in some world of a run holds exactly the committed history and
      epoch count; a fresh session opened there, with nobody in between, gets that same history,
      so a crash loses exactly what was not persisted. */
  lemma ReopenRestores<M>(ws: seq<World<M>>, steps: seq<Step<M>>, k: nat, i: nat, j: nat)
    requires Run(ws, steps) && k < |ws|
    requires i in ws[k].sessions && ws[k].sessions[i].Live? && j !in ws[k].sessions
    requires ws[k].sessions[i].head == Head(ws[k].db, ws[k].sessions[i].aggregate)
    requires Readable(Log(ws[k].db, ws[k].sessions[i].aggregate))
    ensures var s := ws[k].sessions[i];
            var opening := Next(Next(ws[k], Crash(i)), BeginOpen(j, s.aggregate));
            && s.persisted <= |s.messages|
            && Enabled(opening, FinishOpen(j))
            && Next(opening, FinishOpen(j)).db == ws[k].db
            && j in Next(opening, FinishOpen(j)).sessions
            && Next(opening, FinishOpen(j)).sessions[j]
               == Live(s.aggregate, s.messages[..s.persisted], s.head, s.persisted, s.epoch)
  {
    RunKeepsInv(ws, steps, k);
    assert Faithful(ws[k].db, ws[k].sessions[i]);
  }

  function Later<M>(w: World<M>, st: Step<M>): World<M> {
    if Enabled(w, st) then Next(w, st) else w
  }

  /** Work that was persisted survives: what a current session adds and persists is there when it crashes
      and another one opens, with nobody in between. */
  lemma WorkSurvives<M>(ws: seq<World<M>>, steps: seq<Step<M>>, k: nat, i: nat, j: nat, added: seq<M>)
    requires Run(ws, steps) && k < |ws|
    requires i in ws[k].sessions && ws[k].sessions[i].Live? && j !in ws[k].sessions
    requires ws[k].sessions[i].head == Head(ws[k].db, ws[k].sessions[i].aggregate)
    requires Readable(Log(ws[k].db, ws[k].sessions[i].aggregate))
    ensures var s := ws[k].sessions[i];
            var opening := Later(Later(Later(Later(ws[k], Extend(i, added)), Persist(i)), Crash(i)),
                                 BeginOpen(j, s.aggregate));
            && Enabled(opening, FinishOpen(j))
            && j in Next(opening, FinishOpen(j)).sessions
            && Next(opening, FinishOpen(j)).sessions[j].Live?
            && Next(opening, FinishOpen(j)).sessions[j].messages == s.messages + added
  {
    hide Consistent, Log, Head, Persisted, Replay, Messages, Epochs, EpochStart, Readable, Wrap;
    RunKeepsInv(ws, steps, k);
    var s := ws[k].sessions[i];
    assert Faithful(ws[k].db, s);
    var w1 := Next(ws[k], Extend(i, added));
    StepKeepsInv(ws[k], Extend(i, added));
    var grown := w1.sessions[i];
    assert Faithful(w1.db, grown);
    PersistedFaithful(w1.db, grown);
    PersistsExactly(w1.db, grown);
    var (db', s', r) := Persisted(w1.db, grown);
    StayReadable(Log(w1.db, s.aggregate), Log(db', s.aggregate));
    OpensExactly(db', s.aggregate, Head(db', s.aggregate));
    ReplayIsLastEpoch(Log(db', s.aggregate));
  }

  /** Messages do not make a log unreadable. */
  lemma StayReadable<M>(log: seq<Event<M>>, log': seq<Event<M>>)
    requires Readable(log) && log <= log' && forall i :: |log| <= i < |log'| ==> log'[i].Message?
    ensures Readable(log')
  {
  }

  // ---------------------------------------------------------------- the session as it runs

  lemma NothingReplayed<M>(log: seq<Event<M>>)
    requires log == []
    ensures Replay(log) == [] && Epochs(log) == 0
  {
  }

  /** The replay loop: pushes messages, clears them at every new epoch, stops at the first message
      that cannot be read. */
  method ReplayEvents<M>(sessionId: string, events: seq<StoredEvent<Event<M>>>)
    returns (r: Result<(seq<M>, nat), Failure>)
    ensures Readable(Bodies(events)) ==> r == Ok((Replay(Bodies(events)), Epochs(Bodies(events))))
    ensures !Readable(Bodies(events)) ==> r == Err(Malformed(sessionId, events[FirstUnreadable(Bodies(events))].seqNo))
  {
    hide Bodies, Replay, Epochs;
    ghost var log := Bodies(events);
    var messages := [];
    var epoch := 0;
    assert log[..0] == [];
    NothingReplayed(log[..0]);
    for i := 0 to |events|
      invariant Readable(log[..i])
      invariant messages == Replay(log[..i]) && epoch == Epochs(log[..i])
    {
      ReplayStep(log[..i], log[i]);
      assert log[..i + 1] == log[..i] + [log[i]];
      var body := events[i].body;
      if body.Message? {
        messages := messages + [body.message];
      } else if body.EpochStarted? {
        epoch := epoch + 1;
        messages := [];
      } else if body.Unreadable? {
        assert FirstUnreadable(log) == i;
        return Err(Malformed(sessionId, events[i].seqNo));
      }
    }
    assert log[..|events|] == log;
    return Ok((messages, epoch));
  }

  class Session<M> {
    const store: Store<Event<M>>
    const sessionId: string
    var messages: seq<M>
    var head: int
    var persisted: nat
    var epoch: nat

    ghost function View(): Sess<M>
      reads this
    {
      Live(sessionId, messages, head, persisted, epoch)
    }

    constructor (store: Store<Event<M>>, sessionId: string, messages: seq<M>, head: int, persisted: nat, epoch: nat)
      ensures this.store == store && View() == Live(sessionId, messages, head, persisted, epoch)
    {
      this.store, this.sessionId := store, sessionId;
      this.messages, this.head, this.persisted, this.epoch := messages, head, persisted, epoch;
    }

    /** The second statement of opening: replays the events as they are now, against a head read
        before. */
    static method FinishOpen(store: Store<Event<M>>, sessionId: string, head: int)
      returns (r: Result<Session<M>, Failure>)
      requires Consistent(store.View())
      modifies store
      ensures store.View() == Opened(old(store.View()), sessionId, head).0
      ensures match Opened(old(store.View()), sessionId, head).1
              case Ok(s) => r.Ok? && fresh(r.value) && r.value.store == store && r.value.View() == s
              case Err(e) => r == Err(e)
    {
      if head == 0 {
        var appended := store.Append(sessionId, 0, [Started]);
        if appended.Err? {
          return Err(StoreConflict(appended.error));
        }
        var session := new Session(store, sessionId, [], appended.value, 0, 0);
        return Ok(session);
      }
      HeadIsLogLength(store.View(), sessionId);
      var events := store.Read(sessionId, 0);
      var replayed := ReplayEvents(sessionId, events);
      assert Bodies(events) == Log(store.View(), sessionId);
      if replayed.Err? {
        return Err(replayed.error);
      }
      var (history, epoch) := replayed.value;
      var session := new Session(store, sessionId, history, head, |history|, epoch);
      return Ok(session);
    }

    method Compact(summary: string, baseline: M) returns (r: Result<(), Conflict>)
      modifies this, store
      ensures Compacted(old(store.View()), old(View()), summary, baseline) == (store.View(), View(), r)
    {
      var appended := store.Append(sessionId, head, [EpochStarted(summary), Message(baseline)]);
      if appended.Err? {
        return Err(appended.error);
      }
      head := appended.value;
      epoch := epoch + 1;
      messages := [baseline];
      persisted := 1;
      return Ok(());
    }

    method PersistNew() returns (r: Result<nat, Conflict>)
      requires persisted <= |messages|
      modifies this, store
      ensures Persisted(old(store.View()), old(View())) == (store.View(), View(), r)
    {
      var pending := messages[persisted..];
      if pending == [] {
        return Ok(0);
      }
      var appended := store.Append(sessionId, head, Wrap(pending));
      if appended.Err? {
        return Err(appended.error);
      }
      head := appended.value;
      persisted := |messages|;
      return Ok(|pending|);
    }
  }
}
