/** The whole life of a conversation: durable sessions of the event store driven by the agent loop,
    compacted at safe boundaries, persisted, crashed and reopened, in any interleaving.

    The theorem is that tool uses and their results stay paired in every session and in every
    committed history. Role alternation is not claimed: after a compaction two user messages may
    stand side by side. */
module Lifetime {
  import opened Wrappers
  import opened Chat
  import opened EventStore
  import opened DurableSession
  import opened AgentLoop

  // ---------------------------------------------------------------- pairing

  /** A user message that carries tool results. */
  predicate CarriesResults(t: Tagged) {
    t.msg.role.User? && exists b :: b in t.msg.content && b.ToolResult?
  }

  /** Every message of results directly follows the assistant message it answers, one result per
      tool use with the same ids in order; and a turn that stopped for tool use has its answer
      directly behind it, so that only a turn that stopped for another reason can leave a tool use
      unanswered. */
  predicate Paired(ms: seq<Tagged>) {
    forall i :: 0 <= i < |ms| ==> PairedAt(ms, i)
  }

  predicate PairedAt(ms: seq<Tagged>, i: nat)
    requires i < |ms|
  {
    && (ms[i].msg.role.Assistant? <==> ms[i].origin.Turn?)
    && (CarriesResults(ms[i]) ==> i > 0 && Answers(ms[i - 1], ms[i]))
    && (WantsTools(ms[i]) ==> i + 1 < |ms| && Answers(ms[i], ms[i + 1]))
  }

  function UserMessage(text: string): Tagged {
    Tagged(UserText(text), Typed)
  }

  function BaselineMessage(summary: string): Tagged {
    Tagged(UserText("[Contexto resumido da conversa anterior]\n" + summary), Baseline)
  }

  /** What one user turn appends: the text, then a run of the loop. */
  ghost predicate TurnAdded(added: seq<Tagged>) {
    exists text, rest, rounds :: added == [UserMessage(text)] + rest && Segment(rest, rounds)
  }

  /** A message of the person with this text and nothing else. */
  predicate TypedText(t: Tagged, text: string) {
    t.msg.role.User? && t.msg.content == [Text(text)] && t.origin.Typed?
  }

  /** A message of the person that ends with the summary, put in place of everything before. */
  ghost predicate SummaryText(t: Tagged, summary: string) {
    && t.msg.role.User? && t.origin.Baseline? && |t.msg.content| == 1 && t.msg.content[0].Text?
    && var text := t.msg.content[0].text;
       |text| >= |summary| && text[|text| - |summary|..] == summary
  }

  /** The last message is an assistant's and asks for no tool. */
  predicate IsSafeBoundary(ms: seq<Tagged>) {
    ms != [] && ms[|ms| - 1].msg.role.Assistant? && forall b :: b in ms[|ms| - 1].msg.content ==> !b.ToolUse?
  }

  lemma SegmentPaired(added: seq<Tagged>, rounds: nat)
    requires Segment(added, rounds)
    ensures Paired(added)
  {
    forall i | 0 <= i < |added|
      ensures PairedAt(added, i)
    {
      var k := i / 2;
      if k < rounds {
        assert WantsTools(added[2 * k]) && Answers(added[2 * k], added[2 * k + 1]);
        assert i == 2 * k || i == 2 * k + 1;
      } else {
        assert i == 2 * rounds;
      }
    }
  }

  lemma UserMessagePaired(text: string)
    ensures Paired([UserMessage(text)])
  {
    assert UserMessage(text).msg.content == [Text(text)];
  }

  lemma BaselinePaired(summary: string)
    ensures Paired([BaselineMessage(summary)])
  {
    assert |BaselineMessage(summary).msg.content| == 1 && BaselineMessage(summary).msg.content[0].Text?;
  }

  lemma PairedConcat(a: seq<Tagged>, b: seq<Tagged>)
    requires Paired(a) && Paired(b)
    ensures Paired(a + b)
  {
    var c := a + b;
    forall i | 0 <= i < |c|
      ensures PairedAt(c, i)
    {
      if i < |a| {
        assert PairedAt(a, i);
      } else {
        assert PairedAt(b, i - |a|);
        assert i > |a| ==> c[i - 1] == b[i - 1 - |a|];
        assert i + 1 < |c| ==> c[i + 1] == b[i + 1 - |a|];
      }
    }
  }

  /** A user turn, however it ends, keeps a paired conversation paired. */
  lemma TurnKeepsPaired(ms: seq<Tagged>, added: seq<Tagged>)
    requires Paired(ms) && TurnAdded(added)
    ensures Paired(ms + added)
  {
    var text, rest, rounds :| added == [UserMessage(text)] + rest && Segment(rest, rounds);
    SegmentPaired(rest, rounds);
    UserMessagePaired(text);
    PairedConcat([UserMessage(text)], rest);
    PairedConcat(ms, added);
  }

  /** At a safe boundary nothing is pending: the last message uses no tool, and every tool use
      before it that had to be answered has been. */
  lemma SafeBoundaryCutsNothing(ms: seq<Tagged>, i: nat)
    requires Paired(ms) && IsSafeBoundary(ms) && i < |ms|
    requires ms[i].msg.role.Assistant? && ToolUses(ms[i].msg.content) != []
    ensures i + 1 < |ms| && (ms[i].origin != Turn(StopToolUse) || Answers(ms[i], ms[i + 1]))
  {
    var uses := ToolUses(ms[i].msg.content);
    assert PairedAt(ms, i);
    assert uses[0] in uses && uses[0] in ms[i].msg.content;
  }

  // ---------------------------------------------------------------- the life of all sessions

  /** The steps the program takes: messages grow by user turns, and compaction happens only at a
      safe boundary, with the summary as baseline. */
  ghost predicate Allowed(w: World<Tagged>, st: Step<Tagged>) {
    && Enabled(w, st)
    && match st
       case Extend(i, added) => TurnAdded(added)
       case Compact(i, summary, baseline) =>
         baseline == BaselineMessage(summary) && IsSafeBoundary(w.sessions[i].messages)
       case _ => true
  }

  /** Every committed history and every conversation in memory is paired. */
  ghost predicate LifeHolds(w: World<Tagged>) {
    && (forall a :: Paired(Replay(Log(w.db, a))))
    && (forall i :: i in w.sessions && w.sessions[i].Live? ==> Paired(w.sessions[i].messages))
  }

  ghost predicate LifeInv(w: World<Tagged>) {
    Inv(w) && LifeHolds(w)
  }

  lemma StepKeepsLife(w: World<Tagged>, st: Step<Tagged>)
    requires LifeInv(w) && Allowed(w, st)
    ensures LifeInv(Next(w, st))
  {
    hide Inv, Paired, Replay, Log;
    StepKeepsInv(w, st);
    match st
    case FinishOpen(i) => FinishOpenPaired(w, i);
    case Persist(i) => PersistPaired(w, i);
    case Compact(i, _, _) => CompactPaired(w, st);
    case Extend(i, added) => TurnKeepsPaired(w.sessions[i].messages, added);
    case _ =>
  }

  lemma CompactPaired(w: World<Tagged>, st: Step<Tagged>)
    requires LifeInv(w) && Allowed(w, st) && st.Compact?
    ensures LifeHolds(Next(w, st))
  {
    hide Paired, Replay, Log, Consistent, Head, Appended;
    var s := w.sessions[st.i];
    assert Faithful(w.db, s);
    CompactedFaithful(w.db, s, st.summary, st.baseline);
    BaselinePaired(st.summary);
    var (db', s', r) := Compacted(w.db, s, st.summary, st.baseline);
    forall a
      ensures Paired(Replay(Log(db', a)))
    {
      assert Paired(Replay(Log(w.db, a)));
    }
  }

  lemma FinishOpenPaired(w: World<Tagged>, i: nat)
    requires LifeInv(w) && Allowed(w, FinishOpen(i))
    ensures LifeHolds(Next(w, FinishOpen(i)))
  {
    var a0, head := w.sessions[i].aggregate, w.sessions[i].head;
    if head == 0 && Head(w.db, a0) == 0 {
      forall a
        ensures Paired(Replay(Log(Appended(w.db, a0, 0, [Started]), a)))
      {
        StartedKeepsReplay(w.db, a0, a);
        assert Paired(Replay(Log(w.db, a)));
      }
    }
    hide Paired, Replay, Log, Appended;
  }

  lemma StartedKeepsReplay(db: Db<Event<Tagged>>, a0: string, a: string)
    requires Consistent(db)
    ensures Replay(Log(Appended(db, a0, 0, [Started]), a)) == Replay(Log(db, a))
  {
    hide Log, Appended, Replay, Consistent, Head;
    var db' := Appended(db, a0, 0, [Started]);
    AppendCorrect(db, a0, 0, [Started]);
    ReplayStep(Log(db, a0), Started);
    if a != a0 {
      assert Log(db', a) == Log(db, a);
    } else if Head(db, a0) == 0 {
      assert Log(db', a) == Log(db, a) + [Started];
    } else {
      assert Log(db, a0) + [] == Log(db, a0);
    }
  }

  lemma PersistPaired(w: World<Tagged>, i: nat)
    requires LifeInv(w) && Allowed(w, Persist(i))
    ensures LifeHolds(Next(w, Persist(i)))
  {
    var s := w.sessions[i];
    assert Faithful(w.db, s);
    PersistedFaithful(w.db, s);
    var (db', s', r) := Persisted(w.db, s);
    forall a
      ensures Paired(Replay(Log(db', a)))
    {
      if a == s.aggregate && db' != w.db {
        assert r.Ok? && s.head == Head(w.db, s.aggregate);
      }
    }
  }

  ghost predicate LifeRun(ws: seq<World<Tagged>>, steps: seq<Step<Tagged>>) {
    && Run(ws, steps)
    && forall k :: 0 <= k < |steps| ==> Allowed(ws[k], steps[k])
  }

  /** In every interleaving of runs (finished, failed or cut off by the step limit), compactions,
      persists, conflicts, crashes and reopens by any number of sessions, every conversation in
      memory and every committed history is paired. */
  lemma {:induction false} LifeStaysPaired(ws: seq<World<Tagged>>, steps: seq<Step<Tagged>>, k: nat)
    requires LifeRun(ws, steps) && k < |ws|
    ensures LifeInv(ws[k])
  {
    if k > 0 {
      LifeStaysPaired(ws, steps, k - 1);
      StepKeepsLife(ws[k - 1], steps[k - 1]);
    } else {
      forall a
        ensures Paired(Replay(Log(ws[0].db, a)))
      {
        assert Log(ws[0].db, a) == [];
      }
    }
  }

  /** Compaction never runs on a conversation that ends in a tool use, and cuts no answer off. */
  lemma CompactionIsSafe(ws: seq<World<Tagged>>, steps: seq<Step<Tagged>>, k: nat, i: nat)
    requires LifeRun(ws, steps) && k < |steps| && steps[k].Compact?
    requires i < |ws[k].sessions[steps[k].i].messages|
    ensures var ms := ws[k].sessions[steps[k].i].messages;
            && ToolUses(ms[|ms| - 1].msg.content) == []
            && (WantsTools(ms[i]) ==> i + 1 < |ms| && Answers(ms[i], ms[i + 1]))
  {
    LifeStaysPaired(ws, steps, k);
    assert Allowed(ws[k], steps[k]);
    var ms := ws[k].sessions[steps[k].i].messages;
    assert PairedAt(ms, i);
    assert forall b :: b in ms[|ms| - 1].msg.content ==> !b.ToolUse?;
  }

  // ---------------------------------------------------------------- one user turn as it runs

  datatype CompactError = NoSummary(error: string) | Refused(conflict: Conflict)

  /** `Done` carries what the loop ended with, what persisting gave, and what the person saw and was asked. */
  datatype TurnReport =
    | Aborted(error: CompactError)
    | Done(result: RunResult, persisted: Result<nat, Conflict>, events: seq<LoopEvent>, asked: seq<UseBlock>)

  lemma BaselineSaysSummary(summary: string)
    ensures SummaryText(BaselineMessage(summary), summary)
  {
  }

  /** A compaction is due and may be made. */
  predicate Compacts(messages: seq<Tagged>, needed: bool, force: bool) {
    (force || needed) && IsSafeBoundary(messages)
  }

  /** Compacts if forced or needed, and then only at a safe boundary; a due compaction happens exactly if
      there is a summary and nobody else has committed. The summary comes from the model. When it fails, or
      the store refuses the append, nothing changes. */
  method MaybeCompact(session: Session<Tagged>, needed: bool, force: bool, summary: Result<string, string>)
    returns (r: Result<bool, CompactError>)
    requires Consistent(session.store.View()) && Faithful(session.store.View(), session.View())
    modifies session, session.store
    ensures Consistent(session.store.View()) && Faithful(session.store.View(), session.View())
    ensures r.Err? <==>
      && Compacts(old(session.messages), needed, force)
      && (summary.Err? || old(session.head != Head(session.store.View(), session.sessionId)))
    ensures r.Ok? ==> (r.value <==> Compacts(old(session.messages), needed, force))
    ensures r == Ok(true) ==>
      && |session.messages| == 1 && SummaryText(session.messages[0], summary.value)
      && session.epoch == old(session.epoch) + 1 && session.persisted == 1
      && session.head == Head(session.store.View(), session.sessionId)
      && Replay(Log(session.store.View(), session.sessionId)) == session.messages
      && Log(session.store.View(), session.sessionId)
         == old(Log(session.store.View(), session.sessionId))
            + [EpochStarted(summary.value), Message(session.messages[0])]
    ensures r != Ok(true) ==> session.store.View() == old(session.store.View()) && session.View() == old(session.View())
    ensures r.Err? ==>
      r.error == if summary.Err? then NoSummary(summary.error)
                 else old(Refused(Conflict(session.sessionId, session.head,
                                           Head(session.store.View(), session.sessionId))))
  {
    if !(force || needed) {
      return Ok(false);
    }
    if !IsSafeBoundary(session.messages) {
      return Ok(false);
    }
    if summary.Err? {
      return Err(NoSummary(summary.error));
    }
    var baseline := BaselineMessage(summary.value);
    BaselineSaysSummary(summary.value);
    CompactedFaithful(session.store.View(), session.View(), summary.value, baseline);
    CompactsExactly(session.store.View(), session.View(), summary.value, baseline);
    hide Compacted, Log, Replay, SummaryText, IsSafeBoundary, BaselineMessage, Consistent;
    var c := session.Compact(summary.value, baseline);
    if c.Err? {
      return Err(Refused(c.error));
    }
    return Ok(true);
  }

  /** What a person's text adds to a conversation: the text, and behind it what this run of the loop appends,
      with how it ends and what the model was told of each call. */
  ghost predicate Answered(cfg: Config, oracle: Oracle, text: string, added: seq<Tagged>, rounds: nat,
                           result: RunResult, calls: seq<ToolCall>)
  {
    && added != [] && TypedText(added[0], text)
    && Ended(cfg, oracle, added[1..], rounds, result)
    && CallsFollow(cfg, oracle, 0, UsesOf(added[1..], rounds), ResultsOf(added[1..], rounds), calls)
    && ToldOf(cfg, UsesOf(added[1..], rounds), ResultsOf(added[1..], rounds), calls)
  }

  /** What the person saw and was asked while that happened. */
  predicate Seen(cfg: Config, oracle: Oracle, rounds: nat, result: RunResult, calls: seq<ToolCall>,
                 events: seq<LoopEvent>, asked: seq<UseBlock>)
  {
    && Only(events, AnyTool) == CallEvents(cfg, calls) && Bracketed(events)
    && Only(events, Delta) == Streamed(oracle, Generated(rounds, result))
    && Only(events, Completion) == Completions(oracle, Generated(rounds, result))
    && asked == AskedOf(cfg, calls)
  }

  /** Pushes the text, runs the loop, and persists what is new whatever the outcome: it is all committed,
      exactly if nobody else has committed since, and nothing otherwise. */
  method RunAndPersist(session: Session<Tagged>, cfg: Config, oracle: Oracle, text: string)
    returns (report: TurnReport, ghost added: seq<Tagged>, ghost rounds: nat, ghost calls: seq<ToolCall>)
    requires Consistent(session.store.View()) && Faithful(session.store.View(), session.View())
    requires Paired(session.messages)
    modifies session, session.store
    ensures session.messages == old(session.messages) + added && TurnAdded(added) && Paired(session.messages)
    ensures Consistent(session.store.View()) && Faithful(session.store.View(), session.View())
    ensures report.Done? && Answered(cfg, oracle, text, added, rounds, report.result, calls)
    ensures Seen(cfg, oracle, rounds, report.result, calls, report.events, report.asked)
    ensures Committed(old(session.store.View()), old(session.View()), session.store.View(), session.View(),
                      report.persisted)
  {
    ghost var db, before := session.store.View(), session.View();
    session.messages := session.messages + [UserMessage(text)];
    var r, out, events, asked, sent, turns, rest, made := ContinueRun(cfg, oracle, session.messages);
    session.messages := out;
    added, rounds, calls := [UserMessage(text)] + rest, turns, made;
    TurnDone(before.messages, text, rest, rounds, r, cfg, oracle, calls);
    hide Paired, TurnAdded, Answered, Committed, Ended, CallsFollow, ToldOf, Bracketed, Consistent, Faithful;
    var persisted := PersistTurn(session, db, before);
    report := Done(r, persisted, events, asked);
  }

  lemma TurnDone(before: seq<Tagged>, text: string, rest: seq<Tagged>, rounds: nat, r: RunResult,
                 cfg: Config, oracle: Oracle, calls: seq<ToolCall>)
    requires Paired(before) && Ended(cfg, oracle, rest, rounds, r)
    requires CallsFollow(cfg, oracle, 0, UsesOf(rest, rounds), ResultsOf(rest, rounds), calls)
    requires ToldOf(cfg, UsesOf(rest, rounds), ResultsOf(rest, rounds), calls)
    ensures var added := [UserMessage(text)] + rest;
            && before + [UserMessage(text)] + rest == before + added
            && TurnAdded(added) && Paired(before + added)
            && Answered(cfg, oracle, text, added, rounds, r, calls)
  {
    hide Paired, CallsFollow, ToldOf, Segment;
    var added := [UserMessage(text)] + rest;
    assert added[1..] == rest;
    TurnKeepsPaired(before, added);
  }

  /** The outcome of persisting a conversation that has grown since: everything not yet persisted is committed,
      in order, exactly if the head is current; otherwise nothing is, and both heads are named. */
  ghost predicate Committed(db: Db<Event<Tagged>>, before: Sess<Tagged>,
                            db': Db<Event<Tagged>>, after: Sess<Tagged>, r: Result<nat, Conflict>)
  {
    before.Live? && after.Live? && before.persisted <= |after.messages|
    && var a, log := before.aggregate, Log(db, before.aggregate);
       && (before.head != Head(db, a) ==>
             r == Err(Conflict(a, before.head, Head(db, a))) && db' == db && after.persisted == before.persisted)
       && (before.head == Head(db, a) ==>
             && r == Ok(|after.messages| - before.persisted)
             && Replay(Log(db', a)) == after.messages
             && |Log(db', a)| == |log| + |after.messages| - before.persisted && log <= Log(db', a)
             && (forall i :: |log| <= i < |Log(db', a)| ==>
                   Log(db', a)[i] == Message(after.messages[before.persisted..][i - |log|]))
             && after.persisted == |after.messages| && after.head == Head(db', a))
  }

  method PersistTurn(session: Session<Tagged>, ghost db: Db<Event<Tagged>>, ghost before: Sess<Tagged>)
    returns (r: Result<nat, Conflict>)
    requires Consistent(db) && db == session.store.View() && before.Live? && Faithful(db, before)
    requires session.View() == before.(messages := session.messages) && before.messages < session.messages
    modifies session, session.store
    ensures session.messages == old(session.messages)
    ensures Consistent(session.store.View()) && Faithful(session.store.View(), session.View())
    ensures Committed(db, before, session.store.View(), session.View(), r)
  {
    hide Persisted, Log, Replay, Consistent, Head, Epochs, Advances;
    assert session.messages[..before.persisted] == before.messages[..before.persisted];
    PersistedFaithful(db, session.View());
    PersistsExactly(db, session.View());
    assert session.messages[before.persisted..] != [];
    r := session.PersistNew();
  }

  /** One round of the program: compact if due, then run and persist. It is given up, with nothing changed,
      exactly if a due compaction fails; otherwise the person's text and the run behind it follow the
      conversation, or the summary alone if it was compacted. */
  method UserTurn(session: Session<Tagged>, cfg: Config, oracle: Oracle,
                  needed: bool, summary: Result<string, string>, text: string)
    returns (report: TurnReport, ghost base: seq<Tagged>, ghost added: seq<Tagged>, ghost rounds: nat,
             ghost calls: seq<ToolCall>)
    requires Consistent(session.store.View()) && Faithful(session.store.View(), session.View())
    requires Paired(session.messages)
    modifies session, session.store
    ensures Consistent(session.store.View()) && Faithful(session.store.View(), session.View())
    ensures Paired(session.messages)
    ensures report.Aborted? <==>
      && Compacts(old(session.messages), needed, false)
      && (summary.Err? || old(session.head != Head(session.store.View(), session.sessionId)))
    ensures report.Aborted? ==>
      session.store.View() == old(session.store.View()) && session.View() == old(session.View())
    ensures report.Done? ==> session.messages == base + added
    ensures report.Done? && Compacts(old(session.messages), needed, false) ==>
      |base| == 1 && SummaryText(base[0], summary.value)
    ensures report.Done? && !Compacts(old(session.messages), needed, false) ==> base == old(session.messages)
    ensures report.Done? ==>
      && Answered(cfg, oracle, text, added, rounds, report.result, calls)
      && Seen(cfg, oracle, rounds, report.result, calls, report.events, report.asked)
    ensures report.Done? ==>
      (report.persisted.Ok? <==> old(session.head == Head(session.store.View(), session.sessionId)))
    ensures report.Done? && report.persisted.Ok? ==>
      && Replay(Log(session.store.View(), session.sessionId)) == session.messages
      && report.persisted.value
         == |session.messages| - if Compacts(old(session.messages), needed, false) then 1 else old(session.persisted)
  {
    hide Paired, Answered, Ended, Seen, SummaryText, IsSafeBoundary, Consistent, Log, Replay, TurnAdded;
    var compacted := MaybeCompact(session, needed, false, summary);
    base, added, rounds, calls := session.messages, [], 0, [];
    if compacted.Err? {
      return Aborted(compacted.error), base, added, rounds, calls;
    }
    if compacted == Ok(true) {
      SummaryPaired(base, summary.value);
    }
    report, added, rounds, calls := RunAndPersist(session, cfg, oracle, text);
  }

  lemma SummaryPaired(ms: seq<Tagged>, summary: string)
    requires |ms| == 1 && SummaryText(ms[0], summary)
    ensures Paired(ms)
  {
  }
}
