/** The agent loop: generate a turn, run the tools it asks for under the permission rules, answer
    them in one message, and repeat until the model stops asking or the steps run out.

    The generator, the person answering permission questions and the tools are oracles: their k-th
    answers are arbitrary. Messages carry where they came from, which the loop never looks at. */
module AgentLoop {
  import opened Wrappers
  import opened Json
  import opened Chat
  import opened Text
  import D = Diff
  import P = Permission

  datatype Origin = Typed | Baseline | Turn(stop: StopReason) | Results

  datatype Tagged = Tagged(msg: ChatMessage, origin: Origin)

  /** `quoted` is how a scope is shown in a refusal. */
  datatype Config = Config(
    registered: set<string>, scopeOf: (string, Value) -> string, quoted: string -> string,
    rules: seq<P.Rule>, maxSteps: nat)

  type FileDiff = Option<seq<D.DiffLine>>

  datatype ToolOutcome =
    | Ran(content: string, truncated: bool, overflowPath: Option<string>, diff: FileDiff)
    | Failed(message: string)

  /** `deltas` is the text a generate call streams before it ends, well or badly. */
  datatype Oracle = Oracle(
    deltas: nat -> seq<string>, turns: nat -> Result<AssistantTurn, string>,
    answers: nat -> bool, outcomes: nat -> ToolOutcome)

  datatype LoopEvent =
    | TextDelta(text: string)
    | TurnCompleted(provider: string, usage: Usage)
    | ToolStarted(name: string, scope: string)
    | ToolFinished(name: string, ok: bool, summary: string, diff: FileDiff)
    | ToolDenied(name: string, scope: string)

  datatype RunResult = Finished(text: string, steps: nat) | GatewayFailed(error: string) | MaxSteps(limit: nat)

  // ---------------------------------------------------------------- one tool use

  /** A tool use with the answer its permission question would get and the outcome its run would
      have. */
  datatype ToolCall = ToolCall(use: UseBlock, answer: bool, outcome: ToolOutcome)

  function Scope(cfg: Config, use: UseBlock): string
  {
    cfg.scopeOf(use.name, use.input)
  }

  function Decide(cfg: Config, use: UseBlock): P.Decision
  {
    P.Evaluate(cfg.rules, use.name, Scope(cfg, use))
  }

  /** The person is asked. */
  predicate Asks(cfg: Config, use: UseBlock)
  {
    use.name in cfg.registered && Decide(cfg, use).Ask?
  }

  /** The tool runs: it is registered, and the rules allow it or ask and are told yes. */
  predicate Runs(cfg: Config, c: ToolCall)
  {
    c.use.name in cfg.registered && (Decide(cfg, c.use).Allow? || (Decide(cfg, c.use).Ask? && c.answer))
  }

  function TruncationNote(o: ToolOutcome): string
    requires o.Ran?
  {
    if !o.truncated then ""
    else match o.overflowPath
         case Some(path) => "\n[output truncado; completo em " + path + " — use read para consultar]"
         case None => "\n[output truncado]"
  }

  function Refusal(cfg: Config, use: UseBlock): string {
    "permissão negada para " + use.name + " em " + cfg.quoted(Scope(cfg, use))
  }

  /** The first line of the output, at most eighty characters of it, or the error. */
  function Summary(o: ToolOutcome): string {
    if o.Failed? then o.message
    else
      var lines := Lines(o.content);
      var first := if lines == [] then "" else lines[0];
      if |first| <= 80 then first else first[..80]
  }

  function DiffOf(o: ToolOutcome): FileDiff {
    if o.Ran? then o.diff else None
  }

  function ResultOf(cfg: Config, c: ToolCall): ContentBlock
  {
    if c.use.name !in cfg.registered then ToolResult(c.use.id, "ferramenta desconhecida: " + c.use.name, true)
    else if !Runs(cfg, c) then ToolResult(c.use.id, Refusal(cfg, c.use), true)
    else match c.outcome
         case Ran(content, _, _, _) => ToolResult(c.use.id, content + TruncationNote(c.outcome), false)
         case Failed(message) => ToolResult(c.use.id, message, true)
  }

  function EventsOf(cfg: Config, c: ToolCall): seq<LoopEvent>
  {
    if c.use.name !in cfg.registered then []
    else if !Runs(cfg, c) then [ToolDenied(c.use.name, Scope(cfg, c.use))]
    else [ToolStarted(c.use.name, Scope(cfg, c.use)),
          ToolFinished(c.use.name, c.outcome.Ran?, Summary(c.outcome), DiffOf(c.outcome))]
  }

  // ---------------------------------------------------------------- what a call hands back and reports

  ghost predicate Contains(text: string, part: string) {
    exists i :: 0 <= i <= |text| && part <= text[i..]
  }

  /** What the model is told about a call: a whole output as it is, a truncated one followed by a note that
      names the file with the rest if there is one, the message of a failure, and otherwise the name of the
      tool that is unknown or was refused. */
  ghost predicate Tells(cfg: Config, c: ToolCall, r: ContentBlock) {
    && r.ToolResult? && r.toolUseId == c.use.id
    && (c.use.name !in cfg.registered ==> r.isError && Contains(r.content, c.use.name))
    && (c.use.name in cfg.registered && !Runs(cfg, c) ==>
          && r.isError && Contains(r.content, c.use.name)
          && Contains(r.content, cfg.quoted(cfg.scopeOf(c.use.name, c.use.input))))
    && (Runs(cfg, c) && c.outcome.Failed? ==> r.isError && r.content == c.outcome.message)
    && (Runs(cfg, c) && c.outcome.Ran? ==>
          && !r.isError
          && (!c.outcome.truncated ==> r.content == c.outcome.content)
          && (c.outcome.truncated ==> c.outcome.content < r.content)
          && (c.outcome.truncated && c.outcome.overflowPath.Some? ==>
                Contains(r.content[|c.outcome.content|..], c.outcome.overflowPath.value)))
  }

  lemma ContainsMiddle(a: string, b: string, c: string)
    ensures Contains(a + b + c, b)
  {
    assert (a + b + c)[|a|..] == b + c;
  }

  lemma ResultTells(cfg: Config, c: ToolCall)
    ensures Tells(cfg, c, ResultOf(cfg, c))
  {
    hide Contains, Decide;
    var name := c.use.name;
    ContainsMiddle("ferramenta desconhecida: ", name, "");
    assert "ferramenta desconhecida: " + name + "" == "ferramenta desconhecida: " + name;
    RefusalNames(cfg, c.use);
    if c.outcome.Ran? && c.outcome.truncated {
      var r := c.outcome.content + TruncationNote(c.outcome);
      assert r[|c.outcome.content|..] == TruncationNote(c.outcome);
      if c.outcome.overflowPath.Some? {
        ContainsMiddle("\n[output truncado; completo em ", c.outcome.overflowPath.value,
                       " — use read para consultar]");
      }
    } else if c.outcome.Ran? {
      assert c.outcome.content + "" == c.outcome.content;
    }
  }

  lemma RefusalNames(cfg: Config, use: UseBlock)
    ensures Contains(Refusal(cfg, use), use.name) && Contains(Refusal(cfg, use), cfg.quoted(Scope(cfg, use)))
  {
    hide Contains;
    var head, tail := "permissão negada para ", " em " + cfg.quoted(Scope(cfg, use));
    ContainsMiddle(head, use.name, tail);
    assert head + use.name + tail == Refusal(cfg, use);
    ContainsMiddle(head + use.name + " em ", cfg.quoted(Scope(cfg, use)), "");
    assert head + use.name + " em " + cfg.quoted(Scope(cfg, use)) + "" == Refusal(cfg, use);
  }

  /** The beginning of the first line: all of it, or its first eighty characters. */
  predicate BeginsFirstLine(summary: string, content: string) {
    && summary <= content && |summary| <= 80 && OneLine(summary)
    && (|summary| < 80 ==>
          || summary == content || content[|summary|] == '\n'
          || (|content| > |summary| + 1 && content[|summary|..|summary| + 2] == "\r\n"))
  }

  lemma SummaryBeginsFirstLine(o: ToolOutcome)
    requires o.Ran?
    ensures BeginsFirstLine(Summary(o), o.content)
  {
    var s, n := o.content, LineEnd(o.content);
    if s != [] {
      var first := Lines(s)[0];
      assert first == if n == |s| then s else StripCr(s[..n]);
      assert s[..n] <= s && (n == |s| ==> s[..n] == s);
    }
  }

  /** Nothing is reported for an unknown tool, a refusal for a refused one; a call that runs reports its
      start and then its finish, with whether it went well, its changes, and the first line of its output
      or its error. */
  predicate Reports(cfg: Config, c: ToolCall, es: seq<LoopEvent>) {
    && (c.use.name !in cfg.registered ==> es == [])
    && (c.use.name in cfg.registered && !Runs(cfg, c) ==>
          es == [ToolDenied(c.use.name, cfg.scopeOf(c.use.name, c.use.input))])
    && (Runs(cfg, c) ==>
          && |es| == 2 && es[0] == ToolStarted(c.use.name, cfg.scopeOf(c.use.name, c.use.input))
          && es[1].ToolFinished? && es[1].name == c.use.name
          && (c.outcome.Ran? ==>
                es[1].ok && es[1].diff == c.outcome.diff && BeginsFirstLine(es[1].summary, c.outcome.content))
          && (c.outcome.Failed? ==> !es[1].ok && es[1].diff.None? && es[1].summary == c.outcome.message))
  }

  lemma EventsReport(cfg: Config, c: ToolCall)
    ensures Reports(cfg, c, EventsOf(cfg, c))
  {
    hide BeginsFirstLine, Summary, Decide;
    if c.outcome.Ran? {
      SummaryBeginsFirstLine(c.outcome);
    } else {
      FailureSummary(c.outcome);
    }
  }

  lemma FailureSummary(o: ToolOutcome)
    requires o.Failed?
    ensures Summary(o) == o.message
  {
  }

  /** The first rule that fits decides; without one the person does. */
  lemma RunsByFirstRule(cfg: Config, c: ToolCall, i: nat)
    requires var scope := cfg.scopeOf(c.use.name, c.use.input);
             && i <= |cfg.rules| && (forall j :: 0 <= j < i ==> !P.Matches(cfg.rules[j], c.use.name, scope))
             && (i < |cfg.rules| ==> P.Matches(cfg.rules[i], c.use.name, scope))
    ensures var asks := i == |cfg.rules| || cfg.rules[i].decision.Ask?;
            && (Asks(cfg, c.use) <==> c.use.name in cfg.registered && asks)
            && (Runs(cfg, c) <==>
                  c.use.name in cfg.registered && if asks then c.answer else cfg.rules[i].decision.Allow?)
  {
    P.FirstMatchDecides(cfg.rules, c.use.name, Scope(cfg, c.use), i);
  }

  method RunTool(cfg: Config, use: UseBlock, answer: bool, outcome: ToolOutcome)
    returns (content: string, isError: bool, events: seq<LoopEvent>, asked: bool)
    ensures ToolResult(use.id, content, isError) == ResultOf(cfg, ToolCall(use, answer, outcome))
    ensures events == EventsOf(cfg, ToolCall(use, answer, outcome))
    ensures Tells(cfg, ToolCall(use, answer, outcome), ToolResult(use.id, content, isError))
    ensures Reports(cfg, ToolCall(use, answer, outcome), events)
    ensures asked <==> Asks(cfg, use)
  {
    hide Tells, Reports;
    ResultTells(cfg, ToolCall(use, answer, outcome));
    EventsReport(cfg, ToolCall(use, answer, outcome));
    asked := false;
    if use.name !in cfg.registered {
      return "ferramenta desconhecida: " + use.name, true, [], asked;
    }
    var scope := cfg.scopeOf(use.name, use.input);
    var allowed := false;
    match P.Evaluate(cfg.rules, use.name, scope) {
      case Allow => allowed := true;
      case Deny => allowed := false;
      case Ask =>
        asked := true;
        allowed := answer;
    }
    if !allowed {
      content := "permissão negada para " + use.name + " em " + cfg.quoted(scope);
      return content, true, [ToolDenied(use.name, scope)], asked;
    }
    events := [ToolStarted(use.name, scope)];
    if outcome.Ran? {
      events := events + [ToolFinished(use.name, true, Summary(outcome), outcome.diff)];
      content := outcome.content + TruncationNote(outcome);
      isError := false;
    } else {
      events := events + [ToolFinished(use.name, false, outcome.message, None)];
      content := outcome.message;
      isError := true;
    }
  }

  /** Exactly the permitted calls start a tool, exactly the started ones finish it, and a result
      that is not an error comes only from a tool that ran. */
  lemma StartedExactlyWhenPermitted(cfg: Config, c: ToolCall)
    ensures (exists e :: e in EventsOf(cfg, c) && e.ToolStarted?) <==> Runs(cfg, c)
    ensures (exists e :: e in EventsOf(cfg, c) && e.ToolFinished?) <==> Runs(cfg, c)
    ensures !ResultOf(cfg, c).isError <==> Runs(cfg, c) && c.outcome.Ran?
    ensures Bracketed(EventsOf(cfg, c))
  {
    var es := EventsOf(cfg, c);
    if Runs(cfg, c) {
      assert es[0] in es && es[1] in es;
    }
  }

  // ---------------------------------------------------------------- events come in brackets

  /** Every start is followed at once by the finish of the same tool, and every finish follows a
      start. */
  predicate Bracketed(es: seq<LoopEvent>) {
    && (forall i :: 0 <= i < |es| && es[i].ToolStarted? ==>
          i + 1 < |es| && es[i + 1].ToolFinished? && es[i + 1].name == es[i].name)
    && (forall i :: 0 <= i < |es| && es[i].ToolFinished? ==> i > 0 && es[i - 1].ToolStarted?)
  }

  lemma BracketedConcat(es: seq<LoopEvent>, fs: seq<LoopEvent>)
    requires Bracketed(es) && Bracketed(fs)
    ensures Bracketed(es + fs)
  {
  }

  function CallEvents(cfg: Config, calls: seq<ToolCall>): seq<LoopEvent>
  {
    if calls == [] then [] else CallEvents(cfg, calls[..|calls| - 1]) + EventsOf(cfg, calls[|calls| - 1])
  }

  datatype Kind = AnyTool | Start | Delta | Completion

  predicate OfKind(e: LoopEvent, k: Kind) {
    match k
    case AnyTool => e.ToolStarted? || e.ToolFinished? || e.ToolDenied?
    case Start => e.ToolStarted?
    case Delta => e.TextDelta?
    case Completion => e.TurnCompleted?
  }

  /** The events of one kind, in order. */
  function Only(es: seq<LoopEvent>, k: Kind): seq<LoopEvent> {
    if es == [] then []
    else Only(es[..|es| - 1], k) + (if OfKind(es[|es| - 1], k) then [es[|es| - 1]] else [])
  }

  lemma NoEvents()
    ensures Bracketed([]) && forall k :: Only([], k) == []
  {
  }

  lemma OnlySnoc(es: seq<LoopEvent>, e: LoopEvent, k: Kind)
    ensures Only(es + [e], k) == Only(es, k) + if OfKind(e, k) then [e] else []
  {
    assert (es + [e])[..|es + [e]| - 1] == es;
  }

  lemma {:induction false} OnlyConcat(es: seq<LoopEvent>, fs: seq<LoopEvent>, k: Kind)
    ensures Only(es + fs, k) == Only(es, k) + Only(fs, k)
  {
    hide OfKind, Only;
    if fs == [] {
      NoEvents();
      assert es + fs == es && Only(es, k) + [] == Only(es, k);
    } else {
      var n := |fs| - 1;
      OnlyConcat(es, fs[..n], k);
      OnlySnoc(es + fs[..n], fs[n], k);
      OnlySnoc(fs[..n], fs[n], k);
      assert es + fs == es + fs[..n] + [fs[n]] && fs == fs[..n] + [fs[n]];
    }
  }

  /** All of a kind, or none of it. */
  lemma {:induction false} OnlyAllOrNone(es: seq<LoopEvent>, k: Kind)
    ensures (forall i :: 0 <= i < |es| ==> OfKind(es[i], k)) ==> Only(es, k) == es
    ensures (forall i :: 0 <= i < |es| ==> !OfKind(es[i], k)) ==> Only(es, k) == []
  {
    hide OfKind;
    if es != [] {
      OnlyAllOrNone(es[..|es| - 1], k);
    }
  }

  /** Starts are tool events. */
  lemma {:induction false} StartsAmongTools(es: seq<LoopEvent>)
    ensures Only(Only(es, AnyTool), Start) == Only(es, Start)
  {
    if es != [] {
      var n := |es| - 1;
      StartsAmongTools(es[..n]);
      OnlySnoc(Only(es[..n], AnyTool), es[n], Start);
      assert Only(es[..n], AnyTool) + [] == Only(es[..n], AnyTool);
    }
  }

  lemma KindsOfCall(cfg: Config, c: ToolCall)
    ensures var es := EventsOf(cfg, c);
            Only(es, AnyTool) == es && Only(es, Delta) == [] && Only(es, Completion) == [] && Bracketed(es)
  {
    hide Only, Decide, Scope, Summary, DiffOf;
    var es := EventsOf(cfg, c);
    OnlyAllOrNone(es, AnyTool);
    OnlyAllOrNone(es, Delta);
    OnlyAllOrNone(es, Completion);
  }

  lemma {:induction false} EventsOfCalls(cfg: Config, calls: seq<ToolCall>)
    ensures Only(CallEvents(cfg, calls), AnyTool) == CallEvents(cfg, calls)
    ensures Only(CallEvents(cfg, calls), Delta) == [] && Only(CallEvents(cfg, calls), Completion) == []
    ensures Bracketed(CallEvents(cfg, calls))
  {
    hide Only, Bracketed, EventsOf;
    NoEvents();
    if calls != [] {
      var n := |calls| - 1;
      var before, es := CallEvents(cfg, calls[..n]), EventsOf(cfg, calls[n]);
      EventsOfCalls(cfg, calls[..n]);
      KindsOfCall(cfg, calls[n]);
      OnlyConcat(before, es, AnyTool);
      OnlyConcat(before, es, Delta);
      OnlyConcat(before, es, Completion);
      BracketedConcat(before, es);
    }
  }

  /** The starts of exactly the calls that run. */
  function StartsOf(cfg: Config, calls: seq<ToolCall>): seq<LoopEvent> {
    if calls == [] then []
    else
      var c := calls[|calls| - 1];
      StartsOf(cfg, calls[..|calls| - 1])
      + (if Runs(cfg, c) then [ToolStarted(c.use.name, Scope(cfg, c.use))] else [])
  }

  /** The tool uses somebody is asked about. */
  function AskedOf(cfg: Config, calls: seq<ToolCall>): seq<UseBlock> {
    if calls == [] then []
    else
      var c := calls[|calls| - 1];
      AskedOf(cfg, calls[..|calls| - 1]) + (if Asks(cfg, c.use) then [c.use] else [])
  }

  lemma NobodyAsked(cfg: Config)
    ensures AskedOf(cfg, []) == []
  {
  }

  lemma AskedSnoc(cfg: Config, calls: seq<ToolCall>, c: ToolCall)
    ensures AskedOf(cfg, calls + [c]) == AskedOf(cfg, calls) + if Asks(cfg, c.use) then [c.use] else []
  {
    hide Asks;
    assert (calls + [c])[..|calls + [c]| - 1] == calls;
  }

  lemma {:induction false} AskedConcat(cfg: Config, a: seq<ToolCall>, b: seq<ToolCall>)
    ensures AskedOf(cfg, a + b) == AskedOf(cfg, a) + AskedOf(cfg, b)
  {
    hide Asks, AskedOf;
    if b == [] {
      NobodyAsked(cfg);
      assert a + b == a && AskedOf(cfg, a) + [] == AskedOf(cfg, a);
    } else {
      var n := |b| - 1;
      AskedConcat(cfg, a, b[..n]);
      AskedSnoc(cfg, a + b[..n], b[n]);
      AskedSnoc(cfg, b[..n], b[n]);
      assert a + b == a + b[..n] + [b[n]] && b == b[..n] + [b[n]];
    }
  }

  lemma {:induction false} StartsOfCalls(cfg: Config, calls: seq<ToolCall>)
    ensures Only(CallEvents(cfg, calls), Start) == StartsOf(cfg, calls)
  {
    hide Only;
    NoEvents();
    if calls != [] {
      var n := |calls| - 1;
      StartsOfCalls(cfg, calls[..n]);
      OnlyConcat(CallEvents(cfg, calls[..n]), EventsOf(cfg, calls[n]), Start);
      StartsOfCall(cfg, calls[n]);
    }
  }

  lemma StartsOfCall(cfg: Config, c: ToolCall)
    ensures Only(EventsOf(cfg, c), Start) == if Runs(cfg, c) then [ToolStarted(c.use.name, Scope(cfg, c.use))] else []
  {
    hide Scope, DiffOf, Summary, Only;
    var es := EventsOf(cfg, c);
    NoEvents();
    if es != [] && !Runs(cfg, c) {
      OnlySnoc([], es[0], Start);
      assert es == [] + [es[0]];
    } else if es != [] {
      OnlySnoc([es[0]], es[1], Start);
      OnlySnoc([], es[0], Start);
      assert es == [es[0]] + [es[1]] && [es[0]] == [] + [es[0]];
    }
  }

  // ---------------------------------------------------------------- what is shown

  function DeltaEvents(texts: seq<string>): (es: seq<LoopEvent>)
    ensures |es| == |texts| && forall i :: 0 <= i < |es| ==> es[i] == TextDelta(texts[i])
  {
    seq(|texts|, i requires 0 <= i < |texts| => TextDelta(texts[i]))
  }

  /** The text of the first generate calls. */
  function Streamed(oracle: Oracle, n: nat): seq<LoopEvent> {
    if n == 0 then [] else Streamed(oracle, n - 1) + DeltaEvents(oracle.deltas(n - 1))
  }

  /** The ends of the first generate calls that ended well. */
  function Completions(oracle: Oracle, n: nat): seq<LoopEvent> {
    if n == 0 then []
    else
      Completions(oracle, n - 1)
      + match oracle.turns(n - 1)
        case Ok(turn) => [TurnCompleted(turn.provider, turn.usage)]
        case Err(_) => []
  }

  /** What a generate call reports: its text, and its end if it ends well. */
  function Report(oracle: Oracle, k: nat): seq<LoopEvent> {
    DeltaEvents(oracle.deltas(k))
    + if oracle.turns(k).Ok? then [TurnCompleted(oracle.turns(k).value.provider, oracle.turns(k).value.usage)] else []
  }

  /** The events after `k` generate calls and these tool calls. */
  predicate EventsFine(cfg: Config, oracle: Oracle, calls: seq<ToolCall>, events: seq<LoopEvent>, k: nat) {
    && Only(events, AnyTool) == CallEvents(cfg, calls) && Bracketed(events)
    && Only(events, Delta) == Streamed(oracle, k) && Only(events, Completion) == Completions(oracle, k)
  }

  lemma ReportKinds(oracle: Oracle, k: nat)
    ensures Only(Report(oracle, k), AnyTool) == [] && Bracketed(Report(oracle, k))
    ensures Only(Report(oracle, k), Delta) == DeltaEvents(oracle.deltas(k))
    ensures Completions(oracle, k + 1) == Completions(oracle, k) + Only(Report(oracle, k), Completion)
  {
    hide Only;
    var deltas := DeltaEvents(oracle.deltas(k));
    OnlyAllOrNone(Report(oracle, k), AnyTool);
    OnlyAllOrNone(deltas, Delta);
    OnlyAllOrNone(deltas, Completion);
    if oracle.turns(k).Ok? {
      OnlySnoc(deltas, TurnCompleted(oracle.turns(k).value.provider, oracle.turns(k).value.usage), Delta);
      OnlySnoc(deltas, TurnCompleted(oracle.turns(k).value.provider, oracle.turns(k).value.usage), Completion);
    } else {
      assert Report(oracle, k) == deltas;
    }
  }

  lemma ReportAdded(cfg: Config, oracle: Oracle, calls: seq<ToolCall>, events: seq<LoopEvent>, k: nat)
    requires EventsFine(cfg, oracle, calls, events, k)
    ensures EventsFine(cfg, oracle, calls, events + Report(oracle, k), k + 1)
  {
    hide Only, CallEvents, Bracketed, Report, Completions;
    ReportKinds(oracle, k);
    OnlyConcat(events, Report(oracle, k), AnyTool);
    OnlyConcat(events, Report(oracle, k), Delta);
    OnlyConcat(events, Report(oracle, k), Completion);
    BracketedConcat(events, Report(oracle, k));
    assert CallEvents(cfg, calls) + [] == CallEvents(cfg, calls);
  }

  lemma CallsAdded(cfg: Config, oracle: Oracle, calls: seq<ToolCall>, events: seq<LoopEvent>, k: nat,
                   newCalls: seq<ToolCall>)
    requires EventsFine(cfg, oracle, calls, events, k)
    ensures EventsFine(cfg, oracle, calls + newCalls, events + CallEvents(cfg, newCalls), k)
  {
    hide Only, CallEvents, Bracketed, Streamed, Completions;
    CallEventsConcat(cfg, calls, newCalls);
    EventsOfCalls(cfg, newCalls);
    OnlyConcat(events, CallEvents(cfg, newCalls), AnyTool);
    OnlyConcat(events, CallEvents(cfg, newCalls), Delta);
    OnlyConcat(events, CallEvents(cfg, newCalls), Completion);
    BracketedConcat(events, CallEvents(cfg, newCalls));
    assert Streamed(oracle, k) + [] == Streamed(oracle, k) && Completions(oracle, k) + [] == Completions(oracle, k);
  }

  lemma {:induction false} CallEventsConcat(cfg: Config, a: seq<ToolCall>, b: seq<ToolCall>)
    ensures CallEvents(cfg, a + b) == CallEvents(cfg, a) + CallEvents(cfg, b)
  {
    hide EventsOf, CallEvents;
    if b == [] {
      NoCalls(cfg);
      assert a + b == a && CallEvents(cfg, a) + [] == CallEvents(cfg, a);
    } else {
      var n := |b| - 1;
      CallEventsConcat(cfg, a, b[..n]);
      CallEventsSnoc(cfg, a + b[..n], b[n]);
      CallEventsSnoc(cfg, b[..n], b[n]);
      assert a + b == a + b[..n] + [b[n]] && b == b[..n] + [b[n]];
    }
  }

  lemma NoCalls(cfg: Config)
    ensures CallEvents(cfg, []) == []
  {
  }

  lemma CallEventsSnoc(cfg: Config, calls: seq<ToolCall>, c: ToolCall)
    ensures CallEvents(cfg, calls + [c]) == CallEvents(cfg, calls) + EventsOf(cfg, c)
  {
    hide EventsOf;
    assert (calls + [c])[..|calls|] == calls;
  }

  // ---------------------------------------------------------------- what a run appends

  /** A turn whose tool uses must be answered before anything else is said. */
  predicate WantsTools(t: Tagged) {
    t.msg.role.Assistant? && t.origin == Turn(StopToolUse) && ToolUses(t.msg.content) != []
  }

  /** One result per tool use, with the same ids in the same order. */
  predicate Answers(a: Tagged, r: Tagged) {
    var uses := ToolUses(a.msg.content);
    && a.msg.role.Assistant?
    && r.msg.role.User? && r.origin == Results
    && |r.msg.content| == |uses|
    && forall i :: 0 <= i < |uses| ==> r.msg.content[i].ToolResult? && r.msg.content[i].toolUseId == uses[i].id
  }

  /** Whole rounds of a turn and its answer, then possibly one turn that asks for nothing. */
  predicate Segment(added: seq<Tagged>, rounds: nat) {
    && 2 * rounds <= |added| <= 2 * rounds + 1
    && (forall k :: 0 <= k < rounds ==> WantsTools(added[2 * k]) && Answers(added[2 * k], added[2 * k + 1]))
    && (|added| == 2 * rounds + 1 ==>
          added[2 * rounds].msg.role.Assistant? && added[2 * rounds].origin.Turn? && !WantsTools(added[2 * rounds]))
  }

  /** The tool uses of the first rounds, in order. */
  function UsesOf(added: seq<Tagged>, rounds: nat): seq<UseBlock>
    requires 2 * rounds <= |added|
  {
    if rounds == 0 then [] else UsesOf(added, rounds - 1) + ToolUses(added[2 * rounds - 2].msg.content)
  }

  function ResultsOf(added: seq<Tagged>, rounds: nat): seq<ContentBlock>
    requires 2 * rounds <= |added|
  {
    if rounds == 0 then [] else ResultsOf(added, rounds - 1) + added[2 * rounds - 1].msg.content
  }

  lemma {:induction false} RoundsFrame(a: seq<Tagged>, b: seq<Tagged>, rounds: nat)
    requires 2 * rounds <= |a| && a <= b
    ensures UsesOf(b, rounds) == UsesOf(a, rounds) && ResultsOf(b, rounds) == ResultsOf(a, rounds)
  {
    if rounds > 0 {
      RoundsFrame(a, b, rounds - 1);
    }
  }

  /** The i-th call is made for the i-th tool use with the oracle's answers at `first + i`, and the
      i-th result is its result. */
  predicate CallAt(cfg: Config, oracle: Oracle, first: nat, use: UseBlock, result: ContentBlock, c: ToolCall, i: nat) {
    c == ToolCall(use, oracle.answers(first + i), oracle.outcomes(first + i)) && result == ResultOf(cfg, c)
  }

  predicate CallsFollow(cfg: Config, oracle: Oracle, first: nat,
                        uses: seq<UseBlock>, results: seq<ContentBlock>, calls: seq<ToolCall>)
  {
    && |calls| == |uses| == |results|
    && forall i :: 0 <= i < |calls| ==> CallAt(cfg, oracle, first, uses[i], results[i], calls[i], i)
  }

  lemma CallsFollowConcat(cfg: Config, oracle: Oracle, first: nat,
                          uses: seq<UseBlock>, results: seq<ContentBlock>, calls: seq<ToolCall>,
                          uses': seq<UseBlock>, results': seq<ContentBlock>, calls': seq<ToolCall>)
    requires CallsFollow(cfg, oracle, first, uses, results, calls)
    requires CallsFollow(cfg, oracle, first + |calls|, uses', results', calls')
    ensures CallsFollow(cfg, oracle, first, uses + uses', results + results', calls + calls')
  {
    forall i | 0 <= i < |calls + calls'|
      ensures CallAt(cfg, oracle, first, (uses + uses')[i], (results + results')[i], (calls + calls')[i], i)
    {
      if i < |calls| {
        assert CallAt(cfg, oracle, first, uses[i], results[i], calls[i], i);
      } else {
        var k := i - |calls|;
        assert CallAt(cfg, oracle, first + |calls|, uses'[k], results'[k], calls'[k], k);
      }
    }
  }

  function Said(turn: AssistantTurn): Tagged {
    Tagged(ChatMessage(Assistant, turn.content), Turn(turn.stopReason))
  }

  /** What the k-th generated turn became. */
  predicate TurnAt(oracle: Oracle, t: Tagged, k: nat) {
    && oracle.turns(k).Ok? && t.msg == ChatMessage(Assistant, oracle.turns(k).value.content)
    && t.origin == Turn(oracle.turns(k).value.stopReason)
  }

  predicate TurnsFollow(oracle: Oracle, added: seq<Tagged>) {
    forall i :: 0 <= i < |added| && i % 2 == 0 ==> TurnAt(oracle, added[i], i / 2)
  }

  lemma TurnSaid(oracle: Oracle, added: seq<Tagged>, rounds: nat)
    requires |added| == 2 * rounds && TurnsFollow(oracle, added) && oracle.turns(rounds).Ok?
    ensures TurnsFollow(oracle, added + [Said(oracle.turns(rounds).value)])
  {
    var said := Said(oracle.turns(rounds).value);
    forall i | 0 <= i < |added + [said]| && i % 2 == 0
      ensures TurnAt(oracle, (added + [said])[i], i / 2)
    {
      assert i < |added| ==> TurnAt(oracle, added[i], i / 2);
    }
  }

  /** Answers the tool uses of one turn, in order. */
  method RunTools(cfg: Config, oracle: Oracle, uses: seq<UseBlock>, first: nat)
    returns (results: seq<ContentBlock>, events: seq<LoopEvent>, calls: seq<ToolCall>, asked: seq<UseBlock>)
    ensures CallsFollow(cfg, oracle, first, uses, results, calls)
    ensures events == CallEvents(cfg, calls) && asked == AskedOf(cfg, calls)
  {
    hide EventsOf, ResultOf, Asks;
    results, events, calls, asked := [], [], [], [];
    for n := 0 to |uses|
      invariant CallsFollow(cfg, oracle, first, uses[..n], results, calls)
      invariant events == CallEvents(cfg, calls) && asked == AskedOf(cfg, calls)
    {
      var answer, outcome := oracle.answers(first + n), oracle.outcomes(first + n);
      var content, isError, es, question := RunTool(cfg, uses[n], answer, outcome);
      var call, result := ToolCall(uses[n], answer, outcome), ToolResult(uses[n].id, content, isError);
      assert CallAt(cfg, oracle, first + n, uses[n], result, call, 0);
      CallsFollowConcat(cfg, oracle, first, uses[..n], results, calls, [uses[n]], [result], [call]);
      assert uses[..n] + [uses[n]] == uses[..n + 1];
      CallEventsSnoc(cfg, calls, call);
      AskedSnoc(cfg, calls, call);
      results := results + [result];
      calls := calls + [call];
      events := events + es;
      asked := asked + if question then [uses[n]] else [];
    }
    assert uses[..|uses|] == uses;
  }

  /** The answers of a turn's calls answer the turn. */
  lemma CallsAnswer(cfg: Config, oracle: Oracle, first: nat, said: Tagged,
                    results: seq<ContentBlock>, calls: seq<ToolCall>)
    requires said.msg.role.Assistant?
    requires CallsFollow(cfg, oracle, first, ToolUses(said.msg.content), results, calls)
    ensures Answers(said, Tagged(ChatMessage(User, results), Results))
  {
    var uses := ToolUses(said.msg.content);
    forall i | 0 <= i < |uses|
      ensures results[i].ToolResult? && results[i].toolUseId == uses[i].id
    {
      assert CallAt(cfg, oracle, first, uses[i], results[i], calls[i], i);
    }
  }

  /** The bookkeeping of one round: what the loop has said so far, with one more round said. */
  lemma RoundAdded(cfg: Config, oracle: Oracle, added: seq<Tagged>, rounds: nat, calls: seq<ToolCall>,
                   said: Tagged, results: seq<ContentBlock>, newCalls: seq<ToolCall>)
    requires |added| == 2 * rounds && Segment(added, rounds) && TurnsFollow(oracle, added)
    requires CallsFollow(cfg, oracle, 0, UsesOf(added, rounds), ResultsOf(added, rounds), calls)
    requires WantsTools(said) && TurnsFollow(oracle, added + [said])
    requires CallsFollow(cfg, oracle, |calls|, ToolUses(said.msg.content), results, newCalls)
    ensures var added' := added + [said, Tagged(ChatMessage(User, results), Results)];
            && Segment(added', rounds + 1) && TurnsFollow(oracle, added')
            && CallsFollow(cfg, oracle, 0, UsesOf(added', rounds + 1), ResultsOf(added', rounds + 1), calls + newCalls)
  {
    hide Segment, TurnsFollow, CallsFollow, Answers, ToolUses;
    var answer := Tagged(ChatMessage(User, results), Results);
    CallsAnswer(cfg, oracle, |calls|, said, results, newCalls);
    SegmentGrows(added, rounds, said, answer);
    TurnsAnswered(oracle, added, rounds, said, answer);
    RoundGrows(added, rounds, said, answer);
    hide UsesOf, ResultsOf;
    CallsFollowConcat(cfg, oracle, 0, UsesOf(added, rounds), ResultsOf(added, rounds), calls,
                      ToolUses(said.msg.content), results, newCalls);
  }

  lemma SegmentGrows(added: seq<Tagged>, rounds: nat, said: Tagged, answer: Tagged)
    requires |added| == 2 * rounds && Segment(added, rounds) && WantsTools(said) && Answers(said, answer)
    ensures Segment(added + [said, answer], rounds + 1)
  {
    hide WantsTools, Answers;
  }

  lemma TurnsAnswered(oracle: Oracle, added: seq<Tagged>, rounds: nat, said: Tagged, answer: Tagged)
    requires |added| == 2 * rounds && TurnsFollow(oracle, added + [said])
    ensures TurnsFollow(oracle, added + [said, answer])
  {
    var added' := added + [said, answer];
    forall i | 0 <= i < |added'| && i % 2 == 0
      ensures TurnAt(oracle, added'[i], i / 2)
    {
      assert added'[i] == (added + [said])[i];
    }
  }

  lemma RoundGrows(added: seq<Tagged>, rounds: nat, said: Tagged, answer: Tagged)
    requires |added| == 2 * rounds
    ensures UsesOf(added + [said, answer], rounds + 1) == UsesOf(added, rounds) + ToolUses(said.msg.content)
    ensures ResultsOf(added + [said, answer], rounds + 1) == ResultsOf(added, rounds) + answer.msg.content
  {
    hide ToolUses;
    RoundsFrame(added, added + [said, answer], rounds);
  }

  /** How a run ends, and what it has appended by then: a final turn, whose text is the result; or whole rounds,
      because the gateway failed or because the steps ran out. */
  predicate Ended(cfg: Config, oracle: Oracle, added: seq<Tagged>, rounds: nat, r: RunResult) {
    && Segment(added, rounds) && TurnsFollow(oracle, added)
    && (r.Finished? ==>
          |added| == 2 * rounds + 1 && r == Finished(TextOf(added[2 * rounds].msg.content), rounds + 1))
    && (r.GatewayFailed? ==> |added| == 2 * rounds && oracle.turns(rounds) == Err(r.error))
    && (r.MaxSteps? ==> |added| == 2 * cfg.maxSteps && r.limit == rounds == cfg.maxSteps)
    && Generated(rounds, r) <= cfg.maxSteps
  }

  /** How many turns were asked for. */
  function Generated(rounds: nat, r: RunResult): nat {
    if r.MaxSteps? then rounds else rounds + 1
  }

  /** Every call is made for its use, and the model is told what became of it. */
  ghost predicate ToldOf(cfg: Config, uses: seq<UseBlock>, results: seq<ContentBlock>, calls: seq<ToolCall>) {
    && |calls| == |uses| == |results|
    && forall i :: 0 <= i < |calls| ==> calls[i].use == uses[i] && Tells(cfg, calls[i], results[i])
  }

  lemma CallsTold(cfg: Config, oracle: Oracle, first: nat, uses: seq<UseBlock>, results: seq<ContentBlock>,
                  calls: seq<ToolCall>)
    requires CallsFollow(cfg, oracle, first, uses, results, calls)
    ensures ToldOf(cfg, uses, results, calls)
  {
    hide Tells, ResultOf;
    forall i | 0 <= i < |calls|
      ensures calls[i].use == uses[i] && Tells(cfg, calls[i], results[i])
    {
      assert CallAt(cfg, oracle, first, uses[i], results[i], calls[i], i);
      ResultTells(cfg, calls[i]);
    }
  }

  /** Continues a conversation until the model stops asking for tools.

      What is appended is a segment: `rounds` turns with their answers, plus the final turn unless
      the gateway failed or the steps ran out. A run that runs out of steps appends exactly two
      messages per step. The text shown is what the generate calls streamed; the tools started are
      exactly the calls that run and the questions put to the person exactly the calls that ask,
      each in order. */
  method ContinueRun(cfg: Config, oracle: Oracle, messages: seq<Tagged>)
    returns (r: RunResult, out: seq<Tagged>, events: seq<LoopEvent>, asked: seq<UseBlock>, sent: seq<seq<Tagged>>,
             rounds: nat, ghost added: seq<Tagged>, calls: seq<ToolCall>)
    ensures out == messages + added
    ensures Ended(cfg, oracle, added, rounds, r) && |sent| == Generated(rounds, r)
    ensures forall k :: 0 <= k < |sent| ==> 2 * k <= |added| && sent[k] == messages + added[..2 * k]
    ensures CallsFollow(cfg, oracle, 0, UsesOf(added, rounds), ResultsOf(added, rounds), calls)
    ensures ToldOf(cfg, UsesOf(added, rounds), ResultsOf(added, rounds), calls)
    ensures Only(events, AnyTool) == CallEvents(cfg, calls) && Bracketed(events)
    ensures Only(events, Start) == StartsOf(cfg, calls)
    ensures asked == AskedOf(cfg, calls)
    ensures Only(events, Delta) == Streamed(oracle, |sent|) && Only(events, Completion) == Completions(oracle, |sent|)
  {
    hide EventsOf, ResultOf, ToolUses, TextOf, Progress, Segment, TurnsFollow, CallsFollow, ToldOf;
    hide Only, CallEvents, Bracketed, StartsOf, AskedOf, Streamed, Completions, EventsFine;
    out, events, asked, sent, rounds, added, calls := messages, [], [], [], 0, [], [];
    NoProgress(cfg, oracle);
    for step := 1 to cfg.maxSteps + 1
      invariant |sent| == rounds == step - 1 && |added| == 2 * rounds
      invariant out == messages + added && forall k :: 0 <= k < |sent| ==> sent[k] == messages + added[..2 * k]
      invariant Progress(cfg, oracle, added, rounds, calls, events, asked)
    {
      ghost var before := events;
      assert added[..2 * rounds] == added;
      var turn := oracle.turns(|sent|);
      events := events + DeltaEvents(oracle.deltas(|sent|));
      sent := sent + [out];
      if turn.Err? {
        Standing(cfg, oracle, added, rounds, calls, before, asked);
        assert events == before + Report(oracle, rounds);
        Reporting(cfg, oracle, calls, before, rounds);
        return GatewayFailed(turn.error), out, events, asked, sent, rounds, added, calls;
      }
      events := events + [TurnCompleted(turn.value.provider, turn.value.usage)];
      assert events == before + Report(oracle, rounds);
      var uses := ToolUses(turn.value.content);
      out := out + [Said(turn.value)];
      if turn.value.stopReason != StopToolUse || uses == [] {
        FinalTurn(cfg, oracle, added, rounds, calls, before, asked);
        Pushed(messages, added, Said(turn.value), Said(turn.value));
        r := Finished(TextOf(turn.value.content), step);
        SentBefore(messages, added, added + [Said(turn.value)], sent);
        return r, out, events, asked, sent, rounds, added + [Said(turn.value)], calls;
      }
      var results, es, newCalls, newAsked := RunTools(cfg, oracle, uses, |calls|);
      var answer := Tagged(ChatMessage(User, results), Results);
      ToolRound(cfg, oracle, added, rounds, calls, before, asked, results, newCalls);
      Pushed(messages, added, Said(turn.value), answer);
      out := out + [answer];
      SentBefore(messages, added, added + [Said(turn.value), answer], sent);
      added := added + [Said(turn.value), answer];
      events := events + es;
      asked := asked + newAsked;
      calls := calls + newCalls;
      rounds := rounds + 1;
    }
    Standing(cfg, oracle, added, rounds, calls, events, asked);
    r := MaxSteps(cfg.maxSteps);
  }

  lemma SentBefore(messages: seq<Tagged>, added: seq<Tagged>, longer: seq<Tagged>, sent: seq<seq<Tagged>>)
    requires added <= longer && 2 * |sent| <= |added| + 2
    requires forall k :: 0 <= k < |sent| ==> 2 * k <= |added| && sent[k] == messages + added[..2 * k]
    ensures forall k :: 0 <= k < |sent| ==> sent[k] == messages + longer[..2 * k]
  {
    forall k | 0 <= k < |sent|
      ensures longer[..2 * k] == added[..2 * k]
    {
      assert sent[k] == messages + added[..2 * k];
    }
  }

  lemma Pushed(messages: seq<Tagged>, added: seq<Tagged>, a: Tagged, b: Tagged)
    ensures messages + added + [a] == messages + (added + [a])
    ensures messages + added + [a] + [b] == messages + (added + [a, b])
  {
  }

  /** Where the loop stands after whole rounds. */
  predicate Progress(cfg: Config, oracle: Oracle, added: seq<Tagged>, rounds: nat, calls: seq<ToolCall>,
                     events: seq<LoopEvent>, asked: seq<UseBlock>)
  {
    && |added| == 2 * rounds && Segment(added, rounds) && TurnsFollow(oracle, added)
    && CallsFollow(cfg, oracle, 0, UsesOf(added, rounds), ResultsOf(added, rounds), calls)
    && EventsFine(cfg, oracle, calls, events, rounds)
    && asked == AskedOf(cfg, calls)
  }

  lemma NoProgress(cfg: Config, oracle: Oracle)
    ensures Progress(cfg, oracle, [], 0, [], [], [])
  {
  }

  lemma Standing(cfg: Config, oracle: Oracle, added: seq<Tagged>, rounds: nat, calls: seq<ToolCall>,
                 events: seq<LoopEvent>, asked: seq<UseBlock>)
    requires Progress(cfg, oracle, added, rounds, calls, events, asked)
    ensures |added| == 2 * rounds && Segment(added, rounds) && TurnsFollow(oracle, added)
    ensures CallsFollow(cfg, oracle, 0, UsesOf(added, rounds), ResultsOf(added, rounds), calls)
    ensures ToldOf(cfg, UsesOf(added, rounds), ResultsOf(added, rounds), calls)
    ensures EventsFine(cfg, oracle, calls, events, rounds) && asked == AskedOf(cfg, calls)
    ensures Only(events, AnyTool) == CallEvents(cfg, calls) && Bracketed(events)
    ensures Only(events, Start) == StartsOf(cfg, calls) && Only(events, Delta) == Streamed(oracle, rounds)
    ensures Only(events, Completion) == Completions(oracle, rounds)
  {
    hide Segment, TurnsFollow, CallsFollow, UsesOf, ResultsOf, Only, CallEvents, Bracketed;
    hide StartsOf, AskedOf, Streamed, Completions;
    hide ToldOf;
    CallsTold(cfg, oracle, 0, UsesOf(added, rounds), ResultsOf(added, rounds), calls);
    StartsAmongTools(events);
    StartsOfCalls(cfg, calls);
  }

  /** After one more report the tool events are the same and the text has grown. */
  lemma Reporting(cfg: Config, oracle: Oracle, calls: seq<ToolCall>, before: seq<LoopEvent>, rounds: nat)
    requires EventsFine(cfg, oracle, calls, before, rounds)
    ensures var events := before + Report(oracle, rounds);
            && EventsFine(cfg, oracle, calls, events, rounds + 1)
            && Only(events, AnyTool) == CallEvents(cfg, calls) && Bracketed(events)
            && Only(events, Start) == StartsOf(cfg, calls) && Only(events, Delta) == Streamed(oracle, rounds + 1)
            && Only(events, Completion) == Completions(oracle, rounds + 1)
  {
    hide Only, CallEvents, Bracketed, StartsOf, Streamed, Completions, Report;
    ReportAdded(cfg, oracle, calls, before, rounds);
    StartsAmongTools(before + Report(oracle, rounds));
    StartsOfCalls(cfg, calls);
  }

  lemma FinalTurn(cfg: Config, oracle: Oracle, added: seq<Tagged>, rounds: nat, calls: seq<ToolCall>,
                  before: seq<LoopEvent>, asked: seq<UseBlock>)
    requires Progress(cfg, oracle, added, rounds, calls, before, asked) && oracle.turns(rounds).Ok?
    requires !WantsTools(Said(oracle.turns(rounds).value))
    ensures var added' := added + [Said(oracle.turns(rounds).value)];
            && Segment(added', rounds) && TurnsFollow(oracle, added')
            && CallsFollow(cfg, oracle, 0, UsesOf(added', rounds), ResultsOf(added', rounds), calls)
            && ToldOf(cfg, UsesOf(added', rounds), ResultsOf(added', rounds), calls)
    ensures var events := before + Report(oracle, rounds);
            && Only(events, AnyTool) == CallEvents(cfg, calls) && Bracketed(events)
            && Only(events, Start) == StartsOf(cfg, calls) && Only(events, Delta) == Streamed(oracle, rounds + 1)
            && Only(events, Completion) == Completions(oracle, rounds + 1)
            && asked == AskedOf(cfg, calls)
  {
    hide EventsFine, Only, CallEvents, Bracketed, StartsOf, AskedOf, Streamed, Completions, Report;
    var said := Said(oracle.turns(rounds).value);
    hide ToldOf;
    TurnSaid(oracle, added, rounds);
    RoundsFrame(added, added + [said], rounds);
    CallsTold(cfg, oracle, 0, UsesOf(added, rounds), ResultsOf(added, rounds), calls);
    Reporting(cfg, oracle, calls, before, rounds);
  }

  lemma ToolRound(cfg: Config, oracle: Oracle, added: seq<Tagged>, rounds: nat, calls: seq<ToolCall>,
                  before: seq<LoopEvent>, asked: seq<UseBlock>, results: seq<ContentBlock>, newCalls: seq<ToolCall>)
    requires Progress(cfg, oracle, added, rounds, calls, before, asked) && oracle.turns(rounds).Ok?
    requires WantsTools(Said(oracle.turns(rounds).value))
    requires CallsFollow(cfg, oracle, |calls|, ToolUses(oracle.turns(rounds).value.content), results, newCalls)
    ensures var added' := added + [Said(oracle.turns(rounds).value), Tagged(ChatMessage(User, results), Results)];
            Progress(cfg, oracle, added', rounds + 1, calls + newCalls,
                     before + Report(oracle, rounds) + CallEvents(cfg, newCalls), asked + AskedOf(cfg, newCalls))
  {
    hide Segment, TurnsFollow, CallsFollow, UsesOf, ResultsOf, EventsFine, CallEvents, AskedOf, Report;
    TurnSaid(oracle, added, rounds);
    RoundAdded(cfg, oracle, added, rounds, calls, Said(oracle.turns(rounds).value), results, newCalls);
    ReportAdded(cfg, oracle, calls, before, rounds);
    CallsAdded(cfg, oracle, calls, before + Report(oracle, rounds), rounds + 1, newCalls);
    AskedConcat(cfg, calls, newCalls);
  }
}
