/** Aggregation of a chat-completions stream: text deltas in order, tool calls by index. */
module OpenAi {
  import opened Wrappers
  import opened Json
  import opened Chat

  datatype Fragment = Fragment(index: nat, id: Option<string>, name: Option<string>, arguments: Option<string>)

  datatype Choice = Choice(finishReason: Option<string>, calls: seq<Fragment>, content: Option<string>)

  datatype UsageUpdate = UsageUpdate(promptTokens: Option<nat>, completionTokens: Option<nat>)

  /** One datum of the stream, decoded; `Ignored` is the end mark or text that is not JSON. */
  datatype Chunk = Ignored | Chunk(usage: Option<UsageUpdate>, choice: Option<Choice>)

  datatype PartialCall = PartialCall(id: string, name: string, arguments: string)

  datatype State = State(text: string, calls: seq<PartialCall>, finishReason: Option<string>, usage: Usage)

  const EMPTY_CALL := PartialCall("", "", "")

  function OrEmpty(o: Option<string>): string {
    if o.Some? then o.value else ""
  }

  // ---------------------------------------------------------------- one fragment

  /** Enough calls for the index. */
  function Grown(calls: seq<PartialCall>, index: nat): (r: seq<PartialCall>)
    ensures |r| == if |calls| <= index then index + 1 else |calls|
    ensures forall i :: 0 <= i < |r| ==> r[i] == if i < |calls| then calls[i] else EMPTY_CALL
  {
    if |calls| <= index then calls + seq(index + 1 - |calls|, _ => EMPTY_CALL) else calls
  }

  function Extended(c: PartialCall, f: Fragment): PartialCall {
    PartialCall(if f.id.Some? then f.id.value else c.id, c.name + OrEmpty(f.name), c.arguments + OrEmpty(f.arguments))
  }

  function AddFragment(calls: seq<PartialCall>, f: Fragment): seq<PartialCall> {
    var grown := Grown(calls, f.index);
    grown[f.index := Extended(grown[f.index], f)]
  }

  function AddFragments(calls: seq<PartialCall>, fs: seq<Fragment>): seq<PartialCall> {
    if fs == [] then calls else AddFragment(AddFragments(calls, fs[..|fs| - 1]), fs[|fs| - 1])
  }

  // ---------------------------------------------------------------- the reference

  /** The fragments of one index, in order. */
  function Own(fs: seq<Fragment>, i: nat): seq<Fragment> {
    if fs == [] then []
    else Own(fs[..|fs| - 1], i) + (if fs[|fs| - 1].index == i then [fs[|fs| - 1]] else [])
  }

  /** A call put together from its own fragments alone: the last id, all names and all arguments in
      order. */
  function Assembled(own: seq<Fragment>): PartialCall {
    if own == [] then EMPTY_CALL
    else
      var before, f := Assembled(own[..|own| - 1]), own[|own| - 1];
      PartialCall(if f.id.Some? then f.id.value else before.id,
                  before.name + OrEmpty(f.name), before.arguments + OrEmpty(f.arguments))
  }

  /** One more than the largest index. */
  function CallCount(fs: seq<Fragment>): nat {
    if fs == [] then 0
    else
      var n, i := CallCount(fs[..|fs| - 1]), fs[|fs| - 1].index;
      if i < n then n else i + 1
  }

  /** One call of the list, before or after it was grown. */
  function CallAt(calls: seq<PartialCall>, i: nat): PartialCall {
    if i < |calls| then calls[i] else EMPTY_CALL
  }

  /** A fragment changes the call of its own index and no other. */
  lemma OneFragment(calls: seq<PartialCall>, f: Fragment, i: nat)
    ensures |AddFragment(calls, f)| == if |calls| <= f.index then f.index + 1 else |calls|
    ensures CallAt(AddFragment(calls, f), i) == if i == f.index then Extended(CallAt(calls, i), f) else CallAt(calls, i)
  {
  }

  lemma OneMoreOwn(fs: seq<Fragment>, i: nat)
    requires fs != []
    ensures var n := |fs| - 1;
            && Assembled(Own(fs, i)) == (if fs[n].index == i then Extended(Assembled(Own(fs[..n], i)), fs[n])
                                         else Assembled(Own(fs[..n], i)))
            && (fs[n].index != i ==> Own(fs, i) == Own(fs[..n], i))
  {
    var n := |fs| - 1;
    if fs[n].index == i {
      var own := Own(fs[..n], i) + [fs[n]];
      assert Own(fs, i) == own && own[..|own| - 1] == Own(fs[..n], i) && own[|own| - 1] == fs[n];
    } else {
      assert Own(fs, i) == Own(fs[..n], i);
    }
  }

  lemma {:induction false} CallByIndex(fs: seq<Fragment>, i: nat)
    ensures |AddFragments([], fs)| == CallCount(fs)
    ensures CallAt(AddFragments([], fs), i) == Assembled(Own(fs, i))
    ensures i >= CallCount(fs) ==> Own(fs, i) == []
  {
    if fs != [] {
      var n := |fs| - 1;
      CallByIndex(fs[..n], i);
      OneFragment(AddFragments([], fs[..n]), fs[n], i);
      OneMoreOwn(fs, i);
    }
  }

  /** Whatever the interleaving, call `i` is assembled from the fragments of index `i`. */
  lemma CallsByIndex(fs: seq<Fragment>)
    ensures |AddFragments([], fs)| == CallCount(fs)
    ensures forall i :: 0 <= i < CallCount(fs) ==> AddFragments([], fs)[i] == Assembled(Own(fs, i))
    ensures forall i :: i >= CallCount(fs) ==> Own(fs, i) == []
  {
    CallByIndex(fs, 0);
    forall i: nat
      ensures i < CallCount(fs) ==> AddFragments([], fs)[i] == Assembled(Own(fs, i))
      ensures i >= CallCount(fs) ==> Own(fs, i) == []
    {
      CallByIndex(fs, i);
    }
  }

  /** Two streams that agree on the fragments of every index yield the same calls. */
  lemma InterleavingIndependent(fs: seq<Fragment>, gs: seq<Fragment>)
    requires forall i :: Own(fs, i) == Own(gs, i)
    ensures AddFragments([], fs) == AddFragments([], gs)
  {
    CallsByIndex(fs);
    CallsByIndex(gs);
    CountByOwn(fs, gs);
    CountByOwn(gs, fs);
  }

  lemma {:induction false} CountByOwn(fs: seq<Fragment>, gs: seq<Fragment>)
    requires forall i :: Own(fs, i) == Own(gs, i)
    ensures CallCount(fs) <= CallCount(gs)
  {
    CallsByIndex(gs);
    if CallCount(fs) > 0 {
      LastCallUsed(fs);
      assert Own(gs, CallCount(fs) - 1) != [];
    }
  }

  lemma {:induction false} LastCallUsed(fs: seq<Fragment>)
    requires CallCount(fs) > 0
    ensures Own(fs, CallCount(fs) - 1) != []
  {
    var n := |fs| - 1;
    if fs[n].index + 1 != CallCount(fs) {
      LastCallUsed(fs[..n]);
    }
  }

  // ---------------------------------------------------------------- one datum

  /** The text a datum adds: non-empty content of its first choice. */
  function Delta(c: Chunk): Option<string> {
    if c.Chunk? && c.choice.Some? && c.choice.value.content.Some? && c.choice.value.content.value != ""
    then c.choice.value.content else None
  }

  function Fragments(c: Chunk): seq<Fragment> {
    if c.Chunk? && c.choice.Some? then c.choice.value.calls else []
  }

  function NextUsage(u: Usage, c: Chunk): Usage {
    if c.Chunk? && c.usage.Some? then
      Usage(if c.usage.value.promptTokens.Some? then c.usage.value.promptTokens.value else u.inputTokens,
            if c.usage.value.completionTokens.Some? then c.usage.value.completionTokens.value else u.outputTokens)
    else u
  }

  function NextReason(r: Option<string>, c: Chunk): Option<string> {
    if c.Chunk? && c.choice.Some? && c.choice.value.finishReason.Some? then c.choice.value.finishReason else r
  }

  function Next(s: State, c: Chunk): State {
    State(s.text + OrEmpty(Delta(c)), AddFragments(s.calls, Fragments(c)),
          NextReason(s.finishReason, c), NextUsage(s.usage, c))
  }

  const INITIAL := State("", [], None, Usage(0, 0))

  function After(chunks: seq<Chunk>): State {
    if chunks == [] then INITIAL else Next(After(chunks[..|chunks| - 1]), chunks[|chunks| - 1])
  }

  /** All text the stream carries, in order. */
  function AllDeltas(chunks: seq<Chunk>): string {
    if chunks == [] then ""
    else
      var c := chunks[|chunks| - 1];
      AllDeltas(chunks[..|chunks| - 1]) + (if c.Chunk? && c.choice.Some? then OrEmpty(c.choice.value.content) else "")
  }

  /** All fragments the stream carries, in order. */
  function AllFragments(chunks: seq<Chunk>): seq<Fragment> {
    if chunks == [] then []
    else
      var c := chunks[|chunks| - 1];
      AllFragments(chunks[..|chunks| - 1]) + (if c.Chunk? && c.choice.Some? then c.choice.value.calls else [])
  }

  lemma DeltaIsContent(c: Chunk)
    ensures OrEmpty(Delta(c)) == if c.Chunk? && c.choice.Some? then OrEmpty(c.choice.value.content) else ""
    ensures Delta(c).Some? ==> Delta(c).value != ""
  {
  }

  lemma OneMoreFragment(calls: seq<PartialCall>, fs: seq<Fragment>, f: Fragment)
    ensures AddFragments(calls, fs + [f]) == AddFragment(AddFragments(calls, fs), f)
  {
    hide AddFragment;
    assert (fs + [f])[..|fs + [f]| - 1] == fs;
  }

  lemma {:induction false} AddFragmentsConcat(calls: seq<PartialCall>, fs: seq<Fragment>, gs: seq<Fragment>)
    ensures AddFragments(calls, fs + gs) == AddFragments(AddFragments(calls, fs), gs)
  {
    hide AddFragment;
    if gs == [] {
      assert fs + gs == fs;
    } else {
      hide AddFragments;
      var n := |gs| - 1;
      AddFragmentsConcat(calls, fs, gs[..n]);
      OneMoreFragment(calls, fs + gs[..n], gs[n]);
      OneMoreFragment(AddFragments(calls, fs), gs[..n], gs[n]);
      assert fs + gs == fs + gs[..n] + [gs[n]];
      assert gs == gs[..n] + [gs[n]];
    }
  }

  /** After any stream the text is the concatenation of the returned deltas, and each call is put
      together from the fragments of its own index, however they interleave. */
  lemma {:induction false} Aggregated(chunks: seq<Chunk>)
    ensures After(chunks).text == AllDeltas(chunks)
    ensures After(chunks).calls == AddFragments([], AllFragments(chunks))
    ensures |After(chunks).calls| == CallCount(AllFragments(chunks))
    ensures forall i :: 0 <= i < |After(chunks).calls| ==>
              After(chunks).calls[i] == Assembled(Own(AllFragments(chunks), i))
  {
    if chunks != [] {
      var n := |chunks| - 1;
      Aggregated(chunks[..n]);
      DeltaIsContent(chunks[n]);
      AddFragmentsConcat([], AllFragments(chunks[..n]), Fragments(chunks[n]));
    }
    CallsByIndex(AllFragments(chunks));
  }

  // ---------------------------------------------------------------- the finished turn

  /** How arguments are read; text that is not JSON becomes an empty object. */
  type Reader = string -> Option<Value>

  function UseOf(read: Reader, c: PartialCall): (u: UseBlock)
    ensures u.id == c.id && u.name == c.name
    ensures read(c.arguments) == Some(u.input) || (read(c.arguments).None? && u.input == Obj([]))
  {
    ToolUse(c.id, c.name, if read(c.arguments).Some? then read(c.arguments).value else Obj([]))
  }

  function UsesOf(read: Reader, calls: seq<PartialCall>): seq<ContentBlock> {
    if calls == [] then [] else UsesOf(read, calls[..|calls| - 1]) + [UseOf(read, calls[|calls| - 1])]
  }

  function StopOf(reason: Option<string>): (stop: StopReason)
    ensures stop == StopToolUse <==> reason == Some("tool_calls")
    ensures stop == MaxTokens <==> reason == Some("length")
    ensures stop == EndTurn <==> reason.None? || reason.value == "stop"
  {
    match reason
    case None => EndTurn
    case Some(r) =>
      if r == "tool_calls" then StopToolUse
      else if r == "length" then MaxTokens
      else if r == "stop" then EndTurn
      else OtherReason
  }

  function TurnOf(read: Reader, provider: string, s: State): AssistantTurn {
    AssistantTurn((if s.text != "" then [Text(s.text)] else []) + UsesOf(read, s.calls),
                  StopOf(s.finishReason), s.usage, provider)
  }

  lemma {:induction false} UsesText(read: Reader, calls: seq<PartialCall>)
    ensures TextOf(UsesOf(read, calls)) == ""
    ensures |ToolUses(UsesOf(read, calls))| == |calls|
    ensures forall i :: 0 <= i < |calls| ==> ToolUses(UsesOf(read, calls))[i] == UseOf(read, calls[i])
  {
    hide TextOf, ToolUses, UseOf;
    if calls == [] {
      NoUses();
    } else {
      var n := |calls| - 1;
      UsesText(read, calls[..n]);
      AppendUse(UsesOf(read, calls[..n]), UseOf(read, calls[n]));
    }
  }

  lemma NoUses()
    ensures TextOf([]) == "" && ToolUses([]) == []
  {
  }

  lemma {:induction false} AppendUse(blocks: seq<ContentBlock>, u: UseBlock)
    ensures TextOf(blocks + [u]) == TextOf(blocks)
    ensures ToolUses(blocks + [u]) == ToolUses(blocks) + [u]
  {
    if blocks != [] {
      AppendUse(blocks[1..], u);
      assert (blocks + [u])[1..] == blocks[1..] + [u];
    }
  }

  /** The turn built from a stream says exactly the streamed deltas and uses exactly the assembled
      calls, in index order. */
  lemma TurnOfStream(read: Reader, provider: string, chunks: seq<Chunk>)
    ensures var turn := TurnOf(read, provider, After(chunks));
            var fs := AllFragments(chunks);
            && TextOf(turn.content) == AllDeltas(chunks)
            && |ToolUses(turn.content)| == CallCount(fs)
            && forall i :: 0 <= i < CallCount(fs) ==> ToolUses(turn.content)[i] == UseOf(read, Assembled(Own(fs, i)))
  {
    hide TurnOf, After, AllFragments, AllDeltas, Own, Assembled, CallCount, UseOf;
    Aggregated(chunks);
    TurnOfState(read, provider, After(chunks));
  }

  predicate HasReason(c: Chunk) {
    c.Chunk? && c.choice.Some? && c.choice.value.finishReason.Some?
  }

  predicate HasPromptTokens(c: Chunk) {
    c.Chunk? && c.usage.Some? && c.usage.value.promptTokens.Some?
  }

  predicate HasCompletionTokens(c: Chunk) {
    c.Chunk? && c.usage.Some? && c.usage.value.completionTokens.Some?
  }

  predicate LastWhere(chunks: seq<Chunk>, i: nat, counts: Chunk -> bool) {
    i < |chunks| && counts(chunks[i]) && forall j :: i < j < |chunks| ==> !counts(chunks[j])
  }

  /** The finish reason and the token counts are the last ones sent; without one the turn ended and counts
      are zero. */
  lemma {:induction false} LastCounts(read: Reader, provider: string, chunks: seq<Chunk>, i: nat)
    ensures var turn := TurnOf(read, provider, After(chunks));
            && turn.provider == provider
            && (LastWhere(chunks, i, HasReason) ==> turn.stopReason == StopOf(chunks[i].choice.value.finishReason))
            && (LastWhere(chunks, i, HasPromptTokens) ==>
                  turn.usage.inputTokens == chunks[i].usage.value.promptTokens.value)
            && (LastWhere(chunks, i, HasCompletionTokens) ==>
                  turn.usage.outputTokens == chunks[i].usage.value.completionTokens.value)
    ensures var turn := TurnOf(read, provider, After(chunks));
            && ((forall j :: 0 <= j < |chunks| ==> !HasReason(chunks[j])) ==> turn.stopReason == EndTurn)
            && ((forall j :: 0 <= j < |chunks| ==> !HasPromptTokens(chunks[j])) ==> turn.usage.inputTokens == 0)
            && ((forall j :: 0 <= j < |chunks| ==> !HasCompletionTokens(chunks[j])) ==> turn.usage.outputTokens == 0)
  {
    hide AddFragments, UsesOf, Delta;
    if chunks != [] {
      LastCounts(read, provider, chunks[..|chunks| - 1], i);
    }
  }

  lemma TurnOfState(read: Reader, provider: string, s: State)
    ensures var content := TurnOf(read, provider, s).content;
            && TextOf(content) == s.text && |ToolUses(content)| == |s.calls|
            && forall i :: 0 <= i < |s.calls| ==> ToolUses(content)[i] == UseOf(read, s.calls[i])
  {
    hide UsesOf, UseOf;
    var uses := UsesOf(read, s.calls);
    UsesText(read, s.calls);
    if s.text != "" {
      assert ([Text(s.text)] + uses)[1..] == uses;
    } else {
      assert [] + uses == uses;
    }
  }

  // ---------------------------------------------------------------- the aggregator as it runs

  class TurnAggregator {
    const provider: string
    var text: string
    var calls: seq<PartialCall>
    var finishReason: Option<string>
    var usage: Usage

    function View(): State
      reads this
    {
      State(text, calls, finishReason, usage)
    }

    constructor (provider: string)
      ensures this.provider == provider && View() == INITIAL
    {
      this.provider := provider;
      text, calls, finishReason, usage := "", [], None, Usage(0, 0);
    }

    method Handle(c: Chunk) returns (delta: Option<string>)
      modifies this
      ensures View() == Next(old(View()), c)
      ensures delta == Delta(c)
    {
      if c.Ignored? {
        return None;
      }
      if c.usage.Some? {
        usage := NextUsage(usage, c);
      }
      if c.choice.None? {
        return None;
      }
      var choice := c.choice.value;
      if choice.finishReason.Some? {
        finishReason := choice.finishReason;
      }
      MergeFragments(choice.calls);
      if choice.content.None? || choice.content.value == "" {
        return None;
      }
      text := text + choice.content.value;
      return choice.content;
    }

    method MergeFragments(fs: seq<Fragment>)
      modifies this`calls
      ensures calls == AddFragments(old(calls), fs)
    {
      for n := 0 to |fs|
        invariant calls == AddFragments(old(calls), fs[..n])
      {
        var f := fs[n];
        ghost var before := calls;
        while |calls| <= f.index
          invariant |calls| <= |Grown(before, f.index)|
          invariant |calls| >= |before| && calls == Grown(before, f.index)[..|calls|]
        {
          calls := calls + [EMPTY_CALL];
        }
        assert calls == Grown(before, f.index);
        calls := calls[f.index := Extended(calls[f.index], f)];
        assert fs[..n + 1][..n] == fs[..n];
      }
      assert fs[..|fs|] == fs;
    }

    method Finish(read: Reader) returns (turn: AssistantTurn)
      ensures turn == TurnOf(read, provider, View())
    {
      var content: seq<ContentBlock> := [];
      if text != "" {
        content := content + [Text(text)];
      }
      ghost var first := content;
      for n := 0 to |calls|
        invariant content == first + UsesOf(read, calls[..n])
      {
        assert calls[..n + 1][..n] == calls[..n];
        content := content + [UseOf(read, calls[n])];
      }
      assert calls[..|calls|] == calls;
      turn := AssistantTurn(content, StopOf(finishReason), usage, provider);
    }
  }
}
