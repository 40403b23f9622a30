/** Aggregation of a messages stream: a delta goes to the block started last, whatever index it
    carries. */
module Anthropic {
  import opened Wrappers
  import opened Json
  import opened Chat

  datatype Block = TextBlock(text: string) | ToolBlock(id: string, name: string, json: string)

  /** What a block start carries: a tool block starts without arguments. */
  datatype Opening = OpenText(text: string) | OpenTool(id: string, name: string)

  /** One event of the stream, decoded, with the block index the provider sends along. */
  datatype Event =
    | Ignored
    | MessageStart(inputTokens: Option<nat>)
    | BlockStart(index: nat, opening: Opening)
    | TextDelta(index: nat, text: string)
    | JsonDelta(index: nat, json: string)
    | MessageDelta(stop: Option<StopReason>, outputTokens: Option<nat>)

  datatype State = State(blocks: seq<Block>, stop: Option<StopReason>, usage: Usage)

  const INITIAL := State([], None, Usage(0, 0))

  function Opened(o: Opening): Block {
    match o
    case OpenText(text) => TextBlock(text)
    case OpenTool(id, name) => ToolBlock(id, name, "")
  }

  /** A delta of the other kind is dropped. */
  function Extended(b: Block, e: Event): Block {
    if b.TextBlock? && e.TextDelta? then TextBlock(b.text + e.text)
    else if b.ToolBlock? && e.JsonDelta? then ToolBlock(b.id, b.name, b.json + e.json)
    else b
  }

  predicate IsDelta(e: Event) {
    e.TextDelta? || e.JsonDelta?
  }

  function NextBlocks(blocks: seq<Block>, e: Event): seq<Block> {
    if e.BlockStart? then blocks + [Opened(e.opening)]
    else if IsDelta(e) && blocks != [] then blocks[|blocks| - 1 := Extended(blocks[|blocks| - 1], e)]
    else blocks
  }

  function Next(s: State, e: Event): State {
    match e
    case MessageStart(tokens) =>
      s.(usage := s.usage.(inputTokens := if tokens.Some? then tokens.value else 0))
    case MessageDelta(stop, tokens) =>
      s.(stop := stop, usage := s.usage.(outputTokens := if tokens.Some? then tokens.value else s.usage.outputTokens))
    case _ => s.(blocks := NextBlocks(s.blocks, e))
  }

  function Delta(e: Event): Option<string> {
    if e.TextDelta? then Some(e.text) else None
  }

  function After(events: seq<Event>): State {
    if events == [] then INITIAL else Next(After(events[..|events| - 1]), events[|events| - 1])
  }

  // ---------------------------------------------------------------- the reference

  function NextIndexed(blocks: map<nat, Block>, e: Event): map<nat, Block> {
    if e.BlockStart? then blocks[e.index := Opened(e.opening)]
    else if IsDelta(e) && e.index in blocks then blocks[e.index := Extended(blocks[e.index], e)]
    else blocks
  }

  /** Aggregation that honours the index of every event. */
  function Indexed(events: seq<Event>): map<nat, Block> {
    if events == [] then map[] else NextIndexed(Indexed(events[..|events| - 1]), events[|events| - 1])
  }

  function Starts(events: seq<Event>): nat {
    if events == [] then 0
    else Starts(events[..|events| - 1]) + (if events[|events| - 1].BlockStart? then 1 else 0)
  }

  /** Blocks arrive one after another: they are numbered in order of their starts, and a delta names
      the block started last. */
  predicate Sequential(events: seq<Event>) {
    events == []
    || (Sequential(events[..|events| - 1])
        && var n, e := Starts(events[..|events| - 1]), events[|events| - 1];
           && (e.BlockStart? ==> e.index == n)
           && (IsDelta(e) ==> e.index + 1 == n))
  }

  ghost predicate Mirrors(blocks: seq<Block>, m: map<nat, Block>) {
    (forall i :: i in m <==> 0 <= i < |blocks|) && forall i :: 0 <= i < |blocks| ==> blocks[i] == m[i]
  }

  lemma MirrorsStep(s: State, m: map<nat, Block>, e: Event)
    requires Mirrors(s.blocks, m)
    requires (e.BlockStart? ==> e.index == |s.blocks|) && (IsDelta(e) ==> e.index + 1 == |s.blocks|)
    ensures Mirrors(Next(s, e).blocks, NextIndexed(m, e))
    ensures |Next(s, e).blocks| == |s.blocks| + if e.BlockStart? then 1 else 0
  {
    hide Extended, Opened;
  }

  /** On such a stream, appending to the last block is the same as honouring the index. */
  lemma {:induction false} LastBlockIsIndexed(events: seq<Event>)
    requires Sequential(events)
    ensures |After(events).blocks| == Starts(events)
    ensures forall i :: i in Indexed(events) <==> 0 <= i < Starts(events)
    ensures forall i :: 0 <= i < Starts(events) ==> After(events).blocks[i] == Indexed(events)[i]
  {
    hide After, Starts, Indexed, Next, NextIndexed;
    if events == [] {
      NoEventsYet();
    } else {
      var n := |events| - 1;
      LastBlockIsIndexed(events[..n]);
      OneMoreEvent(events[..n], events[n]);
      assert events[..n] + [events[n]] == events;
      assert Sequential(events[..n]);
      MirrorsStep(After(events[..n]), Indexed(events[..n]), events[n]);
    }
  }

  lemma NoEventsYet()
    ensures After([]).blocks == [] && Starts([]) == 0 && Indexed([]) == map[]
  {
  }

  lemma OneMoreEvent(events: seq<Event>, e: Event)
    ensures After(events + [e]) == Next(After(events), e)
    ensures Starts(events + [e]) == Starts(events) + if e.BlockStart? then 1 else 0
    ensures Indexed(events + [e]) == NextIndexed(Indexed(events), e)
  {
    assert (events + [e])[..|events + [e]| - 1] == events;
  }

  /** Blocks are numbered in the order of their starts; deltas may name any block. */
  predicate InOrder(events: seq<Event>) {
    events == []
    || (InOrder(events[..|events| - 1])
        && var e := events[|events| - 1];
           (e.BlockStart? ==> e.index == Starts(events[..|events| - 1])))
  }

  predicate Alike(mine: seq<Block>, theirs: map<nat, Block>) {
    forall i :: 0 <= i < |mine| ==> i in theirs && mine[i] == theirs[i]
  }

  predicate Agree(events: seq<Event>) {
    Alike(After(events).blocks, Indexed(events))
  }

  predicate AgreesThroughout(events: seq<Event>) {
    Agree(events) && (events == [] || AgreesThroughout(events[..|events| - 1]))
  }

  /** The delta is of the kind of the block, and not empty. */
  predicate Changes(b: Block, e: Event) {
    (b.TextBlock? && e.TextDelta? && e.text != "") || (b.ToolBlock? && e.JsonDelta? && e.json != "")
  }

  /** A delta that names the last block, or would change neither the last block nor the one it names. */
  predicate Harmless(blocks: seq<Block>, e: Event) {
    IsDelta(e) && blocks != [] ==>
      || e.index + 1 == |blocks|
      || (!Changes(blocks[|blocks| - 1], e) && (e.index < |blocks| ==> !Changes(blocks[e.index], e)))
  }

  predicate AllHarmless(events: seq<Event>) {
    events == []
    || (AllHarmless(events[..|events| - 1]) && Harmless(After(events[..|events| - 1]).blocks, events[|events| - 1]))
  }

  lemma {:induction false} InOrderDomain(events: seq<Event>)
    requires InOrder(events)
    ensures |After(events).blocks| == Starts(events)
    ensures forall i :: i in Indexed(events) <==> 0 <= i < Starts(events)
  {
    if events != [] {
      var n := |events| - 1;
      InOrderDomain(events[..n]);
      OneMoreEvent(events[..n], events[n]);
      assert events[..n] + [events[n]] == events;
    }
  }

  lemma ChangesExactly(b: Block, e: Event)
    ensures Changes(b, e) <==> Extended(b, e) != b
  {
    if b.TextBlock? && e.TextDelta? {
      assert b.text + e.text == b.text ==> |e.text| == 0;
    } else if b.ToolBlock? && e.JsonDelta? {
      assert b.json + e.json == b.json ==> |e.json| == 0;
    }
  }

  lemma DeltaAgreement(blocks: seq<Block>, theirs: map<nat, Block>, e: Event)
    requires Alike(blocks, theirs) && (forall i :: i in theirs <==> 0 <= i < |blocks|) && IsDelta(e) && blocks != []
    ensures Alike(NextBlocks(blocks, e), NextIndexed(theirs, e)) <==> Harmless(blocks, e)
  {
    hide Extended, Changes;
    var n := |blocks| - 1;
    ChangesExactly(blocks[n], e);
    if e.index < |blocks| {
      ChangesExactly(blocks[e.index], e);
    }
    var mine', theirs' := NextBlocks(blocks, e), NextIndexed(theirs, e);
    assert mine'[n] == Extended(blocks[n], e);
    if e.index < n {
      assert theirs'[n] == blocks[n] && mine'[e.index] == blocks[e.index];
      assert theirs'[e.index] == Extended(blocks[e.index], e);
    }
  }

  lemma AgreementStep(events: seq<Event>, e: Event)
    requires InOrder(events) && Agree(events) && (e.BlockStart? ==> e.index == Starts(events))
    ensures Agree(events + [e]) <==> Harmless(After(events).blocks, e)
  {
    hide Extended, Changes, After, Indexed;
    InOrderDomain(events);
    OneMoreEvent(events, e);
    if IsDelta(e) && After(events).blocks != [] {
      hide Alike, Harmless;
      DeltaAgreement(After(events).blocks, Indexed(events), e);
    }
  }

  /** On a stream whose blocks are numbered in order, appending to the last block agrees with honouring
      the index all along exactly if every delta is harmless. */
  lemma {:induction false} AgreesExactlyIfHarmless(events: seq<Event>)
    requires InOrder(events)
    ensures AgreesThroughout(events) <==> AllHarmless(events)
  {
    if events != [] {
      var n := |events| - 1;
      AgreesExactlyIfHarmless(events[..n]);
      assert events[..n] + [events[n]] == events;
      if AgreesThroughout(events[..n]) {
        AgreementStep(events[..n], events[n]);
      }
    }
  }

  // ---------------------------------------------------------------- the finished turn

  function ContentOf(read: string -> Option<Value>, b: Block): ContentBlock {
    match b
    case TextBlock(t) => Text(t)
    case ToolBlock(id, name, json) => ToolUse(id, name, if read(json).Some? then read(json).value else Obj([]))
  }

  function TurnOf(read: string -> Option<Value>, s: State): AssistantTurn {
    AssistantTurn(seq(|s.blocks|, i requires 0 <= i < |s.blocks| => ContentOf(read, s.blocks[i])),
                  if s.stop.Some? then s.stop.value else EndTurn, s.usage, "anthropic")
  }

  // ---------------------------------------------------------------- what the blocks are made of

  /** What the blocks were opened with, in order. */
  function Openings(events: seq<Event>): seq<Opening> {
    if events == [] then []
    else
      var e := events[|events| - 1];
      Openings(events[..|events| - 1]) + (if e.BlockStart? then [e.opening] else [])
  }

  /** The text deltas that arrived while block `k` was the last. */
  function TextBehind(events: seq<Event>, k: nat): string {
    if events == [] then ""
    else
      var before, e := events[..|events| - 1], events[|events| - 1];
      TextBehind(before, k) + (if e.TextDelta? && |Openings(before)| == k + 1 then e.text else "")
  }

  /** The argument deltas that arrived while block `k` was the last. */
  function JsonBehind(events: seq<Event>, k: nat): string {
    if events == [] then ""
    else
      var before, e := events[..|events| - 1], events[|events| - 1];
      JsonBehind(before, k) + (if e.JsonDelta? && |Openings(before)| == k + 1 then e.json else "")
  }

  predicate MadeOf(b: Block, o: Opening, text: string, json: string) {
    match o
    case OpenText(first) => b == TextBlock(first + text)
    case OpenTool(id, name) => b == ToolBlock(id, name, json)
  }

  lemma OneMorePiece(events: seq<Event>, e: Event, k: nat)
    ensures Openings(events + [e]) == Openings(events) + if e.BlockStart? then [e.opening] else []
    ensures var last := |Openings(events)| == k + 1;
            && TextBehind(events + [e], k) == TextBehind(events, k) + (if e.TextDelta? && last then e.text else "")
            && JsonBehind(events + [e], k) == JsonBehind(events, k) + (if e.JsonDelta? && last then e.json else "")
  {
    assert (events + [e])[..|events + [e]| - 1] == events;
  }

  lemma NoPieces(k: nat)
    ensures Openings([]) == [] && TextBehind([], k) == "" && JsonBehind([], k) == "" && After([]).blocks == []
  {
  }

  lemma PieceAdded(b: Block, o: Opening, text: string, json: string, e: Event)
    requires MadeOf(b, o, text, json) && IsDelta(e)
    ensures MadeOf(Extended(b, e), o, text + if e.TextDelta? then e.text else "",
                   json + if e.JsonDelta? then e.json else "")
  {
    assert text + "" == text && json + "" == json;
    if o.OpenText? && e.TextDelta? {
      assert (o.text + text) + e.text == o.text + (text + e.text);
    }
  }

  lemma BlockGrows(blocks: seq<Block>, e: Event, k: nat)
    ensures |NextBlocks(blocks, e)| == |blocks| + if e.BlockStart? then 1 else 0
    ensures k < |NextBlocks(blocks, e)| ==>
      NextBlocks(blocks, e)[k] == if k == |blocks| then Opened(e.opening)
                                  else if k + 1 == |blocks| && IsDelta(e) then Extended(blocks[k], e)
                                  else blocks[k]
  {
  }

  lemma BlocksOnly(s: State, e: Event)
    ensures Next(s, e).blocks == NextBlocks(s.blocks, e)
  {
  }

  /** After any stream: one block for each that was opened, in order; block `k` is what it was opened with
      and, in order, the deltas of its kind that arrived while it was the last. */
  lemma {:induction false} BlocksAssembled(events: seq<Event>, k: nat)
    ensures |After(events).blocks| == |Openings(events)|
    ensures k < |Openings(events)| ==>
              MadeOf(After(events).blocks[k], Openings(events)[k], TextBehind(events, k), JsonBehind(events, k))
    ensures k >= |Openings(events)| ==> TextBehind(events, k) == "" && JsonBehind(events, k) == ""
  {
    hide After, Openings, TextBehind, JsonBehind, MadeOf, NextBlocks, Next, Extended;
    NoPieces(k);
    if events != [] {
      var n := |events| - 1;
      var before, e := events[..n], events[n];
      assert before + [e] == events;
      BlocksAssembled(before, k);
      OneMoreEvent(before, e);
      OneMorePiece(before, e, k);
      BlocksOnly(After(before), e);
      BlockGrows(After(before).blocks, e, k);
      if k < |Openings(before)| {
        if IsDelta(e) {
          PieceAdded(After(before).blocks[k], Openings(before)[k], TextBehind(before, k), JsonBehind(before, k), e);
        }
        assert TextBehind(before, k) + "" == TextBehind(before, k);
        assert JsonBehind(before, k) + "" == JsonBehind(before, k);
      } else if k == |Openings(before)| && e.BlockStart? {
        JustOpened(e.opening);
      }
    }
  }

  lemma JustOpened(o: Opening)
    ensures MadeOf(Opened(o), o, "", "")
  {
    assert o.OpenText? ==> o.text + "" == o.text;
  }

  /** Text that is not JSON is read as an empty object. */
  predicate ReadsAs(read: string -> Option<Value>, json: string, input: Value) {
    match read(json)
    case Some(v) => input == v
    case None => input == Obj([])
  }

  predicate SaidOf(read: string -> Option<Value>, c: ContentBlock, o: Opening, text: string, json: string) {
    match o
    case OpenText(first) => c == Text(first + text)
    case OpenTool(id, name) => c.ToolUse? && c.id == id && c.name == name && ReadsAs(read, json, c.input)
  }

  /** The numbers of the tool blocks, in order. */
  function ToolBlocks(openings: seq<Opening>): seq<nat> {
    if openings == [] then []
    else
      var n := |openings| - 1;
      ToolBlocks(openings[..n]) + (if openings[n].OpenTool? then [n] else [])
  }

  lemma {:induction false} ToolBlocksInRange(openings: seq<Opening>)
    ensures forall i :: 0 <= i < |ToolBlocks(openings)| ==> ToolBlocks(openings)[i] < |openings|
  {
    if openings != [] {
      ToolBlocksInRange(openings[..|openings| - 1]);
    }
  }

  lemma {:induction false} UsesAreToolBlocks(content: seq<ContentBlock>, openings: seq<Opening>)
    requires |content| == |openings|
    requires forall k :: 0 <= k < |content| ==> (content[k].ToolUse? <==> openings[k].OpenTool?)
    ensures |ToolUses(content)| == |ToolBlocks(openings)|
    ensures forall i :: 0 <= i < |ToolBlocks(openings)| ==>
              ToolBlocks(openings)[i] < |content| && ToolUses(content)[i] == content[ToolBlocks(openings)[i]]
  {
    hide ToolUses;
    if content == [] {
      NoToolUses();
    } else {
      var n := |content| - 1;
      UsesAreToolBlocks(content[..n], openings[..n]);
      ToolUsesSnoc(content[..n], content[n]);
      assert content == content[..n] + [content[n]];
    }
  }

  /** The finished turn: its content is one block for each that was opened, with the text or the arguments that
      arrived for it, and its tool uses are the tool blocks in order. */
  lemma TurnOfStream(read: string -> Option<Value>, events: seq<Event>)
    ensures var content, openings := TurnOf(read, After(events)).content, Openings(events);
            && |content| == |openings|
            && (forall k :: 0 <= k < |content| ==>
                  SaidOf(read, content[k], openings[k], TextBehind(events, k), JsonBehind(events, k)))
            && |ToolUses(content)| == |ToolBlocks(openings)|
            && (forall i :: 0 <= i < |ToolBlocks(openings)| ==>
                  ToolBlocks(openings)[i] < |content| && ToolUses(content)[i] == content[ToolBlocks(openings)[i]])
  {
    hide After, Openings, TextBehind, JsonBehind, ToolUses, ToolBlocks;
    var s, openings := After(events), Openings(events);
    var content := TurnOf(read, s).content;
    BlocksAssembled(events, 0);
    forall k | 0 <= k < |content|
      ensures SaidOf(read, content[k], openings[k], TextBehind(events, k), JsonBehind(events, k))
    {
      BlocksAssembled(events, k);
    }
    UsesAreToolBlocks(content, openings);
  }

  predicate LastWhere(events: seq<Event>, i: nat, counts: Event -> bool) {
    i < |events| && counts(events[i]) && forall j :: i < j < |events| ==> !counts(events[j])
  }

  /** The stop reason is that of the last message delta, and the token counts are the last ones sent; a message
      start without a count counts nothing. */
  lemma {:induction false} LastCounts(read: string -> Option<Value>, events: seq<Event>, i: nat)
    ensures var turn := TurnOf(read, After(events));
            && turn.provider == "anthropic"
            && (LastWhere(events, i, (e: Event) => e.MessageDelta?) ==>
                  turn.stopReason == if events[i].stop.Some? then events[i].stop.value else EndTurn)
            && (LastWhere(events, i, (e: Event) => e.MessageStart?) ==>
                  turn.usage.inputTokens == if events[i].inputTokens.Some? then events[i].inputTokens.value else 0)
            && (LastWhere(events, i, (e: Event) => e.MessageDelta? && e.outputTokens.Some?) ==>
                  turn.usage.outputTokens == events[i].outputTokens.value)
    ensures var turn := TurnOf(read, After(events));
            && ((forall j :: 0 <= j < |events| ==> !events[j].MessageDelta?) ==> turn.stopReason == EndTurn)
            && ((forall j :: 0 <= j < |events| ==> !events[j].MessageStart?) ==> turn.usage.inputTokens == 0)
            && ((forall j :: 0 <= j < |events| ==> !(events[j].MessageDelta? && events[j].outputTokens.Some?)) ==>
                  turn.usage.outputTokens == 0)
  {
    hide NextBlocks;
    if events != [] {
      LastCounts(read, events[..|events| - 1], i);
    }
  }

  // ---------------------------------------------------------------- shown and kept

  /** The text of the text blocks. */
  function BlocksText(blocks: seq<Block>): string {
    if blocks == [] then ""
    else
      var b := blocks[|blocks| - 1];
      BlocksText(blocks[..|blocks| - 1]) + (if b.TextBlock? then b.text else "")
  }

  /** What an event adds to it: the text a block opens with, and a text delta behind a text block. */
  function Kept(blocks: seq<Block>, e: Event): string {
    if e.BlockStart? then (if e.opening.OpenText? then e.opening.text else "")
    else if e.TextDelta? && blocks != [] && blocks[|blocks| - 1].TextBlock? then e.text
    else ""
  }

  function ShownBy(e: Event): string {
    if e.TextDelta? then e.text else ""
  }

  function ShownText(events: seq<Event>): string {
    if events == [] then "" else ShownText(events[..|events| - 1]) + ShownBy(events[|events| - 1])
  }

  /** No block opens with text, and no text arrives where the last block is not text. */
  predicate AllShownIsKept(events: seq<Event>) {
    events == []
    || (AllShownIsKept(events[..|events| - 1])
        && Kept(After(events[..|events| - 1]).blocks, events[|events| - 1]) == ShownBy(events[|events| - 1]))
  }

  predicate ShownAsKept(events: seq<Event>) {
    BlocksText(After(events).blocks) == ShownText(events)
  }

  predicate ShownAsKeptThroughout(events: seq<Event>) {
    ShownAsKept(events) && (events == [] || ShownAsKeptThroughout(events[..|events| - 1]))
  }

  lemma OneMoreBlock(blocks: seq<Block>, b: Block)
    ensures BlocksText(blocks + [b]) == BlocksText(blocks) + if b.TextBlock? then b.text else ""
  {
    assert (blocks + [b])[..|blocks + [b]| - 1] == blocks;
  }

  lemma KeptStep(blocks: seq<Block>, e: Event)
    ensures BlocksText(NextBlocks(blocks, e)) == BlocksText(blocks) + Kept(blocks, e)
  {
    hide BlocksText;
    if e.BlockStart? {
      OneMoreBlock(blocks, Opened(e.opening));
    } else if IsDelta(e) && blocks != [] {
      var n := |blocks| - 1;
      OneMoreBlock(blocks[..n], blocks[n]);
      OneMoreBlock(blocks[..n], Extended(blocks[n], e));
      assert blocks[..n] + [blocks[n]] == blocks;
      assert blocks[..n] + [Extended(blocks[n], e)] == NextBlocks(blocks, e);
      if blocks[n].TextBlock? {
        Joined(BlocksText(blocks[..n]), blocks[n].text, Kept(blocks, e));
      }
    }
    assert BlocksText(blocks) + "" == BlocksText(blocks);
  }

  lemma Joined(a: string, b: string, c: string)
    ensures a + (b + c) == (a + b) + c && b + "" == b
  {
  }

  lemma SameTail(a: string, b: string, c: string)
    ensures a + b == a + c <==> b == c
  {
    if a + b == a + c {
      assert b == (a + b)[|a|..] && c == (a + c)[|a|..];
    }
  }

  /** What is shown so far is what the turn so far says, at every point of a stream, exactly if every
      event keeps what it shows and shows what it keeps. */
  lemma {:induction false} ShownIsKeptExactly(events: seq<Event>)
    ensures ShownAsKeptThroughout(events) <==> AllShownIsKept(events)
  {
    if events != [] {
      var n := |events| - 1;
      ShownIsKeptExactly(events[..n]);
      OneMoreEvent(events[..n], events[n]);
      assert events[..n] + [events[n]] == events;
      KeptStep(After(events[..n]).blocks, events[n]);
      assert After(events).blocks == NextBlocks(After(events[..n]).blocks, events[n]);
      SameTail(ShownText(events[..n]), Kept(After(events[..n]).blocks, events[n]), ShownBy(events[n]));
    }
  }

  /** The finished turn says the text of its blocks. */
  lemma {:induction false} TurnText(read: string -> Option<Value>, s: State)
    ensures TextOf(TurnOf(read, s).content) == BlocksText(s.blocks)
    decreases |s.blocks|
  {
    if s.blocks != [] {
      var n := |s.blocks| - 1;
      var before := s.(blocks := s.blocks[..n]);
      TurnText(read, before);
      var content := TurnOf(read, before).content;
      assert TurnOf(read, s).content == content + [ContentOf(read, s.blocks[n])];
      TextSnoc(content, ContentOf(read, s.blocks[n]));
    }
  }

  lemma TextCons(b: ContentBlock, content: seq<ContentBlock>)
    ensures TextOf([b] + content) == (if b.Text? then b.text else "") + TextOf(content)
  {
    assert ([b] + content)[1..] == content;
  }

  lemma NoContent()
    ensures TextOf([]) == ""
  {
  }

  lemma {:induction false} TextSnoc(content: seq<ContentBlock>, b: ContentBlock)
    ensures TextOf(content + [b]) == TextOf(content) + if b.Text? then b.text else ""
  {
    hide TextOf;
    NoContent();
    if content == [] {
      TextCons(b, []);
      assert content + [b] == [b] + [];
    } else {
      TextSnoc(content[1..], b);
      TextCons(content[0], content[1..]);
      TextCons(content[0], content[1..] + [b]);
      assert content == [content[0]] + content[1..] && content + [b] == [content[0]] + (content[1..] + [b]);
    }
  }

  // ---------------------------------------------------------------- the aggregator as it runs

  class TurnAggregator {
    var blocks: seq<Block>
    var stop: Option<StopReason>
    var usage: Usage

    function View(): State
      reads this
    {
      State(blocks, stop, usage)
    }

    constructor ()
      ensures View() == INITIAL
    {
      blocks, stop, usage := [], None, Usage(0, 0);
    }

    method Handle(e: Event) returns (delta: Option<string>)
      modifies this
      ensures View() == Next(old(View()), e) && delta == Delta(e)
    {
      delta := None;
      match e {
        case Ignored =>
        case MessageStart(tokens) =>
          usage := usage.(inputTokens := if tokens.Some? then tokens.value else 0);
        case BlockStart(_, opening) =>
          blocks := blocks + [Opened(opening)];
        case TextDelta(_, text) =>
          if blocks != [] && blocks[|blocks| - 1].TextBlock? {
            blocks := blocks[|blocks| - 1 := TextBlock(blocks[|blocks| - 1].text + text)];
          }
          delta := Some(text);
        case JsonDelta(_, json) =>
          if blocks != [] && blocks[|blocks| - 1].ToolBlock? {
            var b := blocks[|blocks| - 1];
            blocks := blocks[|blocks| - 1 := b.(json := b.json + json)];
          }
        case MessageDelta(reason, tokens) =>
          stop := reason;
          if tokens.Some? {
            usage := usage.(outputTokens := tokens.value);
          }
      }
    }

    method Finish(read: string -> Option<Value>) returns (turn: AssistantTurn)
      ensures turn == TurnOf(read, View())
    {
      turn := TurnOf(read, View());
    }
  }
}
