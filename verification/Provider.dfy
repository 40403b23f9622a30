/** A whole provider call: pieces of text through the event parser into an aggregator, for both kinds of
    stream. */
module Provider {
  import opened Wrappers
  import opened Gateway
  import Anthropic
  import Chat
  import OpenAi
  import Sse

  /** How the data of an event is decoded. */
  type Decoder<!C> = string -> C

  function Decoded<C>(decode: Decoder<C>, events: seq<Sse.SseEvent>): (r: seq<C>)
    ensures |r| == |events| && forall i :: 0 <= i < |r| ==> r[i] == decode(events[i].data)
  {
    seq(|events|, i requires 0 <= i < |events| => decode(events[i].data))
  }

  lemma {:induction false} ConcatSnoc(deltas: seq<string>, d: string)
    ensures Sse.Concat(deltas + [d]) == Sse.Concat(deltas) + d
  {
    if deltas == [] {
      assert [d][1..] == [] && deltas + [d] == [d];
    } else {
      ConcatSnoc(deltas[1..], d);
      assert (deltas + [d])[1..] == deltas[1..] + [d];
    }
  }

  // ---------------------------------------------------------------- chat completions

  function ChatStep(decode: Decoder<OpenAi.Chunk>): Aggregator<OpenAi.State> {
    (s: OpenAi.State, data: string) => (OpenAi.Next(s, decode(data)), OpenAi.Delta(decode(data)))
  }

  function ChatFold(decode: Decoder<OpenAi.Chunk>, events: seq<Sse.SseEvent>): (OpenAi.State, seq<string>) {
    Fold(ChatStep(decode), OpenAi.INITIAL, events)
  }

  lemma OneMoreChunk(decode: Decoder<OpenAi.Chunk>, events: seq<Sse.SseEvent>)
    requires events != []
    ensures var before, c := Decoded(decode, events[..|events| - 1]), decode(events[|events| - 1].data);
            && OpenAi.After(Decoded(decode, events)) == OpenAi.Next(OpenAi.After(before), c)
            && OpenAi.AllDeltas(Decoded(decode, events)) == OpenAi.AllDeltas(before) + OpenAi.OrEmpty(OpenAi.Delta(c))
  {
    var n := |events| - 1;
    OpenAi.DeltaIsContent(decode(events[n].data));
    assert Decoded(decode, events)[..n] == Decoded(decode, events[..n]);
  }

  /** The fold of the call is the aggregation of the decoded events, and the deltas it shows are the
      deltas of those events. */
  lemma {:induction false} ChatFoldAggregates(decode: Decoder<OpenAi.Chunk>, events: seq<Sse.SseEvent>)
    ensures ChatFold(decode, events).0 == OpenAi.After(Decoded(decode, events))
    ensures Sse.Concat(ChatFold(decode, events).1) == OpenAi.AllDeltas(Decoded(decode, events))
  {
    hide OpenAi.Next, OpenAi.Delta;
    if events != [] {
      var n := |events| - 1;
      ChatFoldAggregates(decode, events[..n]);
      OneMoreChunk(decode, events);
      var d := OpenAi.Delta(decode(events[n].data));
      if d.Some? {
        ConcatSnoc(ChatFold(decode, events[..n]).1, d.value);
      }
    }
  }

  /** A call over any delivery of a text: the text of the turn is what was shown while it streamed,
      and both depend on the text alone. */
  lemma TurnSaysWhatWasShown(decode: Decoder<OpenAi.Chunk>, read: OpenAi.Reader, provider: string,
                             pieces: seq<string>, again: seq<string>)
    requires Sse.Concat(pieces) == Sse.Concat(again)
    ensures var (s, shown) := ChatFold(decode, Sse.PushAll("", pieces).0);
            && Chat.TextOf(OpenAi.TurnOf(read, provider, s).content) == Sse.Concat(shown)
            && ChatFold(decode, Sse.PushAll("", again).0) == (s, shown)
  {
    var events := Sse.PushAll("", pieces).0;
    DeliveryIndependent(ChatStep(decode), OpenAi.INITIAL, pieces, again);
    ChatFoldAggregates(decode, events);
    OpenAi.TurnOfStream(read, provider, Decoded(decode, events));
  }

  // ---------------------------------------------------------------- messages

  function MessagesStep(decode: Decoder<Anthropic.Event>): Aggregator<Anthropic.State> {
    (s: Anthropic.State, data: string) => (Anthropic.Next(s, decode(data)), Anthropic.Delta(decode(data)))
  }

  function MessagesFold(decode: Decoder<Anthropic.Event>, events: seq<Sse.SseEvent>): (Anthropic.State, seq<string>) {
    Fold(MessagesStep(decode), Anthropic.INITIAL, events)
  }

  lemma OneMoreMessage(decode: Decoder<Anthropic.Event>, events: seq<Sse.SseEvent>)
    requires events != []
    ensures var before, e := Decoded(decode, events[..|events| - 1]), decode(events[|events| - 1].data);
            && Decoded(decode, events)[..|events| - 1] == before
            && Anthropic.After(Decoded(decode, events)) == Anthropic.Next(Anthropic.After(before), e)
            && Anthropic.ShownText(Decoded(decode, events)) == Anthropic.ShownText(before) + Anthropic.ShownBy(e)
  {
    var n := |events| - 1;
    assert Decoded(decode, events)[..n] == Decoded(decode, events[..n]);
  }

  lemma {:induction false} MessagesFoldAggregates(decode: Decoder<Anthropic.Event>, events: seq<Sse.SseEvent>)
    ensures MessagesFold(decode, events).0 == Anthropic.After(Decoded(decode, events))
    ensures Sse.Concat(MessagesFold(decode, events).1) == Anthropic.ShownText(Decoded(decode, events))
  {
    hide Anthropic.Next;
    if events != [] {
      var n := |events| - 1;
      MessagesFoldAggregates(decode, events[..n]);
      OneMoreMessage(decode, events);
      var d := Anthropic.Delta(decode(events[n].data));
      if d.Some? {
        ConcatSnoc(MessagesFold(decode, events[..n]).1, d.value);
      }
    }
  }

  /** The turn the call would finish with here says what it has shown so far. */
  predicate SaysWhatIsShown(decode: Decoder<Anthropic.Event>, read: OpenAi.Reader, events: seq<Sse.SseEvent>) {
    var (s, shown) := MessagesFold(decode, events);
    Chat.TextOf(Anthropic.TurnOf(read, s).content) == Sse.Concat(shown)
  }

  predicate SaysWhatIsShownThroughout(decode: Decoder<Anthropic.Event>, read: OpenAi.Reader, events: seq<Sse.SseEvent>)
    decreases |events|
  {
    && SaysWhatIsShown(decode, read, events)
    && (events == [] || SaysWhatIsShownThroughout(decode, read, events[..|events| - 1]))
  }

  lemma {:induction false} ShownThroughout(decode: Decoder<Anthropic.Event>, read: OpenAi.Reader,
                                           events: seq<Sse.SseEvent>)
    ensures SaysWhatIsShownThroughout(decode, read, events)
            <==> Anthropic.ShownAsKeptThroughout(Decoded(decode, events))
    decreases |events|
  {
    hide Anthropic.TurnOf, Anthropic.BlocksText, Anthropic.ShownText, Anthropic.After;
    MessagesFoldAggregates(decode, events);
    Anthropic.TurnText(read, MessagesFold(decode, events).0);
    if events != [] {
      OneMoreMessage(decode, events);
      ShownThroughout(decode, read, events[..|events| - 1]);
    }
  }

  /** Over any delivery of a text, the turn says at every point what was shown so far exactly if no block
      opens with text and no text arrives behind a block of another kind. */
  lemma MessagesSayWhatIsShown(decode: Decoder<Anthropic.Event>, read: OpenAi.Reader,
                               pieces: seq<string>, again: seq<string>)
    requires Sse.Concat(pieces) == Sse.Concat(again)
    ensures var events := Sse.PushAll("", pieces).0;
            && (SaysWhatIsShownThroughout(decode, read, events) <==> Anthropic.AllShownIsKept(Decoded(decode, events)))
            && MessagesFold(decode, Sse.PushAll("", again).0) == MessagesFold(decode, events)
  {
    var events := Sse.PushAll("", pieces).0;
    DeliveryIndependent(MessagesStep(decode), Anthropic.INITIAL, pieces, again);
    ShownThroughout(decode, read, events);
    Anthropic.ShownIsKeptExactly(Decoded(decode, events));
  }

  // ---------------------------------------------------------------- one provider after another

  datatype ProviderId = AnthropicId | DeepseekId | OpenAiId

  function NameOf(id: ProviderId): string {
    match id
    case AnthropicId => "anthropic"
    case DeepseekId => "deepseek"
    case OpenAiId => "openai"
  }

  /** How tool inputs and the data of both kinds of stream are read. */
  datatype Decoding = Decoding(read: OpenAi.Reader, chat: Decoder<OpenAi.Chunk>, messages: Decoder<Anthropic.Event>)

  /** What the network gives for one provider: no successful response, or the pieces of one. */
  datatype Reply = NoResponse(error: string) | Stream(chunks: seq<Result<string, string>>)

  /** How one provider was called: its turn or its error, and the deltas it showed. */
  datatype Call = Call(turn: Result<Chat.AssistantTurn, string>, deltas: seq<string>)

  datatype GatewayError = NoProvider | AllFailed(text: string)

  function EventsOf(chunks: seq<Result<string, string>>): seq<Sse.SseEvent> {
    Sse.Drain(Sse.Concat(Received(chunks))).0
  }

  function TurnOf(d: Decoding, id: ProviderId, chunks: seq<Result<string, string>>): Chat.AssistantTurn {
    match id
    case AnthropicId => Anthropic.TurnOf(d.read, MessagesFold(d.messages, EventsOf(chunks)).0)
    case _ => OpenAi.TurnOf(d.read, NameOf(id), ChatFold(d.chat, EventsOf(chunks)).0)
  }

  function DeltasOf(d: Decoding, id: ProviderId, chunks: seq<Result<string, string>>): seq<string> {
    match id
    case AnthropicId => MessagesFold(d.messages, EventsOf(chunks)).1
    case _ => ChatFold(d.chat, EventsOf(chunks)).1
  }

  /** A stream that breaks off has shown what came before the break. */
  function CallOf(d: Decoding, id: ProviderId, reply: Reply): Call {
    match reply
    case NoResponse(error) => Call(Err(error), [])
    case Stream(chunks) =>
      var broken := BrokenBy(chunks);
      Call(if broken.Some? then Err("stream: " + broken.value) else Ok(TurnOf(d, id, chunks)), DeltasOf(d, id, chunks))
  }

  function CallsOf(d: Decoding, ids: seq<ProviderId>, replies: seq<Reply>): (calls: seq<Call>)
    requires |ids| == |replies|
    ensures |calls| == |ids| && forall i :: 0 <= i < |ids| ==> calls[i] == CallOf(d, ids[i], replies[i])
  {
    seq(|ids|, i requires 0 <= i < |ids| => CallOf(d, ids[i], replies[i]))
  }

  /** The first provider that succeeds, or their number if none does. */
  function FirstSuccess(calls: seq<Call>): (n: nat)
    ensures n <= |calls| && (n < |calls| ==> calls[n].turn.Ok?)
    ensures forall i :: 0 <= i < n ==> calls[i].turn.Err?
  {
    if calls == [] || calls[0].turn.Ok? then 0 else 1 + FirstSuccess(calls[1..])
  }

  function AllDeltas(calls: seq<Call>): seq<string> {
    if calls == [] then [] else AllDeltas(calls[..|calls| - 1]) + calls[|calls| - 1].deltas
  }

  /** "name: error" of each, with bars between. */
  function Failures(ids: seq<ProviderId>, calls: seq<Call>): (texts: seq<string>)
    requires |ids| == |calls| && forall i :: 0 <= i < |calls| ==> calls[i].turn.Err?
    ensures |texts| == |ids| && forall i :: 0 <= i < |ids| ==> texts[i] == NameOf(ids[i]) + ": " + calls[i].turn.error
  {
    seq(|ids|, i requires 0 <= i < |ids| => NameOf(ids[i]) + ": " + calls[i].turn.error)
  }

  function Barred(texts: seq<string>): string {
    if texts == [] then "" else if |texts| == 1 then texts[0] else texts[0] + " | " + Barred(texts[1..])
  }

  /** Lists of failures are told apart by a bar. */
  lemma {:induction false} BarredConcat(a: seq<string>, b: seq<string>)
    requires a != [] && b != []
    ensures Barred(a + b) == Barred(a) + " | " + Barred(b)
  {
    if |a| > 1 {
      BarredConcat(a[1..], b);
      assert (a + b)[1..] == a[1..] + b;
    } else {
      assert (a + b)[1..] == b;
    }
  }

  method CallWith(d: Decoding, id: ProviderId, reply: Reply) returns (call: Call)
    ensures call == CallOf(d, id, reply)
  {
    hide Sse.Drain, Fold;
    match reply {
      case NoResponse(error) => return Call(Err(error), []);
      case Stream(chunks) =>
        if id == AnthropicId {
          var r, deltas := CallProvider(MessagesStep(d.messages), Anthropic.INITIAL, chunks);
          call := Call(if r.Ok? then Ok(Anthropic.TurnOf(d.read, r.value)) else Err(r.error), deltas);
        } else {
          var r, deltas := CallProvider(ChatStep(d.chat), OpenAi.INITIAL, chunks);
          call := Call(if r.Ok? then Ok(OpenAi.TurnOf(d.read, NameOf(id), r.value)) else Err(r.error), deltas);
        }
    }
  }

  lemma NothingShown(calls: seq<Call>)
    ensures AllDeltas(calls[..0]) == []
  {
  }

  lemma OneMoreCall(calls: seq<Call>, n: nat)
    requires n < |calls|
    ensures AllDeltas(calls[..n + 1]) == AllDeltas(calls[..n]) + calls[n].deltas
  {
    assert calls[..n + 1][..n] == calls[..n];
  }

  /** The loop over the configured providers. The turn is that of the first one that succeeds, the deltas
      are those of all that were tried, and without a success the error names every failure. */
  method Generate(d: Decoding, ids: seq<ProviderId>, replies: seq<Reply>)
    returns (r: Result<Chat.AssistantTurn, GatewayError>, shown: seq<string>)
    requires |ids| == |replies|
    ensures var calls := CallsOf(d, ids, replies);
            var n := FirstSuccess(calls);
            && (n < |ids| ==> r == Ok(calls[n].turn.value) && shown == AllDeltas(calls[..n + 1]))
            && (n == |ids| ==>
                  && r == Err(if ids == [] then NoProvider else AllFailed(Barred(Failures(ids, calls))))
                  && shown == AllDeltas(calls))
  {
    hide CallOf, CallsOf, Barred, AllDeltas, FirstSuccess, Failures, NameOf;
    ghost var calls := CallsOf(d, ids, replies);
    NothingShown(calls);
    shown := [];
    if ids == [] {
      return Err(NoProvider), shown;
    }
    var failures := [];
    for i := 0 to |ids|
      invariant calls == CallsOf(d, ids, replies) && i <= FirstSuccess(calls)
      invariant |failures| == i && shown == AllDeltas(calls[..i])
      invariant forall j :: 0 <= j < i ==>
                  calls[j].turn.Err? && failures[j] == NameOf(ids[j]) + ": " + calls[j].turn.error
    {
      var call := CallWith(d, ids[i], replies[i]);
      OneMoreCall(calls, i);
      shown := shown + call.deltas;
      match call.turn {
        case Ok(turn) => return Ok(turn), shown;
        case Err(e) => failures := failures + [NameOf(ids[i]) + ": " + e];
      }
    }
    assert calls[..|ids|] == calls;
    assert failures == Failures(ids, calls);
    return Err(AllFailed(Barred(failures))), shown;
  }

  /** What a call shows is all text of the events received, up to a break if there is one; it fails exactly
      without a response or at a break, and says why. */
  lemma CallExactly(d: Decoding, id: ProviderId, reply: Reply)
    ensures var call := CallOf(d, id, reply);
            && (reply.NoResponse? ==> call == Call(Err(reply.error), []))
            && (reply.Stream? ==>
                  && (call.turn.Ok? <==> Complete(reply.chunks))
                  && (call.turn.Err? ==>
                        && |Received(reply.chunks)| < |reply.chunks| && reply.chunks[|Received(reply.chunks)|].Err?
                        && call.turn.error == "stream: " + reply.chunks[|Received(reply.chunks)|].error)
                  && Sse.Concat(call.deltas)
                     == if id.AnthropicId? then Anthropic.ShownText(Decoded(d.messages, EventsOf(reply.chunks)))
                        else OpenAi.AllDeltas(Decoded(d.chat, EventsOf(reply.chunks))))
  {
    hide ChatFold, MessagesFold, EventsOf, Received, BrokenBy, Sse.Concat, OpenAi.AllDeltas, Anthropic.ShownText;
    if reply.Stream? {
      ChatFoldAggregates(d.chat, EventsOf(reply.chunks));
      MessagesFoldAggregates(d.messages, EventsOf(reply.chunks));
    }
  }

  /** A successful call whose turn says what the call showed. */
  predicate SaysWhatItShowed(call: Call) {
    call.turn.Ok? && Chat.TextOf(call.turn.value.content) == Sse.Concat(call.deltas)
  }

  lemma ChatCallSaysWhatItShowed(d: Decoding, id: ProviderId, reply: Reply)
    requires id != AnthropicId && CallOf(d, id, reply).turn.Ok?
    ensures SaysWhatItShowed(CallOf(d, id, reply))
  {
    hide ChatFold, Sse.Concat, Chat.TextOf, OpenAi.TurnOf, OpenAi.After, EventsOf;
    var events := EventsOf(reply.chunks);
    ChatFoldAggregates(d.chat, events);
    OpenAi.TurnOfStream(d.read, NameOf(id), Decoded(d.chat, events));
  }

  lemma MessagesCallSaysWhatItShowed(d: Decoding, reply: Reply)
    requires CallOf(d, AnthropicId, reply).turn.Ok?
    requires Anthropic.AllShownIsKept(Decoded(d.messages, EventsOf(reply.chunks)))
    ensures SaysWhatItShowed(CallOf(d, AnthropicId, reply))
  {
    hide MessagesFold, Sse.Concat, Chat.TextOf, Anthropic.TurnOf, EventsOf;
    var events := EventsOf(reply.chunks);
    ShownThroughout(d.messages, d.read, events);
    Anthropic.ShownIsKeptExactly(Decoded(d.messages, events));
  }

  lemma {:induction false} ConcatConcat(a: seq<string>, b: seq<string>)
    ensures Sse.Concat(a + b) == Sse.Concat(a) + Sse.Concat(b)
  {
    hide Sse.Concat;
    if b == [] {
      NothingToConcat();
      assert a + b == a && Sse.Concat(a) + "" == Sse.Concat(a);
    } else {
      var n := |b| - 1;
      ConcatConcat(a, b[..n]);
      ConcatSnoc(a + b[..n], b[n]);
      ConcatSnoc(b[..n], b[n]);
      assert a + b == a + b[..n] + [b[n]] && b == b[..n] + [b[n]];
    }
  }

  lemma NothingToConcat()
    ensures Sse.Concat([]) == ""
  {
  }

  /** Over a whole `generate` that succeeds, what was shown is what the failed providers showed and then
      what the successful one did; it is the text of the turn exactly if the failed ones showed nothing. */
  lemma TurnIsAllShownExactly(calls: seq<Call>)
    requires var n := FirstSuccess(calls); n < |calls| && SaysWhatItShowed(calls[n])
    ensures var n := FirstSuccess(calls);
            var failed, all := Sse.Concat(AllDeltas(calls[..n])), Sse.Concat(AllDeltas(calls[..n + 1]));
            var text := Chat.TextOf(calls[n].turn.value.content);
            all == failed + text && (all == text <==> failed == "")
  {
    hide Sse.Concat, Chat.TextOf, FirstSuccess;
    var n := FirstSuccess(calls);
    assert calls[..n + 1][..n] == calls[..n];
    ConcatConcat(AllDeltas(calls[..n]), calls[n].deltas);
    assert |Sse.Concat(AllDeltas(calls[..n]))| == 0 <==> Sse.Concat(AllDeltas(calls[..n])) == "";
  }
}
