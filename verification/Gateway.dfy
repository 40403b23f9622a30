/** The stream loop of a provider call: pieces of text go through the event parser, and the data of
    each event through an aggregator. */
module Gateway {
  import opened Wrappers
  import opened Sse

  /** An aggregator: what one datum does to its state, and the text delta it returns. */
  type Aggregator<!S> = (S, string) -> (S, Option<string>)

  /** The state and the deltas after a sequence of events. */
  function Fold<S>(step: Aggregator<S>, init: S, events: seq<SseEvent>): (S, seq<string>) {
    if events == [] then (init, [])
    else
      var (s, deltas) := Fold(step, init, events[..|events| - 1]);
      var (s', d) := step(s, events[|events| - 1].data);
      (s', if d.Some? then deltas + [d.value] else deltas)
  }

  lemma FoldSnoc<S>(step: Aggregator<S>, init: S, events: seq<SseEvent>, e: SseEvent)
    ensures var (s, deltas) := Fold(step, init, events);
            var (s', d) := step(s, e.data);
            Fold(step, init, events + [e]) == (s', if d.Some? then deltas + [d.value] else deltas)
  {
    assert (events + [e])[..|events + [e]| - 1] == events;
  }

  lemma FoldNone<S>(step: Aggregator<S>, init: S)
    ensures Fold(step, init, []) == (init, [])
  {
  }

  lemma {:induction false} FoldConcat<S>(step: Aggregator<S>, init: S, a: seq<SseEvent>, b: seq<SseEvent>)
    ensures Fold(step, init, a + b).0 == Fold(step, Fold(step, init, a).0, b).0
    ensures Fold(step, init, a + b).1 == Fold(step, init, a).1 + Fold(step, Fold(step, init, a).0, b).1
  {
    hide Fold;
    if b == [] {
      FoldNone(step, Fold(step, init, a).0);
      assert a + b == a && Fold(step, init, a).1 + [] == Fold(step, init, a).1;
    } else {
      var n := |b| - 1;
      FoldConcat(step, init, a, b[..n]);
      FoldSnoc(step, init, a + b[..n], b[n]);
      FoldSnoc(step, Fold(step, init, a).0, b[..n], b[n]);
      assert a + b == a + b[..n] + [b[n]] && b == b[..n] + [b[n]];
    }
  }

  /** The pieces before the first transport error. */
  function Received(chunks: seq<Result<string, string>>): (pieces: seq<string>)
    ensures |pieces| <= |chunks| && forall i :: 0 <= i < |pieces| ==> chunks[i] == Ok(pieces[i])
    ensures |pieces| < |chunks| ==> chunks[|pieces|].Err?
  {
    if chunks == [] || chunks[0].Err? then [] else [chunks[0].value] + Received(chunks[1..])
  }

  predicate Complete(chunks: seq<Result<string, string>>) {
    forall i :: 0 <= i < |chunks| ==> chunks[i].Ok?
  }

  /** The first transport error, if there is one. */
  function BrokenBy(chunks: seq<Result<string, string>>): (e: Option<string>)
    ensures e.None? <==> Complete(chunks)
    ensures e.Some? ==> |Received(chunks)| < |chunks| && chunks[|Received(chunks)|] == Err(e.value)
  {
    if chunks == [] then None else if chunks[0].Err? then Some(chunks[0].error) else BrokenBy(chunks[1..])
  }

  lemma NothingReceived()
    ensures Concat(Received([])) == ""
  {
  }

  lemma ReceivedFrom(chunks: seq<Result<string, string>>, n: nat)
    requires n < |chunks|
    ensures chunks[n].Ok? ==>
              && Concat(Received(chunks[n..])) == chunks[n].value + Concat(Received(chunks[n + 1..]))
              && BrokenBy(chunks[n..]) == BrokenBy(chunks[n + 1..])
    ensures chunks[n].Err? ==> Concat(Received(chunks[n..])) == "" && BrokenBy(chunks[n..]) == Some(chunks[n].error)
  {
    assert chunks[n..][1..] == chunks[n + 1..];
    if chunks[n].Ok? {
      var rest := Received(chunks[n + 1..]);
      assert Received(chunks[n..]) == [chunks[n].value] + rest;
      assert ([chunks[n].value] + rest)[1..] == rest;
    }
  }

  /** The loop over the stream. The aggregate and the deltas shown depend only on the text received,
      not on how it was cut; the call fails exactly when a piece fails. */
  method CallProvider<S>(step: Aggregator<S>, init: S, chunks: seq<Result<string, string>>)
    returns (r: Result<S, string>, deltas: seq<string>)
    ensures r.Ok? <==> Complete(chunks)
    ensures r.Err? ==> BrokenBy(chunks).Some? && r.error == "stream: " + BrokenBy(chunks).value
    ensures r.Ok? ==> r.value == Fold(step, init, Drain(Concat(Received(chunks))).0).0
    ensures deltas == Fold(step, init, Drain(Concat(Received(chunks))).0).1
  {
    hide Drain, Fold, Concat, Received, BrokenBy;
    var parser := new SseParser();
    var agg := init;
    deltas := [];
    ghost var seen := "";
    NothingYet();
    FoldNone(step, init);
    assert chunks[0..] == chunks && "" + Concat(Received(chunks)) == Concat(Received(chunks));
    for n := 0 to |chunks|
      invariant Complete(chunks[..n]) && BrokenBy(chunks[n..]) == BrokenBy(chunks)
      invariant seen + Concat(Received(chunks[n..])) == Concat(Received(chunks))
      invariant parser.buffer == Drain(seen).1
      invariant agg == Fold(step, init, Drain(seen).0).0 && deltas == Fold(step, init, Drain(seen).0).1
      modifies parser
    {
      ReceivedFrom(chunks, n);
      if chunks[n].Err? {
        assert seen + "" == seen;
        return Err("stream: " + chunks[n].error), deltas;
      }
      var piece := chunks[n].value;
      DrainSplit(seen, piece);
      var events := parser.Push(piece);
      var more;
      agg, more := FeedEvents(step, agg, events);
      FoldConcat(step, init, Drain(seen).0, events);
      deltas := deltas + more;
      assert seen + (piece + Concat(Received(chunks[n + 1..]))) == (seen + piece) + Concat(Received(chunks[n + 1..]));
      seen := seen + piece;
      assert chunks[..n + 1] == chunks[..n] + [chunks[n]];
    }
    assert chunks[..|chunks|] == chunks && chunks[|chunks|..] == [];
    NothingReceived();
    assert seen + "" == seen;
    r := Ok(agg);
  }

  lemma NothingYet()
    ensures Drain("") == ([], "")
  {
  }

  method FeedEvents<S>(step: Aggregator<S>, init: S, events: seq<SseEvent>) returns (agg: S, deltas: seq<string>)
    ensures (agg, deltas) == Fold(step, init, events)
  {
    agg, deltas := init, [];
    for n := 0 to |events|
      invariant (agg, deltas) == Fold(step, init, events[..n])
    {
      var (next, d) := step(agg, events[n].data);
      agg := next;
      if d.Some? {
        deltas := deltas + [d.value];
      }
      assert events[..n + 1][..n] == events[..n];
    }
    assert events[..|events|] == events;
  }

  /** Two deliveries of one text build the same turn and show the same deltas. */
  lemma DeliveryIndependent<S>(step: Aggregator<S>, init: S, a: seq<string>, b: seq<string>)
    requires Concat(a) == Concat(b)
    ensures Fold(step, init, PushAll("", a).0) == Fold(step, init, PushAll("", b).0)
  {
    ChunkingIndependent(a, b);
  }
}
