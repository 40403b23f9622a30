/** A log with live subscribers, as both hubs keep it: a subscriber gets a copy of the log and then
    every later event through a buffer of its own; when the buffer is full the oldest event is lost. */
module Broadcast {

  const CAPACITY := 256

  /** What a subscriber was given at first, what it has taken from its buffer, what is still there,
      and whether anything was lost. */
  datatype Subscriber<E> = Subscriber(snapshot: seq<E>, seen: seq<E>, unread: seq<E>, lagged: bool)

  type Subscribers<E> = map<nat, Subscriber<E>>

  function Delivered<E>(s: Subscriber<E>, e: E): Subscriber<E> {
    if |s.unread| < CAPACITY then s.(unread := s.unread + [e]) else s.(unread := s.unread[1..] + [e], lagged := true)
  }

  function Sent<E>(subs: Subscribers<E>, e: E): Subscribers<E> {
    map k | k in subs :: Delivered(subs[k], e)
  }

  function Joined<E>(subs: Subscribers<E>, k: nat, log: seq<E>): Subscribers<E> {
    subs[k := Subscriber(log, [], [], false)]
  }

  predicate CanRead<E>(subs: Subscribers<E>, k: nat) {
    k in subs && subs[k].unread != []
  }

  function Read<E>(subs: Subscribers<E>, k: nat): Subscribers<E>
    requires CanRead(subs, k)
  {
    var s := subs[k];
    subs[k := s.(seen := s.seen + [s.unread[0]], unread := s.unread[1..])]
  }

  /** Snapshot, events taken and events waiting are the log, with no gap and no repeat, unless the
      buffer overflowed. */
  ghost predicate Follows<E>(s: Subscriber<E>, log: seq<E>) {
    |s.unread| <= CAPACITY && (!s.lagged ==> s.snapshot + s.seen + s.unread == log)
  }

  ghost predicate AllFollow<E>(subs: Subscribers<E>, log: seq<E>) {
    forall k :: k in subs ==> Follows(subs[k], log)
  }

  lemma DeliveryFollows<E>(s: Subscriber<E>, log: seq<E>, e: E)
    requires Follows(s, log)
    ensures Follows(Delivered(s, e), log + [e])
  {
    assert s.snapshot + s.seen + (s.unread + [e]) == s.snapshot + s.seen + s.unread + [e];
  }

  lemma SendingFollows<E>(subs: Subscribers<E>, log: seq<E>, e: E)
    requires AllFollow(subs, log)
    ensures AllFollow(Sent(subs, e), log + [e])
  {
    forall k | k in subs
      ensures Follows(Delivered(subs[k], e), log + [e])
    {
      assert Follows(subs[k], log);
      DeliveryFollows(subs[k], log, e);
    }
  }

  lemma JoiningFollows<E>(subs: Subscribers<E>, k: nat, log: seq<E>)
    requires AllFollow(subs, log)
    ensures AllFollow(Joined(subs, k, log), log)
  {
    assert log + [] + [] == log;
    assert forall j :: j in subs ==> Follows(subs[j], log);
  }

  lemma ReadingFollows<E>(subs: Subscribers<E>, k: nat, log: seq<E>)
    requires AllFollow(subs, log) && CanRead(subs, k)
    ensures AllFollow(Read(subs, k), log)
  {
    assert forall j :: j in subs ==> Follows(subs[j], log);
    var s := subs[k];
    assert s.snapshot + s.seen + s.unread == s.snapshot + (s.seen + [s.unread[0]]) + s.unread[1..];
  }

  /** A subscriber that has read everything and never fell behind has the whole log. */
  lemma CaughtUp<E>(s: Subscriber<E>, log: seq<E>)
    requires Follows(s, log) && !s.lagged && s.unread == []
    ensures s.snapshot + s.seen == log
  {
    assert s.snapshot + s.seen + [] == s.snapshot + s.seen;
  }

  // ---------------------------------------------------------------- what a subscriber loses

  /** What happens to one subscriber: an event is sent to it, or it takes one from its buffer. */
  datatype Signal<E> = Heard(e: E) | Taken

  function AfterSignal<E>(s: Subscriber<E>, signal: Signal<E>): Subscriber<E> {
    match signal
    case Heard(e) => Delivered(s, e)
    case Taken => if s.unread == [] then s else s.(seen := s.seen + [s.unread[0]], unread := s.unread[1..])
  }

  function AfterSignals<E>(s: Subscriber<E>, signals: seq<Signal<E>>): Subscriber<E>
    decreases |signals|
  {
    if signals == [] then s else AfterSignals(AfterSignal(s, signals[0]), signals[1..])
  }

  function HeardOf<E>(signals: seq<Signal<E>>): seq<E> {
    if signals == [] then []
    else (if signals[0].Heard? then [signals[0].e] else []) + HeardOf(signals[1..])
  }

  /** How many events wait, starting from some, when nothing is lost. */
  function Waiting<E>(signals: seq<Signal<E>>, waiting: nat): nat
    decreases |signals|
  {
    if signals == [] then waiting
    else Waiting(signals[1..], if signals[0].Heard? then waiting + 1 else if waiting > 0 then waiting - 1 else 0)
  }

  /** No event ever comes while the buffer is full. */
  predicate KeepsUp<E>(signals: seq<Signal<E>>, waiting: nat)
    decreases |signals|
  {
    signals == []
    || ((signals[0].Heard? ==> waiting < CAPACITY)
        && KeepsUp(signals[1..], if signals[0].Heard? then waiting + 1 else if waiting > 0 then waiting - 1 else 0))
  }

  lemma {:induction false} LostForGood<E>(s: Subscriber<E>, signals: seq<Signal<E>>)
    requires s.lagged
    ensures AfterSignals(s, signals).lagged
    decreases |signals|
  {
    if signals != [] {
      LostForGood(AfterSignal(s, signals[0]), signals[1..]);
    }
  }

  lemma OneSignal<E>(s: Subscriber<E>, signal: Signal<E>)
    requires !s.lagged
    ensures var s', n := AfterSignal(s, signal), |s.unread|;
            && (s'.lagged <==> signal.Heard? && n >= CAPACITY)
            && s'.snapshot == s.snapshot
            && (!s'.lagged ==>
                  && s'.seen + s'.unread == s.seen + s.unread + HeardOf([signal])
                  && |s'.unread| == if signal.Heard? then n + 1 else if n > 0 then n - 1 else 0)
  {
    assert [signal][1..] == [] && HeardOf([signal]) == if signal.Heard? then [signal.e] else [];
    if signal.Heard? && |s.unread| < CAPACITY {
      assert s.seen + (s.unread + [signal.e]) == s.seen + s.unread + [signal.e];
    } else if signal.Taken? && s.unread != [] {
      assert s.seen + [s.unread[0]] + s.unread[1..] == s.seen + s.unread;
    }
  }

  lemma HeardCons<E>(signal: Signal<E>, signals: seq<Signal<E>>)
    ensures HeardOf([signal] + signals) == HeardOf([signal]) + HeardOf(signals)
  {
    assert ([signal] + signals)[1..] == signals && [signal][1..] == [];
  }

  /** A subscriber loses something exactly if some event comes while its buffer is full. Otherwise it has,
      taken or waiting, every event that came, in order. */
  lemma {:induction false} LosesExactlyWhenFull<E>(s: Subscriber<E>, signals: seq<Signal<E>>)
    requires !s.lagged
    ensures var s' := AfterSignals(s, signals);
            && (s'.lagged <==> !KeepsUp(signals, |s.unread|))
            && (KeepsUp(signals, |s.unread|) ==>
                  && s'.snapshot == s.snapshot && s'.seen + s'.unread == s.seen + s.unread + HeardOf(signals)
                  && |s'.unread| == Waiting(signals, |s.unread|))
    decreases |signals|
  {
    hide Delivered, AfterSignal, HeardOf;
    if signals == [] {
      NothingHeard<E>();
      assert s.seen + s.unread + [] == s.seen + s.unread;
    } else {
      var next := AfterSignal(s, signals[0]);
      OneSignal(s, signals[0]);
      assert signals == [signals[0]] + signals[1..];
      HeardCons(signals[0], signals[1..]);
      if next.lagged {
        LostForGood(next, signals[1..]);
      } else {
        LosesExactlyWhenFull(next, signals[1..]);
        Regrouped(s.seen + s.unread, HeardOf([signals[0]]), HeardOf(signals[1..]));
      }
    }
  }

  /** The same, counted from the moment it joined. */
  lemma SinceJoining<E>(log: seq<E>, signals: seq<Signal<E>>, log': seq<E>)
    requires var s := AfterSignals(Subscriber(log, [], [], false), signals); Follows(s, log')
    ensures var s := AfterSignals(Subscriber(log, [], [], false), signals);
            && (s.lagged <==> !KeepsUp(signals, 0))
            && (KeepsUp(signals, 0) ==>
                  && log + s.seen + s.unread == log' && s.seen + s.unread == HeardOf(signals)
                  && |s.unread| == Waiting(signals, 0))
            && (KeepsUp(signals, 0) && Waiting(signals, 0) == 0 ==> log + s.seen == log')
  {
    hide AfterSignals, KeepsUp, Waiting, HeardOf;
    LosesExactlyWhenFull(Subscriber(log, [], [], false), signals);
    assert [] + [] + HeardOf(signals) == HeardOf(signals);
    var s := AfterSignals(Subscriber(log, [], [], false), signals);
    assert log + s.seen + [] == log + s.seen;
  }

  lemma NothingHeard<E>()
    ensures HeardOf<E>([]) == []
  {
  }

  lemma Regrouped<E>(a: seq<E>, b: seq<E>, c: seq<E>)
    ensures a + b + c == a + (b + c)
  {
  }

  lemma {:induction false} SignalsConcat<E>(s: Subscriber<E>, a: seq<Signal<E>>, b: seq<Signal<E>>)
    ensures AfterSignals(s, a + b) == AfterSignals(AfterSignals(s, a), b)
    decreases |a|
  {
    hide AfterSignal;
    if a == [] {
      assert a + b == b;
    } else {
      SignalsConcat(AfterSignal(s, a[0]), a[1..], b);
      assert (a + b)[1..] == a[1..] + b;
    }
  }
}
