/** The prompt cache and the generator decorated with it.

    The cache is a table from key digests to turns; serialization of a stored turn is taken to be
    lossless. What the decorated generator answers is given with each call, and the two cache
    accesses may fail: a failed read is a miss, a failed write is ignored. */
module PromptCache {
  import opened Wrappers
  import opened Chat
  import opened Hashing

  type Table = map<Digest, AssistantTurn>

  /** One call: the request, what the inner generator would answer, and the storage faults. */
  datatype Call<E> = Call(req: GenerateRequest, inner: Result<AssistantTurn, E>, getFails: bool, putFails: bool)

  function Key(h: Hash, req: GenerateRequest): Digest {
    h(KeyText(req))
  }

  function FromCache(turn: AssistantTurn): AssistantTurn {
    turn.(provider := turn.provider + "+cache")
  }

  /** Is the inner generator asked? */
  predicate Asks<E>(h: Hash, table: Table, c: Call<E>) {
    c.getFails || Key(h, c.req) !in table
  }

  function Answer<E>(h: Hash, table: Table, c: Call<E>): Result<AssistantTurn, E> {
    if Asks(h, table, c) then c.inner else Ok(FromCache(table[Key(h, c.req)]))
  }

  function NextTable<E>(h: Hash, table: Table, c: Call<E>): Table {
    if Asks(h, table, c) && c.inner.Ok? && !c.putFails then table[Key(h, c.req) := c.inner.value] else table
  }

  class CachedGenerator {
    const sha256: Hash
    var table: Table

    constructor (sha256: Hash)
      ensures this.sha256 == sha256 && table == map[]
    {
      this.sha256 := sha256;
      table := map[];
    }

    method Get(key: Digest) returns (hit: Option<AssistantTurn>)
      ensures hit == if key in table then Some(table[key]) else None
    {
      if key in table {
        hit := Some(table[key]);
      } else {
        hit := None;
      }
    }

    method Put(key: Digest, turn: AssistantTurn)
      modifies this
      ensures table == old(table)[key := turn]
    {
      table := table[key := turn];
    }

    method Generate<E>(c: Call<E>) returns (answer: Result<AssistantTurn, E>, asked: bool)
      modifies this
      ensures asked == Asks(sha256, old(table), c)
      ensures answer == Answer(sha256, old(table), c)
      ensures table == NextTable(sha256, old(table), c)
    {
      var key := Key(sha256, c.req);
      var hit: Option<AssistantTurn> := None;
      if !c.getFails {
        hit := Get(key);
      }
      if hit.Some? {
        var turn := hit.value;
        turn := turn.(provider := turn.provider + "+cache");
        return Ok(turn), false;
      }
      answer := c.inner;
      asked := true;
      if answer.Ok? && !c.putFails {
        Put(key, answer.value);
      }
    }
  }

  // ---------------------------------------------------------------- runs

  /** The table after a sequence of calls on an empty cache. */
  function TableAfter<E>(h: Hash, calls: seq<Call<E>>): Table {
    if calls == [] then map[]
    else NextTable(h, TableAfter(h, calls[..|calls| - 1]), calls[|calls| - 1])
  }

  predicate AskedAt<E>(h: Hash, calls: seq<Call<E>>, i: nat)
    requires i < |calls|
  {
    Asks(h, TableAfter(h, calls[..i]), calls[i])
  }

  function AnswerAt<E>(h: Hash, calls: seq<Call<E>>, i: nat): Result<AssistantTurn, E>
    requires i < |calls|
  {
    Answer(h, TableAfter(h, calls[..i]), calls[i])
  }

  /** Call `j` put the turn under the key. */
  predicate Stored<E>(h: Hash, calls: seq<Call<E>>, j: nat, key: Digest, turn: AssistantTurn) {
    j < |calls| && AskedAt(h, calls, j) && calls[j].inner == Ok(turn) && Key(h, calls[j].req) == key
  }

  lemma {:induction false} TableBacked<E>(h: Hash, calls: seq<Call<E>>, key: Digest)
    requires key in TableAfter(h, calls)
    ensures exists j :: 0 <= j < |calls| && Stored(h, calls, j, key, TableAfter(h, calls)[key])
  {
    hide KeyText;
    var n := |calls| - 1;
    var before := TableAfter(h, calls[..n]);
    var turn := TableAfter(h, calls)[key];
    if key in before && before[key] == turn {
      TableBacked(h, calls[..n], key);
      var j :| 0 <= j < n && Stored(h, calls[..n], j, key, turn);
      assert calls[..n][..j] == calls[..j];
      assert Stored(h, calls, j, key, turn);
    } else {
      assert Stored(h, calls, n, key, turn);
    }
  }

  /** The same content, stop reason and usage, from the same provider or from it by way of the cache. */
  predicate Repeats(answer: AssistantTurn, given: AssistantTurn, cached: bool) {
    && answer.content == given.content && answer.stopReason == given.stopReason && answer.usage == given.usage
    && answer.provider == given.provider + if cached then "+cache" else ""
  }

  /** Every answer is a real answer of the inner generator to a request that agrees on the five
      keyed fields (or whose key text collides); an answer from the cache differs from it only by
      one "+cache" on the provider. Errors come only from asking, never from the cache. */
  lemma AnswersAreReal<E>(h: Hash, calls: seq<Call<E>>, i: nat)
    requires i < |calls|
    ensures AnswerAt(h, calls, i).Err? ==> AskedAt(h, calls, i) && AnswerAt(h, calls, i) == calls[i].inner
    ensures AnswerAt(h, calls, i).Ok? ==> exists j :: 0 <= j <= i && AnsweredBy(h, calls, i, j)
  {
    hide TableAfter, KeyText, SameRequest;
    if AskedAt(h, calls, i) {
      if calls[i].inner.Ok? {
        KeyTextInjective(calls[i].req, calls[i].req);
        assert calls[i].inner.value.provider + "" == calls[i].inner.value.provider;
        assert AnsweredBy(h, calls, i, i);
      }
    } else {
      CachedAnswer(h, calls, i);
    }
  }

  /** Call `j` asked for what call `i` answers. */
  predicate AnsweredBy<E>(h: Hash, calls: seq<Call<E>>, i: nat, j: nat)
    requires j <= i < |calls|
  {
    && AskedAt(h, calls, j) && calls[j].inner.Ok? && AnswerAt(h, calls, i).Ok?
    && (SameRequest(calls[j].req, calls[i].req) || Collide(h, KeyText(calls[j].req), KeyText(calls[i].req)))
    && Repeats(AnswerAt(h, calls, i).value, calls[j].inner.value, !AskedAt(h, calls, i))
    && (AskedAt(h, calls, i) ==> j == i)
  }

  lemma CachedAnswer<E>(h: Hash, calls: seq<Call<E>>, i: nat)
    requires i < |calls| && !AskedAt(h, calls, i)
    ensures exists j :: 0 <= j <= i && AnsweredBy(h, calls, i, j)
  {
    hide TableAfter, KeyText, SameRequest;
    var key := Key(h, calls[i].req);
    TableBacked(h, calls[..i], key);
    var j :| 0 <= j < i && Stored(h, calls[..i], j, key, TableAfter(h, calls[..i])[key]);
    assert calls[..i][..j] == calls[..j];
    KeyTextInjective(calls[j].req, calls[i].req);
    assert AnsweredBy(h, calls, i, j);
  }

  lemma {:induction false} TableGrows<E>(h: Hash, calls: seq<Call<E>>, m: nat)
    requires m <= |calls|
    ensures TableAfter(h, calls[..m]).Keys <= TableAfter(h, calls).Keys
  {
    if m < |calls| {
      var n := |calls| - 1;
      TableGrows(h, calls[..n], m);
      assert calls[..n][..m] == calls[..m];
    } else {
      assert calls[..m] == calls;
    }
  }

  /** Without storage faults on the two calls, a request that was answered by the inner generator
      once is not sent to it again. */
  lemma AskedOncePerRequest<E>(h: Hash, calls: seq<Call<E>>, i: nat, j: nat)
    requires i < j < |calls|
    requires AskedAt(h, calls, i) && calls[i].inner.Ok? && !calls[i].putFails && !calls[j].getFails
    requires SameRequest(calls[i].req, calls[j].req)
    ensures !AskedAt(h, calls, j)
  {
    KeyTextInjective(calls[i].req, calls[j].req);
    TableGrows(h, calls[..j], i + 1);
    assert calls[..j][..i + 1] == calls[..i + 1];
    assert calls[..i + 1][..i] == calls[..i];
  }
}
