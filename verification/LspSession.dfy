/** A language-server session: requests over a framed pipe, server requests answered on the way,
    pushed diagnostics kept per document. */
module LspSession {
  import opened Wrappers
  import opened Json
  import opened LspFraming

  /** How messages become bytes and back. */
  datatype Codec = Codec(encode: Json -> string, decode: string -> Option<Json>)

  function Lookup(ms: seq<Member>, key: string): Option<Json> {
    if ms == [] then None
    else if ms[0].key == key then Some(ms[0].value)
    else Lookup(ms[1..], key)
  }

  /** The member of an object; nothing for any other value. */
  function Get(v: Json, key: string): Option<Json> {
    if v.Obj? then Lookup(v.members, key) else None
  }

  // ---------------------------------------------------------------- kinds of messages

  predicate IsAnswer(m: Json, id: int) {
    Get(m, "method").None? && Get(m, "id") == Some(Int(id))
  }

  /** A request of the server that gets an answer: it has an id, and its method is a string. */
  predicate IsAnswerable(m: Json) {
    Get(m, "id").Some? && Get(m, "method").Some? && Get(m, "method").value.Str?
  }

  predicate IsDiagnostics(m: Json) {
    && Get(m, "id").None?
    && Get(m, "method") == Some(Str("textDocument/publishDiagnostics"))
    && Get(m, "params").Some?
    && var uri := Get(Get(m, "params").value, "uri"); uri.Some? && uri.value.Str?
  }

  function UriOf(m: Json): string
    requires IsDiagnostics(m)
  {
    Get(Get(m, "params").value, "uri").value.s
  }

  function DiagnosticsOf(m: Json): (d: Json)
    requires IsDiagnostics(m)
    ensures Get(Get(m, "params").value, "diagnostics") == Some(d)
            || (Get(Get(m, "params").value, "diagnostics").None? && d == Arr([]))
  {
    var d := Get(Get(m, "params").value, "diagnostics");
    if d.Some? then d.value else Arr([])
  }

  function Nulls(n: nat): (vs: seq<Json>)
    ensures |vs| == n && forall i :: 0 <= i < n ==> vs[i] == Null
  {
    seq(n, _ => Null)
  }

  function ItemCount(m: Json): (n: nat)
    ensures forall ps, items :: Get(m, "params") == Some(ps) && Get(ps, "items") == Some(Arr(items)) ==> n == |items|
    ensures (forall ps :: Get(m, "params") == Some(ps) && Get(ps, "items").Some? ==> !Get(ps, "items").value.Arr?)
              ==> n == 1
  {
    var params := Get(m, "params");
    var items := if params.Some? then Get(params.value, "items") else None;
    if items.Some? && items.value.Arr? then |items.value.items| else 1
  }

  function ReplyTo(m: Json): Json
    requires IsAnswerable(m)
  {
    var result := if Get(m, "method").value.s == "workspace/configuration" then Arr(Nulls(ItemCount(m))) else Null;
    Obj([Member("jsonrpc", Str("2.0")), Member("id", Get(m, "id").value), Member("result", result)])
  }

  // ---------------------------------------------------------------- what a request does to a stream

  /** The messages that can be read from a stream, and why reading stops. */
  function Incoming(codec: Codec, s: string): (seq<Json>, Failure)
    decreases |s|
  {
    var r := Read(s);
    if r.Err? then ([], r.error)
    else
      var v := codec.decode(r.value.0);
      if v.None? then ([], BadJson)
      else
        var (more, end) := Incoming(codec, r.value.1);
        ([v.value] + more, end)
  }

  /** The position of the first answer to `id`, or the number of messages. */
  function AnswerAt(msgs: seq<Json>, id: int): (k: nat)
    ensures k <= |msgs|
    ensures k < |msgs| ==> IsAnswer(msgs[k], id)
    ensures forall i :: 0 <= i < k ==> !IsAnswer(msgs[i], id)
  {
    if msgs == [] || IsAnswer(msgs[0], id) then 0 else 1 + AnswerAt(msgs[1..], id)
  }

  function Answerable(msgs: seq<Json>): (r: seq<Json>)
    ensures forall m :: m in r <==> m in msgs && IsAnswerable(m)
  {
    if msgs == [] then []
    else Answerable(msgs[..|msgs| - 1]) + (if IsAnswerable(msgs[|msgs| - 1]) then [msgs[|msgs| - 1]] else [])
  }

  function Encoded(codec: Codec, msgs: seq<Json>): (r: seq<string>)
    ensures |r| == |msgs| && forall i :: 0 <= i < |msgs| ==> r[i] == codec.encode(msgs[i])
  {
    seq(|msgs|, i requires 0 <= i < |msgs| => codec.encode(msgs[i]))
  }

  function Replies(msgs: seq<Json>): (r: seq<Json>)
    requires forall i :: 0 <= i < |msgs| ==> IsAnswerable(msgs[i])
    ensures |r| == |msgs| && forall i :: 0 <= i < |msgs| ==> r[i] == ReplyTo(msgs[i])
  {
    seq(|msgs|, i requires 0 <= i < |msgs| => ReplyTo(msgs[i]))
  }

  function Published(d: map<string, Json>, msgs: seq<Json>): map<string, Json> {
    if msgs == [] then d
    else
      var before, m := Published(d, msgs[..|msgs| - 1]), msgs[|msgs| - 1];
      if IsDiagnostics(m) then before[UriOf(m) := DiagnosticsOf(m)] else before
  }

  datatype RequestError = ReadFailed(f: Failure) | ServerError(error: Json)

  function AnswerOf(m: Json): (r: Result<Json, RequestError>)
    ensures forall e :: Get(m, "error") == Some(e) ==> r == Err(ServerError(e))
    ensures forall v :: Get(m, "error").None? && Get(m, "result") == Some(v) ==> r == Ok(v)
    ensures Get(m, "error").None? && Get(m, "result").None? ==> r == Ok(Null)
  {
    if Get(m, "error").Some? then Err(ServerError(Get(m, "error").value))
    else if Get(m, "result").Some? then Ok(Get(m, "result").value)
    else Ok(Null)
  }

  function RequestMessage(id: int, name: string, params: Json): Json {
    Obj([Member("jsonrpc", Str("2.0")), Member("id", Int(id)), Member("method", Str(name)), Member("params", params)])
  }

  function LanguageId(uri: string): (id: string)
    ensures id == "rust" <==> |uri| >= 3 && uri[|uri| - 3..] == ".rs"
    ensures id == "python" <==> |uri| >= 3 && uri[|uri| - 3..] == ".py"
    ensures id in {"rust", "python", "plaintext"}
  {
    if |uri| >= 3 && uri[|uri| - 3..] == ".rs" then "rust"
    else if |uri| >= 3 && uri[|uri| - 3..] == ".py" then "python"
    else "plaintext"
  }

  function TextDocument(doc: Document): Json {
    Obj([Member("uri", Str(doc.uri)), Member("languageId", Str(LanguageId(doc.uri))), Member("version", Int(1)),
         Member("text", Str(doc.text))])
  }

  function OpenMessage(doc: Document): Json {
    Obj([Member("jsonrpc", Str("2.0")), Member("method", Str("textDocument/didOpen")),
         Member("params", Obj([Member("textDocument", TextDocument(doc))]))])
  }

  // ---------------------------------------------------------------- what the pieces mean

  lemma LookupPast(m: Member, ms: seq<Member>, key: string)
    requires m.key != key
    ensures Lookup([m] + ms, key) == Lookup(ms, key)
  {
    assert ([m] + ms)[1..] == ms;
  }

  /** A request names its id, its method and its parameters, and is not an answer to anything. */
  lemma RequestMembers(id: int, name: string, params: Json)
    ensures var m := RequestMessage(id, name, params);
            && Get(m, "id") == Some(Int(id)) && Get(m, "method") == Some(Str(name)) && Get(m, "params") == Some(params)
            && forall k :: !IsAnswer(m, k)
  {
    var ms := RequestMessage(id, name, params).members;
    assert ms == [ms[0]] + ([ms[1]] + ([ms[2]] + ([ms[3]] + [])));
    LookupPast(ms[0], [ms[1]] + ([ms[2]] + ([ms[3]] + [])), "id");
    forall key | key in ["method", "params"]
      ensures Lookup(ms, key) == Lookup([ms[2]] + ([ms[3]] + []), key)
    {
      LookupPast(ms[0], [ms[1]] + ([ms[2]] + ([ms[3]] + [])), key);
      LookupPast(ms[1], [ms[2]] + ([ms[3]] + []), key);
    }
    LookupPast(ms[2], [ms[3]] + [], "params");
  }

  /** So a request built like this, sent by the server, is one the client answers. */
  lemma RequestIsAnswerable(id: int, name: string, params: Json)
    ensures IsAnswerable(RequestMessage(id, name, params)) && !IsDiagnostics(RequestMessage(id, name, params))
  {
    RequestMembers(id, name, params);
  }

  lemma TwoMembers(a: Member, b: Member)
    requires a.key != b.key
    ensures var o := Obj([a, b]);
            && Get(o, a.key) == Some(a.value) && Get(o, b.key) == Some(b.value)
            && forall key :: key != a.key && key != b.key ==> Get(o, key).None?
  {
    assert [a, b] == [a] + ([b] + []);
    LookupPast(a, [b] + [], b.key);
    forall key | key != a.key && key != b.key
      ensures Lookup([a, b], key).None?
    {
      LookupPast(a, [b] + [], key);
      LookupPast(b, [], key);
    }
  }

  lemma ThreeMembers(a: Member, b: Member, c: Member)
    requires a.key != b.key && a.key != c.key && b.key != c.key
    ensures var o := Obj([a, b, c]);
            && Get(o, a.key) == Some(a.value) && Get(o, b.key) == Some(b.value) && Get(o, c.key) == Some(c.value)
            && forall key :: key != a.key && key != b.key && key != c.key ==> Get(o, key).None?
  {
    assert [a, b, c] == [a] + [b, c];
    TwoMembers(b, c);
    forall key | key != a.key
      ensures Get(Obj([a, b, c]), key) == Get(Obj([b, c]), key)
    {
      LookupPast(a, [b, c], key);
    }
  }

  function DiagnosticsMessage(uri: string, d: Json): Json {
    Obj([Member("jsonrpc", Str("2.0")), Member("method", Str("textDocument/publishDiagnostics")),
         Member("params", Obj([Member("uri", Str(uri)), Member("diagnostics", d)]))])
  }

  /** Diagnostics as a server publishes them are recognized, for their document, and ask for no reply. */
  lemma DiagnosticsRecognized(uri: string, d: Json)
    ensures var m := DiagnosticsMessage(uri, d);
            IsDiagnostics(m) && UriOf(m) == uri && DiagnosticsOf(m) == d && !IsAnswerable(m)
  {
    hide Get;
    ThreeMembers(Member("jsonrpc", Str("2.0")), Member("method", Str("textDocument/publishDiagnostics")),
                 Member("params", Obj([Member("uri", Str(uri)), Member("diagnostics", d)])));
    TwoMembers(Member("uri", Str(uri)), Member("diagnostics", d));
  }

  /** An announcement is a notification with the name, the language and the text of its document. */
  lemma OpenMembers(doc: Document)
    ensures var m := OpenMessage(doc);
            && Get(m, "id").None? && Get(m, "method") == Some(Str("textDocument/didOpen"))
            && exists params, text ::
                 Get(m, "params") == Some(params) && Get(params, "textDocument") == Some(text) && Describes(text, doc)
  {
    hide Get, Describes;
    var text := TextDocument(doc);
    var params := Obj([Member("textDocument", text)]);
    DocumentMembers(doc);
    OneMember("textDocument", text);
    ThreeMembers(Member("jsonrpc", Str("2.0")), Member("method", Str("textDocument/didOpen")),
                 Member("params", params));
    assert Get(OpenMessage(doc), "params") == Some(params) && Get(params, "textDocument") == Some(text);
  }

  predicate Describes(text: Json, doc: Document) {
    && Get(text, "uri") == Some(Str(doc.uri)) && Get(text, "text") == Some(Str(doc.text))
    && Get(text, "languageId") == Some(Str(LanguageId(doc.uri))) && Get(text, "version") == Some(Int(1))
  }

  lemma DocumentMembers(doc: Document)
    ensures Describes(TextDocument(doc), doc)
  {
    hide Get, LanguageId;
    var uri, language := Member("uri", Str(doc.uri)), Member("languageId", Str(LanguageId(doc.uri)));
    var version, contents := Member("version", Int(1)), Member("text", Str(doc.text));
    FourMembers(uri, language, version, contents);
  }

  lemma OneMember(key: string, value: Json)
    ensures Get(Obj([Member(key, value)]), key) == Some(value)
  {
  }

  lemma FourMembers(a: Member, b: Member, c: Member, d: Member)
    requires a.key != b.key && a.key != c.key && a.key != d.key && b.key != c.key && b.key != d.key && c.key != d.key
    ensures forall m :: m in [a, b, c, d] ==> Get(Obj([a, b, c, d]), m.key) == Some(m.value)
  {
    assert [a, b, c, d] == [a] + [b, c, d];
    ThreeMembers(b, c, d);
    forall m | m in [b, c, d]
      ensures Get(Obj([a, b, c, d]), m.key) == Some(m.value)
    {
      LookupPast(a, [b, c, d], m.key);
    }
  }

  lemma ReplyMembers(m: Json)
    requires IsAnswerable(m)
    ensures Get(ReplyTo(m), "id") == Get(m, "id")
    ensures Get(ReplyTo(m), "method").None?
    ensures Get(ReplyTo(m), "error").None?
    ensures Get(ReplyTo(m), "result") == Some(ReplyTo(m).members[2].value)
  {
    var ms := ReplyTo(m).members;
    assert ms == [ms[0]] + ([ms[1]] + ([ms[2]] + []));
    LookupPast(ms[0], [ms[1]] + ([ms[2]] + []), "id");
    forall key | key in ["method", "error", "result"]
      ensures Lookup(ms, key) == Lookup([ms[2]] + [], key)
    {
      LookupPast(ms[0], [ms[1]] + ([ms[2]] + []), key);
      LookupPast(ms[1], [ms[2]] + [], key);
    }
    LookupPast(ms[2], [], "method");
    LookupPast(ms[2], [], "error");
  }

  /** Each request of the server gets one reply, in order, under its own id; a request for
      configuration gets one null per item. */
  lemma RepliesMatchRequests(msgs: seq<Json>, i: nat)
    requires i < |Answerable(msgs)|
    ensures |Replies(Answerable(msgs))| == |Answerable(msgs)|
    ensures var request, reply := Answerable(msgs)[i], Replies(Answerable(msgs))[i];
            && Get(reply, "id") == Get(request, "id") && Get(reply, "method").None?
            && AnswerOf(reply) == Ok(if Get(request, "method") == Some(Str("workspace/configuration"))
                                     then Arr(Nulls(ItemCount(request))) else Null)
  {
    var request := Answerable(msgs)[i];
    assert request in Answerable(msgs);
    ReplyMembers(request);
  }

  predicate About(m: Json, uri: string) {
    IsDiagnostics(m) && UriOf(m) == uri
  }

  predicate NoneFrom(msgs: seq<Json>, uri: string, k: nat) {
    forall i :: k <= i < |msgs| ==> !About(msgs[i], uri)
  }

  predicate LastAt(msgs: seq<Json>, uri: string, k: nat) {
    k < |msgs| && About(msgs[k], uri) && NoneFrom(msgs, uri, k + 1)
  }

  /** The diagnostics kept for a document are the last ones published for it, and the old ones if
      none were published. */
  lemma {:induction false} LastDiagnosticsKept(d: map<string, Json>, msgs: seq<Json>, uri: string)
    ensures NoneFrom(msgs, uri, 0) ==>
              (uri in Published(d, msgs) <==> uri in d) && (uri in d ==> Published(d, msgs)[uri] == d[uri])
    ensures forall k: nat :: LastAt(msgs, uri, k) ==>
              uri in Published(d, msgs) && Published(d, msgs)[uri] == DiagnosticsOf(msgs[k])
  {
    hide IsDiagnostics, UriOf, DiagnosticsOf;
    if msgs != [] {
      var n := |msgs| - 1;
      LastDiagnosticsKept(d, msgs[..n], uri);
      forall k: nat | LastAt(msgs, uri, k)
        ensures uri in Published(d, msgs) && Published(d, msgs)[uri] == DiagnosticsOf(msgs[k])
      {
        if k < n {
          assert !About(msgs[n], uri);
          assert LastAt(msgs[..n], uri, k);
        }
      }
      if NoneFrom(msgs, uri, 0) {
        assert !About(msgs[n], uri);
        assert NoneFrom(msgs[..n], uri, 0);
      }
    }
  }

  /** What a server writes with a codec that decodes its own encodings is what the client reads. */
  lemma {:induction false} IncomingOfWritten(codec: Codec, msgs: seq<Json>)
    requires forall i :: 0 <= i < |msgs| ==> codec.decode(codec.encode(msgs[i])) == Some(msgs[i])
    requires forall i :: 0 <= i < |msgs| ==> |codec.encode(msgs[i])| < LENGTH_LIMIT
    ensures Incoming(codec, WriteAll(Encoded(codec, msgs))) == (msgs, EndOfInput)
  {
    if msgs == [] {
      assert Read("") == Err(EndOfInput);
    } else {
      hide Read, WriteMsg;
      IncomingOfWritten(codec, msgs[1..]);
      assert Encoded(codec, msgs)[1..] == Encoded(codec, msgs[1..]);
      MessageRoundTrip(codec.encode(msgs[0]), WriteAll(Encoded(codec, msgs[1..])));
      assert msgs == [msgs[0]] + msgs[1..];
    }
  }

  // ---------------------------------------------------------------- the session as it runs

  lemma OneMessageRead(codec: Codec, s: string, msgs: seq<Json>, end: Failure, n: nat)
    requires n <= |msgs| && Incoming(codec, s) == (msgs[n..], end)
    ensures Read(s).Err? ==> n == |msgs| && end == Read(s).error
    ensures Read(s).Ok? && codec.decode(Read(s).value.0).None? ==> n == |msgs| && end == BadJson
    ensures Read(s).Ok? && codec.decode(Read(s).value.0).Some? ==>
              && n < |msgs| && codec.decode(Read(s).value.0).value == msgs[n]
              && Incoming(codec, Read(s).value.1) == (msgs[n + 1..], end)
  {
    if Read(s).Ok? && codec.decode(Read(s).value.0).Some? {
      var (more, e) := Incoming(codec, Read(s).value.1);
      assert msgs[n..] == [codec.decode(Read(s).value.0).value] + more;
      assert msgs[n..][1..] == more;
    }
  }

  lemma NoMessages(codec: Codec, d: map<string, Json>)
    ensures Published(d, []) == d && Written(codec, []) == ""
  {
  }

  lemma OneMoreMessage(codec: Codec, d: map<string, Json>, msgs: seq<Json>, m: Json)
    ensures Published(d, msgs + [m])
            == if IsDiagnostics(m) then Published(d, msgs)[UriOf(m) := DiagnosticsOf(m)] else Published(d, msgs)
    ensures Answerable(msgs + [m]) == Answerable(msgs) + if IsAnswerable(m) then [m] else []
    ensures Written(codec, msgs + [m])
            == Written(codec, msgs) + if IsAnswerable(m) then WriteMsg(codec.encode(ReplyTo(m))) else ""
  {
    hide IsDiagnostics, IsAnswerable, ReplyTo, WriteMsg;
    assert (msgs + [m])[..|msgs + [m]| - 1] == msgs;
    var sofar, longer := Encoded(codec, Replies(Answerable(msgs))), Encoded(codec, Replies(Answerable(msgs + [m])));
    if IsAnswerable(m) {
      assert longer == sofar + [codec.encode(ReplyTo(m))];
      WriteAllSnoc(sofar, codec.encode(ReplyTo(m)));
    } else {
      assert Answerable(msgs + [m]) == Answerable(msgs);
    }
  }

  lemma {:induction false} WriteAllSnoc(bodies: seq<string>, body: string)
    ensures WriteAll(bodies + [body]) == WriteAll(bodies) + WriteMsg(body)
  {
    hide WriteMsg;
    if bodies == [] {
      assert [body][1..] == [];
    } else {
      WriteAllSnoc(bodies[1..], body);
      assert (bodies + [body])[1..] == bodies[1..] + [body];
    }
  }

  /** The replies to a stretch of messages, as bytes. */
  function Written(codec: Codec, msgs: seq<Json>): string {
    WriteAll(Encoded(codec, Replies(Answerable(msgs))))
  }

  class LspProc {
    const codec: Codec
    var nextId: int
    var openUris: set<string>
    var diagnostics: map<string, Json>
    /** Everything written so far. */
    var stdin: string
    const stdout: Pipe

    constructor (codec: Codec, stdout: Pipe)
      ensures this.codec == codec && this.stdout == stdout
      ensures nextId == 1 && openUris == {} && diagnostics == map[] && stdin == ""
    {
      this.codec, this.stdout := codec, stdout;
      nextId, openUris, diagnostics, stdin := 1, {}, map[], "";
    }

    /** Sends a request under a fresh id and reads up to its answer. */
    method Request(name: string, params: Json) returns (r: Result<Json, RequestError>)
      modifies this`nextId, this`diagnostics, this`stdin, stdout
      ensures nextId == old(nextId) + 1
      ensures var (msgs, end) := old(Incoming(codec, stdout.rest));
              var k := AnswerAt(msgs, nextId);
              && diagnostics == Published(old(diagnostics), msgs[..k])
              && stdin == old(stdin) + WriteMsg(codec.encode(RequestMessage(nextId, name, params)))
                          + Written(codec, msgs[..k])
              && (k < |msgs| ==> r == AnswerOf(msgs[k]) && Incoming(codec, stdout.rest) == (msgs[k + 1..], end))
              && (k == |msgs| ==> r == Err(ReadFailed(end)))
    {
      hide *;
      nextId := nextId + 1;
      stdin := stdin + WriteMsg(codec.encode(RequestMessage(nextId, name, params)));
      ghost var (msgs, end) := Incoming(codec, stdout.rest);
      ghost var sent := stdin;
      ghost var n: nat := 0;
      NoMessages(codec, old(diagnostics));
      assert msgs[..0] == [] && msgs[0..] == msgs && sent + "" == sent;
      while true
        invariant nextId == old(nextId) + 1 && n <= AnswerAt(msgs, nextId)
        invariant Incoming(codec, stdout.rest) == (msgs[n..], end)
        invariant diagnostics == Published(old(diagnostics), msgs[..n])
        invariant stdin == sent + Written(codec, msgs[..n])
        decreases |stdout.rest|
      {
        OneMessageRead(codec, stdout.rest, msgs, end, n);
        var body := stdout.ReadMsg();
        if body.Err? {
          return Err(ReadFailed(body.error));
        }
        var m := codec.decode(body.value);
        if m.None? {
          return Err(ReadFailed(BadJson));
        }
        if IsAnswer(m.value, nextId) {
          return AnswerOf(m.value);
        }
        assert msgs[..n + 1] == msgs[..n] + [msgs[n]];
        OneMoreMessage(codec, old(diagnostics), msgs[..n], msgs[n]);
        Receive(m.value);
        n := n + 1;
      }
    }

    /** A message that is not the awaited answer. */
    method Receive(m: Json)
      modifies this`diagnostics, this`stdin
      ensures diagnostics
              == if IsDiagnostics(m) then old(diagnostics)[UriOf(m) := DiagnosticsOf(m)] else old(diagnostics)
      ensures stdin == old(stdin) + if IsAnswerable(m) then WriteMsg(codec.encode(ReplyTo(m))) else ""
    {
      if Get(m, "method").None? {
        return;
      }
      if Get(m, "id").Some? {
        if Get(m, "method").value.Str? {
          stdin := stdin + WriteMsg(codec.encode(ReplyTo(m)));
        }
        return;
      }
      if Get(m, "method").value == Str("textDocument/publishDiagnostics") {
        var params := Get(m, "params");
        if params.Some? {
          var uri := Get(params.value, "uri");
          if uri.Some? && uri.value.Str? {
            diagnostics := diagnostics[uri.value.s := DiagnosticsOf(m)];
          }
        }
      }
    }

    /** Announces a document the first time. */
    method EnsureOpen(doc: Document)
      modifies this`openUris, this`stdin
      ensures openUris == old(openUris) + {doc.uri}
      ensures stdin == old(stdin) + WriteAll(Encoded(codec, OpenMessages(Announced(old(openUris), [doc]))))
    {
      hide WriteMsg, OpenMessage;
      assert Announced(openUris, [doc][..0]) == [];
      if doc.uri in openUris {
        return;
      }
      assert [doc][..0] == [] && Announced(openUris, [doc]) == [doc];
      assert Encoded(codec, OpenMessages([doc])) == [codec.encode(OpenMessage(doc))];
      assert [codec.encode(OpenMessage(doc))][1..] == [];
      stdin := stdin + WriteMsg(codec.encode(OpenMessage(doc)));
      openUris := openUris + {doc.uri};
    }
  }

  // ---------------------------------------------------------------- opening documents

  datatype Document = Document(uri: string, text: string)

  function Uris(docs: seq<Document>): set<string> {
    set i | 0 <= i < |docs| :: docs[i].uri
  }

  /** The documents that asking for one after another announces. */
  function Announced(openUris: set<string>, docs: seq<Document>): seq<Document> {
    if docs == [] then []
    else
      var before, doc := docs[..|docs| - 1], docs[|docs| - 1];
      Announced(openUris, before) + (if doc.uri in openUris + Uris(before) then [] else [doc])
  }

  function OpenMessages(docs: seq<Document>): seq<Json> {
    seq(|docs|, i requires 0 <= i < |docs| => OpenMessage(docs[i]))
  }

  /** The documents of one name. */
  function Named(docs: seq<Document>, uri: string): (r: seq<Document>)
    ensures r != [] <==> uri in Uris(docs)
  {
    if docs == [] then []
    else
      var n := |docs| - 1;
      assert Uris(docs) == Uris(docs[..n]) + {docs[n].uri} by { UrisSnoc(docs); }
      Named(docs[..n], uri) + (if docs[n].uri == uri then [docs[n]] else [])
  }

  lemma UrisSnoc(docs: seq<Document>)
    requires docs != []
    ensures Uris(docs) == Uris(docs[..|docs| - 1]) + {docs[|docs| - 1].uri}
  {
    var n := |docs| - 1;
    assert docs[n].uri in Uris(docs);
    forall i | 0 <= i < n ensures docs[i].uri in Uris(docs[..n]) {
      assert docs[..n][i].uri == docs[i].uri;
    }
  }

  lemma NamedSnoc(docs: seq<Document>, doc: Document, uri: string)
    ensures Named(docs + [doc], uri) == Named(docs, uri) + if doc.uri == uri then [doc] else []
  {
    assert (docs + [doc])[..|docs + [doc]| - 1] == docs;
  }

  function First(docs: seq<Document>): seq<Document> {
    if docs == [] then [] else [docs[0]]
  }

  lemma NothingAnnounced(openUris: set<string>, uri: string)
    ensures Announced(openUris, []) == [] && Named([], uri) == []
  {
  }

  lemma AnnouncedSnoc(openUris: set<string>, docs: seq<Document>, doc: Document)
    ensures Announced(openUris, docs + [doc]) ==
            if doc.uri in openUris || Named(docs, doc.uri) != [] then Announced(openUris, docs)
            else Announced(openUris, docs) + [doc]
  {
    assert (docs + [doc])[..|docs + [doc]| - 1] == docs;
    assert Announced(openUris, docs) + [] == Announced(openUris, docs);
  }

  /** However often documents are asked for, each is announced exactly once and with its first text,
      unless it was open before. */
  lemma {:induction false} OpenedOnce(openUris: set<string>, docs: seq<Document>, uri: string)
    ensures Named(Announced(openUris, docs), uri) == if uri in openUris then [] else First(Named(docs, uri))
  {
    hide Announced, Uris, Named;
    NothingAnnounced(openUris, uri);
    if docs != [] {
      var n := |docs| - 1;
      var before, doc := docs[..n], docs[n];
      OpenedOnce(openUris, before, uri);
      AnnouncedSnoc(openUris, before, doc);
      NamedSnoc(Announced(openUris, before), doc, uri);
      NamedSnoc(before, doc, uri);
      assert before + [doc] == docs;
    }
  }
}
