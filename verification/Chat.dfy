/** Conversations: messages, turns, tools and requests, and their JSON form. */
module Chat {
  import opened Wrappers
  import opened Json
  import opened Canonical
  import JsonParser

  datatype Role = User | Assistant

  datatype ContentBlock =
    | Text(text: string)
    | ToolUse(id: string, name: string, input: Value)
    | ToolResult(toolUseId: string, content: string, isError: bool)

  type UseBlock = b: ContentBlock | b.ToolUse? witness ToolUse("", "", Null)

  datatype ChatMessage = ChatMessage(role: Role, content: seq<ContentBlock>)

  datatype ToolSpec = ToolSpec(name: string, description: string, inputSchema: Value)

  datatype StopReason = EndTurn | StopToolUse | MaxTokens | OtherReason

  datatype Usage = Usage(inputTokens: nat, outputTokens: nat)

  datatype AssistantTurn = AssistantTurn(
    content: seq<ContentBlock>, stopReason: StopReason, usage: Usage, provider: string)

  /** A sampling temperature; the JSON form of one that is not finite is null. */
  datatype Temperature = Finite(token: FloatToken) | NotFinite

  datatype GenerateRequest = GenerateRequest(
    model: string,
    system: string,
    messages: seq<ChatMessage>,
    tools: seq<ToolSpec>,
    maxTokens: nat,
    temperature: Option<Temperature>)

  function UserText(text: string): ChatMessage {
    ChatMessage(User, [Text(text)])
  }

  /** The tool-use blocks of a message, in order. */
  function ToolUses(content: seq<ContentBlock>): (uses: seq<UseBlock>)
    ensures forall u :: u in uses ==> u in content
    ensures uses == [] <==> forall b :: b in content ==> !b.ToolUse?
  {
    if content == [] then []
    else if content[0].ToolUse? then [content[0]] + ToolUses(content[1..])
    else ToolUses(content[1..])
  }

  lemma NoToolUses()
    ensures ToolUses([]) == []
  {
  }

  lemma ToolUsesCons(b: ContentBlock, content: seq<ContentBlock>)
    ensures ToolUses([b] + content) == (if b.ToolUse? then [b] else []) + ToolUses(content)
  {
    assert ([b] + content)[1..] == content;
  }

  lemma {:induction false} ToolUsesSnoc(content: seq<ContentBlock>, b: ContentBlock)
    ensures ToolUses(content + [b]) == ToolUses(content) + if b.ToolUse? then [b] else []
  {
    hide ToolUses;
    NoToolUses();
    if content == [] {
      ToolUsesCons(b, []);
      assert content + [b] == [b] + [];
    } else {
      ToolUsesSnoc(content[1..], b);
      ToolUsesCons(content[0], content[1..]);
      ToolUsesCons(content[0], content[1..] + [b]);
      assert content == [content[0]] + content[1..] && content + [b] == [content[0]] + (content[1..] + [b]);
    }
  }

  function TextOf(content: seq<ContentBlock>): string {
    if content == [] then ""
    else (if content[0].Text? then content[0].text else "") + TextOf(content[1..])
  }

  // ---------------------------------------------------------------- JSON form

  function BlockMembers(b: ContentBlock): seq<Member> {
    match b
    case Text(text) => [Member("type", Str("text")), Member("text", Str(text))]
    case ToolUse(id, name, input) =>
      [Member("type", Str("tool_use")), Member("id", Str(id)), Member("name", Str(name)), Member("input", input)]
    case ToolResult(id, content, isError) =>
      [Member("type", Str("tool_result")), Member("tool_use_id", Str(id)),
       Member("content", Str(content)), Member("is_error", Bool(isError))]
  }

  function BlockJson(b: ContentBlock): Json {
    Obj(BlockMembers(b))
  }

  function MessageMembers(m: ChatMessage): seq<Member> {
    [Member("role", Str(if m.role.User? then "user" else "assistant")),
     Member("content", Arr(seq(|m.content|, i requires 0 <= i < |m.content| => BlockJson(m.content[i]))))]
  }

  function MessageJson(m: ChatMessage): Json {
    Obj(MessageMembers(m))
  }

  function ToolMembers(t: ToolSpec): seq<Member> {
    [Member("name", Str(t.name)), Member("description", Str(t.description)), Member("input_schema", t.inputSchema)]
  }

  function ToolJson(t: ToolSpec): Json {
    Obj(ToolMembers(t))
  }

  function ToolsJson(ts: seq<ToolSpec>): seq<Json> {
    seq(|ts|, i requires 0 <= i < |ts| => ToolJson(ts[i]))
  }

  function MessagesJson(ms: seq<ChatMessage>): seq<Json> {
    seq(|ms|, i requires 0 <= i < |ms| => MessageJson(ms[i]))
  }

  function TemperatureJson(t: Option<Temperature>): Json {
    match t
    case None => Null
    case Some(NotFinite) => Null
    case Some(Finite(token)) => Float(token)
  }

  function ChatMembers(r: GenerateRequest): seq<Member> {
    [Member("model", Str(r.model)),
     Member("system", Str(r.system)),
     Member("tools", Arr(ToolsJson(r.tools))),
     Member("chat", Arr(MessagesJson(r.messages)))]
  }

  function KeyMembers(r: GenerateRequest): seq<Member> {
    [Member("messages", Obj(ChatMembers(r))), Member("temperature", TemperatureJson(r.temperature))]
  }

  /** The text whose digest is the cache key of a request. */
  function KeyText(r: GenerateRequest): string {
    CanonicalJson(Obj(KeyMembers(r)))
  }

  // ---------------------------------------------------------------- what the key distinguishes

  /** Equal up to the order of object keys inside a tool input. */
  predicate SameBlock(a: ContentBlock, b: ContentBlock) {
    match a
    case ToolUse(id, name, input) =>
      b.ToolUse? && b.id == id && b.name == name && Denote(b.input) == Denote(input)
    case _ => a == b
  }

  predicate SameMessage(a: ChatMessage, b: ChatMessage) {
    a.role == b.role && |a.content| == |b.content|
    && forall i :: 0 <= i < |a.content| ==> SameBlock(a.content[i], b.content[i])
  }

  predicate SameTool(a: ToolSpec, b: ToolSpec) {
    a.name == b.name && a.description == b.description && Denote(a.inputSchema) == Denote(b.inputSchema)
  }

  /** An absent temperature and one that is not finite are not told apart. */
  predicate SameTemperature(a: Option<Temperature>, b: Option<Temperature>) {
    if a.Some? && a.value.Finite? then a == b else b.None? || b.value.NotFinite?
  }

  /** The same model, system prompt, tools and messages. */
  predicate SameChat(r: GenerateRequest, s: GenerateRequest) {
    && r.model == s.model
    && r.system == s.system
    && |r.tools| == |s.tools|
    && (forall i :: 0 <= i < |r.tools| ==> SameTool(r.tools[i], s.tools[i]))
    && |r.messages| == |s.messages|
    && (forall i :: 0 <= i < |r.messages| ==> SameMessage(r.messages[i], s.messages[i]))
  }

  /** The same in everything but `maxTokens`, which is free. */
  predicate SameRequest(r: GenerateRequest, s: GenerateRequest) {
    SameChat(r, s) && SameTemperature(r.temperature, s.temperature)
  }

  lemma BlockDistinct(b: ContentBlock)
    ensures WellFormed(BlockJson(b))
  {
    var ms := BlockMembers(b);
    match b
    case Text(_) =>
      assert ms[0].key[1] != ms[1].key[1];
    case ToolUse(_, _, _) =>
      assert |ms[0].key| == 4 && |ms[1].key| == 2 && |ms[2].key| == 4 && |ms[3].key| == 5;
      assert ms[0].key[0] != ms[2].key[0];
    case ToolResult(_, _, _) =>
      assert |ms[0].key| == 4 && |ms[1].key| == 11 && |ms[2].key| == 7 && |ms[3].key| == 8;
  }

  lemma BlockInjective(a: ContentBlock, b: ContentBlock)
    ensures Denote(BlockJson(a)) == Denote(BlockJson(b)) <==> SameBlock(a, b)
  {
    BlockDistinct(a);
    BlockDistinct(b);
    var ms, ns := BlockMembers(a), BlockMembers(b);
    assert |"text"| == 4 && |"tool_use"| == 8 && |"tool_result"| == 11;
    if Denote(BlockJson(a)) == Denote(BlockJson(b)) {
      SameMapSameAt(ms, 0, ns, 0);
      assert a.Text? == b.Text? && a.ToolUse? == b.ToolUse?;
    }
    if a.Text? == b.Text? && a.ToolUse? == b.ToolUse? {
      SameKeysSameMap(ms, ns);
      BlockFields(a, b);
    }
  }

  lemma BlockFields(a: ContentBlock, b: ContentBlock)
    requires a.Text? == b.Text? && a.ToolUse? == b.ToolUse?
    ensures var ms, ns := BlockMembers(a), BlockMembers(b);
            && |ms| == |ns|
            && ((forall i :: 0 <= i < |ms| ==> Denote(ms[i].value) == Denote(ns[i].value)) <==> SameBlock(a, b))
  {
    var ms, ns := BlockMembers(a), BlockMembers(b);
    if forall i :: 0 <= i < |ms| ==> Denote(ms[i].value) == Denote(ns[i].value) {
      assert Denote(ms[1].value) == Denote(ns[1].value);
      assert !a.Text? ==> Denote(ms[2].value) == Denote(ns[2].value);
      assert !a.Text? ==> Denote(ms[3].value) == Denote(ns[3].value);
    }
  }

  /** Arrays mean the same exactly when they agree element by element. */
  lemma SameItems(a: seq<Json>, b: seq<Json>)
    ensures Denote(Arr(a)) == Denote(Arr(b))
            <==> |a| == |b| && forall i :: 0 <= i < |a| ==> Denote(a[i]) == Denote(b[i])
  {
    var x, y := DenoteItems(a), DenoteItems(b);
    forall i | 0 <= i < |a|
      ensures x[i] == Denote(a[i])
    {
      DenoteItemsAt(a, i);
    }
    forall i | 0 <= i < |b|
      ensures y[i] == Denote(b[i])
    {
      DenoteItemsAt(b, i);
    }
    if |a| == |b| && forall i :: 0 <= i < |a| ==> Denote(a[i]) == Denote(b[i]) {
      assert x == y;
    }
    if x == y {
      assert |a| == |x| == |b|;
    }
  }

  lemma MessageDistinct(m: ChatMessage)
    ensures WellFormed(MessageJson(m))
  {
    assert |MessageMembers(m)[0].key| != |MessageMembers(m)[1].key|;
    forall i | 0 <= i < |m.content|
      ensures WellFormed(BlockJson(m.content[i]))
    {
      BlockDistinct(m.content[i]);
    }
  }

  lemma RoleInjective(a: ChatMessage, b: ChatMessage)
    ensures Denote(MessageMembers(a)[0].value) == Denote(MessageMembers(b)[0].value) <==> a.role == b.role
  {
    assert |"user"| != |"assistant"|;
  }

  lemma MessageInjective(a: ChatMessage, b: ChatMessage)
    ensures Denote(MessageJson(a)) == Denote(MessageJson(b)) <==> SameMessage(a, b)
  {
    MessageDistinct(a);
    MessageDistinct(b);
    var ms, ns := MessageMembers(a), MessageMembers(b);
    SameKeysSameMap(ms, ns);
    SameItems(ms[1].value.items, ns[1].value.items);
    forall i | 0 <= i < |a.content| && i < |b.content|
      ensures Denote(BlockJson(a.content[i])) == Denote(BlockJson(b.content[i]))
              <==> SameBlock(a.content[i], b.content[i])
    {
      BlockInjective(a.content[i], b.content[i]);
    }
    RoleInjective(a, b);
    hide Denote, SameBlock, BlockJson;
    if Denote(MessageJson(a)) == Denote(MessageJson(b)) {
      assert Denote(ms[0].value) == Denote(ns[0].value) && Denote(ms[1].value) == Denote(ns[1].value);
      assert SameMessage(a, b) by {
        assert |ms[1].value.items| == |ns[1].value.items|;
        forall i | 0 <= i < |a.content|
          ensures SameBlock(a.content[i], b.content[i])
        {
          assert Denote(ms[1].value.items[i]) == Denote(ns[1].value.items[i]);
        }
      }
    }
  }

  lemma ToolDistinct(t: ToolSpec)
    ensures WellFormed(ToolJson(t))
  {
    var ms := ToolMembers(t);
    assert |ms[0].key| == 4 && |ms[1].key| == 11 && |ms[2].key| == 12;
  }

  lemma ToolInjective(a: ToolSpec, b: ToolSpec)
    ensures Denote(ToolJson(a)) == Denote(ToolJson(b)) <==> SameTool(a, b)
  {
    ToolDistinct(a);
    ToolDistinct(b);
    var ms, ns := ToolMembers(a), ToolMembers(b);
    SameKeysSameMap(ms, ns);
    if Denote(ToolJson(a)) == Denote(ToolJson(b)) {
      assert Denote(ms[0].value) == Denote(ns[0].value);
      assert Denote(ms[1].value) == Denote(ns[1].value);
      assert Denote(ms[2].value) == Denote(ns[2].value);
    }
  }

  lemma ChatDistinct(r: GenerateRequest)
    ensures WellFormed(Obj(ChatMembers(r)))
  {
    var ms := ChatMembers(r);
    assert |ms[0].key| == 5 && |ms[1].key| == 6 && |ms[2].key| == 5 && |ms[3].key| == 4;
    assert ms[0].key[0] != ms[2].key[0];
    forall i | 0 <= i < |r.tools|
      ensures WellFormed(ToolJson(r.tools[i]))
    {
      ToolDistinct(r.tools[i]);
    }
    forall i | 0 <= i < |r.messages|
      ensures WellFormed(MessageJson(r.messages[i]))
    {
      MessageDistinct(r.messages[i]);
    }
  }

  lemma ToolsInjective(a: seq<ToolSpec>, b: seq<ToolSpec>)
    ensures Denote(Arr(ToolsJson(a))) == Denote(Arr(ToolsJson(b)))
            <==> |a| == |b| && forall i :: 0 <= i < |a| ==> SameTool(a[i], b[i])
  {
    var x, y := ToolsJson(a), ToolsJson(b);
    SameItems(x, y);
    forall i | 0 <= i < |a| && i < |b|
      ensures Denote(x[i]) == Denote(y[i]) <==> SameTool(a[i], b[i])
    {
      ToolInjective(a[i], b[i]);
    }
  }

  lemma MessagesInjective(a: seq<ChatMessage>, b: seq<ChatMessage>)
    ensures Denote(Arr(MessagesJson(a))) == Denote(Arr(MessagesJson(b)))
            <==> |a| == |b| && forall i :: 0 <= i < |a| ==> SameMessage(a[i], b[i])
  {
    var x, y := MessagesJson(a), MessagesJson(b);
    SameItems(x, y);
    forall i | 0 <= i < |a| && i < |b|
      ensures Denote(x[i]) == Denote(y[i]) <==> SameMessage(a[i], b[i])
    {
      MessageInjective(a[i], b[i]);
    }
  }

  lemma FourFields(a: seq<Member>, b: seq<Member>)
    requires |a| == |b| == 4
    ensures (forall i :: 0 <= i < 4 ==> Denote(a[i].value) == Denote(b[i].value))
            <==> Denote(a[0].value) == Denote(b[0].value) && Denote(a[1].value) == Denote(b[1].value)
                 && Denote(a[2].value) == Denote(b[2].value) && Denote(a[3].value) == Denote(b[3].value)
  {
  }

  lemma ChatFields(r: GenerateRequest, s: GenerateRequest)
    ensures var ms, ns := ChatMembers(r), ChatMembers(s);
            (Denote(ms[0].value) == Denote(ns[0].value) && Denote(ms[1].value) == Denote(ns[1].value)
             && Denote(ms[2].value) == Denote(ns[2].value) && Denote(ms[3].value) == Denote(ns[3].value))
            <==> SameChat(r, s)
  {
    var ms, ns := ChatMembers(r), ChatMembers(s);
    ToolsInjective(r.tools, s.tools);
    MessagesInjective(r.messages, s.messages);
    assert Denote(ms[0].value) == MStr(r.model) && Denote(ns[0].value) == MStr(s.model);
    assert Denote(ms[1].value) == MStr(r.system) && Denote(ns[1].value) == MStr(s.system);
  }

  lemma ChatInjective(r: GenerateRequest, s: GenerateRequest)
    ensures Denote(Obj(ChatMembers(r))) == Denote(Obj(ChatMembers(s))) <==> SameChat(r, s)
  {
    ChatDistinct(r);
    ChatDistinct(s);
    SameKeysSameMap(ChatMembers(r), ChatMembers(s));
    FourFields(ChatMembers(r), ChatMembers(s));
    ChatFields(r, s);
  }

  /** Two requests have the same key text exactly when they agree on the five keyed fields. */
  lemma KeyTextInjective(r: GenerateRequest, s: GenerateRequest)
    ensures KeyText(r) == KeyText(s) <==> SameRequest(r, s)
  {
    hide ChatMembers, SameChat, CanonicalJson, Denote;
    ChatDistinct(r);
    ChatDistinct(s);
    var ms, ns := KeyMembers(r), KeyMembers(s);
    assert |ms[0].key| != |ms[1].key|;
    JsonParser.CanonicalInjective(Obj(ms), Obj(ns));
    SameKeysSameMap(ms, ns);
    ChatInjective(r, s);
    TemperatureInjective(r.temperature, s.temperature);
    assert (forall i :: 0 <= i < 2 ==> Denote(ms[i].value) == Denote(ns[i].value))
           <==> Denote(ms[0].value) == Denote(ns[0].value) && Denote(ms[1].value) == Denote(ns[1].value);
  }

  lemma TemperatureInjective(t: Option<Temperature>, u: Option<Temperature>)
    ensures Denote(TemperatureJson(t)) == Denote(TemperatureJson(u)) <==> SameTemperature(t, u)
  {
  }
}
