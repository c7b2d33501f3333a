/** Request conversion (plugins/openai/convert.go): a Genkit generate
    request becomes the vendor's chat-completion request. The loops of
    the source are methods, each proved equal to a specification function
    that recurses over the same input; the properties of the conversion
    are stated on those functions. */
module Convert {
  import opened Base
  import opened Genkit
  import opened Vendor
  import opened Errors
  import Catalog

  // ---------------------------------------------------------------- roles

  /** The Genkit role a vendor role comes from: the inverse of the role map. */
  function GenkitRole(role: MessageRole): Role
  {
    match role
    case SystemRole => RoleSystem
    case UserRole => RoleUser
    case AssistantRole => RoleModel
    case ToolRole => RoleTool
  }

  /** `convertRole`: user, system, model and tool map to user, system,
      assistant and tool; any other role is an error. */
  function ConvertRole(role: Role): (r: Result<MessageRole>)
    ensures r.Ok? <==> role == RoleUser || role == RoleSystem || role == RoleModel || role == RoleTool
    ensures r.Ok? ==> GenkitRole(r.value) == role
    ensures r.Err? ==> r.error == UnknownRole(role)
  {
    if role == RoleUser then Ok(UserRole)
    else if role == RoleSystem then Ok(SystemRole)
    else if role == RoleModel then Ok(AssistantRole)
    else if role == RoleTool then Ok(ToolRole)
    else Err(UnknownRole(role))
  }

  /** The role map is a bijection between the four Genkit roles and the
      four vendor roles: converting the Genkit role of any vendor role
      gives that vendor role back. */
  lemma {:induction false} RoleRoundTrip(role: MessageRole)
    ensures ConvertRole(GenkitRole(role)) == Ok(role)
    ensures RoleName(role) == (if role == AssistantRole then "assistant" else GenkitRole(role))
  {
  }

  // ---------------------------------------------------------------- parts

  /** The string a content part carries. */
  function CarriedText(c: ContentPart): string
  {
    match c
    case TextContent(t) => t
    case ImageContent(url, _) => url
  }

  /** `convertPart`: a text part becomes a text content part with the same
      text, a media part an image part whose URL is the part's text and
      whose detail is "auto"; every other kind of part is an error. */
  function ConvertPart(p: Part): (r: Result<ContentPart>)
    ensures r.Ok? <==> p.TextPart? || p.MediaPart?
    ensures r.Ok? ==> CarriedText(r.value) == p.Text()
    ensures r.Ok? ==> (r.value.TextContent? <==> p.TextPart?)
    ensures r.Ok? && r.value.ImageContent? ==> r.value.detail == ImageDetailAuto
    ensures r.Err? ==> r.error == UnknownPartType(p)
  {
    if p.TextPart? then Ok(TextContent(p.Text()))
    else if p.MediaPart? then Ok(ImageContent(p.Text(), ImageDetailAuto))
    else Err(UnknownPartType(p))
  }

  // ----------------------------------------------------------- tool calls

  /** `convertToolCall`: the call's ID and its function name are both the
      tool request's name; the arguments are the encoded input, and are
      left unset when the input is empty or nil. */
  function ConvertToolCall(p: Part, encode: JsonObject -> string): (r: ToolCallParam)
    requires p.ToolRequestPart?
    ensures r.id == p.request.name && r.functionCall.name == p.request.name
    ensures r.callType == ToolTypeFunction
    ensures r.functionCall.arguments.Some? <==> |p.request.input| > 0
    ensures r.functionCall.arguments.Some? ==> r.functionCall.arguments.value == encode(p.request.input)
  {
    ToolCallParam(
      p.request.name,
      ToolTypeFunction,
      FunctionCallParam(p.request.name, if |p.request.input| > 0 then Some(encode(p.request.input)) else None))
  }

  /** The tool calls a message's content yields, part by part. */
  function ToolCallsOf(content: seq<Part>, encode: JsonObject -> string): seq<ToolCallParam>
  {
    if content == [] then []
    else
      var head := if content[0].ToolRequestPart? then [ConvertToolCall(content[0], encode)] else [];
      head + ToolCallsOf(content[1..], encode)
  }

  /** `convertToolCalls`: one call per tool-request part, in order; every
      other part is skipped. */
  method ConvertToolCalls(content: seq<Part>, encode: JsonObject -> string) returns (toolCalls: seq<ToolCallParam>)
    ensures toolCalls == ToolCallsOf(content, encode)
  {
    toolCalls := [];
    for i := 0 to |content|
      invariant ToolCallsOf(content, encode) == toolCalls + ToolCallsOf(content[i..], encode)
    {
      assert content[i..][1..] == content[i + 1..];
      if !content[i].ToolRequestPart? {
        continue;
      }
      var toolCall := ConvertToolCall(content[i], encode);
      toolCalls := toolCalls + [toolCall];
    }
    assert content[|content|..] == [];
  }

  /** The tool calls are the tool-call conversion applied to exactly the
      tool-request parts, in their original order. */
  lemma {:induction false} ToolCallsOfFilter(content: seq<Part>, encode: JsonObject -> string)
    ensures |ToolCallsOf(content, encode)| == |Filter(content, IsToolRequest)|
    ensures forall k | 0 <= k < |ToolCallsOf(content, encode)| ::
      ToolCallsOf(content, encode)[k] == ConvertToolCall(Filter(content, IsToolRequest)[k], encode)
  {
    if content != [] {
      ToolCallsOfFilter(content[1..], encode);
    }
  }

  /** Tool calls of concatenated content are the concatenated tool calls. */
  lemma {:induction false} ToolCallsOfAppend(a: seq<Part>, b: seq<Part>, encode: JsonObject -> string)
    ensures ToolCallsOf(a + b, encode) == ToolCallsOf(a, encode) + ToolCallsOf(b, encode)
  {
    if a == [] {
      assert a + b == b;
    } else {
      assert (a + b)[0] == a[0];
      assert (a + b)[1..] == a[1..] + b;
      ToolCallsOfAppend(a[1..], b, encode);
    }
  }

  // ---------------------------------------------------------------- tools

  /** `convertTool`: a function tool with the definition's name and
      description, its input schema passed through unchanged, and strict
      mode off. It never fails. */
  function ConvertTool(t: ToolDefinition): (r: Result<ToolParam>)
    ensures r.Ok? && r.value.toolType == ToolTypeFunction
    ensures r.value.definition.name == t.name && r.value.definition.description == t.description
    ensures r.value.definition.parameters == t.inputSchema && !r.value.definition.strict
  {
    Ok(ToolParam(ToolTypeFunction, FunctionDefinition(t.name, t.description, t.inputSchema, false)))
  }

  /** The vendor tools for a list of tool definitions. */
  function ToolsOf(tools: seq<ToolDefinition>): seq<ToolParam>
  {
    seq(|tools|, k requires 0 <= k < |tools| => ConvertTool(tools[k]).value)
  }

  /** `convertTools`: one vendor tool per definition, in order. */
  method ConvertTools(inTools: seq<ToolDefinition>) returns (r: Result<seq<ToolParam>>)
    ensures r.Ok?
    ensures |r.value| == |inTools|
    ensures forall k | 0 <= k < |inTools| :: r.value[k] == ConvertTool(inTools[k]).value
    ensures r.value == ToolsOf(inTools)
  {
    var tools: seq<ToolParam> := [];
    for i := 0 to |inTools|
      invariant |tools| == i
      invariant forall k | 0 <= k < i :: tools[k] == ConvertTool(inTools[k]).value
    {
      var tool := ConvertTool(inTools[i]);
      if tool.Err? {
        assert false;
      }
      tools := tools + [tool.value];
    }
    return Ok(tools);
  }

  // ------------------------------------------------------------- messages

  /** The source reads `Content[0]` of every system and model message it
      converts; such a message must have content. */
  predicate Indexable(m: Message)
  {
    (m.role == RoleSystem || m.role == RoleModel) ==> |m.content| > 0
  }

  predicate AllIndexable(ms: seq<Message>)
  {
    forall m | m in ms :: Indexable(m)
  }

  /** The content parts of a user message: every part converted in order,
      failing with the error of the first part that cannot be converted. */
  function UserContentOf(parts: seq<Part>): (r: Result<seq<ContentPart>>)
    ensures r.Ok? <==> forall k | 0 <= k < |parts| :: ConvertPart(parts[k]).Ok?
    ensures r.Ok? ==> |r.value| == |parts| && forall k | 0 <= k < |parts| :: r.value[k] == ConvertPart(parts[k]).value
  {
    if parts == [] then Ok([])
    else match ConvertPart(parts[0])
      case Err(e) => Err(e)
      case Ok(c) => Prepend([c], UserContentOf(parts[1..]))
  }

  /** A failed user message reports the error of its first part that
      cannot be converted; the parts before it convert. */
  lemma {:induction false} UserContentOfFirstError(parts: seq<Part>)
    requires UserContentOf(parts).Err?
    ensures exists k | 0 <= k < |parts| ::
      && ConvertPart(parts[k]) == Err(UserContentOf(parts).error)
      && forall j | 0 <= j < k :: ConvertPart(parts[j]).Ok?
  {
    if ConvertPart(parts[0]).Ok? {
      UserContentOfFirstError(parts[1..]);
      var k :| 0 <= k < |parts[1..]|
        && ConvertPart(parts[1..][k]) == Err(UserContentOf(parts[1..]).error)
        && forall j | 0 <= j < k :: ConvertPart(parts[1..][j]).Ok?;
      assert ConvertPart(parts[k + 1]) == Err(UserContentOf(parts).error);
    } else {
      assert ConvertPart(parts[0]) == Err(UserContentOf(parts).error);
    }
  }

  /** The tool message for one tool-response part: its call ID is the
      tool's name, its content the encoded output. */
  function ToolMessageOf(p: Part, encode: JsonObject -> string): MessageParam
    requires p.ToolResponsePart?
  {
    ToolMessage(p.response.name, [TextContent(encode(p.response.output))])
  }

  /** The tool messages of a tool-role message, part by part. */
  function ToolMessagesOf(content: seq<Part>, encode: JsonObject -> string): seq<MessageParam>
  {
    if content == [] then []
    else
      var p := content[0];
      var head := if p.ToolResponsePart? then [ToolMessageOf(p, encode)] else [];
      head + ToolMessagesOf(content[1..], encode)
  }

  /** A tool-role message yields one tool message per tool-response part,
      in order, and skips every other part. */
  lemma {:induction false} ToolMessagesOfFilter(content: seq<Part>, encode: JsonObject -> string)
    ensures |ToolMessagesOf(content, encode)| == |Filter(content, IsToolResponse)|
    ensures forall k | 0 <= k < |ToolMessagesOf(content, encode)| ::
      ToolMessagesOf(content, encode)[k] == ToolMessageOf(Filter(content, IsToolResponse)[k], encode)
  {
    if content != [] {
      ToolMessagesOfFilter(content[1..], encode);
    }
  }

  /** The assistant message for a model-role message: text content only
      when the first part's text is non-empty, tool calls only when some
      part is a tool request. */
  function AssistantOf(content: seq<Part>, encode: JsonObject -> string): (r: MessageParam)
    requires |content| > 0
    ensures r.AssistantMessage?
    ensures r.assistantContent.Some? <==> content[0].Text() != ""
    ensures r.assistantContent.Some? ==> r.assistantContent.value == [TextContent(content[0].Text())]
    ensures r.toolCalls.Some? <==> exists k | 0 <= k < |content| :: content[k].ToolRequestPart?
    ensures r.toolCalls.Some? ==> r.toolCalls.value == ToolCallsOf(content, encode)
  {
    var calls := ToolCallsOf(content, encode);
    ToolCallsOfFilter(content, encode);
    assert (exists k | 0 <= k < |content| :: content[k].ToolRequestPart?) ==> |calls| > 0 by {
      if k :| 0 <= k < |content| && content[k].ToolRequestPart? {
        assert content[k] in Filter(content, IsToolRequest);
      }
    }
    assert |calls| > 0 ==> Filter(content, IsToolRequest)[0] in content;
    AssistantMessage(
      if content[0].Text() != "" then Some([TextContent(content[0].Text())]) else None,
      if |calls| > 0 then Some(calls) else None)
  }

  /** How many vendor messages a message yields once converted. */
  function VendorCount(m: Message): nat
  {
    if m.role == RoleTool then |Filter(m.content, IsToolResponse)| else 1
  }

  function TotalVendorCount(ms: seq<Message>): nat
  {
    if ms == [] then 0 else VendorCount(ms[0]) + TotalVendorCount(ms[1..])
  }

  /** The vendor messages for one Genkit message. A message fails only when
      its role is unknown or it is a user message with a part that cannot
      be converted; otherwise a tool message yields one vendor message per
      tool-response part and every other role exactly one. */
  function MessageOf(m: Message, encode: JsonObject -> string): (r: Result<seq<MessageParam>>)
    requires Indexable(m)
    ensures r.Ok? <==> ConvertRole(m.role).Ok? && (m.role == RoleUser ==> forall k | 0 <= k < |m.content| :: ConvertPart(m.content[k]).Ok?)
    ensures r.Ok? ==> |r.value| == VendorCount(m)
    ensures ConvertRole(m.role).Err? ==> r == Err(UnknownRole(m.role))
    ensures m.role == RoleSystem ==> r == Ok([SystemMessage([TextContent(m.content[0].Text())])])
    ensures m.role == RoleUser && r.Ok? ==> r.value == [UserMessage(UserContentOf(m.content).value)]
    ensures m.role == RoleUser && r.Err? ==> r.error == UserContentOf(m.content).error
    ensures m.role == RoleModel ==> r == Ok([AssistantOf(m.content, encode)])
    ensures m.role == RoleTool ==> r.Ok? && forall k | 0 <= k < |r.value| ::
      r.value[k] == ToolMessageOf(Filter(m.content, IsToolResponse)[k], encode)
  {
    match ConvertRole(m.role)
    case Err(e) => Err(e)
    case Ok(role) =>
      match role
      case SystemRole => Ok([SystemMessage([TextContent(m.content[0].Text())])])
      case UserRole =>
        (match UserContentOf(m.content)
         case Err(e) => Err(e)
         case Ok(parts) => Ok([UserMessage(parts)]))
      case AssistantRole => Ok([AssistantOf(m.content, encode)])
      case ToolRole =>
        ToolMessagesOfFilter(m.content, encode);
        Ok(ToolMessagesOf(m.content, encode))
  }

  /** The vendor messages for a list of Genkit messages: each message's
      vendor messages in order; the whole conversion fails exactly when
      one message fails. */
  function MessagesOf(ms: seq<Message>, encode: JsonObject -> string): (r: Result<seq<MessageParam>>)
    requires AllIndexable(ms)
    ensures r.Ok? <==> forall m | m in ms :: MessageOf(m, encode).Ok?
    ensures r.Ok? ==> |r.value| == TotalVendorCount(ms)
  {
    if ms == [] then Ok([])
    else match MessageOf(ms[0], encode)
      case Err(e) => Err(e)
      case Ok(head) => Prepend(head, MessagesOf(ms[1..], encode))
  }

  /** A failed conversion reports the error of the first message that
      fails; the messages before it convert. */
  lemma {:induction false} MessagesOfFirstError(ms: seq<Message>, encode: JsonObject -> string)
    requires AllIndexable(ms)
    requires MessagesOf(ms, encode).Err?
    ensures exists k | 0 <= k < |ms| ::
      && MessageOf(ms[k], encode) == Err(MessagesOf(ms, encode).error)
      && forall j | 0 <= j < k :: MessageOf(ms[j], encode).Ok?
  {
    if MessageOf(ms[0], encode).Ok? {
      MessagesOfFirstError(ms[1..], encode);
      var k :| 0 <= k < |ms[1..]|
        && MessageOf(ms[1..][k], encode) == Err(MessagesOf(ms[1..], encode).error)
        && forall j | 0 <= j < k :: MessageOf(ms[1..][j], encode).Ok?;
      assert MessageOf(ms[k + 1], encode) == Err(MessagesOf(ms, encode).error);
    } else {
      assert MessageOf(ms[0], encode) == Err(MessagesOf(ms, encode).error);
    }
  }

  /** One unfolding step of `MessagesOf`: the first message's conversion,
      then the rest. */
  lemma MessagesOfStep(ms: seq<Message>, encode: JsonObject -> string)
    requires ms != [] && AllIndexable(ms)
    ensures AllIndexable(ms[1..])
    ensures MessagesOf(ms, encode) ==
      match MessageOf(ms[0], encode)
      case Err(e) => Err(e)
      case Ok(head) => Prepend(head, MessagesOf(ms[1..], encode))
  {
  }

  /** Converting a concatenation of conversations gives the concatenation
      of their conversions. */
  lemma {:induction false} MessagesOfAppend(a: seq<Message>, b: seq<Message>, encode: JsonObject -> string)
    requires AllIndexable(a) && AllIndexable(b)
    requires MessagesOf(a, encode).Ok? && MessagesOf(b, encode).Ok?
    ensures AllIndexable(a + b)
    ensures MessagesOf(a + b, encode) == Ok(MessagesOf(a, encode).value + MessagesOf(b, encode).value)
  {
    var ab := a + b;
    assert AllIndexable(ab) by {
      forall m | m in ab ensures Indexable(m) {
        assert m in a || m in b;
      }
    }
    if a == [] {
      assert ab == b;
      assert MessagesOf(a, encode).value == [];
      assert [] + MessagesOf(b, encode).value == MessagesOf(b, encode).value;
    } else {
      var tail := a[1..];
      MessagesOfStep(a, encode);
      var head := MessageOf(a[0], encode).value;
      var ta := MessagesOf(tail, encode).value;
      var vb := MessagesOf(b, encode).value;
      MessagesOfAppend(tail, b, encode);
      Base.ConsAppend(a, b);
      MessagesOfStep(ab, encode);
      assert MessagesOf(a, encode) == Ok(head + ta);
      assert MessagesOf(ab[1..], encode) == Ok(ta + vb);
      assert MessagesOf(ab, encode) == Ok(head + (ta + vb));
      Base.AppendAssoc(head, ta, vb);
    }
  }

  /** One message of `convertMessages`' loop: the vendor messages it
      appends, or the error that ends the conversion. */
  method ConvertMessage(m: Message, encode: JsonObject -> string) returns (r: Result<seq<MessageParam>>)
    requires Indexable(m)
    ensures r == MessageOf(m, encode)
  {
    var role := ConvertRole(m.role);
    if role.Err? {
      return Err(role.error);
    }
    match role.value
    case SystemRole =>
      var sm := SystemMessage([TextContent(m.content[0].Text())]);
      return Ok([sm]);
    case UserRole =>
      var multiContent: seq<ContentPart> := [];
      assert m.content[0..] == m.content;
      for j := 0 to |m.content|
        invariant UserContentOf(m.content) == Prepend(multiContent, UserContentOf(m.content[j..]))
      {
        assert m.content[j..][0] == m.content[j];
        assert m.content[j..][1..] == m.content[j + 1..];
        var part := ConvertPart(m.content[j]);
        if part.Err? {
          return Err(part.error);
        }
        PrependTwice(multiContent, [part.value], UserContentOf(m.content[j + 1..]));
        multiContent := multiContent + [part.value];
      }
      assert m.content[|m.content|..] == [];
      assert multiContent + [] == multiContent;
      var um := UserMessage(multiContent);
      return Ok([um]);
    case AssistantRole =>
      var am := AssistantMessage(None, None);
      if m.content[0].Text() != "" {
        am := am.(assistantContent := Some([TextContent(m.content[0].Text())]));
      }
      var toolCalls := ConvertToolCalls(m.content, encode);
      if |toolCalls| > 0 {
        am := am.(toolCalls := Some(toolCalls));
      }
      return Ok([am]);
    case ToolRole =>
      var msgs: seq<MessageParam> := [];
      assert m.content[0..] == m.content;
      for j := 0 to |m.content|
        invariant ToolMessagesOf(m.content, encode) == msgs + ToolMessagesOf(m.content[j..], encode)
      {
        assert m.content[j..][0] == m.content[j];
        assert m.content[j..][1..] == m.content[j + 1..];
        var p := m.content[j];
        if !p.ToolResponsePart? {
          continue;
        }
        var tm := ToolMessage(p.response.name, [TextContent(encode(p.response.output))]);
        Base.AppendAssoc(msgs, [tm], ToolMessagesOf(m.content[j + 1..], encode));
        msgs := msgs + [tm];
      }
      assert m.content[|m.content|..] == [];
      assert msgs + [] == msgs;
      return Ok(msgs);
  }

  /** `convertMessages`: the vendor messages for a conversation, message by
      message; the first message that fails ends the conversion. */
  method ConvertMessages(messages: seq<Message>, encode: JsonObject -> string) returns (r: Result<seq<MessageParam>>)
    requires AllIndexable(messages)
    ensures r == MessagesOf(messages, encode)
  {
    var msgs: seq<MessageParam> := [];
    assert messages[0..] == messages;
    for i := 0 to |messages|
      invariant MessagesOf(messages, encode) == Prepend(msgs, MessagesOf(messages[i..], encode))
    {
      assert messages[i] in messages;
      assert messages[i..][0] == messages[i];
      assert messages[i..][1..] == messages[i + 1..];
      MessagesOfStep(messages[i..], encode);
      var converted := ConvertMessage(messages[i], encode);
      if converted.Err? {
        return Err(converted.error);
      }
      PrependTwice(msgs, converted.value, MessagesOf(messages[i + 1..], encode));
      msgs := msgs + converted.value;
    }
    assert messages[|messages|..] == [];
    assert msgs + [] == msgs;
    return Ok(msgs);
  }

  // -------------------------------------------------------------- request

  /** The output-format hint is honoured only when the request has an
      output with a non-empty format and the model is on the allow-list. */
  predicate FormatHonoured(model: string, output: Option<GenerateRequestOutput>)
  {
    output.Some? && output.value.format != "" && model in Catalog.ModelsSupportingResponseFormats
  }

  /** The vendor response format for a Genkit output format. */
  function ResponseFormatOf(format: string): (r: Result<ResponseFormat>)
    ensures r.Ok? <==> format == OutputFormatJson || format == OutputFormatText
    ensures r.Ok? ==> (r.value == JsonObjectFormat <==> format == OutputFormatJson)
    ensures r.Err? ==> r.error == UnknownOutputFormat(format)
  {
    if format == OutputFormatJson then Ok(JsonObjectFormat)
    else if format == OutputFormatText then Ok(TextFormat)
    else Err(UnknownOutputFormat(format))
  }

  /** An optional request field set to `Some(v)` only when `v` differs from
      the zero value. */
  function NonZero<T(==)>(v: T, zero: T): Option<T>
  {
    if v != zero then Some(v) else None
  }

  /** The request `convertRequest` builds, written field by field. It fails
      when a message fails, or when the format hint is honoured and names
      neither json nor text. Otherwise every optional field is set exactly
      when its source value differs from the zero value, and then carries
      that value. */
  function RequestOf(model: string, input: GenerateRequest, encode: JsonObject -> string): (r: Result<ChatRequest>)
    requires AllIndexable(input.messages)
    ensures r.Ok? <==>
      && MessagesOf(input.messages, encode).Ok?
      && (FormatHonoured(model, input.output) ==> ResponseFormatOf(input.output.value.format).Ok?)
    ensures MessagesOf(input.messages, encode).Err? ==> r == Err(MessagesOf(input.messages, encode).error)
    ensures MessagesOf(input.messages, encode).Ok? && FormatHonoured(model, input.output) ==>
      (ResponseFormatOf(input.output.value.format).Err? ==> r == Err(UnknownOutputFormat(input.output.value.format)))
    ensures r.Ok? ==> r.value.model == model && r.value.messages == MessagesOf(input.messages, encode).value
    ensures r.Ok? ==> (r.value.n.Some? <==> input.candidates > 0)
    ensures r.Ok? ==> (r.value.tools.Some? <==> |input.tools| > 0)
    ensures r.Ok? ==> (r.value.maxTokens.Some? <==> input.config.Some? && input.config.value.maxOutputTokens != 0)
    ensures r.Ok? ==> (r.value.stop.Some? <==> input.config.Some? && |input.config.value.stopSequences| > 0)
    ensures r.Ok? ==> (r.value.temperature.Some? <==> input.config.Some? && input.config.value.temperature != 0.0)
    ensures r.Ok? ==> (r.value.topP.Some? <==> input.config.Some? && input.config.value.topP != 0.0)
    ensures r.Ok? && r.value.n.Some? ==> r.value.n.value == input.candidates
    ensures r.Ok? && r.value.tools.Some? ==> r.value.tools.value == ToolsOf(input.tools)
    ensures r.Ok? && r.value.maxTokens.Some? ==> r.value.maxTokens.value == input.config.value.maxOutputTokens
    ensures r.Ok? && r.value.stop.Some? ==> r.value.stop.value == input.config.value.stopSequences
    ensures r.Ok? && r.value.temperature.Some? ==> r.value.temperature.value == input.config.value.temperature
    ensures r.Ok? && r.value.topP.Some? ==> r.value.topP.value == input.config.value.topP
    ensures r.Ok? ==> (r.value.responseFormat.Some? <==> FormatHonoured(model, input.output))
    ensures r.Ok? && r.value.responseFormat.Some? ==>
      r.value.responseFormat == Some(ResponseFormatOf(input.output.value.format).value)
  {
    match MessagesOf(input.messages, encode)
    case Err(e) => Err(e)
    case Ok(messages) =>
      if FormatHonoured(model, input.output) && ResponseFormatOf(input.output.value.format).Err? then
        Err(ResponseFormatOf(input.output.value.format).error)
      else
        var tools := ToolsOf(input.tools);
        var c := input.config;
        Ok(ChatRequest(
          model := model,
          messages := messages,
          n := if input.candidates > 0 then Some(input.candidates) else None,
          tools := if |tools| > 0 then Some(tools) else None,
          maxTokens := if c.Some? then NonZero(c.value.maxOutputTokens, 0) else None,
          stop := if c.Some? && |c.value.stopSequences| > 0 then Some(c.value.stopSequences) else None,
          temperature := if c.Some? then NonZero(c.value.temperature, 0.0) else None,
          topP := if c.Some? then NonZero(c.value.topP, 0.0) else None,
          responseFormat :=
            if FormatHonoured(model, input.output) then Some(ResponseFormatOf(input.output.value.format).value) else None))
  }

  /** No optional field of a converted request ever carries its zero value:
      an explicit zero in the source request is indistinguishable from an
      unset field. */
  lemma ZeroValuesNeverSent(model: string, input: GenerateRequest, encode: JsonObject -> string)
    requires AllIndexable(input.messages)
    requires RequestOf(model, input, encode).Ok?
    ensures var req := RequestOf(model, input, encode).value;
      && (req.n.Some? ==> req.n.value > 0)
      && (req.tools.Some? ==> |req.tools.value| > 0)
      && (req.maxTokens.Some? ==> req.maxTokens.value != 0)
      && (req.stop.Some? ==> |req.stop.value| > 0)
      && (req.temperature.Some? ==> req.temperature.value != 0.0)
      && (req.topP.Some? ==> req.topP.value != 0.0)
  {
  }

  /** A one-message user request with every sampling field set and a text
      output hint, for a model that accepts response formats. */
  lemma TextRequestScenario(encode: JsonObject -> string)
    ensures var input := GenerateRequest(
        messages := [Message(RoleUser, [TextPart("Tell a joke about dogs.")])],
        tools := [],
        candidates := 3,
        config := Some(GenerationCommonConfig(maxOutputTokens := 10, stopSequences := ["\n"], temperature := 0.7, topP := 0.9)),
        output := Some(GenerateRequestOutput(OutputFormatText)));
      && AllIndexable(input.messages)
      && RequestOf(Catalog.Gpt4o, input, encode) == Ok(ChatRequest(
        model := Catalog.Gpt4o,
        messages := [UserMessage([TextContent("Tell a joke about dogs.")])],
        n := Some(3),
        tools := None,
        maxTokens := Some(10),
        stop := Some(["\n"]),
        temperature := Some(0.7),
        topP := Some(0.9),
        responseFormat := Some(TextFormat)))
  {
    var ms := [Message(RoleUser, [TextPart("Tell a joke about dogs.")])];
    var m := ms[0];
    var tc := TextContent("Tell a joke about dogs.");
    assert UserContentOf(m.content) == Ok([tc]) by {
      assert m.content[1..] == [];
      assert [tc] + [] == [tc];
    }
    var um := UserMessage([tc]);
    assert MessageOf(m, encode) == Ok([um]);
    assert MessagesOf(ms, encode) == Ok([um]) by {
      assert ms[1..] == [];
      assert [um] + [] == [um];
    }
  }

  /** `convertRequest`: builds the request, then sets each optional field
      in turn when its source value is present. */
  method ConvertRequest(model: string, input: GenerateRequest, encode: JsonObject -> string) returns (r: Result<ChatRequest>)
    requires AllIndexable(input.messages)
    ensures r == RequestOf(model, input, encode)
  {
    var messages := ConvertMessages(input.messages, encode);
    if messages.Err? {
      return Err(messages.error);
    }
    var tools := ConvertTools(input.tools);
    if tools.Err? {
      assert false;
    }

    var req := ChatRequest(model, messages.value, None, None, None, None, None, None, None);
    if input.candidates > 0 {
      req := req.(n := Some(input.candidates));
    }
    if |tools.value| > 0 {
      req := req.(tools := Some(tools.value));
    }
    if input.config.Some? {
      var c := input.config.value;
      if c.maxOutputTokens != 0 {
        req := req.(maxTokens := Some(c.maxOutputTokens));
      }
      if |c.stopSequences| > 0 {
        req := req.(stop := Some(c.stopSequences));
      }
      if c.temperature != 0.0 {
        req := req.(temperature := Some(c.temperature));
      }
      if c.topP != 0.0 {
        req := req.(topP := Some(c.topP));
      }
    }
    if input.output.Some? && input.output.value.format != "" && model in Catalog.ModelsSupportingResponseFormats {
      var format := input.output.value.format;
      if format == OutputFormatJson {
        req := req.(responseFormat := Some(JsonObjectFormat));
      } else if format == OutputFormatText {
        req := req.(responseFormat := Some(TextFormat));
      } else {
        return Err(UnknownOutputFormat(format));
      }
    }
    return Ok(req);
  }
}
