/** The per-role message builders: each Genkit message shape is first built
    as a small role-specific record, which then projects onto the older
    `go-openai` chat message. */
module Messages {
  import opened Base
  import opened Genkit
  import opened Errors
  import Vendor
  import Convert

  /** A system message: the text of the first part only. */
  datatype SystemMessage = SystemMessage(content: string, name: string)
  {
    /** Role system, the content as the message text, nothing else set. */
    function ToMessage(): (m: Vendor.ChatMessage)
      ensures m.role == Vendor.ChatRoleSystem
      ensures m.content == content
      ensures m.multiContent == [] && m.toolCalls == [] && m.toolCallId == ""
    {
      Vendor.ChatMessage(Vendor.ChatRoleSystem, content, [], [], "")
    }
  }

  /** A user message: one content part per Genkit part. */
  datatype UserMessage = UserMessage(content: seq<Vendor.ContentPart>, name: string)
  {
    /** Role user, the parts as the multi-part content, nothing else set. */
    function ToMessage(): (m: Vendor.ChatMessage)
      ensures m.role == Vendor.ChatRoleUser
      ensures m.multiContent == content
      ensures m.content == "" && m.toolCalls == [] && m.toolCallId == ""
    {
      Vendor.ChatMessage(Vendor.ChatRoleUser, "", content, [], "")
    }
  }

  /** An assistant message: the tool calls and the first part's text. */
  datatype AssistantMessage = AssistantMessage(toolCalls: seq<Vendor.ToolCallParam>, content: string, refusal: string, name: string)
  {
    /** Role assistant, the tool calls and the text copied, nothing else
        set; the refusal and the name are not carried over. */
    function ToMessage(): (m: Vendor.ChatMessage)
      ensures m.role == Vendor.ChatRoleAssistant
      ensures m.toolCalls == toolCalls && m.content == content
      ensures m.multiContent == [] && m.toolCallId == ""
    {
      Vendor.ChatMessage(Vendor.ChatRoleAssistant, content, [], toolCalls, "")
    }
  }

  /** A tool message: a tool's encoded output, answering the call with the
      given ID. */
  datatype ToolMessage = ToolMessage(content: string, toolCallId: string)
  {
    /** Role tool, the call ID and the content copied, nothing else set. */
    function ToMessage(): (m: Vendor.ChatMessage)
      ensures m.role == Vendor.ChatRoleTool
      ensures m.toolCallId == toolCallId && m.content == content
      ensures m.multiContent == [] && m.toolCalls == []
    {
      Vendor.ChatMessage(Vendor.ChatRoleTool, content, [], [], toolCallId)
    }
  }

  /** `convertSystemMessage`: keeps the first part's text and drops the
      rest of the content. */
  function ConvertSystemMessage(msg: Message): (s: SystemMessage)
    requires |msg.content| > 0
    ensures s.content == msg.content[0].Text()
    ensures s.name == ""
  {
    SystemMessage(msg.content[0].Text(), "")
  }

  /** `convertUserMessage`: converts the parts in order, stopping at the
      first part that cannot be converted. The role is not checked. */
  method ConvertUserMessage(msg: Message) returns (r: Result<UserMessage>)
    ensures r.Ok? <==> forall k | 0 <= k < |msg.content| :: Convert.ConvertPart(msg.content[k]).Ok?
    ensures r.Ok? ==> r.value == UserMessage(Convert.UserContentOf(msg.content).value, "")
    ensures r.Err? ==> r.error == Convert.UserContentOf(msg.content).error
    ensures r.Err? ==> exists k | 0 <= k < |msg.content| ::
      && Convert.ConvertPart(msg.content[k]) == Err(r.error)
      && forall j | 0 <= j < k :: Convert.ConvertPart(msg.content[j]).Ok?
  {
    var multiContent: seq<Vendor.ContentPart> := [];
    assert msg.content[0..] == msg.content;
    for i := 0 to |msg.content|
      invariant Convert.UserContentOf(msg.content) == Prepend(multiContent, Convert.UserContentOf(msg.content[i..]))
      invariant forall j | 0 <= j < i :: Convert.ConvertPart(msg.content[j]).Ok?
    {
      assert msg.content[i..][0] == msg.content[i];
      assert msg.content[i..][1..] == msg.content[i + 1..];
      var part := Convert.ConvertPart(msg.content[i]);
      if part.Err? {
        return Err(part.error);
      }
      PrependTwice(multiContent, [part.value], Convert.UserContentOf(msg.content[i + 1..]));
      multiContent := multiContent + [part.value];
    }
    assert msg.content[|msg.content|..] == [];
    assert multiContent + [] == multiContent;
    return Ok(UserMessage(multiContent, ""));
  }

  /** `convertAssistantMessage`: the tool calls of the tool-request parts
      and the first part's text, which may be empty. */
  function ConvertAssistantMessage(msg: Message, encode: JsonObject -> string): (a: AssistantMessage)
    requires |msg.content| > 0
    ensures a.toolCalls == Convert.ToolCallsOf(msg.content, encode)
    ensures |a.toolCalls| == |Filter(msg.content, IsToolRequest)|
    ensures a.content == msg.content[0].Text()
    ensures a.refusal == "" && a.name == ""
  {
    Convert.ToolCallsOfFilter(msg.content, encode);
    AssistantMessage(Convert.ToolCallsOf(msg.content, encode), msg.content[0].Text(), "", "")
  }

  /** `convertToolMessage`: a tool-response part becomes a tool message
      whose call ID is the tool's name and whose content is the encoded
      output; any other part is an error. */
  function ConvertToolMessage(part: Part, encode: JsonObject -> string): (r: Result<ToolMessage>)
    ensures r.Ok? <==> part.ToolResponsePart?
    ensures r.Ok? ==> r.value.toolCallId == part.response.name
    ensures r.Ok? ==> r.value.content == encode(part.response.output)
    ensures r.Err? ==> r.error == NotToolResponse(part)
  {
    if !part.ToolResponsePart? then Err(NotToolResponse(part))
    else Ok(ToolMessage(encode(part.response.output), part.response.name))
  }

  // ------------------------------------------ agreement with convertMessages

  /** The system builder and `convertMessages` send the same text. */
  lemma SystemBuilderAgrees(msg: Message, encode: JsonObject -> string)
    requires msg.role == RoleSystem && |msg.content| > 0
    ensures Convert.Indexable(msg)
    ensures Convert.MessageOf(msg, encode) ==
      Ok([Vendor.SystemMessage([Vendor.TextContent(ConvertSystemMessage(msg).ToMessage().content)])])
  {
  }

  /** The user builder fails exactly when `convertMessages` fails on the
      same user message, and otherwise sends the same parts. */
  lemma UserBuilderAgrees(msg: Message, encode: JsonObject -> string)
    requires msg.role == RoleUser
    ensures Convert.Indexable(msg)
    ensures Convert.MessageOf(msg, encode).Ok? <==> Convert.UserContentOf(msg.content).Ok?
    ensures Convert.UserContentOf(msg.content).Ok? ==>
      Convert.MessageOf(msg, encode) == Ok([Vendor.UserMessage(UserMessage(Convert.UserContentOf(msg.content).value, "").ToMessage().multiContent)])
  {
  }

  /** The assistant builder sends the same tool calls as `convertMessages`
      whenever there are any, and the same text whenever it is non-empty. */
  lemma AssistantBuilderAgrees(msg: Message, encode: JsonObject -> string)
    requires msg.role == RoleModel && |msg.content| > 0
    ensures Convert.Indexable(msg)
    ensures var legacy := ConvertAssistantMessage(msg, encode).ToMessage();
      var sent := Convert.MessageOf(msg, encode);
      && sent.Ok? && |sent.value| == 1
      && (sent.value[0].toolCalls.Some? <==> |legacy.toolCalls| > 0)
      && (sent.value[0].toolCalls.Some? ==> sent.value[0].toolCalls.value == legacy.toolCalls)
      && (sent.value[0].assistantContent.Some? <==> legacy.content != "")
      && (sent.value[0].assistantContent.Some? ==> sent.value[0].assistantContent.value == [Vendor.TextContent(legacy.content)])
  {
    var content := msg.content;
    Convert.ToolCallsOfFilter(content, encode);
    var calls := Convert.ToolCallsOf(content, encode);
    if |calls| > 0 {
      assert Filter(content, IsToolRequest)[0] in content;
    }
  }

  /** The tool builder and `convertMessages` answer a tool-response part
      with the same call ID and the same content. */
  lemma ToolBuilderAgrees(part: Part, encode: JsonObject -> string)
    requires part.ToolResponsePart?
    ensures var legacy := ConvertToolMessage(part, encode).value.ToMessage();
      Convert.ToolMessageOf(part, encode) ==
        Vendor.ToolMessage(legacy.toolCallId, [Vendor.TextContent(legacy.content)])
  {
  }
}
