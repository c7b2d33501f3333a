/** The vendor's chat-completion shapes, as the plugin reads and writes
    them. The request side and the response side follow the `openai-go`
    SDK used by plugins/openai/convert.go and translate.go; `ChatMessage`
    at the end is the older `go-openai` message that message.go builds.
    Fields the plugin never touches are left out. */
module Vendor {
  import opened Base

  /** `ChatCompletionMessageParamRole`. */
  datatype MessageRole = SystemRole | UserRole | AssistantRole | ToolRole

  /** The wire name of a vendor role. */
  function RoleName(role: MessageRole): string
  {
    match role
    case SystemRole => "system"
    case UserRole => "user"
    case AssistantRole => "assistant"
    case ToolRole => "tool"
  }

  /** `ChatCompletionContentPartImageImageURLDetailAuto`. */
  const ImageDetailAuto := "auto"

  /** The `function` tag used for tool calls and tool declarations. */
  const ToolTypeFunction := "function"

  /** A content part of a request message: text, or an image given by URL. */
  datatype ContentPart =
    | TextContent(text: string)
    | ImageContent(url: string, detail: string)

  /** `ChatCompletionMessageToolCallFunctionParam`; `arguments` is a
      serialised JSON object, or unset. */
  datatype FunctionCallParam = FunctionCallParam(name: string, arguments: Option<string>)

  /** `ChatCompletionMessageToolCallParam`. */
  datatype ToolCallParam = ToolCallParam(id: string, callType: string, functionCall: FunctionCallParam)

  /** `ChatCompletionMessageParamUnion`: one message of the request. */
  datatype MessageParam =
    | SystemMessage(content: seq<ContentPart>)
    | UserMessage(content: seq<ContentPart>)
    | AssistantMessage(assistantContent: Option<seq<ContentPart>>, toolCalls: Option<seq<ToolCallParam>>)
    | ToolMessage(toolCallId: string, content: seq<ContentPart>)

  /** `shared.FunctionDefinitionParam`. */
  datatype FunctionDefinition = FunctionDefinition(name: string, description: string, parameters: JsonObject, strict: bool)

  /** `ChatCompletionToolParam`. */
  datatype ToolParam = ToolParam(toolType: string, definition: FunctionDefinition)

  /** The `type` of `ChatCompletionNewParamsResponseFormat`. */
  datatype ResponseFormat = JsonObjectFormat | TextFormat

  /** `ChatCompletionNewParams`. Every optional SDK field is an `Option`;
      `temperature` and `topP` are Go `float64` values, modelled as reals. */
  datatype ChatRequest = ChatRequest(
    model: string,
    messages: seq<MessageParam>,
    n: Option<int>,
    tools: Option<seq<ToolParam>>,
    maxTokens: Option<int>,
    stop: Option<seq<string>>,
    temperature: Option<real>,
    topP: Option<real>,
    responseFormat: Option<ResponseFormat>)

  /** The finish reasons the vendor documents. */
  const FinishStop := "stop"
  const FinishLength := "length"
  const FinishToolCalls := "tool_calls"
  const FinishContentFilter := "content_filter"
  const FinishFunctionCall := "function_call"

  /** `ChatCompletionMessageToolCallFunction`: `arguments` is the JSON text
      the model produced. */
  datatype FunctionCall = FunctionCall(name: string, arguments: string)

  /** `ChatCompletionMessageToolCall`. */
  datatype ToolCall = ToolCall(id: string, callType: string, functionCall: FunctionCall)

  /** `ChatCompletionMessage`, the message inside a choice. */
  datatype ChoiceMessage = ChoiceMessage(content: string, toolCalls: seq<ToolCall>)

  /** `ChatCompletionChoice`; the finish reason is the vendor's string. */
  datatype Choice = Choice(index: int, message: ChoiceMessage, finishReason: string)

  /** `CompletionUsage`. */
  datatype CompletionUsage = CompletionUsage(promptTokens: int, completionTokens: int, totalTokens: int)

  /** `ChatCompletion`, the whole response. */
  datatype ChatCompletion = ChatCompletion(id: string, model: string, choices: seq<Choice>, usage: CompletionUsage)

  /** The roles of the older `go-openai` message. */
  const ChatRoleSystem := "system"
  const ChatRoleUser := "user"
  const ChatRoleAssistant := "assistant"
  const ChatRoleTool := "tool"

  /** The older `go-openai` `ChatCompletionMessage` built by message.go;
      an unset Go field is the empty string or the empty sequence. */
  datatype ChatMessage = ChatMessage(
    role: string,
    content: string,
    multiContent: seq<ContentPart>,
    toolCalls: seq<ToolCallParam>,
    toolCallId: string)
}
