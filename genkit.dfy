/** The provider-neutral generation types of the Genkit `ai` package that
    the plugin consumes and produces. */
module Genkit {
  import opened Base
  import Vendor

  /** `ai.Role` is a string type; these are its four named values. Any
      other string is a role the plugin rejects. */
  type Role = string
  const RoleUser: Role := "user"
  const RoleSystem: Role := "system"
  const RoleModel: Role := "model"
  const RoleTool: Role := "tool"

  /** `ai.ToolRequest`: the model asks for a tool to be run. */
  datatype ToolRequest = ToolRequest(name: string, input: JsonObject)

  /** `ai.ToolResponse`: the result of running a tool. */
  datatype ToolResponse = ToolResponse(name: string, output: JsonObject)

  /** `ai.Part`, one variant per part kind, as built by the package's
      constructors (`NewTextPart`, `NewMediaPart`, `NewDataPart`,
      `NewToolRequestPart`, `NewToolResponsePart`). */
  datatype Part =
    | TextPart(text: string)
    | MediaPart(contentType: string, url: string)
    | DataPart(data: string)
    | ToolRequestPart(request: ToolRequest)
    | ToolResponsePart(response: ToolResponse)
  {
    /** The Go struct's `Text` field: the text of a text part, the URL of
        a media part, the contents of a data part, empty for tool parts. */
    function Text(): string
    {
      match this
      case TextPart(t) => t
      case MediaPart(_, url) => url
      case DataPart(d) => d
      case ToolRequestPart(_) => ""
      case ToolResponsePart(_) => ""
    }
  }

  predicate IsToolRequest(p: Part) { p.ToolRequestPart? }

  predicate IsToolResponse(p: Part) { p.ToolResponsePart? }

  /** `ai.Message`. */
  datatype Message = Message(role: Role, content: seq<Part>)

  /** `ai.ToolDefinition`. */
  datatype ToolDefinition = ToolDefinition(name: string, description: string, inputSchema: JsonObject, outputSchema: JsonObject)

  /** `ai.GenerationCommonConfig`, the fields the plugin reads. */
  datatype GenerationCommonConfig = GenerationCommonConfig(
    maxOutputTokens: int,
    stopSequences: seq<string>,
    temperature: real,
    topP: real)

  /** `ai.OutputFormatJSON` and `ai.OutputFormatText`. */
  const OutputFormatJson := "json"
  const OutputFormatText := "text"

  /** `ai.GenerateRequestOutput`; its schema is never read here. */
  datatype GenerateRequestOutput = GenerateRequestOutput(format: string)

  /** `ai.GenerateRequest`. `config` is `None` when the request's config is
      nil or is not a `*GenerationCommonConfig`; `output` is `None` when
      the pointer is nil. */
  datatype GenerateRequest = GenerateRequest(
    messages: seq<Message>,
    tools: seq<ToolDefinition>,
    candidates: int,
    config: Option<GenerationCommonConfig>,
    output: Option<GenerateRequestOutput>)

  /** `ai.FinishReason`. */
  datatype FinishReason = Stop | Length | Blocked | Other | Unknown

  /** `ai.Candidate`. */
  datatype Candidate = Candidate(index: int, finishReason: FinishReason, message: Message)

  /** `ai.GenerationUsage`. */
  datatype GenerationUsage = GenerationUsage(inputTokens: int, outputTokens: int, totalTokens: int)

  /** `ai.GenerateResponse`: `custom` holds the raw vendor response and
      `request` the request it answers, once `generate` has set it. */
  datatype GenerateResponse = GenerateResponse(
    candidates: seq<Candidate>,
    usage: GenerationUsage,
    custom: Vendor.ChatCompletion,
    request: Option<GenerateRequest>)

  /** `ai.ModelCapabilities`. */
  datatype ModelCapabilities = ModelCapabilities(multiturn: bool, tools: bool, systemRole: bool, media: bool)
}
