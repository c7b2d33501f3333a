# OpenAI plugin for Genkit Go: translation layer and registration

This project models the core of the OpenAI plugin for Genkit Go in Dafny. The plugin sits between Genkit's provider-neutral generation types (messages with roles and parts, tool definitions, sampling configuration) and OpenAI's chat-completion request and response shapes. The model covers five pieces:

- **Request conversion** (`convert.dfy`, module `Convert`):
  - roles map to vendor roles, and parts map to vendor content parts;
  - tool-request parts become function tool calls, and tool definitions become function tools;
  - each message becomes zero, one or several vendor messages, depending on its role;
  - the whole request becomes a chat-completion request. Optional fields are set only when non-zero. The output-format hint is honoured only for the models on the allow-list.
- **Response translation** (`translate.dfy`, module `Translate`):
  - each choice becomes a candidate, and its finish reason goes through the fixed table;
  - a choice's content is either exclusively tool-request parts (arguments decoded) or one text/data part holding the raw content;
  - the usage is copied and the raw response is attached.
- **Per-role message builders** (`messages.dfy`, module `Messages`): the system, user, assistant and tool builders, and their projections onto the older `go-openai` chat message. Each builder is proved to agree with the conversion above.
- **Registration** (`registration.dfy`, module `Registration`): the package state is a `Plugin` class with the fields `initted`, `client`, the defined models and the defined embedders. It models:
  - `Init`: it panics when called twice, resolves the API key, builds the client, and defines the known models and embedders;
  - `DefineModel`, which resolves capabilities, and `DefineEmbedder`; both panic before `Init`;
  - `generate`: convert the request, call the vendor, translate in the derived JSON mode, and attach the request.
- **Tables**:
  - `capabilities.dfy` holds `BasicText` and `Multimodal`;
  - `catalog.dfy` holds `knownCaps`, `modelsSupportingResponseFormats` and `knownEmbedders`.

The remaining files carry the shared types:

| file | contents |
|---|---|
| `base.dfy` | `Option`, the JSON value type, and an order-preserving `Filter` |
| `vendor.dfy` | the OpenAI SDK shapes |
| `genkit.dfy` | the Genkit `ai` types |
| `errors.dfy` | the plugin's error values, and the `Result` and `Outcome` wrappers. `Outcome` distinguishes a normal return from a Go panic. |

Each loop of the source is a method proved against a specification:

- the loops of `convertToolCalls`, `convertMessages`, `translateCandidate` and `translateResponse`, and the user and tool loops inside one message, against functions that recurse over the same input;
- the loop of `convertTools` against `ConvertTool` element by element, which is the sequence `ToolsOf` that `RequestOf` uses;
- the two loops of `Init`, over `knownCaps` and `knownEmbedders`, through invariants that give the models and embedders defined so far, and so the final state.

The properties are stated on the specification functions as postconditions and lemmas.

The JSON codec is not modelled. Marshalling and unmarshalling are function-valued parameters: `encode` and `decode`.

Three behaviours of the code are worth spelling out:

- **Assistant messages.** An assistant message carries the first part's text when it is non-empty, as well as the tool calls (`plugins/openai/convert.go:98-106`). `Convert.AssistantOf` states this rule.
- **System messages.** A system message takes the `Text` field of the first part, whatever its kind, and ignores the rest (`plugins/openai/convert.go:80-82`).
- **Panic message.** The panic on a second `Init` reads "openai.Init not called" (`plugins/openai/openai.go:61-63`). The model keeps that text.

## Model

| member | source | states |
|---|---|---|
| Convert.ConvertRole | plugins/openai/convert.go:194-207 | exactly the four Genkit roles convert; the result maps back to the same role; any other role gives `UnknownRole` of that role |
| Convert.RoleRoundTrip | plugins/openai/convert.go:194-207 | the role map is a bijection: each of the four vendor roles comes from exactly one Genkit role, and model maps to assistant |
| Convert.ConvertPart | plugins/openai/convert.go:128-139 | text and media parts convert, carrying the part's text; text stays text, media becomes an image with detail "auto"; every other kind is `UnknownPartType` |
| Convert.ConvertToolCall | plugins/openai/convert.go:153-168 | call ID and function name are the tool's name, type is function, arguments are set exactly when the input is non-empty and are then the encoded input |
| Convert.ConvertToolCalls | plugins/openai/convert.go:141-151 | the loop yields exactly the specification's tool calls |
| Convert.ToolCallsOfFilter | plugins/openai/convert.go:141-151 | the tool calls are the conversions of exactly the tool-request parts, in their original order |
| Convert.ToolCallsOfAppend | plugins/openai/convert.go:141-151 | tool calls of concatenated content are the concatenation of the tool calls |
| Convert.ConvertTool | plugins/openai/convert.go:182-192 | never fails; a function tool with the same name and description, the input schema passed through unchanged, strict off |
| Convert.ConvertTools | plugins/openai/convert.go:170-180 | always succeeds with one tool per definition, in order, each the conversion of its definition; the result is the `ToolsOf` sequence the request carries |
| Convert.UserContentOf | plugins/openai/convert.go:84-93 | succeeds exactly when every part converts, and then holds one content part per input part in order |
| Convert.UserContentOfFirstError | plugins/openai/convert.go:85-89 | a failed user message reports the error of its first unconvertible part, and every part before it converts |
| Convert.ToolMessagesOfFilter | plugins/openai/convert.go:108-120 | a tool-role message yields one tool message per tool-response part, in order, call ID the tool's name, content the encoded output |
| Convert.AssistantOf | plugins/openai/convert.go:94-107 | text content present exactly when the first part's text is non-empty; tool calls present exactly when some part is a tool request, and then equal to the converted tool calls |
| Convert.MessageOf | plugins/openai/convert.go:74-124 | one message fails exactly when its role is unknown (with `UnknownRole` of that role) or it is a user message with an unconvertible part (with the user content's error). Otherwise: a system message is one system message holding the first part's text; a user message is one user message holding the converted parts; a model message is the one assistant message `AssistantOf` describes; a tool message yields, in order, one tool message per tool-response part, its call ID the tool's name and its content the encoded output |
| Convert.MessagesOf | plugins/openai/convert.go:71-126 | the conversation converts exactly when every message does, and then yields the sum of the per-message counts |
| Convert.MessagesOfFirstError | plugins/openai/convert.go:74-78 | a failed conversion reports the error of the first message that fails, and all earlier messages convert |
| Convert.MessagesOfAppend | plugins/openai/convert.go:71-126 | converting two concatenated conversations gives the concatenation of their conversions |
| Convert.ConvertMessage | plugins/openai/convert.go:75-124 | the loop body for one message yields exactly the specification's vendor messages or error |
| Convert.ConvertMessages | plugins/openai/convert.go:71-126 | the loop yields exactly the specification's conversion |
| Convert.ResponseFormatOf | plugins/openai/convert.go:54-65 | json gives the JSON-object format, text gives the text format, any other format is `UnknownOutputFormat` |
| Convert.RequestOf | plugins/openai/convert.go:12-69 | fails exactly when the messages fail or an honoured format is unknown; message errors propagate, and an unknown honoured format is `UnknownOutputFormat` of that format. Otherwise: same model and messages; N, tools, max tokens, stop, temperature and top-p are set exactly when non-zero or non-empty and then carry the source value; the response format is set exactly when the hint is honoured |
| Convert.ZeroValuesNeverSent | plugins/openai/convert.go:28-49 | no optional field of a converted request carries a zero value or an empty list |
| Convert.TextRequestScenario | plugins/openai2/convert_test.go:410-458 | the one-message request with candidates 3, max tokens 10, stop "\n", temperature 0.7, top-p 0.9 and a text hint converts to exactly the expected vendor request |
| Convert.ConvertRequest | plugins/openai/convert.go:12-69 | the field-by-field construction yields exactly the specification's request or error |
| Translate.FinishReasonOf | plugins/openai/translate.go:29-40 | stop and tool_calls give Stop, length gives Length, content_filter gives Blocked, function_call gives Other |
| Translate.UnknownExactlyOutsideTable | plugins/openai/translate.go:38-39 | a reason gives Unknown exactly when it is none of the five known reasons; no reason is an error |
| Translate.DecodePanicReason | plugins/openai/utils.go:11 | the panic message ends with the offending argument string |
| Translate.JsonStringToMap | plugins/openai/utils.go:8-14 | completes exactly when the arguments decode, with the decoded object; otherwise panics with the argument-bearing message |
| Translate.ToolRequestPartsOf | plugins/openai/translate.go:47-53 | completes exactly when every call's arguments decode, and then holds one tool-request part per call in order, named after the function, with the decoded input |
| Translate.ToolRequestPartsOfFirstPanic | plugins/openai/translate.go:48-53 | a panic is the panic of the first call whose arguments do not decode |
| Translate.ContentPartOf | plugins/openai/translate.go:60-64 | the single part carries the raw content; it is a data part exactly in JSON mode and a text part otherwise |
| Translate.CandidateOf | plugins/openai/translate.go:24-68 | same index, the table's finish reason, role model; content is exactly the tool-request parts when there are tool calls, else exactly one content part; panics only with the decoding panic |
| Translate.CandidateContentExclusive | plugins/openai/translate.go:54-64 | a candidate holds either only tool-request parts, one per call, or exactly one non-tool part whose text is the raw content |
| Translate.TranslateCandidate | plugins/openai/translate.go:24-68 | the loop and the field updates yield exactly the specification's candidate |
| Translate.CandidatesOf | plugins/openai/translate.go:11-13 | completes exactly when every choice does, and then holds one candidate per choice in order |
| Translate.UsageOf | plugins/openai/translate.go:15-19 | input, output and total tokens are the prompt, completion and total tokens |
| Translate.ResponseOf | plugins/openai/translate.go:8-22 | candidates are the choices' candidates, usage copied, the raw response attached, no request yet |
| Translate.CandidatesFollowChoices | plugins/openai/translate.go:11-13 | the k-th candidate has the k-th choice's index, its table finish reason, and role model |
| Translate.TranslateResponse | plugins/openai/translate.go:8-22 | the loop yields exactly the specification's response |
| Translate.ContentChoiceScenarios | plugins/openai/translate_test.go:20-71 | a length-finished text choice and a content-filtered JSON-mode choice translate to the expected text and data candidates |
| Translate.ToolCallChoiceScenario | plugins/openai/translate_test.go:72-112 | a tool_calls choice with one call becomes a Stop candidate with exactly that tool request, its text dropped |
| Translate.EchoedToolCallRoundTrip | plugins/openai/translate.go:48-53 | a tool call echoing a request the plugin sent (non-empty input, decoding undoes encoding) translates back to that same tool request |
| Messages.SystemMessage.ToMessage | plugins/openai/message.go:21-26 | role system, content copied, no other field set |
| Messages.UserMessage.ToMessage | plugins/openai/message.go:47-52 | role user, parts as multi-part content, no other field set |
| Messages.AssistantMessage.ToMessage | plugins/openai/message.go:69-75 | role assistant, tool calls and content copied, no other field set |
| Messages.ToolMessage.ToMessage | plugins/openai/message.go:93-99 | role tool, call ID and content copied, no other field set |
| Messages.ConvertSystemMessage | plugins/openai/message.go:15-19 | keeps the first part's text only |
| Messages.ConvertUserMessage | plugins/openai/message.go:33-45 | succeeds exactly when every part converts, with the parts converted in order; otherwise returns the error of the first part that does not convert, every earlier part having converted |
| Messages.ConvertAssistantMessage | plugins/openai/message.go:61-67 | tool calls are the converted tool-request parts (one per such part), content the first part's text |
| Messages.ConvertToolMessage | plugins/openai/message.go:82-91 | succeeds exactly on a tool-response part, with call ID the tool's name and content the encoded output; any other part is `NotToolResponse` |
| Messages.SystemBuilderAgrees | plugins/openai/message.go:15-26 | the system builder and the conversation converter send the same text |
| Messages.UserBuilderAgrees | plugins/openai/message.go:33-52 | the user builder fails exactly when the converter fails on that message, and otherwise sends the same parts |
| Messages.AssistantBuilderAgrees | plugins/openai/message.go:61-75 | the converter sends tool calls exactly when the builder has some, the same ones, and text exactly when the builder's text is non-empty |
| Messages.ToolBuilderAgrees | plugins/openai/message.go:82-99 | the tool builder and the converter answer a tool response with the same call ID and content |
| Capabilities.DescriptorsDifferOnlyInMedia | plugins/openai/gpt.go:7-20 | both descriptors support multi-turn, tools and system role; only `Multimodal` supports media, and that is their only difference |
| Catalog.CatalogConsistency | plugins/openai/openai.go:26-43 | every model accepting response formats is a known multimodal model; a known model declares media exactly when it is multimodal; gpt-4 is text-only and not on the allow-list |
| Registration.ResolveApiKey | plugins/openai/openai.go:70-76 | a key is found exactly when the explicit or the environment key is non-empty; the explicit key wins, the environment key is used only when the explicit one is empty; a found key is never empty |
| Registration.NilConfigIsEmptyConfig | plugins/openai/openai.go:56-58 | a nil configuration resolves exactly as an empty one |
| Registration.InitError | plugins/openai/openai.go:64-68 | every `Init` error is the message prefixed with "openai.Init: " |
| Registration.ModelMetadataOf | plugins/openai/openai.go:114-118 | the metadata of a defined model: label "OpenAI - " followed by the name, and exactly the given capabilities |
| Registration.ResolveCapabilities | plugins/openai/openai.go:100-109 | explicit capabilities are used as given; without them a known name gets its known capabilities and an unknown name is `UnknownModel` |
| Registration.KnownModelsDeclareMediaExactlyWhenMultimodal | plugins/openai/openai.go:26-31 | defining a known model without capabilities gives the metadata `Init` gives it, and only gpt-4 lacks media support |
| Registration.Plugin.constructor | plugins/openai/openai.go:19-23 | the state starts uninitialised, with no client and nothing defined |
| Registration.Plugin.Model | plugins/openai/openai.go:178-180 | a model is found exactly when it is defined, with its metadata |
| Registration.Plugin.Embedder | plugins/openai/openai.go:184-186 | an embedder is found exactly when it is defined |
| Registration.Plugin.IsDefinedModel | plugins/openai/openai.go:128-131 | a model is reported defined exactly when looking it up finds it |
| Registration.Plugin.IsDefinedEmbedder | plugins/openai/openai.go:143-146 | an embedder is reported defined exactly when looking it up finds it |
| Registration.Plugin.RegisterModel | plugins/openai/openai.go:114-126 | the model is defined under its name with label "OpenAI - name" and the given capabilities; nothing else changes |
| Registration.Plugin.RegisterEmbedder | plugins/openai/openai.go:149-150 | the embedder is defined; nothing else changes |
| Registration.Plugin.Init | plugins/openai/openai.go:55-88 | keeps the state invariant. When already initialised: panics and changes nothing. With no key: returns the prefixed missing-key error and changes nothing. Otherwise: the client is built from the resolved key, the state is initialised, and exactly the known models and embedders are defined |
| Registration.Plugin.DefineModel | plugins/openai/openai.go:94-111 | panics before `Init`, changing nothing; with unresolvable capabilities returns `UnknownModel` and defines nothing; otherwise defines the model with the resolved capabilities and changes nothing else |
| Registration.Plugin.DefineEmbedder | plugins/openai/openai.go:134-141 | panics before `Init`, changing nothing; otherwise defines the embedder and changes nothing else |
| Registration.JsonMode | plugins/openai/openai.go:205-209 | the response is read as JSON exactly when the request has an output whose format the request conversion maps to the JSON-object format |
| Registration.JsonModeAndResponseFormat | plugins/openai/openai.go:205-209 | on an allow-listed model, JSON mode holds exactly when the request carries the JSON-object response format; on any other model no format is sent, whatever the JSON mode |
| Registration.Generate | plugins/openai/openai.go:188-214 | conversion errors and vendor-call errors are returned as they are; otherwise the response is the translation in JSON mode (set exactly when the output asks for JSON) with the request attached, or the translation's panic |

## Left out

- The vendor HTTP calls (`CreateChatCompletion`, `CreateEmbeddings`) are network I/O. The chat call is a function-valued parameter of `Generate` and the embedding call is not modelled.
- The body of the embedder that `defineEmbedder` registers is not modelled: it sends floating-point embedding vectors over the network. Only the definition of the embedder's name is.
- The mutex around the package state is not modelled. The state is a sequential `Plugin` object.
- `os.Getenv` is a parameter of `Init` holding the environment variable's value.
- The Genkit registry (`ai.DefineModel`, `ai.DefineEmbedder`, `ai.LookupModel`, `ai.IsDefinedModel`) is represented by the `models` map and `embedders` set of `Plugin`. The registry's own reaction to a second definition of the same name is not part of this model: the map entry is overwritten.
- `Init` iterates over `knownCaps` in Go's unspecified map order. The model picks names from a set; only the resulting set of definitions is stated.
- JSON marshalling and unmarshalling are parameters. Consequences:
  - `mapToJSONString` cannot fail here, while the Go helper panics if marshalling fails;
  - no JSON round trip is proved;
  - `mapToJSONRawMessage` is unused by the source and left out.
- Translate.DecodePanicReason: the panic message omits the wrapped decoder error text, which belongs to `encoding/json`.
- The `%#v` and `%q` renderings inside error messages are not modelled. Errors are datatype values carrying the offending role, part, format or model name.
- Temperature and top-p are `real`. Go's `float64` NaN and negative zero are not modelled; only the "set when not zero" rule matters.
- A system or model message with empty content makes the Go code panic on `Content[0]`. This is a precondition (`Convert.Indexable`) rather than a modelled panic.
- The streaming callback of `generate` is unused by the source and left out, and so is the `context.Context`.
- message.go is written against the older `go-openai` SDK. It calls `convertPart` and `convertToolCalls`, whose result types in `plugins/openai/convert.go` are `openai-go` types. The model reuses the `openai-go` content-part and tool-call shapes inside the legacy chat message.
- The `Name` and `Refusal` fields of the builders are always empty, since no code path sets them.
- `Candidate.Custom` and the other Genkit fields the plugin never sets are not part of the datatypes.
- The openai2 package implementation is not part of this model; only its tests informed the expected request shapes.
