/** Response translation: a vendor chat completion becomes a Genkit
    generation response, one candidate per choice. */
module Translate {
  import opened Base
  import opened Genkit
  import opened Vendor
  import opened Errors
  import Convert

  // -------------------------------------------------------- finish reason

  /** The finish-reason table. Two vendor reasons mean a normal stop, and a
      reason outside the table is `Unknown`, never an error. */
  function FinishReasonOf(reason: string): (r: FinishReason)
    ensures r == Stop <==> reason == FinishStop || reason == FinishToolCalls
    ensures r == Length <==> reason == FinishLength
    ensures r == Blocked <==> reason == FinishContentFilter
    ensures r == Other <==> reason == FinishFunctionCall
  {
    if reason == FinishStop || reason == FinishToolCalls then Stop
    else if reason == FinishLength then Length
    else if reason == FinishContentFilter then Blocked
    else if reason == FinishFunctionCall then Other
    else Unknown
  }

  /** Every reason outside the five known ones is reported as `Unknown`,
      and no known one is. */
  lemma UnknownExactlyOutsideTable(reason: string)
    ensures FinishReasonOf(reason) == Unknown <==>
      reason !in [FinishStop, FinishToolCalls, FinishLength, FinishContentFilter, FinishFunctionCall]
  {
  }

  // ------------------------------------------------------------ tool calls

  /** The panic message of `jsonStringToMap` for arguments that do not
      decode to a JSON object; the decoder's own error text is not part of
      this model. */
  function DecodePanicReason(arguments: string): (reason: string)
    ensures |reason| > |arguments|
    ensures reason[|reason| - |arguments|..] == arguments
  {
    "unmarshal failed to parse json string " + arguments
  }

  /** `jsonStringToMap`: the decoded object, or a panic. */
  function JsonStringToMap(arguments: string, decode: string -> Option<JsonObject>): (r: Outcome<JsonObject>)
    ensures r.Done? <==> decode(arguments).Some?
    ensures r.Done? ==> r.value == decode(arguments).value
    ensures r.Panicked? ==> r.reason == DecodePanicReason(arguments)
  {
    match decode(arguments)
    case None => Panicked(DecodePanicReason(arguments))
    case Some(input) => Done(input)
  }

  /** The tool-request part for one vendor tool call: the function's name
      and its decoded arguments. */
  function ToolRequestPartOf(call: ToolCall, input: JsonObject): Part
  {
    ToolRequestPart(ToolRequest(call.functionCall.name, input))
  }

  /** The tool-request parts for a choice's tool calls, one per call, in
      order; the first call whose arguments do not decode panics. */
  function ToolRequestPartsOf(calls: seq<ToolCall>, decode: string -> Option<JsonObject>): (r: Outcome<seq<Part>>)
    ensures r.Done? <==> forall k | 0 <= k < |calls| :: decode(calls[k].functionCall.arguments).Some?
    ensures r.Done? ==> |r.value| == |calls| && forall k | 0 <= k < |calls| ::
      r.value[k] == ToolRequestPartOf(calls[k], decode(calls[k].functionCall.arguments).value)
  {
    if calls == [] then Done([])
    else match JsonStringToMap(calls[0].functionCall.arguments, decode)
      case Panicked(reason) => Panicked(reason)
      case Done(input) => PrependDone([ToolRequestPartOf(calls[0], input)], ToolRequestPartsOf(calls[1..], decode))
  }

  /** A panic while decoding tool calls is the panic of the first call
      whose arguments do not decode. */
  lemma {:induction false} ToolRequestPartsOfFirstPanic(calls: seq<ToolCall>, decode: string -> Option<JsonObject>)
    requires ToolRequestPartsOf(calls, decode).Panicked?
    ensures exists k | 0 <= k < |calls| ::
      && decode(calls[k].functionCall.arguments).None?
      && ToolRequestPartsOf(calls, decode).reason == DecodePanicReason(calls[k].functionCall.arguments)
      && forall j | 0 <= j < k :: decode(calls[j].functionCall.arguments).Some?
  {
    if decode(calls[0].functionCall.arguments).Some? {
      ToolRequestPartsOfFirstPanic(calls[1..], decode);
      var k :| 0 <= k < |calls[1..]|
        && decode(calls[1..][k].functionCall.arguments).None?
        && ToolRequestPartsOf(calls[1..], decode).reason == DecodePanicReason(calls[1..][k].functionCall.arguments)
        && forall j | 0 <= j < k :: decode(calls[1..][j].functionCall.arguments).Some?;
      assert calls[k + 1] == calls[1..][k];
    }
  }

  // ------------------------------------------------------------- candidate

  /** The single part of a choice without tool calls: the raw content,
      as data in JSON mode and as text otherwise. */
  function ContentPartOf(content: string, jsonMode: bool): (p: Part)
    ensures p.Text() == content
    ensures p.DataPart? <==> jsonMode
    ensures p.TextPart? <==> !jsonMode
  {
    if jsonMode then DataPart(content) else TextPart(content)
  }

  /** The candidate for one choice: same index, translated finish reason,
      a model-role message holding either exactly the tool-request parts or
      exactly one part with the raw content. */
  function CandidateOf(choice: Choice, jsonMode: bool, decode: string -> Option<JsonObject>): (r: Outcome<Candidate>)
    ensures r.Done? <==> ToolRequestPartsOf(choice.message.toolCalls, decode).Done?
    ensures r.Done? ==> r.value.index == choice.index
    ensures r.Done? ==> r.value.finishReason == FinishReasonOf(choice.finishReason)
    ensures r.Done? ==> r.value.message.role == RoleModel
    ensures r.Done? && |choice.message.toolCalls| > 0 ==>
      r.value.message.content == ToolRequestPartsOf(choice.message.toolCalls, decode).value
    ensures r.Done? && |choice.message.toolCalls| == 0 ==>
      r.value.message.content == [ContentPartOf(choice.message.content, jsonMode)]
    ensures r.Panicked? ==> r == Panicked(ToolRequestPartsOf(choice.message.toolCalls, decode).reason)
  {
    match ToolRequestPartsOf(choice.message.toolCalls, decode)
    case Panicked(reason) => Panicked(reason)
    case Done(parts) =>
      var content := if |parts| > 0 then parts else [ContentPartOf(choice.message.content, jsonMode)];
      Done(Candidate(choice.index, FinishReasonOf(choice.finishReason), Message(RoleModel, content)))
  }

  /** A candidate with tool calls carries only tool-request parts, and one
      without carries exactly one part whose text is the raw content: the
      two shapes never mix. */
  lemma CandidateContentExclusive(choice: Choice, jsonMode: bool, decode: string -> Option<JsonObject>)
    requires CandidateOf(choice, jsonMode, decode).Done?
    ensures var content := CandidateOf(choice, jsonMode, decode).value.message.content;
      || (|content| == |choice.message.toolCalls| > 0 && forall k | 0 <= k < |content| :: content[k].ToolRequestPart?)
      || (|content| == 1 && !content[0].ToolRequestPart? && content[0].Text() == choice.message.content)
  {
  }

  /** `translateCandidate`: collects the tool-request parts call by call,
      then builds the message. */
  method TranslateCandidate(choice: Choice, jsonMode: bool, decode: string -> Option<JsonObject>) returns (r: Outcome<Candidate>)
    ensures r == CandidateOf(choice, jsonMode, decode)
  {
    var calls := choice.message.toolCalls;
    var toolRequestParts: seq<Part> := [];
    assert calls[0..] == calls;
    for i := 0 to |calls|
      invariant ToolRequestPartsOf(calls, decode) == PrependDone(toolRequestParts, ToolRequestPartsOf(calls[i..], decode))
      invariant |toolRequestParts| == i
    {
      assert calls[i..][0] == calls[i];
      assert calls[i..][1..] == calls[i + 1..];
      var input := JsonStringToMap(calls[i].functionCall.arguments, decode);
      if input.Panicked? {
        return Panicked(input.reason);
      }
      var part := ToolRequestPartOf(calls[i], input.value);
      PrependDoneTwice(toolRequestParts, [part], ToolRequestPartsOf(calls[i + 1..], decode));
      toolRequestParts := toolRequestParts + [part];
    }
    assert calls[|calls|..] == [];
    assert toolRequestParts + [] == toolRequestParts;
    var index := choice.index;
    var finishReason := FinishReasonOf(choice.finishReason);
    if |toolRequestParts| > 0 {
      return Done(Candidate(index, finishReason, Message(RoleModel, toolRequestParts)));
    }
    var m := Message(RoleModel, []);
    if jsonMode {
      m := m.(content := m.content + [DataPart(choice.message.content)]);
    } else {
      m := m.(content := m.content + [TextPart(choice.message.content)]);
    }
    assert m.content == [ContentPartOf(choice.message.content, jsonMode)];
    return Done(Candidate(index, finishReason, m));
  }

  // -------------------------------------------------------------- response

  /** The candidates of a response, one per choice, in order; the first
      choice that panics ends the translation. */
  function CandidatesOf(choices: seq<Choice>, jsonMode: bool, decode: string -> Option<JsonObject>): (r: Outcome<seq<Candidate>>)
    ensures r.Done? <==> forall k | 0 <= k < |choices| :: CandidateOf(choices[k], jsonMode, decode).Done?
    ensures r.Done? ==> |r.value| == |choices| && forall k | 0 <= k < |choices| ::
      r.value[k] == CandidateOf(choices[k], jsonMode, decode).value
  {
    if choices == [] then Done([])
    else match CandidateOf(choices[0], jsonMode, decode)
      case Panicked(reason) => Panicked(reason)
      case Done(c) => PrependDone([c], CandidatesOf(choices[1..], jsonMode, decode))
  }

  /** The usage of the vendor response in Genkit's terms. */
  function UsageOf(usage: CompletionUsage): (u: GenerationUsage)
    ensures u.inputTokens == usage.promptTokens
    ensures u.outputTokens == usage.completionTokens
    ensures u.totalTokens == usage.totalTokens
  {
    GenerationUsage(usage.promptTokens, usage.completionTokens, usage.totalTokens)
  }

  /** The generation response for a vendor response: one candidate per
      choice in order, the usage copied, the raw response attached, and no
      request yet (`generate` attaches it). */
  function ResponseOf(resp: ChatCompletion, jsonMode: bool, decode: string -> Option<JsonObject>): (r: Outcome<GenerateResponse>)
    ensures r.Done? <==> forall k | 0 <= k < |resp.choices| :: CandidateOf(resp.choices[k], jsonMode, decode).Done?
    ensures r.Done? ==> r.value.candidates == CandidatesOf(resp.choices, jsonMode, decode).value
    ensures r.Done? ==> r.value.usage == UsageOf(resp.usage)
    ensures r.Done? ==> r.value.custom == resp
    ensures r.Done? ==> r.value.request.None?
  {
    match CandidatesOf(resp.choices, jsonMode, decode)
    case Panicked(reason) => Panicked(reason)
    case Done(candidates) => Done(GenerateResponse(candidates, UsageOf(resp.usage), resp, None))
  }

  /** Each candidate answers the choice at its position: same index and the
      finish reason from the table. */
  lemma {:induction false} CandidatesFollowChoices(resp: ChatCompletion, jsonMode: bool, decode: string -> Option<JsonObject>)
    requires ResponseOf(resp, jsonMode, decode).Done?
    ensures var cs := ResponseOf(resp, jsonMode, decode).value.candidates;
      && |cs| == |resp.choices|
      && forall k | 0 <= k < |cs| ::
        && cs[k].index == resp.choices[k].index
        && cs[k].finishReason == FinishReasonOf(resp.choices[k].finishReason)
        && cs[k].message.role == RoleModel
  {
    var cs := ResponseOf(resp, jsonMode, decode).value.candidates;
    forall k | 0 <= k < |cs|
      ensures cs[k].index == resp.choices[k].index
      ensures cs[k].finishReason == FinishReasonOf(resp.choices[k].finishReason)
      ensures cs[k].message.role == RoleModel
    {
      assert CandidateOf(resp.choices[k], jsonMode, decode).Done?;
    }
  }

  /** `translateResponse`: translates the choices one by one, then sets
      the usage and the raw response. */
  method TranslateResponse(resp: ChatCompletion, jsonMode: bool, decode: string -> Option<JsonObject>) returns (r: Outcome<GenerateResponse>)
    ensures r == ResponseOf(resp, jsonMode, decode)
  {
    var candidates: seq<Candidate> := [];
    var choices := resp.choices;
    assert choices[0..] == choices;
    for i := 0 to |choices|
      invariant CandidatesOf(choices, jsonMode, decode) == PrependDone(candidates, CandidatesOf(choices[i..], jsonMode, decode))
    {
      assert choices[i..][0] == choices[i];
      assert choices[i..][1..] == choices[i + 1..];
      var c := TranslateCandidate(choices[i], jsonMode, decode);
      if c.Panicked? {
        return Panicked(c.reason);
      }
      PrependDoneTwice(candidates, [c.value], CandidatesOf(choices[i + 1..], jsonMode, decode));
      candidates := candidates + [c.value];
    }
    assert choices[|choices|..] == [];
    assert candidates + [] == candidates;
    var usage := GenerationUsage(resp.usage.promptTokens, resp.usage.completionTokens, resp.usage.totalTokens);
    return Done(GenerateResponse(candidates, usage, resp, None));
  }

  /** A choice without tool calls is read as text, or as data in JSON
      mode, carrying its content verbatim. */
  lemma ContentChoiceScenarios(decode: string -> Option<JsonObject>)
    ensures CandidateOf(
        Choice(0, ChoiceMessage("Tell a joke about dogs.", []), FinishLength), false, decode)
      == Done(Candidate(0, Length, Message(RoleModel, [TextPart("Tell a joke about dogs.")])))
    ensures CandidateOf(
        Choice(0, ChoiceMessage("{\"json\": \"test\"}", []), FinishContentFilter), true, decode)
      == Done(Candidate(0, Blocked, Message(RoleModel, [DataPart("{\"json\": \"test\"}")])))
  {
  }

  /** A choice with one tool call becomes one tool-request part with the
      decoded arguments; its text content is dropped. */
  lemma ToolCallChoiceScenario(decode: string -> Option<JsonObject>)
    requires decode("{\"param\": \"value\"}") == Some(map["param" := JsonString("value")])
    ensures CandidateOf(
        Choice(0, ChoiceMessage("Tool call", [ToolCall("exampleTool", ToolTypeFunction, FunctionCall("exampleTool", "{\"param\": \"value\"}"))]), FinishToolCalls),
        false, decode)
      == Done(Candidate(0, Stop, Message(RoleModel,
        [ToolRequestPart(ToolRequest("exampleTool", map["param" := JsonString("value")]))])))
  {
    var calls := [ToolCall("exampleTool", ToolTypeFunction, FunctionCall("exampleTool", "{\"param\": \"value\"}"))];
    assert calls[1..] == [];
    var part := ToolRequestPart(ToolRequest("exampleTool", map["param" := JsonString("value")]));
    assert [part] + [] == [part];
  }

  // ------------------------------------------------------------ round trip

  /** A tool call the model makes with the name and the encoded input of a
      tool request the plugin sent comes back as that same tool request,
      provided decoding undoes encoding and the input is not empty (an
      empty input is sent without arguments). */
  lemma EchoedToolCallRoundTrip(p: Part, id: string, encode: JsonObject -> string, decode: string -> Option<JsonObject>)
    requires p.ToolRequestPart? && |p.request.input| > 0
    requires decode(encode(p.request.input)) == Some(p.request.input)
    ensures var sent := Convert.ConvertToolCall(p, encode);
      var echoed := ToolCall(id, sent.callType, FunctionCall(sent.functionCall.name, sent.functionCall.arguments.value));
      ToolRequestPartsOf([echoed], decode) == Done([p])
  {
    var sent := Convert.ConvertToolCall(p, encode);
    var echoed := ToolCall(id, sent.callType, FunctionCall(sent.functionCall.name, sent.functionCall.arguments.value));
    assert [echoed][1..] == [];
    assert echoed.functionCall.arguments == encode(p.request.input);
    assert JsonStringToMap(echoed.functionCall.arguments, decode) == Done(p.request.input);
    assert ToolRequestPartOf(echoed, p.request.input) == p;
    assert ToolRequestPartsOf([echoed][1..], decode) == Done([]);
    assert [p] + [] == [p];
  }
}
