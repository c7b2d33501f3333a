/** The plugin's registration state machine and its generate function.
    The package-level state is a `Plugin` object: it starts uninitialised,
    `Init` initialises it once, and models and embedders can be defined
    only once it is initialised. The Genkit registry the plugin defines
    its actions in is represented by the names (and, for models, the
    metadata) defined so far. */
module Registration {
  import opened Base
  import opened Genkit
  import opened Errors
  import Vendor
  import Catalog
  import Convert
  import Translate

  const Provider := "openai"
  const LabelPrefix := "OpenAI"
  const ApiKeyEnv := "OPENAI_API_KEY"

  /** The panic message of a second `Init` and of a definition before
      `Init`. */
  const InitNotCalled := Provider + ".Init not called"

  /** The prefix of every error `Init` returns. */
  const InitErrorPrefix := Provider + ".Init: "

  const MissingKeyMessage := "OpenAI requires setting " + ApiKeyEnv +
    " in the environment. You can get an API key at https://platform.openai.com/api-keys"

  /** `Config`; a nil `*Config` is `None`. */
  datatype Config = Config(apiKey: string)

  /** The vendor client, identified by the key it was built with. */
  datatype Client = Client(apiKey: string)

  /** `ai.ModelMetadata`. */
  datatype ModelMetadata = ModelMetadata(modelLabel: string, supports: ModelCapabilities)

  /** The explicit key of a configuration; a nil configuration is an empty
      one. */
  function ExplicitKey(cfg: Option<Config>): string
  {
    if cfg.Some? then cfg.value.apiKey else ""
  }

  /** The key `Init` uses: the explicit key when it is non-empty, else the
      environment's value when that is non-empty, else none. */
  function ResolveApiKey(cfg: Option<Config>, env: string): (key: Option<string>)
    ensures key.Some? <==> ExplicitKey(cfg) != "" || env != ""
    ensures key.Some? ==> key.value != ""
    ensures ExplicitKey(cfg) != "" ==> key == Some(ExplicitKey(cfg))
    ensures ExplicitKey(cfg) == "" && env != "" ==> key == Some(env)
  {
    var apiKey := ExplicitKey(cfg);
    if apiKey != "" then Some(apiKey)
    else if env != "" then Some(env)
    else None
  }

  /** A nil configuration behaves exactly as an empty one. */
  lemma NilConfigIsEmptyConfig(env: string)
    ensures ResolveApiKey(None, env) == ResolveApiKey(Some(Config("")), env)
  {
  }

  /** The error `Init` returns for a message: always prefixed. */
  function InitError(message: string): (e: Error)
    ensures e.InitFailed? && |e.message| >= |InitErrorPrefix|
    ensures e.message[..|InitErrorPrefix|] == InitErrorPrefix
    ensures e.message[|InitErrorPrefix|..] == message
  {
    InitFailed(InitErrorPrefix + message)
  }

  /** The metadata `defineModel` registers: a label naming the provider
      and the model, and the given capabilities. */
  function ModelMetadataOf(name: string, caps: ModelCapabilities): (m: ModelMetadata)
    ensures m.modelLabel == LabelPrefix + " - " + name
    ensures m.supports == caps
  {
    ModelMetadata(LabelPrefix + " - " + name, caps)
  }

  /** The capabilities `DefineModel` registers a model with: the explicit
      ones when given, else the known ones for that name, else an error. */
  function ResolveCapabilities(name: string, caps: Option<ModelCapabilities>): (r: Result<ModelCapabilities>)
    ensures caps.Some? ==> r == Ok(caps.value)
    ensures caps.None? ==> (r.Ok? <==> name in Catalog.KnownCaps)
    ensures caps.None? && r.Ok? ==> r.value == Catalog.KnownCaps[name]
    ensures r.Err? ==> r.error == UnknownModel(name)
  {
    if caps.Some? then Ok(caps.value)
    else if name in Catalog.KnownCaps then Ok(Catalog.KnownCaps[name])
    else Err(UnknownModel(name))
  }

  /** The models a successful `Init` defines. */
  function KnownModels(): map<string, ModelMetadata>
  {
    map m | m in Catalog.KnownCaps :: ModelMetadataOf(m, Catalog.KnownCaps[m])
  }

  /** A known model defined without explicit capabilities gets exactly the
      metadata `Init` gives it; only the multimodal ones declare media. */
  lemma KnownModelsDeclareMediaExactlyWhenMultimodal(name: string)
    requires name in Catalog.KnownCaps
    ensures ResolveCapabilities(name, None).Ok?
    ensures ModelMetadataOf(name, ResolveCapabilities(name, None).value) == KnownModels()[name]
    ensures KnownModels()[name].supports.media <==> name != Catalog.Gpt4
  {
  }

  class Plugin {
    var initted: bool
    var client: Option<Client>
    /** The models defined in the registry, with their metadata. */
    var models: map<string, ModelMetadata>
    /** The embedders defined in the registry. */
    var embedders: set<string>

    /** Uninitialised: no client and nothing defined. Initialised: a client
        built from a non-empty key, and every known model and embedder
        defined. */
    ghost predicate Valid()
      reads this
    {
      && (!initted ==> client.None? && models == map[] && embedders == {})
      && (initted ==>
            && client.Some? && client.value.apiKey != ""
            && (forall m | m in Catalog.KnownCaps :: m in models)
            && (forall e | e in Catalog.KnownEmbedders :: e in embedders))
    }

    constructor ()
      ensures Valid() && !initted
    {
      initted := false;
      client := None;
      models := map[];
      embedders := {};
    }

    /** `Model`: the defined model with that name, if any. */
    function Model(name: string): (r: Option<ModelMetadata>)
      reads this
      ensures r.Some? <==> name in models
      ensures r.Some? ==> r.value == models[name]
    {
      if name in models then Some(models[name]) else None
    }

    /** `Embedder`: the defined embedder with that name, if any. */
    function Embedder(name: string): (r: Option<string>)
      reads this
      ensures r.Some? <==> name in embedders
      ensures r.Some? ==> r.value == name
    {
      if name in embedders then Some(name) else None
    }

    /** `IsDefinedModel`: a model is defined exactly when looking it up
        finds it. */
    function IsDefinedModel(name: string): (b: bool)
      reads this
      ensures b <==> Model(name).Some?
    {
      name in models
    }

    /** `IsDefinedEmbedder`: an embedder is defined exactly when looking
        it up finds it. */
    function IsDefinedEmbedder(name: string): (b: bool)
      reads this
      ensures b <==> Embedder(name).Some?
    {
      name in embedders
    }

    /** `defineModel`: registers the model under its name. */
    method RegisterModel(name: string, caps: ModelCapabilities) returns (meta: ModelMetadata)
      modifies this
      ensures meta == ModelMetadataOf(name, caps)
      ensures models == old(models)[name := meta]
      ensures initted == old(initted) && client == old(client) && embedders == old(embedders)
    {
      meta := ModelMetadata(LabelPrefix + " - " + name, caps);
      models := models[name := meta];
    }

    /** `defineEmbedder`: registers the embedder under its name. */
    method RegisterEmbedder(name: string)
      modifies this
      ensures embedders == old(embedders) + {name}
      ensures initted == old(initted) && client == old(client) && models == old(models)
    {
      embedders := embedders + {name};
    }

    /** `Init`: panics when already initialised; fails, changing nothing,
        when no key can be found; otherwise builds the client and defines
        every known model and embedder. */
    method Init(cfg: Option<Config>, env: string) returns (r: Outcome<Result<()>>)
      requires Valid()
      modifies this
      ensures Valid()
      ensures old(initted) ==> r == Panicked(InitNotCalled) && unchanged(this)
      ensures !old(initted) && ResolveApiKey(cfg, env).None? ==>
        r == Done(Err(InitError(MissingKeyMessage))) && unchanged(this)
      ensures !old(initted) && ResolveApiKey(cfg, env).Some? ==>
        && r == Done(Ok(()))
        && initted
        && client == Some(Client(ResolveApiKey(cfg, env).value))
        && models == KnownModels()
        && embedders == set e | e in Catalog.KnownEmbedders
    {
      if initted {
        return Panicked(InitNotCalled);
      }
      var apiKey := ExplicitKey(cfg);
      if apiKey == "" {
        apiKey := env;
        if apiKey == "" {
          return Done(Err(InitError(MissingKeyMessage)));
        }
      }
      client := Some(Client(apiKey));
      initted := true;
      var pending := Catalog.KnownCaps.Keys;
      while pending != {}
        invariant pending <= Catalog.KnownCaps.Keys
        invariant models == map m | m in Catalog.KnownCaps.Keys - pending :: ModelMetadataOf(m, Catalog.KnownCaps[m])
        invariant initted && client == Some(Client(apiKey)) && embedders == {}
        decreases pending
      {
        var name :| name in pending;
        var _ := RegisterModel(name, Catalog.KnownCaps[name]);
        pending := pending - {name};
      }
      assert Catalog.KnownCaps.Keys - pending == Catalog.KnownCaps.Keys;
      for i := 0 to |Catalog.KnownEmbedders|
        invariant embedders == set e | e in Catalog.KnownEmbedders[..i]
        invariant initted && client == Some(Client(apiKey)) && models == KnownModels()
      {
        assert Catalog.KnownEmbedders[..i + 1] == Catalog.KnownEmbedders[..i] + [Catalog.KnownEmbedders[i]];
        RegisterEmbedder(Catalog.KnownEmbedders[i]);
      }
      assert Catalog.KnownEmbedders[..|Catalog.KnownEmbedders|] == Catalog.KnownEmbedders;
      return Done(Ok(()));
    }

    /** `DefineModel`: panics before `Init`; with unresolvable capabilities
        fails and defines nothing; otherwise defines the model. */
    method DefineModel(name: string, caps: Option<ModelCapabilities>) returns (r: Outcome<Result<ModelMetadata>>)
      requires Valid()
      modifies this
      ensures Valid()
      ensures !old(initted) ==> r == Panicked(InitNotCalled) && unchanged(this)
      ensures old(initted) && ResolveCapabilities(name, caps).Err? ==>
        r == Done(Err(UnknownModel(name))) && unchanged(this)
      ensures old(initted) && ResolveCapabilities(name, caps).Ok? ==>
        && r == Done(Ok(ModelMetadataOf(name, ResolveCapabilities(name, caps).value)))
        && models == old(models)[name := r.value.value]
        && initted && client == old(client) && embedders == old(embedders)
    {
      if !initted {
        return Panicked(InitNotCalled);
      }
      var mc: ModelCapabilities;
      if caps.None? {
        if name !in Catalog.KnownCaps {
          return Done(Err(UnknownModel(name)));
        }
        mc := Catalog.KnownCaps[name];
      } else {
        mc := caps.value;
      }
      var meta := RegisterModel(name, mc);
      return Done(Ok(meta));
    }

    /** `DefineEmbedder`: panics before `Init`; otherwise defines the
        embedder. */
    method DefineEmbedder(name: string) returns (r: Outcome<string>)
      requires Valid()
      modifies this
      ensures Valid()
      ensures !old(initted) ==> r == Panicked(InitNotCalled) && unchanged(this)
      ensures old(initted) ==>
        && r == Done(name)
        && embedders == old(embedders) + {name}
        && initted && client == old(client) && models == old(models)
    {
      if !initted {
        return Panicked(InitNotCalled);
      }
      RegisterEmbedder(name);
      return Done(name);
    }
  }

  // -------------------------------------------------------------- generate

  /** Whether the response is read as JSON: exactly when the request asks
      for JSON output, whether or not the model was sent a response
      format. */
  function JsonMode(output: Option<GenerateRequestOutput>): (b: bool)
    ensures b <==> output.Some? && Convert.ResponseFormatOf(output.value.format) == Ok(Vendor.JsonObjectFormat)
  {
    output.Some? && output.value.format == OutputFormatJson
  }

  /** On a model that accepts response formats, JSON mode goes with a
      JSON-object response format in the request; on any other model the
      response is still read as JSON although no format was sent. */
  lemma JsonModeAndResponseFormat(model: string, input: GenerateRequest, encode: JsonObject -> string)
    requires Convert.AllIndexable(input.messages)
    requires Convert.RequestOf(model, input, encode).Ok?
    ensures var req := Convert.RequestOf(model, input, encode).value;
      && (model in Catalog.ModelsSupportingResponseFormats ==>
            (JsonMode(input.output) <==> req.responseFormat == Some(Vendor.JsonObjectFormat)))
      && (model !in Catalog.ModelsSupportingResponseFormats ==> req.responseFormat.None?)
  {
  }

  /** `generate`: converts the request, makes the vendor call (a
      parameter here), translates the response in the derived JSON mode
      and attaches the request to it. */
  method Generate(
    client: Client,
    model: string,
    input: GenerateRequest,
    call: (Client, Vendor.ChatRequest) -> Result<Vendor.ChatCompletion>,
    encode: JsonObject -> string,
    decode: string -> Option<JsonObject>)
    returns (r: Outcome<Result<GenerateResponse>>)
    requires Convert.AllIndexable(input.messages)
    ensures var req := Convert.RequestOf(model, input, encode);
      req.Err? ==> r == Done(Err(req.error))
    ensures var req := Convert.RequestOf(model, input, encode);
      req.Ok? && call(client, req.value).Err? ==> r == Done(Err(call(client, req.value).error))
    ensures var req := Convert.RequestOf(model, input, encode);
      req.Ok? && call(client, req.value).Ok? ==>
        var resp := Translate.ResponseOf(call(client, req.value).value, JsonMode(input.output), decode);
        && (resp.Panicked? ==> r == Panicked(resp.reason))
        && (resp.Done? ==> r == Done(Ok(resp.value.(request := Some(input)))))
  {
    var req := Convert.ConvertRequest(model, input, encode);
    if req.Err? {
      return Done(Err(req.error));
    }
    var resp := call(client, req.value);
    if resp.Err? {
      return Done(Err(resp.error));
    }
    var jsonMode := false;
    if input.output.Some? && input.output.value.format == OutputFormatJson {
      jsonMode := true;
    }
    var translated := Translate.TranslateResponse(resp.value, jsonMode, decode);
    if translated.Panicked? {
      return Panicked(translated.reason);
    }
    var response := translated.value.(request := Some(input));
    return Done(Ok(response));
  }
}
