/** The fixed tables of plugins/openai/openai.go: the models registered by
    `Init` with their capabilities, the models that accept a response
    format, and the embedders registered by `Init`. The names are the
    values of the `go-openai` constants the source uses. */
module Catalog {
  import opened Genkit
  import opened Capabilities

  const Gpt4o := "gpt-4o"
  const Gpt4oMini := "gpt-4o-mini"
  const Gpt4Turbo := "gpt-4-turbo"
  const Gpt4 := "gpt-4"

  /** `knownCaps`. */
  const KnownCaps: map<string, ModelCapabilities> :=
    map[Gpt4o := Multimodal, Gpt4oMini := Multimodal, Gpt4Turbo := Multimodal, Gpt4 := BasicText]

  /** `modelsSupportingResponseFormats`. */
  const ModelsSupportingResponseFormats: seq<string> := [Gpt4o, Gpt4oMini, Gpt4Turbo]

  /** `knownEmbedders`. */
  const KnownEmbedders: seq<string> := ["text-embedding-3-small", "text-embedding-3-large", "text-embedding-ada-002"]

  /** Every model that accepts a response format is a known multimodal
      model, and the one text-only model, gpt-4, accepts no response
      format and declares no media support. */
  lemma {:induction false} CatalogConsistency()
    ensures forall m | m in ModelsSupportingResponseFormats :: m in KnownCaps && KnownCaps[m] == Multimodal
    ensures forall m | m in KnownCaps :: KnownCaps[m].media <==> KnownCaps[m] == Multimodal
    ensures KnownCaps[Gpt4] == BasicText && !KnownCaps[Gpt4].media && Gpt4 !in ModelsSupportingResponseFormats
  {
  }
}
