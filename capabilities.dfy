/** The two capability descriptors of plugins/openai/gpt.go. */
module Capabilities {
  import opened Genkit

  /** Text-only GPT models. */
  const BasicText := ModelCapabilities(multiturn := true, tools := true, systemRole := true, media := false)

  /** Multimodal GPT models. */
  const Multimodal := ModelCapabilities(multiturn := true, tools := true, systemRole := true, media := true)

  /** Both descriptors support multi-turn chat, tools and the system role;
      they differ in the media flag alone, which only `Multimodal` sets. */
  lemma DescriptorsDifferOnlyInMedia()
    ensures BasicText.multiturn && BasicText.tools && BasicText.systemRole && !BasicText.media
    ensures Multimodal.multiturn && Multimodal.tools && Multimodal.systemRole && Multimodal.media
    ensures Multimodal == BasicText.(media := true)
  {
  }
}
