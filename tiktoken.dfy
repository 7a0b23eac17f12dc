/**
 * The boundary of the `tiktoken_rs` library, whose code is not part of this
 * model. A compiled encoder is an opaque value with an encoding function, and
 * `get_bpe_from_model` is a partial function from model names to encoders:
 * the registry of models the library can build, which may accept an unbounded
 * set of names (for instance every name with a known prefix).
 */
module Tiktoken {
  import opened Wrappers

  /** `CoreBPE`: `encode_with_special_tokens` is deterministic in its input. */
  datatype CoreBpe = CoreBpe(encodeWithSpecialTokens: string -> seq<nat>)

  /** The models the library knows, each with the encoder it builds; possibly infinitely many names. */
  type Registry = imap<string, CoreBpe>

  /** The library's error for a model it cannot build; its message text is the library's. */
  datatype LoadError = UnknownModel(model: string)

  /** `tiktoken_rs::get_bpe_from_model`. */
  function GetBpeFromModel(registry: Registry, model: string): (r: Result<CoreBpe, LoadError>)
    ensures r.Success? <==> model in registry
    ensures r.Success? ==> r.value == registry[model]
    ensures r.Failure? ==> r.error == UnknownModel(model)
  {
    if model in registry then Success(registry[model]) else Failure(UnknownModel(model))
  }
}
