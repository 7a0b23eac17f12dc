/**
 * `load_tokenizer` (src/main.rs): resolve a name to an encoder, first as a
 * model name, then, if that fails, through a fixed table from encoding names
 * to a model that uses the encoding.
 */
module Tokenizer {
  import opened Wrappers
  import opened Tiktoken

  /** The alias table, as a map: encoding name to a representative model. */
  const ENCODING_MODELS: map<string, string> := map[
    "cl100k_base" := "gpt-4",
    "p50k_base" := "text-davinci-003",
    "p50k_edit" := "text-davinci-edit-001",
    "r50k_base" := "text-davinci-001",
    "gpt2" := "text-davinci-001",
    "o200k_base" := "gpt-4o"]

  /** The `match` that picks the name for the second attempt. */
  function ModelForEncoding(model: string): string {
    match model
    case "cl100k_base" => "gpt-4"
    case "p50k_base" => "text-davinci-003"
    case "p50k_edit" => "text-davinci-edit-001"
    case "r50k_base" => "text-davinci-001"
    case "gpt2" => "text-davinci-001"
    case "o200k_base" => "gpt-4o"
    case _ => model
  }

  /** The match maps exactly the table's six names and retries every other name unchanged. */
  lemma ModelForEncodingTable(model: string)
    ensures model in ENCODING_MODELS ==> ModelForEncoding(model) == ENCODING_MODELS[model]
    ensures model !in ENCODING_MODELS ==> ModelForEncoding(model) == model
    ensures ModelForEncoding(model) != model <==> model in ENCODING_MODELS
  {
  }

  /** No alias leads to another alias: resolving the mapped name again changes nothing. */
  lemma ModelForEncodingIdempotent(model: string)
    ensures ModelForEncoding(ModelForEncoding(model)) == ModelForEncoding(model)
    ensures ModelForEncoding(model) !in ENCODING_MODELS
  {
  }

  /** `load_tokenizer`: the direct lookup, then the lookup of the mapped name. */
  function LoadTokenizer(registry: Registry, model: string): (r: Result<CoreBpe, LoadError>)
    // The name as given is tried first; when it is known, the table is not consulted.
    ensures model in registry ==> r == Success(registry[model])
    // Otherwise the result is that of the mapped name.
    ensures model !in registry && ModelForEncoding(model) in registry ==>
      r == Success(registry[ModelForEncoding(model)])
    // It fails exactly when both lookups fail, reporting the second lookup's error.
    ensures r.Failure? <==> model !in registry && ModelForEncoding(model) !in registry
    ensures r.Failure? ==> r.error == UnknownModel(ModelForEncoding(model))
  {
    match GetBpeFromModel(registry, model)
    case Success(enc) => Success(enc)
    case Failure(_) => GetBpeFromModel(registry, ModelForEncoding(model))
  }

  /** Any successful load returns the encoder of the name or of its alias, and no other. */
  lemma LoadTokenizerSource(registry: Registry, model: string)
    requires LoadTokenizer(registry, model).Success?
    ensures var enc := LoadTokenizer(registry, model).value;
      (model in registry && enc == registry[model]) ||
      (model !in registry && ModelForEncoding(model) in registry && enc == registry[ModelForEncoding(model)])
  {
  }

  /** An encoding name the library does not know directly resolves through its representative model. */
  lemma EncodingNameResolves(registry: Registry, encoding: string)
    requires encoding in ENCODING_MODELS && encoding !in registry
    requires ENCODING_MODELS[encoding] in registry
    ensures LoadTokenizer(registry, encoding) == Success(registry[ENCODING_MODELS[encoding]])
  {
    ModelForEncodingTable(encoding);
  }

  /** A name that is neither known to the library nor in the table fails, naming itself. */
  lemma UnknownNameFails(registry: Registry, model: string)
    requires model !in registry && model !in ENCODING_MODELS
    ensures LoadTokenizer(registry, model) == Failure(UnknownModel(model))
  {
    ModelForEncodingTable(model);
  }
}
