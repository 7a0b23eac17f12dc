# dev-tiktokenizer core, modelled in Dafny

dev-tiktokenizer is a small HTTP gateway that turns text into BPE token ids.
At start-up it reads its settings from the environment (`Config::load`). It
spawns one warmup task that resolves the default tokenizer name and stores the
compiled encoder in a shared slot guarded by a lock, next to a `ready` flag.
It then serves `/health`, `/ready` and `/tokenize` from that slot.

This project models that core:

- `decimal.dfy` (module `Decimal`): decimal text of naturals, the way Rust's
  `{}` prints a `usize`, and `str::parse::<u16>`, which `Config::load` uses for
  the port. It proves that `NatToDecimal` and `DigitsValue` are inverse in both directions
  on digit strings without a leading zero, and that `ParseU16` reads back the
  decimal text of every 16-bit value (the converse does not hold: "+80" and
  "0080" parse but are not printed that way).
- `config.dfy` (module `Config`): `Config::load` as a pure function of an
  environment `map<string, Option<string>>`. An absent name is unset. A name
  mapped to `None` is set to a value that is not valid Unicode. `env::var`
  fails in both cases, and `Config::load` treats the two failures alike.
- `tiktoken.dfy` (module `Tiktoken`): the boundary of the `tiktoken_rs`
  library. An encoder (`CoreBpe`) is an opaque value whose
  `encode_with_special_tokens` is a function field. `get_bpe_from_model` is a
  partial function, given as a `Registry`, a possibly infinite map (`imap`)
  from model name to encoder.
- `tokenizer.dfy` (module `Tokenizer`): `load_tokenizer`. It tries the name
  directly. If that fails, it maps encoding names to a representative model
  through the fixed alias table and tries once more.
- `gateway.dfy` (module `Gateway`): the `AppState` class with its two shared
  cells and the one-shot `Warmup` method. `WarmupStep` is the pure step that
  specifies `Warmup`. The handlers `Health`, `Ready` and `Tokenize` are
  projections of a snapshot (`Slot`) of the two cells. The module also holds
  the display tokens `"[id]"` and their inverse.

The shared state starts as `(None, false)`. Warmup runs once and ends in one
of three states: loaded `(Some(enc), true)`, failed `(None, false)`, or
bypassed `(None, true)` when preloading is off. In the bypassed state `/ready`
answers 200 while `/tokenize` answers 503 with empty lists for the rest of the
process. This gap is preserved as the code has it (`AfterWarmup`). The
request's `model` field is bound and never used. `TokenizeIgnoresModel` proves
that the response does not depend on it.

## Model

| member | source | states |
|---|---|---|
| Decimal.NatToDecimal | src/main.rs:67 | the text `{}` prints for an id is a non-empty digit string without a leading zero, one digit long exactly for ids below 10 |
| Decimal.DecimalRoundTrip | src/main.rs:67 | reading the decimal text of n gives back n |
| Decimal.CanonicalRoundTrip | src/main.rs:67 | every digit string without a leading zero is the decimal text of its own value |
| Decimal.DecimalInjective | src/main.rs:67 | distinct ids have distinct decimal texts |
| Decimal.ParseU16Decimal | src/config.rs:17 | `parse::<u16>` of the decimal text of any 16-bit value gives that value |
| Decimal.ParseU16Digits | src/config.rs:17 | a digit string parses as a u16 exactly when its value is at most 65535, to that value, and a leading '+' changes nothing |
| Decimal.ParseU16Rejects | src/config.rs:17 | "abc", "-1", "" and "+" do not parse as a u16 |
| Decimal.ParseU16Overflow | src/config.rs:17 | "70000" does not parse as a u16 |
| Decimal.ParseU16Boundary | src/config.rs:17 | "65535" parses and "65536" does not |
| Decimal.ParseU16Accepts | src/config.rs:17 | "8080" parses to 8080 |
| Decimal.ParseU16Sign | src/config.rs:17 | a leading '+' is accepted: "+80" parses to 80 |
| Decimal.ParseU16LeadingZeros | src/config.rs:17 | leading zeros are accepted: "0080" parses to 80 |
| Config.Var | src/config.rs:14-23 | `env::var` succeeds exactly for a name set to valid Unicode and returns its value; it reports NotPresent exactly for an unset name |
| Config.Load | src/config.rs:13-35 | host and both model names are the set value verbatim, or the defaults "0.0.0.0", "cl100k_base" and "text-embedding-ada-002"; an unset port gives 7105; an unset PRELOAD gives true |
| Config.LoadEmpty | src/config.rs:13-35 | with nothing set, the configuration is ("0.0.0.0", 7105, "cl100k_base", "text-embedding-ada-002", preload on) |
| Config.TrueIgnoringCase | src/config.rs:25 | a value equals "true" ignoring ASCII case iff it has four characters, each the lower- or upper-case letter of "true" |
| Config.PreloadOff | src/config.rs:23-26 | preload is false iff PRELOAD is set to valid Unicode that is neither "1" nor a spelling of "true"; unset or non-Unicode gives true |
| Config.PreloadOnExamples | src/config.rs:23-26 | "1", "TRUE", "True" and a non-Unicode value give true |
| Config.PreloadOffExamples | src/config.rs:23-26 | "0", "yes", "" and "true " give false |
| Config.PortRule | src/config.rs:15-18 | a set API_PORT that parses as a u16 gives that value, and one that does not parse gives 7105 |
| Config.PortRoundTrip | src/config.rs:15-18 | setting API_PORT to the decimal text of any 16-bit port makes Load return that port |
| Config.PortExamples | src/config.rs:15-18 | "abc", "70000", "-1" and "" fall back to 7105; "8080" gives 8080 and "+80" gives 80 |
| Config.ModelNamesVerbatim | src/config.rs:19-22 | any value of DEFAULT_TOKENIZER_MODEL or DEFAULT_EMBEDDING_MODEL is copied without validation |
| Tiktoken.GetBpeFromModel | src/main.rs:128 | defines the foreign lookup as registry membership: it succeeds exactly for names in the registry with that name's encoder, and otherwise fails naming the name tried |
| Tokenizer.ModelForEncodingTable | src/main.rs:131-138 | the retry maps exactly cl100k_base, p50k_base, p50k_edit, r50k_base, gpt2 and o200k_base to their table entries, and any other name to itself |
| Tokenizer.ModelForEncodingIdempotent | src/main.rs:131-138 | no alias maps to another alias, so mapping twice is mapping once |
| Tokenizer.LoadTokenizer | src/main.rs:126-142 | a known name wins without the table being consulted; otherwise the mapped name is used; the load fails iff both lookups fail, with the second lookup's error |
| Tokenizer.LoadTokenizerSource | src/main.rs:128-140 | a successful load returns the encoder of the name itself or, when the name is unknown, of its alias, and nothing else |
| Tokenizer.EncodingNameResolves | src/main.rs:129-139 | an encoding name unknown to the library resolves to the encoder of its representative model |
| Tokenizer.UnknownNameFails | src/main.rs:128-141 | a name neither known nor in the table fails, reporting that name |
| Gateway.DisplayTokenRoundTrip | src/main.rs:67 | each display token `"[id]"` reads back as its id |
| Gateway.ParsedIsDisplayToken | src/main.rs:67 | any text that reads as an id is exactly that id's display token |
| Gateway.DisplayTokens | src/main.rs:67 | the token list has one entry per id, and entry i is the display token of id i |
| Gateway.TokensDetermineIds | src/main.rs:67 | two id lists with equal token lists are equal |
| Gateway.WarmupOutcomes | src/main.rs:86-106 | from (None, false): preload on with a successful load gives (Some(enc), true), with a failed load leaves (None, false), and preload off gives (None, true) |
| Gateway.WarmupMonotone | src/main.rs:95-104 | warmup never sets ready back to false, never clears a stored encoder, and keeps "an encoder implies ready" |
| Gateway.AppState.constructor | src/main.rs:79-83 | the shared state starts with no encoder and ready false |
| Gateway.AppState.Warmup | src/main.rs:86-106 | run once from the start-up state, it leaves exactly the state WarmupStep gives for the configured preload flag and the load of the configured default tokenizer, and keeps the invariant that an encoder implies ready |
| Gateway.Health | src/main.rs:40-42 | the health handler answers (200, "ok") and reads no state, so it answers the same before, during and after warmup, whatever its outcome |
| Gateway.Ready | src/main.rs:44-51 | the readiness handler answers (200, "ready") iff the flag is set and (503, "warming") otherwise |
| Gateway.Tokenize | src/main.rs:53-71 | with no encoder, 503 with empty ids and tokens; with one, 200 with ids equal to the encoder's output, and as many tokens as ids, each reading back as its id |
| Gateway.TokenizeIgnoresModel | src/main.rs:54 | two requests with the same input get the same response whatever their `model`, and whatever the configured default |
| Gateway.TokenizeTokensAreBracketedIds | src/main.rs:64-70 | with an encoder, token i is "[" + decimal(ids[i]) + "]" for every i |
| Gateway.BeforeWarmup | src/main.rs:44-62 | in the start-up state, ready answers (503, "warming") and tokenize answers 503 with empty lists |
| Gateway.AfterWarmup | src/main.rs:44-106 | after warmup, ready is 200 iff preload is off or the load succeeded; tokenize is 200 iff preload is on and the load succeeded; in the bypass state ready is 200 and tokenize is 503 with empty lists |

## Left out

- Concurrency: the tokio task and the two `RwLock`s (src/main.rs:13, 45, 56, 87, 95-96, 104). Warmup is one atomic step and handlers read a snapshot. In the code the encoder and the flag are written under two separate locks (lines 95 and 96). A reader between those writes can see an encoder with ready still false, so `/tokenize` can answer 200 while `/ready` still answers 503. The model does not capture that window.
- Gateway.AppState.Warmup: requires that warmup has not run yet. The source spawns warmup once (line 87), so single assignment of the slot rests on that call discipline, not on the method.
- The internals of `tiktoken_rs` (`get_bpe_from_model`, `encode_with_special_tokens`, `decode`): foreign code. Model lookup is a possibly infinite map (`imap`) and encoding is an uninterpreted function. The library's own name handling (for instance prefix matching of model names) is inside that map. The text of its error messages is not modelled: a load error only names the model of the last lookup.
- The discarded `decode` call (src/main.rs:66): it has no observable effect.
- Token ids are `usize` in the source and `nat` here; the 64-bit bound is not modelled.
- `eq_ignore_ascii_case` compares UTF-8 bytes; the model compares characters. The two agree when comparing with the ASCII word "true".
- axum routing, JSON encoding and decoding (including the 4xx reply to a malformed body), the CORS layer and HTTP plumbing beyond (status, body) pairs (src/main.rs:4-11, 108-113).
- Building the `SocketAddr` from host and port with its fallback to 0.0.0.0:7105, binding the listener and serving (src/main.rs:115-123): network I/O and library parsing.
- Logging through `tracing` (src/main.rs:75, 89-100): I/O with no effect on the state.
- Loading `.env` via `dotenv` (src/main.rs:76): it copies the file's variables into the process environment, without overriding those already set, before `Config::load` runs (line 78). The file reading is not modelled; the environment passed to `Config.Load` is the one after `.env` has been merged in, so it decides the settings and through them how warmup ends.
- The `env::var` reads themselves (src/config.rs:14-23): the environment is a parameter of `Config.Load`.
