/**
 * `Config::load` (src/config.rs): the service settings read once from the
 * process environment, each with a default.
 */
module Config {
  import opened Wrappers
  import opened Decimal

  /**
   * The process environment. A name that is absent is unset; a name mapped to
   * None is set to a value that is not valid Unicode.
   */
  type Environment = map<string, Option<string>>

  /** Why `env::var` fails. */
  datatype VarError = NotPresent | NotUnicode

  datatype Config = Config(
    apiHost: string,
    apiPort: u16,
    defaultTokenizer: string,
    defaultEmbeddingModel: string,
    preload: bool)

  const DEFAULT_API_HOST: string := "0.0.0.0"
  const DEFAULT_API_PORT: u16 := 7105
  const DEFAULT_TOKENIZER_MODEL: string := "cl100k_base"
  const DEFAULT_EMBEDDING_MODEL: string := "text-embedding-ada-002"

  /** `env::var(name)`. */
  function Var(env: Environment, name: string): (r: Result<string, VarError>)
    ensures r.Success? <==> name in env && env[name].Some?
    ensures r.Success? ==> r.value == env[name].value
    ensures r == Failure(NotPresent) <==> name !in env
  {
    if name !in env then Failure(NotPresent)
    else match env[name]
      case Some(v) => Success(v)
      case None => Failure(NotUnicode)
  }

  /** Whether `name` is set to a valid Unicode value. */
  predicate IsSet(env: Environment, name: string) {
    name in env && env[name].Some?
  }

  /** Rust's `u8::to_ascii_lowercase` on a character: only 'A'..'Z' change. */
  function AsciiLower(c: char): (l: char)
    ensures 'A' <= c <= 'Z' ==> l as int == c as int + 32
    ensures !('A' <= c <= 'Z') ==> l == c
  {
    if 'A' <= c <= 'Z' then (c as int + 32) as char else c
  }

  /** Rust's `str::eq_ignore_ascii_case`. */
  predicate EqIgnoreAsciiCase(a: string, b: string) {
    |a| == |b| && forall i :: 0 <= i < |a| ==> AsciiLower(a[i]) == AsciiLower(b[i])
  }

  /** The rule for PRELOAD: "1", or "true" in any letter case. */
  predicate PreloadValue(v: string) {
    v == "1" || EqIgnoreAsciiCase(v, "true")
  }

  /** `Config::load`, with the environment passed in. */
  function Load(env: Environment): (c: Config)
    ensures IsSet(env, "API_HOST") ==> c.apiHost == env["API_HOST"].value
    ensures !IsSet(env, "API_HOST") ==> c.apiHost == DEFAULT_API_HOST
    ensures IsSet(env, "DEFAULT_TOKENIZER_MODEL") ==> c.defaultTokenizer == env["DEFAULT_TOKENIZER_MODEL"].value
    ensures !IsSet(env, "DEFAULT_TOKENIZER_MODEL") ==> c.defaultTokenizer == DEFAULT_TOKENIZER_MODEL
    ensures IsSet(env, "DEFAULT_EMBEDDING_MODEL") ==> c.defaultEmbeddingModel == env["DEFAULT_EMBEDDING_MODEL"].value
    ensures !IsSet(env, "DEFAULT_EMBEDDING_MODEL") ==> c.defaultEmbeddingModel == DEFAULT_EMBEDDING_MODEL
    ensures !IsSet(env, "API_PORT") ==> c.apiPort == DEFAULT_API_PORT
    ensures !IsSet(env, "PRELOAD") ==> c.preload
  {
    var apiHost := match Var(env, "API_HOST") {
      case Success(v) => v
      case Failure(_) => DEFAULT_API_HOST
    };
    var apiPort := match Var(env, "API_PORT") {
      case Success(v) => ParseU16(v).GetOr(DEFAULT_API_PORT)
      case Failure(_) => DEFAULT_API_PORT
    };
    var defaultTokenizer := match Var(env, "DEFAULT_TOKENIZER_MODEL") {
      case Success(v) => v
      case Failure(_) => DEFAULT_TOKENIZER_MODEL
    };
    var defaultEmbeddingModel := match Var(env, "DEFAULT_EMBEDDING_MODEL") {
      case Success(v) => v
      case Failure(_) => DEFAULT_EMBEDDING_MODEL
    };
    var preload := match Var(env, "PRELOAD") {
      case Success(v) => PreloadValue(v)
      case Failure(_) => true
    };
    Config(apiHost, apiPort, defaultTokenizer, defaultEmbeddingModel, preload)
  }

  /** With nothing set, every setting takes its default and warmup is on. */
  lemma LoadEmpty()
    ensures Load(map[]) == Config("0.0.0.0", 7105, "cl100k_base", "text-embedding-ada-002", true)
  {
  }

  /**
   * A value equals "true" ignoring ASCII case exactly when it is four
   * characters, each being the lower- or upper-case letter of "true".
   */
  lemma {:induction false} TrueIgnoringCase(v: string)
    ensures EqIgnoreAsciiCase(v, "true") <==>
      |v| == 4 && v[0] in "tT" && v[1] in "rR" && v[2] in "uU" && v[3] in "eE"
  {
    if |v| == 4 {
      var t := "true";
      if EqIgnoreAsciiCase(v, t) {
        assert AsciiLower(v[0]) == AsciiLower(t[0]) && AsciiLower(v[1]) == AsciiLower(t[1]);
        assert AsciiLower(v[2]) == AsciiLower(t[2]) && AsciiLower(v[3]) == AsciiLower(t[3]);
      }
    }
  }

  /**
   * PRELOAD turns warmup off exactly when it is set to a Unicode value that
   * is neither "1" nor a spelling of "true"; unset or not Unicode leaves it on.
   */
  lemma PreloadOff(env: Environment)
    ensures !Load(env).preload <==>
      IsSet(env, "PRELOAD") && env["PRELOAD"].value != "1" &&
      !(|env["PRELOAD"].value| == 4 && env["PRELOAD"].value[0] in "tT" && env["PRELOAD"].value[1] in "rR" &&
        env["PRELOAD"].value[2] in "uU" && env["PRELOAD"].value[3] in "eE")
  {
    if IsSet(env, "PRELOAD") {
      TrueIgnoringCase(env["PRELOAD"].value);
    }
  }

  /** Sample PRELOAD values that keep warmup on. */
  lemma PreloadOnExamples(env: Environment)
    ensures Load(env["PRELOAD" := Some("1")]).preload
    ensures Load(env["PRELOAD" := Some("TRUE")]).preload
    ensures Load(env["PRELOAD" := Some("True")]).preload
    ensures Load(env["PRELOAD" := None]).preload
  {
    TrueIgnoringCase("TRUE");
    TrueIgnoringCase("True");
  }

  /** Sample PRELOAD values that turn warmup off. */
  lemma PreloadOffExamples(env: Environment)
    ensures !Load(env["PRELOAD" := Some("0")]).preload
    ensures !Load(env["PRELOAD" := Some("yes")]).preload
    ensures !Load(env["PRELOAD" := Some("")]).preload
    ensures !Load(env["PRELOAD" := Some("true ")]).preload
  {
    TrueIgnoringCase("true ");
  }

  /** A set API_PORT is used when it parses as a u16; otherwise the default 7105. */
  lemma PortRule(env: Environment)
    ensures IsSet(env, "API_PORT") && ParseU16(env["API_PORT"].value).Some? ==>
      Load(env).apiPort == ParseU16(env["API_PORT"].value).value
    ensures IsSet(env, "API_PORT") && ParseU16(env["API_PORT"].value).None? ==>
      Load(env).apiPort == DEFAULT_API_PORT
  {
  }

  /** Writing any port in decimal into API_PORT makes Load return that port. */
  lemma PortRoundTrip(env: Environment, p: u16)
    ensures Load(env["API_PORT" := Some(NatToDecimal(p as nat))]).apiPort == p
  {
    ParseU16Decimal(p);
  }

  /** Sample API_PORT values that fall back to 7105, and ones that do not. */
  lemma PortExamples(env: Environment)
    ensures Load(env["API_PORT" := Some("abc")]).apiPort == 7105
    ensures Load(env["API_PORT" := Some("70000")]).apiPort == 7105
    ensures Load(env["API_PORT" := Some("-1")]).apiPort == 7105
    ensures Load(env["API_PORT" := Some("")]).apiPort == 7105
    ensures Load(env["API_PORT" := Some("8080")]).apiPort == 8080
    ensures Load(env["API_PORT" := Some("+80")]).apiPort == 80
  {
    ParseU16Rejects();
    ParseU16Overflow();
    ParseU16Accepts();
    ParseU16Sign();
  }

  /** The model names are copied verbatim, with no check against known names. */
  lemma ModelNamesVerbatim(env: Environment, tokenizer: string, embedding: string)
    ensures Load(env["DEFAULT_TOKENIZER_MODEL" := Some(tokenizer)]).defaultTokenizer == tokenizer
    ensures Load(env["DEFAULT_EMBEDDING_MODEL" := Some(embedding)]).defaultEmbeddingModel == embedding
  {
  }
}
