/**
 * The service in src/main.rs: the shared encoder slot and its ready flag,
 * the one-shot warmup that fills them, and the three request handlers that
 * read them.
 */
module Gateway {
  import opened Wrappers
  import opened Decimal
  import opened Config
  import opened Tiktoken
  import opened Tokenizer

  type StatusCode = nat

  const OK: StatusCode := 200
  const SERVICE_UNAVAILABLE: StatusCode := 503

  // ---------------------------------------------------------------------
  // Display tokens: `format!("[{}]", id)` for each id
  // ---------------------------------------------------------------------

  /** The display form of one token id: its decimal text in square brackets. */
  function DisplayToken(id: nat): string {
    "[" + NatToDecimal(id) + "]"
  }

  /** Reads a display token back: brackets around a canonical decimal number. */
  function ParseDisplayToken(t: string): Option<nat> {
    if |t| >= 2 && t[0] == '[' && t[|t| - 1] == ']' && IsCanonical(t[1..|t| - 1])
    then Some(DigitsValue(t[1..|t| - 1]))
    else None
  }

  /** Every display token reads back as the id it was made from. */
  lemma DisplayTokenRoundTrip(id: nat)
    ensures ParseDisplayToken(DisplayToken(id)) == Some(id)
  {
    var t := DisplayToken(id);
    assert t[1..|t| - 1] == NatToDecimal(id);
    DecimalRoundTrip(id);
  }

  /** Every text that reads as an id is exactly that id's display token. */
  lemma ParsedIsDisplayToken(t: string)
    requires ParseDisplayToken(t).Some?
    ensures DisplayToken(ParseDisplayToken(t).value) == t
  {
    var inner := t[1..|t| - 1];
    CanonicalRoundTrip(inner);
    assert t == "[" + inner + "]";
  }

  /** `ids.iter().map(|id| format!("[{}]", id)).collect()`. */
  function DisplayTokens(ids: seq<nat>): (tokens: seq<string>)
    ensures |tokens| == |ids|
    ensures forall i :: 0 <= i < |ids| ==> tokens[i] == DisplayToken(ids[i])
  {
    if ids == [] then [] else [DisplayToken(ids[0])] + DisplayTokens(ids[1..])
  }

  /** The token list determines the id list: different ids never display alike. */
  lemma TokensDetermineIds(a: seq<nat>, b: seq<nat>)
    requires DisplayTokens(a) == DisplayTokens(b)
    ensures a == b
  {
    forall i | 0 <= i < |a|
      ensures a[i] == b[i]
    {
      DisplayTokenRoundTrip(a[i]);
      DisplayTokenRoundTrip(b[i]);
    }
  }

  // ---------------------------------------------------------------------
  // The shared slot and its warmup transition
  // ---------------------------------------------------------------------

  /** What the two locks of `AppState` hold at one moment. */
  datatype Slot = Slot(tokenizer: Option<CoreBpe>, ready: bool)

  /** The state at start-up: no encoder, not ready. */
  const INITIAL: Slot := Slot(None, false)

  /** A stored encoder always comes with the ready flag set. */
  predicate SlotValid(s: Slot) {
    s.tokenizer.Some? ==> s.ready
  }

  /**
   * The warmup task as one atomic step: with preload on, a successful load
   * stores the encoder and sets ready, a failed load writes nothing; with
   * preload off, only ready is set.
   */
  function WarmupStep(s: Slot, preload: bool, load: Result<CoreBpe, LoadError>): Slot {
    if preload then
      match load
      case Success(enc) => Slot(Some(enc), true)
      case Failure(_) => s
    else
      s.(ready := true)
  }

  /** The three outcomes of warmup from the start-up state: loaded, failed, bypassed. */
  lemma WarmupOutcomes(preload: bool, load: Result<CoreBpe, LoadError>)
    ensures preload && load.Success? ==> WarmupStep(INITIAL, preload, load) == Slot(Some(load.value), true)
    ensures preload && load.Failure? ==> WarmupStep(INITIAL, preload, load) == INITIAL
    ensures !preload ==> WarmupStep(INITIAL, preload, load) == Slot(None, true)
  {
  }

  /** Warmup never clears ready, never clears a stored encoder, and keeps SlotValid. */
  lemma WarmupMonotone(s: Slot, preload: bool, load: Result<CoreBpe, LoadError>)
    ensures s.ready ==> WarmupStep(s, preload, load).ready
    ensures s.tokenizer.Some? ==> WarmupStep(s, preload, load).tokenizer.Some?
    ensures SlotValid(s) ==> SlotValid(WarmupStep(s, preload, load))
  {
  }

  /** `AppState`: the configuration and the two shared cells the warmup task writes. */
  class AppState {
    const config: Config
    var tokenizer: Option<CoreBpe>
    var ready: bool
    /** Whether the warmup task has run; it is spawned once per process. */
    ghost var warmedUp: bool

    ghost predicate Valid()
      reads this
    {
      SlotValid(Snapshot()) && (!warmedUp ==> Snapshot() == INITIAL)
    }

    /** What a handler reads from the two locks. */
    function Snapshot(): Slot
      reads this
    {
      Slot(tokenizer, ready)
    }

    constructor (cfg: Config)
      ensures Valid() && !warmedUp
      ensures config == cfg && Snapshot() == INITIAL
    {
      config := cfg;
      tokenizer := None;
      ready := false;
      warmedUp := false;
    }

    /** The body of the spawned warmup task, run once against the library's registry. */
    method Warmup(registry: Registry)
      requires Valid() && !warmedUp
      modifies this
      ensures Valid() && warmedUp
      ensures Snapshot() == WarmupStep(old(Snapshot()), config.preload, LoadTokenizer(registry, config.defaultTokenizer))
      ensures old(Snapshot()) == INITIAL
    {
      if config.preload {
        match LoadTokenizer(registry, config.defaultTokenizer) {
          case Success(enc) =>
            tokenizer := Some(enc);
            ready := true;
          case Failure(_) =>
        }
      } else {
        ready := true;
      }
      warmedUp := true;
    }
  }

  // ---------------------------------------------------------------------
  // Request handlers
  // ---------------------------------------------------------------------

  datatype TokenizeRequest = TokenizeRequest(input: string, model: Option<string>)

  datatype TokenizeResponse = TokenizeResponse(ids: seq<nat>, tokens: seq<string>)

  /** `GET /health`: liveness only; it reads no state, and a `&'static str` reply is served with 200. */
  function Health(): (r: (StatusCode, string))
    ensures r == (OK, "ok")
  {
    (OK, "ok")
  }

  /** `GET /ready`: a projection of the ready flag. */
  function Ready(s: Slot): (r: (StatusCode, string))
    ensures r.0 == OK <==> s.ready
    ensures r.0 == SERVICE_UNAVAILABLE <==> !s.ready
    ensures r == (OK, "ready") || r == (SERVICE_UNAVAILABLE, "warming")
  {
    if s.ready then (OK, "ready") else (SERVICE_UNAVAILABLE, "warming")
  }

  /**
   * `POST /tokenize`: encodes with the stored encoder, whatever the request's
   * model; without an encoder it answers 503 with empty lists.
   */
  function Tokenize(config: Config, s: Slot, req: TokenizeRequest): (r: (StatusCode, TokenizeResponse))
    ensures s.tokenizer.None? ==> r == (SERVICE_UNAVAILABLE, TokenizeResponse([], []))
    ensures s.tokenizer.Some? ==> r.0 == OK && r.1.ids == s.tokenizer.value.encodeWithSpecialTokens(req.input)
    ensures |r.1.tokens| == |r.1.ids|
    ensures forall i :: 0 <= i < |r.1.ids| ==> ParseDisplayToken(r.1.tokens[i]) == Some(r.1.ids[i])
  {
    // The requested model (or the configured default) is bound and never used.
    var model := req.model.GetOr(config.defaultTokenizer);
    match s.tokenizer
    case None => (SERVICE_UNAVAILABLE, TokenizeResponse([], []))
    case Some(encoding) =>
      var ids := encoding.encodeWithSpecialTokens(req.input);
      var tokens := DisplayTokens(ids);
      assert forall i :: 0 <= i < |ids| ==> ParseDisplayToken(tokens[i]) == Some(ids[i]) by {
        forall i | 0 <= i < |ids| {
          DisplayTokenRoundTrip(ids[i]);
        }
      }
      (OK, TokenizeResponse(ids, tokens))
  }

  /** The response depends on the input text and the slot only: not on `model`, nor on the configuration. */
  lemma TokenizeIgnoresModel(c1: Config, c2: Config, s: Slot, a: TokenizeRequest, b: TokenizeRequest)
    requires a.input == b.input
    ensures Tokenize(c1, s, a) == Tokenize(c2, s, b)
  {
  }

  /** With an encoder, every display token is `[` + decimal id + `]`, position by position. */
  lemma TokenizeTokensAreBracketedIds(config: Config, s: Slot, req: TokenizeRequest)
    requires s.tokenizer.Some?
    ensures var r := Tokenize(config, s, req).1;
      |r.tokens| == |r.ids| &&
      forall i :: 0 <= i < |r.ids| ==> r.tokens[i] == "[" + NatToDecimal(r.ids[i]) + "]"
  {
  }

  /** Before warmup has run: ready says warming and tokenize is unavailable. */
  lemma BeforeWarmup(config: Config, req: TokenizeRequest)
    ensures Ready(INITIAL) == (SERVICE_UNAVAILABLE, "warming")
    ensures Tokenize(config, INITIAL, req) == (SERVICE_UNAVAILABLE, TokenizeResponse([], []))
  {
  }

  /**
   * After warmup: ready answers 200 exactly when preload is off or the load
   * succeeded, and tokenize answers 200 exactly when preload is on and the
   * load succeeded. In the bypass state ready is 200 while tokenize stays 503.
   */
  lemma AfterWarmup(config: Config, preload: bool, load: Result<CoreBpe, LoadError>, req: TokenizeRequest)
    ensures var s := WarmupStep(INITIAL, preload, load);
      (Ready(s).0 == OK <==> !preload || load.Success?) &&
      (Tokenize(config, s, req).0 == OK <==> preload && load.Success?) &&
      (!preload ==> Ready(s) == (OK, "ready") &&
                    Tokenize(config, s, req) == (SERVICE_UNAVAILABLE, TokenizeResponse([], [])))
  {
  }
}
