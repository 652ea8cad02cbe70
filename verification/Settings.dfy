/** The worker's settings that the fence depends on (cmd/worker/config.go, guard.go's defaults). */
module Settings {
  import opened Wrappers
  import opened Records
  import opened Fence
  import opened FenceSafety

  const DEFAULT_TTL: int := 24 * 3600 * SECOND
  const DEFAULT_TOOL_TIMEOUT: int := 120 * SECOND
  const DEFAULT_STALE_GRACE: int := 30 * SECOND

  /** An environment variable that should hold a duration. */
  datatype Setting = Unset | Unparsable | Parsed(duration: int)

  datatype SettingError = NotAPositiveDuration | TtlTooShort

  datatype Durations = Durations(ttl: nat, toolTimeout: nat)

  function DurationOf(raw: Setting, default: nat): (r: Result<nat, SettingError>)
    ensures r.Ok? && default > 0 ==> r.value > 0
    ensures raw == Unset ==> r == Ok(default)
    ensures raw.Parsed? ==> (r.Ok? <==> raw.duration > 0) && (r.Ok? ==> r.value == raw.duration)
    ensures r.Err? ==> r.error == NotAPositiveDuration && raw != Unset
  {
    match raw
    case Unset => Ok(default)
    case Unparsable => Err(NotAPositiveDuration)
    case Parsed(d) => if d <= 0 then Err(NotAPositiveDuration) else Ok(d)
  }

  method LoadConfig(ttl: Setting, toolTimeout: Setting) returns (r: Result<Durations, SettingError>)
    ensures r.Ok? <==>
              && DurationOf(ttl, DEFAULT_TTL).Ok? && DurationOf(toolTimeout, DEFAULT_TOOL_TIMEOUT).Ok?
              && DurationOf(ttl, DEFAULT_TTL).value > DurationOf(toolTimeout, DEFAULT_TOOL_TIMEOUT).value + DEFAULT_STALE_GRACE + EXPIRY_MARGIN
    ensures r.Ok? ==> Accepted(r.value)
    ensures r.Ok? ==> r.value == Durations(DurationOf(ttl, DEFAULT_TTL).value, DurationOf(toolTimeout, DEFAULT_TOOL_TIMEOUT).value)
    ensures ttl == Unset && toolTimeout == Unset ==> r == Ok(Durations(DEFAULT_TTL, DEFAULT_TOOL_TIMEOUT))
  {
    var cfg := Durations(0, 0);
    var parsed := DurationOf(ttl, DEFAULT_TTL);
    if parsed.Err? { return Err(parsed.error); }
    cfg := cfg.(ttl := parsed.value);
    parsed := DurationOf(toolTimeout, DEFAULT_TOOL_TIMEOUT);
    if parsed.Err? { return Err(parsed.error); }
    cfg := cfg.(toolTimeout := parsed.value);
    if cfg.ttl <= cfg.toolTimeout + DEFAULT_STALE_GRACE + EXPIRY_MARGIN { return Err(TtlTooShort); }
    r := Ok(cfg);
  }

  predicate Accepted(d: Durations) {
    d.toolTimeout > 0 && d.ttl > d.toolTimeout + DEFAULT_STALE_GRACE + EXPIRY_MARGIN
  }

  /** The fence as a worker with these settings configures it. */
  predicate ConfiguredBy(c: Config, d: Durations) {
    c.ttl == d.ttl && c.toolTimeout == d.toolTimeout && c.staleGrace == DEFAULT_STALE_GRACE
  }

  /**
   With the default grace, the timing the safety theorem asks for is exactly
   that five delays between steps and the clock difference stay below 13.5s.
   */
  lemma DefaultGraceCovers(c: Config, d: Durations)
    requires Accepted(d) && ConfiguredBy(c, d)
    ensures GraceCovers(c) <==> 5 * c.lag + c.skew < 13_500_000
  {
  }

  /** Then a claim outlives every use of its token: it is stale before it expires, by more than 59 seconds. */
  lemma StaleBeforeExpiry(c: Config, d: Durations, claimedAt: int)
    requires Accepted(d) && ConfiguredBy(c, d)
    ensures claimedAt + c.toolTimeout + c.staleGrace + EXPIRY_MARGIN - SECOND < claimedAt + WholeSeconds(c.ttl)
  {
    WholeSecondsBounds(c.ttl);
  }

  /** With the default settings the whole safety theorem applies to an honest deployment. */
  lemma DefaultsAreSafe(c: Config, ls: seq<Label>)
    requires ConfiguredBy(c, Durations(DEFAULT_TTL, DEFAULT_TOOL_TIMEOUT))
    requires (forall w | w in c.offset :: c.offset[w] <= c.skew) && c.invokedAt <= c.start + c.skew
    requires c.lag <= SECOND && c.skew <= 8 * SECOND && AllPrompt(c, Init(c), ls)
    ensures |Run(c, Init(c), ls).ledger| <= 1
  {
    AtMostOneEffect(c, ls);
  }
}
