/**
 * The engine's own settings: the log-level validator and the bounds of the
 * scoring and agent settings.
 */
module AuditConfig {
  import opened Wrappers
  import opened PyString
  import opened PyValue

  /** The accepted log levels. */
  const LogLevels: seq<string> := ["DEBUG", "INFO", "WARNING", "ERROR", "CRITICAL"]

  /** `validate_log_level`: accepted when its upper-case form is a level, which is what
      is stored. */
  function ValidateLogLevel(v: string): (r: Result<string, Exception>)
    ensures r.Success? <==> Upper(v) in LogLevels
    ensures r.Success? ==> r.value == Upper(v) && r.value in LogLevels
    ensures r.Failure? ==> r.error == ValidationError
  {
    var u := Upper(v);
    if u in LogLevels then Success(u) else Failure(ValidationError)
  }

  /** Validating the stored level again changes nothing. */
  lemma ValidateLogLevelIdempotent(v: string)
    requires ValidateLogLevel(v).Success?
    ensures ValidateLogLevel(ValidateLogLevel(v).value) == ValidateLogLevel(v)
  {
    UpperIdempotent(v);
  }

  /** The level is matched without regard to letter case. */
  lemma ValidateLogLevelExamples()
    ensures ValidateLogLevel("debug") == Success("DEBUG")
    ensures ValidateLogLevel("Warning") == Success("WARNING")
    ensures ValidateLogLevel("verbose").Failure?
  {
    assert Upper("debug") == "DEBUG";
    assert Upper("Warning") == "WARNING";
    assert Upper("verbose") == "VERBOSE";
  }

  /** `ScoringConfig`: three weights and three thresholds. */
  datatype ScoringSettings = ScoringSettings(
    enableCvssScoring: bool,
    financialImpactWeight: real,
    exploitComplexityWeight: real,
    onChainDamageWeight: real,
    criticalThreshold: real,
    majorThreshold: real,
    mediumThreshold: real)

  const DefaultScoring := ScoringSettings(true, 0.4, 0.3, 0.3, 9.0, 7.0, 4.0)

  /** Weights lie in [0, 1] and thresholds in [0, 10]. */
  predicate ValidScoring(s: ScoringSettings) {
    && 0.0 <= s.financialImpactWeight <= 1.0
    && 0.0 <= s.exploitComplexityWeight <= 1.0
    && 0.0 <= s.onChainDamageWeight <= 1.0
    && 0.0 <= s.criticalThreshold <= 10.0
    && 0.0 <= s.majorThreshold <= 10.0
    && 0.0 <= s.mediumThreshold <= 10.0
  }

  /** Constructing a `ScoringConfig`: rejected when any bound is broken. */
  function MakeScoring(s: ScoringSettings): (r: Result<ScoringSettings, Exception>)
    ensures r.Success? <==> ValidScoring(s)
    ensures r.Success? ==> r.value == s
    ensures r.Failure? ==> r.error == ValidationError
  {
    if ValidScoring(s) then Success(s) else Failure(ValidationError)
  }

  /** `AgentConfig`'s bounded fields. */
  datatype AgentSettings = AgentSettings(
    llmModel: string,
    llmTemperature: real,
    llmMaxTokens: int,
    consensusThreshold: real,
    maxAgentRetries: int,
    agentTimeout: int)

  const DefaultAgents := AgentSettings("gpt-4", 0.1, 2000, 0.7, 3, 300)

  /** Temperature in [0, 2], a positive token budget, a consensus threshold in [0, 1],
      a non-negative retry count and a positive timeout. */
  predicate ValidAgents(a: AgentSettings) {
    && 0.0 <= a.llmTemperature <= 2.0
    && a.llmMaxTokens > 0
    && 0.0 <= a.consensusThreshold <= 1.0
    && a.maxAgentRetries >= 0
    && a.agentTimeout > 0
  }

  function MakeAgents(a: AgentSettings): (r: Result<AgentSettings, Exception>)
    ensures r.Success? <==> ValidAgents(a)
    ensures r.Success? ==> r.value == a
    ensures r.Failure? ==> r.error == ValidationError
  {
    if ValidAgents(a) then Success(a) else Failure(ValidationError)
  }

  /** The defaults respect their own bounds, and the default log level is accepted. */
  lemma DefaultsValid()
    ensures MakeScoring(DefaultScoring) == Success(DefaultScoring)
    ensures MakeAgents(DefaultAgents) == Success(DefaultAgents)
    ensures ValidateLogLevel("INFO") == Success("INFO")
  {
    assert Upper("INFO") == "INFO";
  }

  /** The scoring thresholds need not be ordered: the bounds accept a critical threshold
      below the medium one. */
  lemma ThresholdsUnordered()
    ensures MakeScoring(DefaultScoring.(criticalThreshold := 1.0, mediumThreshold := 9.0)).Success?
  {
  }
}
