/**
 * The unified result schema: severity and confidence enums, the line span
 * and field constraints a `Finding` is validated against, agent task and
 * result bounds, and `AnalysisResult.finalize`, which counts the findings by
 * severity.
 */
module Schemas {
  import opened Wrappers
  import opened PyString
  import opened PyValue

  /** `SeverityLevel`: a string-valued enum, in declaration order. */
  datatype SeverityLevel = Critical | Major | Medium | Minor | Informational {
    /** The enum member's string value. */
    function Value(): string {
      match this
      case Critical => "Critical"
      case Major => "Major"
      case Medium => "Medium"
      case Minor => "Minor"
      case Informational => "Informational"
    }
  }

  /** Iterating over `SeverityLevel` visits the members in declaration order. */
  const AllSeverities: seq<SeverityLevel> := [Critical, Major, Medium, Minor, Informational]

  datatype ExploitComplexity = ComplexityLow | ComplexityMedium | ComplexityHigh

  /** The schema's `ConfidenceLevel` (trust calibration levels), used only as the key
      type of the confidence distribution. */
  datatype TrustLevel = TrustLow | TrustMedium | TrustHigh | TrustCritical

  datatype LineSpan = LineSpan(start: int, end: int)

  /** Constructing a `LineSpan`: the `end` validator rejects an end before the start. */
  function MakeLineSpan(start: int, end: int): (r: Result<LineSpan, Exception>)
    ensures r.Success? <==> start <= end
    ensures r.Success? ==> r.value.start == start && r.value.end == end && r.value.start <= r.value.end
    ensures r.Failure? ==> r.error == ValidationError
  {
    if end < start then Failure(ValidationError) else Success(LineSpan(start, end))
  }

  /** The `swc_id` pattern `SWC-\d{3}`, matched from the start of the string as a
      pydantic `regex` constraint does (anything may follow the three digits). */
  predicate SwcIdMatches(s: string) {
    |s| >= 7 && s[..4] == "SWC-" && IsAsciiDigit(s[4]) && IsAsciiDigit(s[5]) && IsAsciiDigit(s[6])
  }

  /** A finding; `finding_id`, `timestamp`, `explainability_trace` and
      `rl_feedback_score` are not part of the model. */
  datatype Finding = Finding(
    swcId: Option<string>,
    severity: SeverityLevel,
    toolName: string,
    toolVersion: string,
    filePath: string,
    lineSpan: Option<LineSpan>,
    functionName: Option<string>,
    bytecodeOffset: Option<int>,
    description: string,
    reproductionSteps: string,
    proofOfConcept: Option<string>,
    exploitComplexity: ExploitComplexity,
    confidence: real,
    sanitizerPresent: bool,
    recommendations: seq<string>,
    crossChainImpact: Option<seq<string>>,
    remediationSuggestion: Option<string>)

  /** The field constraints of `Finding`. */
  predicate ValidFinding(f: Finding) {
    && (f.swcId.Some? ==> SwcIdMatches(f.swcId.value))
    && 0.0 <= f.confidence <= 1.0
    && (f.lineSpan.Some? ==> f.lineSpan.value.start <= f.lineSpan.value.end)
  }

  /** Validating a candidate finding: accepted unchanged when every constraint holds,
      otherwise a validation error. */
  function CheckFinding(f: Finding): (r: Result<Finding, Exception>)
    ensures r.Success? <==> ValidFinding(f)
    ensures r.Success? ==> r.value == f
    ensures r.Failure? ==> r.error == ValidationError
  {
    if ValidFinding(f) then Success(f) else Failure(ValidationError)
  }

  /** `AgentTask.priority`: default 5, and 1..10 when given. */
  function AgentTaskPriority(given: Option<int>): (r: Result<int, Exception>)
    ensures r.Success? <==> (given.None? || 1 <= given.value <= 10)
    ensures r.Success? ==> 1 <= r.value <= 10
    ensures given.None? ==> r == Success(5)
    ensures given.Some? && r.Success? ==> r.value == given.value
  {
    match given
    case None => Success(5)
    case Some(p) => if 1 <= p <= 10 then Success(p) else Failure(ValidationError)
  }

  datatype AgentResult = AgentResult(
    agentType: string,
    success: bool,
    outputData: Entries,
    confidenceScore: real,
    executionTime: real,
    errorMessage: Option<string>)

  /** Validating an `AgentResult`: `confidence_score` must lie in [0, 1]. */
  function CheckAgentResult(a: AgentResult): (r: Result<AgentResult, Exception>)
    ensures r.Success? <==> 0.0 <= a.confidenceScore <= 1.0
    ensures r.Success? ==> r.value == a
  {
    if 0.0 <= a.confidenceScore <= 1.0 then Success(a) else Failure(ValidationError)
  }

  /** A tool failure: the failing tool and the exception's type name (the message,
      stderr and exit code are not modelled). */
  datatype ToolError = ToolError(toolName: string, errorType: string)

  /** How many of `fs` have severity `s`. */
  function CountSeverity(fs: seq<Finding>, s: SeverityLevel): (n: nat)
    ensures n <= |fs|
  {
    if fs == [] then 0
    else CountSeverity(fs[..|fs| - 1], s) + (if fs[|fs| - 1].severity == s then 1 else 0)
  }

  /** Counting distributes over concatenation. */
  lemma {:induction false} CountSeverityAppend(a: seq<Finding>, b: seq<Finding>, s: SeverityLevel)
    ensures CountSeverity(a + b, s) == CountSeverity(a, s) + CountSeverity(b, s)
  {
    if b != [] {
      CountSeverityAppend(a, b[..|b| - 1], s);
      assert (a + b)[..|a + b| - 1] == a + b[..|b| - 1];
    } else {
      assert a + b == a;
    }
  }

  /** The severity distribution `finalize` computes over the severities in `levels`:
      a key for each severity with a positive count, mapped to that count. */
  function DistributionOver(fs: seq<Finding>, levels: seq<SeverityLevel>): map<SeverityLevel, nat> {
    map s | s in levels && CountSeverity(fs, s) > 0 :: CountSeverity(fs, s)
  }

  function Distribution(fs: seq<Finding>): map<SeverityLevel, nat> {
    DistributionOver(fs, AllSeverities)
  }

  /** The count a distribution records for `s` (0 when `s` is not a key). */
  function CountIn(d: map<SeverityLevel, nat>, s: SeverityLevel): nat {
    if s in d then d[s] else 0
  }

  /** The sum of a distribution's values. */
  function DistributionTotal(d: map<SeverityLevel, nat>): nat {
    CountIn(d, Critical) + CountIn(d, Major) + CountIn(d, Medium) + CountIn(d, Minor) + CountIn(d, Informational)
  }

  /** Every finding has exactly one of the five severities. */
  lemma {:induction false} SeverityCountsCoverAll(fs: seq<Finding>)
    ensures CountSeverity(fs, Critical) + CountSeverity(fs, Major) + CountSeverity(fs, Medium)
            + CountSeverity(fs, Minor) + CountSeverity(fs, Informational) == |fs|
  {
    if fs != [] {
      SeverityCountsCoverAll(fs[..|fs| - 1]);
    }
  }

  /** The distribution's values sum to the number of findings. */
  lemma DistributionSumsToTotal(fs: seq<Finding>)
    ensures DistributionTotal(Distribution(fs)) == |fs|
  {
    SeverityCountsCoverAll(fs);
    var d := Distribution(fs);
    forall s | s in AllSeverities ensures CountIn(d, s) == CountSeverity(fs, s) {
    }
    assert Critical in AllSeverities && Major in AllSeverities && Medium in AllSeverities;
    assert Minor in AllSeverities && Informational in AllSeverities;
  }

  /** The distribution of two concatenated finding lists adds their counts. */
  lemma DistributionOfConcat(a: seq<Finding>, b: seq<Finding>, s: SeverityLevel)
    ensures CountIn(Distribution(a + b), s) == CountIn(Distribution(a), s) + CountIn(Distribution(b), s)
  {
    CountSeverityAppend(a, b, s);
    assert s in AllSeverities;
  }

  /** `sum(1 for f in findings if f.severity == s)`. */
  method CountOf(fs: seq<Finding>, s: SeverityLevel) returns (count: nat)
    ensures count == CountSeverity(fs, s)
  {
    count := 0;
    for i := 0 to |fs|
      invariant count == CountSeverity(fs[..i], s)
    {
      assert fs[..i + 1][..i] == fs[..i];
      if fs[i].severity == s {
        count := count + 1;
      }
    }
    assert fs[..|fs|] == fs;
  }

  /** One more level of the loop over the severities: its count is recorded when it is
      positive. */
  lemma DistributionOverStep(fs: seq<Finding>, levels: seq<SeverityLevel>, k: nat)
    requires k < |levels|
    ensures var s := levels[k];
            var before := DistributionOver(fs, levels[..k]);
            DistributionOver(fs, levels[..k + 1])
            == if CountSeverity(fs, s) > 0 then before[s := CountSeverity(fs, s)] else before
  {
    assert levels[..k + 1] == levels[..k] + [levels[k]];
  }

  /** The loop of `finalize` over the severities, in their order of declaration. */
  method ComputeDistribution(fs: seq<Finding>) returns (dist: map<SeverityLevel, nat>)
    ensures dist == Distribution(fs)
  {
    dist := map[];
    for k := 0 to |AllSeverities|
      invariant dist == DistributionOver(fs, AllSeverities[..k])
    {
      var count := CountOf(fs, AllSeverities[k]);
      DistributionOverStep(fs, AllSeverities, k);
      if count > 0 {
        dist := dist[AllSeverities[k] := count];
      }
    }
    assert AllSeverities[..|AllSeverities|] == AllSeverities;
  }

  /** The result of an analysis run; `request_id`, the timing fields and the agentic
      fields are not modelled. */
  class AnalysisResult {
    var contractPaths: seq<string>
    var findings: seq<Finding>
    var toolErrors: seq<ToolError>
    var totalFindings: int
    var severityDistribution: map<SeverityLevel, nat>
    var confidenceDistribution: map<TrustLevel, nat>

    /** `AnalysisResult(contract_paths=paths)`: every other field at its default. */
    constructor (paths: seq<string>)
      ensures contractPaths == paths && findings == [] && toolErrors == []
      ensures totalFindings == 0 && severityDistribution == map[] && confidenceDistribution == map[]
    {
      contractPaths := paths;
      findings := [];
      toolErrors := [];
      totalFindings := 0;
      severityDistribution := map[];
      confidenceDistribution := map[];
    }

    /** `finalize`: the total and the severity distribution are recomputed from the
        findings; the findings, errors, paths and confidence distribution stay. */
    method Finalize()
      modifies this
      ensures totalFindings == |findings|
      ensures severityDistribution == Distribution(findings)
      ensures DistributionTotal(severityDistribution) == totalFindings
      ensures findings == old(findings) && toolErrors == old(toolErrors)
      ensures contractPaths == old(contractPaths) && confidenceDistribution == old(confidenceDistribution)
    {
      totalFindings := |findings|;
      var dist := ComputeDistribution(findings);
      severityDistribution := dist;
      DistributionSumsToTotal(findings);
    }
  }
}
