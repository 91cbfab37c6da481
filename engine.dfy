/**
 * The audit engine's normalisation and orchestration: tool severities and
 * confidences mapped onto the schema, tool results converted into validated
 * findings, the static and dynamic phases, and `analyze`, which combines them
 * into an `AnalysisResult`.
 */
module Engine {
  import opened Wrappers
  import opened PyString
  import opened PyValue
  import opened Schemas
  import DA = DynamicAnalysis
  import opened Seqs

  // ---------------------------------------------------------------------------
  // Severity and confidence
  // ---------------------------------------------------------------------------

  /** The keys of `_map_severity`'s table. */
  const SeverityNames: seq<string> := ["critical", "high", "major", "medium", "low", "minor", "informational", "info"]

  /** `_map_severity`'s table, keyed by lower-case name. */
  function SeverityByName(key: string): (r: Option<SeverityLevel>)
    ensures r.Some? <==> key in SeverityNames
  {
    if key == "critical" then Some(Critical)
    else if key == "high" || key == "major" then Some(Major)
    else if key == "medium" then Some(Medium)
    else if key == "low" || key == "minor" then Some(Minor)
    else if key == "informational" || key == "info" then Some(Informational)
    else None
  }

  /** `_map_severity`: `str(severity).lower()` looked up in the table, MEDIUM when absent.
      The text of a non-string never lower-cases to one of the table's keys. */
  function MapSeverity(severity: Value): (r: SeverityLevel)
    ensures r != Medium ==> severity.Str? && Lower(severity.s) in SeverityNames
  {
    if severity.Str? then SeverityByName(Lower(severity.s)).GetOr(Medium) else Medium
  }

  /** Every severity's own value maps back to it, in any letter case. */
  lemma MapSeverityRoundTrip(s: SeverityLevel, t: string)
    requires Lower(t) == Lower(s.Value())
    ensures MapSeverity(Str(t)) == s
  {
    assert Lower("Critical") == "critical";
    assert Lower("Major") == "major";
    assert Lower("Medium") == "medium";
    assert Lower("Minor") == "minor";
    assert Lower("Informational") == "informational";
  }

  /** The lookup ignores letter case. */
  lemma MapSeverityCaseInsensitive(t: string)
    ensures MapSeverity(Str(t)) == MapSeverity(Str(Lower(t)))
  {
    LowerIdempotent(t);
  }

  /** The aliases: "high" is MAJOR, "low" is MINOR, "info" is INFORMATIONAL. */
  lemma MapSeverityAliases(t: string)
    ensures Lower(t) == "high" ==> MapSeverity(Str(t)) == Major
    ensures Lower(t) == "low" ==> MapSeverity(Str(t)) == Minor
    ensures Lower(t) == "info" ==> MapSeverity(Str(t)) == Informational
  {
  }

  /** Anything outside the table, and every non-string, is MEDIUM. */
  lemma MapSeverityDefault(v: Value)
    requires !v.Str? || Lower(v.s) !in SeverityNames
    ensures MapSeverity(v) == Medium
  {
  }

  /** The keys of `_confidence_to_float`'s table. */
  const ConfidenceNames: seq<string> := ["critical", "high", "medium", "low"]

  function ConfidenceByName(key: string): (r: Option<real>)
    ensures r.Some? <==> key in ConfidenceNames
  {
    if key == "critical" then Some(0.97)
    else if key == "high" then Some(0.9)
    else if key == "medium" then Some(0.7)
    else if key == "low" then Some(0.4)
    else None
  }

  /** `_confidence_to_float`: a string is looked up by its lower-case form (0.5 when
      absent); any other falsy value is 0.5; otherwise `float(v)`, which raises TypeError
      for containers and for objects without `__float__`. */
  function ConfidenceToFloat(v: Value): (r: Result<real, Exception>)
    ensures r.Failure? <==> (!v.Str? && Truthy(v) && (v.List? || v.Tuple? || v.Dict? || v.Obj?))
    ensures r.Failure? ==> r.error == TypeError
    ensures !v.Str? && !Truthy(v) ==> r == Success(0.5)
    ensures v.Int? && v.i != 0 ==> r == Success(v.i as real)
    ensures v.Float? && v.r != 0.0 ==> r == Success(v.r)
  {
    match v
    case Str(s) => Success(ConfidenceByName(Lower(s)).GetOr(0.5))
    case _ =>
      if !Truthy(v) then Success(0.5)
      else match v
        case Int(i) => Success(i as real)
        case Float(x) => Success(x)
        case Bool(_) => Success(1.0)
        case _ => Failure(TypeError)
  }

  /** On strings the table ignores letter case, and every other string is 0.5. */
  lemma ConfidenceStrings(s: string)
    ensures ConfidenceToFloat(Str(s)) == ConfidenceToFloat(Str(Lower(s)))
    ensures Lower(s) == "critical" ==> ConfidenceToFloat(Str(s)) == Success(0.97)
    ensures Lower(s) == "high" ==> ConfidenceToFloat(Str(s)) == Success(0.9)
    ensures Lower(s) == "medium" ==> ConfidenceToFloat(Str(s)) == Success(0.7)
    ensures Lower(s) == "low" ==> ConfidenceToFloat(Str(s)) == Success(0.4)
    ensures Lower(s) !in ConfidenceNames ==> ConfidenceToFloat(Str(s)) == Success(0.5)
  {
    LowerIdempotent(s);
  }

  /** Every result of the conversion that does not raise lies in [0, 1] when the
      input is a string, a boolean or a number in [0, 1]. */
  lemma ConfidenceInUnitRange(v: Value)
    requires v.Str? || v.Bool? || v.Null? || (v.Int? && 0 <= v.i <= 1) || (v.Float? && 0.0 <= v.r <= 1.0)
    ensures ConfidenceToFloat(v).Success? && 0.0 <= ConfidenceToFloat(v).value <= 1.0
  {
  }

  // ---------------------------------------------------------------------------
  // Field coercion (pydantic's `str`, `Optional[str]` and `List[str]` fields)
  // ---------------------------------------------------------------------------

  /** A `str` field: strings are kept, numbers (booleans included) become their text,
      anything else (None included) is rejected. */
  function CoerceStr(v: Value): (r: Result<string, Exception>)
    ensures r.Success? <==> (v.Str? || v.Int? || v.Bool? || v.Float?)
    ensures v.Str? ==> r == Success(v.s)
    ensures v.Int? ==> r == Success(PyString.IntToString(v.i))
    ensures v.Bool? ==> r == Success(if v.b then "True" else "False")
    ensures r.Failure? ==> r.error == ValidationError
  {
    match v
    case Str(s) => Success(s)
    case Int(_) => Success(Display(v))
    case Bool(_) => Success(Display(v))
    case Float(_) => Success(Display(v))
    case _ => Failure(ValidationError)
  }

  /** A float field value becomes its shortest decimal text. */
  lemma CoerceStrFloat()
    ensures CoerceStr(Float(1.5)) == Success("1.5") && CoerceStr(Float(-0.25)) == Success("-0.25")
  {
    DisplayFloat();
  }

  /** An `Optional[str]` field: None stays None. */
  function CoerceOptStr(v: Value): (r: Result<Option<string>, Exception>)
    ensures v.Null? ==> r == Success(None)
    ensures v.Str? ==> r == Success(Some(v.s))
    ensures r.Failure? <==> (!v.Null? && CoerceStr(v).Failure?)
  {
    if v.Null? then Success(None)
    else match CoerceStr(v)
      case Success(s) => Success(Some(s))
      case Failure(e) => Failure(e)
  }

  /** Coerces each element of a list to `str`, failing on the first that cannot be. */
  function CoerceEach(xs: seq<Value>): (r: Result<seq<string>, Exception>)
    ensures r.Success? ==> |r.value| == |xs| && forall i :: 0 <= i < |xs| ==> CoerceStr(xs[i]) == Success(r.value[i])
    ensures r.Success? <==> forall i :: 0 <= i < |xs| ==> CoerceStr(xs[i]).Success?
    ensures r.Failure? ==> r.error == ValidationError
  {
    if xs == [] then Success([])
    else match (CoerceStr(xs[0]), CoerceEach(xs[1..]))
      case (Success(s), Success(rest)) =>
        var out := [s] + rest;
        assert forall i :: 1 <= i < |xs| ==> xs[i] == xs[1..][i - 1] && out[i] == rest[i - 1];
        Success(out)
      case (Failure(e), _) => Failure(e)
      case (_, Failure(e)) =>
        assert forall i :: 1 <= i < |xs| ==> xs[i] == xs[1..][i - 1];
        Failure(e)
  }

  /** A `List[str]` field: a list or tuple, element by element. */
  function CoerceStrList(v: Value): (r: Result<seq<string>, Exception>)
    ensures r.Success? ==> v.List? || v.Tuple?
    ensures r.Failure? ==> r.error == ValidationError
  {
    if v.List? || v.Tuple? then CoerceEach(v.items) else Failure(ValidationError)
  }

  /** A list of strings passes through a `List[str]` field unchanged. */
  lemma CoerceStrListOfStrings(xs: seq<string>)
    ensures CoerceStrList(StrList(xs)) == Success(xs)
  {
    var r := CoerceStrList(StrList(xs));
    assert r.Success?;
    assert r.value == xs;
  }

  // ---------------------------------------------------------------------------
  // `_convert_to_finding`
  // ---------------------------------------------------------------------------

  /** `recommendations` in the dict branch: a string is wrapped in a one-element list. */
  function Recommendations(d: Entries): (v: Value)
    ensures (forall s :: Lookup(d, "recommendations") != Some(Str(s))) ==> v == Get(d, "recommendations", List([]))
  {
    var recs := Get(d, "recommendations", List([]));
    if recs.Str? then List([recs]) else recs
  }

  /** The finding the dict branch builds, before pydantic validates it; `None` when a
      field cannot be coerced. Only the confidence can raise before validation. */
  function DictCandidate(toolName: string, d: Entries, confidence: real): Result<Finding, Exception> {
    var swc := CoerceOptStr(Get(d, "swc_id", Null));
    var tool := CoerceStr(Get(d, "tool", Str(toolName)));
    var version := CoerceStr(Get(d, "tool_version", Str("1.0.0")));
    var path := CoerceStr(FilePathOf(d));
    var funcName := CoerceOptStr(Get(d, "function_name", Null));
    var description := CoerceStr(Get(d, "description", Str("No description")));
    var steps := CoerceStr(Get(d, "reproduction_steps", Str("No steps provided")));
    var recs := CoerceStrList(Recommendations(d));
    if swc.Failure? || tool.Failure? || version.Failure? || path.Failure? || funcName.Failure?
       || description.Failure? || steps.Failure? || recs.Failure?
    then Failure(ValidationError)
    else Success(Finding(
      swc.value, MapSeverity(Get(d, "severity", Str("Medium"))), tool.value, version.value, path.value,
      None, funcName.value, None, description.value, steps.value, None, ComplexityMedium,
      confidence, false, recs.value, None, None))
  }

  /** `_convert_to_finding`. A dict is read key by key with the source's defaults; any
      other value is an object without the expected attributes, so every field takes its
      default and the description is `str(raw)`. The candidate is then validated. */
  function ConvertToFinding(toolName: string, raw: Value): (r: Result<Finding, Exception>)
    ensures r.Success? ==> ValidFinding(r.value) && r.value.lineSpan.None?
    ensures r.Failure? ==> r.error in {TypeError, ValidationError}
    ensures raw.Dict? && ConfidenceToFloat(Get(raw.entries, "confidence", Float(0.5))).Failure? ==> r == Failure(TypeError)
    ensures !raw.Dict? ==> r.Success?
  {
    if raw.Dict? then
      match ConfidenceToFloat(Get(raw.entries, "confidence", Float(0.5)))
      case Failure(e) => Failure(e)
      case Success(c) =>
        match DictCandidate(toolName, raw.entries, c)
        case Failure(e) => Failure(e)
        case Success(f) => CheckFinding(f)
    else
      CheckFinding(Finding(None, Medium, toolName, "1.0.0", "unknown", None, None, None, Display(raw),
                           "No steps provided", None, ComplexityMedium, 0.5, false, [], None, None))
  }

  /** The finding an empty dict converts to: every default. */
  const DefaultFinding := Finding(None, Medium, "", "1.0.0", "unknown", None, None, None, "No description",
                                  "No steps provided", None, ComplexityMedium, 0.5, false, [], None, None)

  /** The keys the dict branch reads. */
  const ReadKeys: seq<string> := ["swc_id", "severity", "tool", "tool_version", "file_path", "path",
                                  "function_name", "description", "reproduction_steps", "confidence", "recommendations"]

  /** A dict with none of the keys the conversion reads gets every default: severity
      MEDIUM, version "1.0.0", path "unknown", "No description", "No steps provided",
      confidence 0.5, no line span and no recommendations. */
  lemma ConvertDefaults(toolName: string, d: Entries)
    requires forall k :: k in ReadKeys ==> k !in Keys(d)
    ensures ConvertToFinding(toolName, Dict(d)) == Success(DefaultFinding.(toolName := toolName))
  {
    assert ReadKeys[0] == "swc_id" && ReadKeys[1] == "severity" && ReadKeys[2] == "tool";
    assert ReadKeys[3] == "tool_version" && ReadKeys[4] == "file_path" && ReadKeys[5] == "path";
    assert ReadKeys[6] == "function_name" && ReadKeys[7] == "description";
    assert ReadKeys[8] == "reproduction_steps" && ReadKeys[9] == "confidence";
    assert ReadKeys[10] == "recommendations";
    DictDefaults(toolName, d);
  }

  /** The same, key by key. */
  lemma DictDefaults(toolName: string, d: Entries)
    requires Lookup(d, "swc_id") == None && Lookup(d, "severity") == None && Lookup(d, "tool") == None
    requires Lookup(d, "tool_version") == None && Lookup(d, "file_path") == None
    requires Lookup(d, "path") == None && Lookup(d, "function_name") == None
    requires Lookup(d, "description") == None && Lookup(d, "reproduction_steps") == None
    requires Lookup(d, "confidence") == None && Lookup(d, "recommendations") == None
    ensures ConvertToFinding(toolName, Dict(d)) == Success(DefaultFinding.(toolName := toolName))
  {
    assert ConfidenceToFloat(Get(d, "confidence", Float(0.5))) == Success(0.5);
    DefaultCandidate(toolName, d);
  }

  lemma DefaultCandidate(toolName: string, d: Entries)
    requires Lookup(d, "swc_id") == None && Lookup(d, "severity") == None && Lookup(d, "tool") == None
    requires Lookup(d, "tool_version") == None && Lookup(d, "file_path") == None
    requires Lookup(d, "path") == None && Lookup(d, "function_name") == None
    requires Lookup(d, "description") == None && Lookup(d, "reproduction_steps") == None
    requires Lookup(d, "recommendations") == None
    ensures DictCandidate(toolName, d, 0.5) == Success(DefaultFinding.(toolName := toolName))
  {
    DefaultSeverityAndRecommendations(d);
    assert FilePathOf(d) == Str("unknown");
  }

  lemma DefaultSeverityAndRecommendations(d: Entries)
    requires Lookup(d, "severity") == None && Lookup(d, "recommendations") == None
    ensures MapSeverity(Get(d, "severity", Str("Medium"))) == Medium
    ensures CoerceStrList(Recommendations(d)) == Success([])
  {
    assert Lower("Medium") == "medium";
    CoerceStrListOfStrings([]);
  }

  /** The fields a successful dict conversion takes from its keys. */
  lemma ConvertDictFields(toolName: string, d: Entries)
    requires ConvertToFinding(toolName, Dict(d)).Success?
    ensures var f := ConvertToFinding(toolName, Dict(d)).value;
            && f.severity == MapSeverity(Get(d, "severity", Str("Medium")))
            && Success(f.confidence) == ConfidenceToFloat(Get(d, "confidence", Float(0.5)))
            && (Get(d, "description", Str("No description")).Str? ==> f.description == Get(d, "description", Str("No description")).s)
            && (Lookup(d, "swc_id") == None ==> f.swcId == None)
            && (Lookup(d, "recommendations") == None ==> f.recommendations == [])
  {
    CoerceStrListOfStrings([]);
  }

  /** A string `recommendations` becomes a one-element list; a list of strings passes
      through unchanged. */
  lemma ConvertRecommendations(toolName: string, d: Entries)
    requires ConvertToFinding(toolName, Dict(d)).Success?
    ensures forall s :: Lookup(d, "recommendations") == Some(Str(s)) ==> ConvertToFinding(toolName, Dict(d)).value.recommendations == [s]
    ensures forall xs :: Lookup(d, "recommendations") == Some(StrList(xs)) ==> ConvertToFinding(toolName, Dict(d)).value.recommendations == xs
  {
    ConvertRecommendationsField(toolName, d);
    RecommendationsCoerced(d);
  }

  /** What coercing the dict branch's `recommendations` gives for a string and for a list
      of strings. */
  lemma RecommendationsCoerced(d: Entries)
    ensures forall s :: Lookup(d, "recommendations") == Some(Str(s)) ==> CoerceStrList(Recommendations(d)) == Success([s])
    ensures forall xs :: Lookup(d, "recommendations") == Some(StrList(xs)) ==> CoerceStrList(Recommendations(d)) == Success(xs)
  {
    forall s | Lookup(d, "recommendations") == Some(Str(s))
      ensures CoerceStrList(Recommendations(d)) == Success([s])
    {
      assert StrList([s]) == List([Str(s)]);
      CoerceStrListOfStrings([s]);
    }
    forall xs | Lookup(d, "recommendations") == Some(StrList(xs))
      ensures CoerceStrList(Recommendations(d)) == Success(xs)
    {
      CoerceStrListOfStrings(xs);
    }
  }

  /** A successful conversion's recommendations are the coerced `Recommendations`. */
  lemma ConvertRecommendationsField(toolName: string, d: Entries)
    requires ConvertToFinding(toolName, Dict(d)).Success?
    ensures CoerceStrList(Recommendations(d)) == Success(ConvertToFinding(toolName, Dict(d)).value.recommendations)
  {
  }

  /** The file path is `file_path` when truthy, else `path`, else "unknown". */
  function FilePathOf(d: Entries): (v: Value)
    ensures Truthy(Get(d, "file_path", Null)) ==> v == Get(d, "file_path", Null)
    ensures !Truthy(Get(d, "file_path", Null)) && Lookup(d, "path").Some? ==> v == Lookup(d, "path").value
    ensures !Truthy(Get(d, "file_path", Null)) && Lookup(d, "path") == None ==> v == Str("unknown")
  {
    Or(Get(d, "file_path", Null), Get(d, "path", Str("unknown")))
  }

  /** A successful conversion's file path is the coerced `FilePathOf`. */
  lemma ConvertFilePath(toolName: string, d: Entries)
    requires ConvertToFinding(toolName, Dict(d)).Success?
    ensures CoerceStr(FilePathOf(d)) == Success(ConvertToFinding(toolName, Dict(d)).value.filePath)
  {
  }

  // ---------------------------------------------------------------------------
  // Static analysis
  // ---------------------------------------------------------------------------

  /** `_normalize_static_findings`: each raw result converted, the ones that fail dropped. */
  function NormalizeAll(toolName: string, raws: seq<Value>): (fs: seq<Finding>)
    ensures |fs| <= |raws|
    ensures forall i :: 0 <= i < |fs| ==> ValidFinding(fs[i])
  {
    if raws == [] then []
    else
      var prefix := NormalizeAll(toolName, raws[..|raws| - 1]);
      match ConvertToFinding(toolName, raws[|raws| - 1])
      case Success(f) => prefix + [f]
      case Failure(_) => prefix
  }

  /** Normalising a concatenation normalises each part. */
  lemma {:induction false} NormalizeAllAppend(toolName: string, a: seq<Value>, b: seq<Value>)
    ensures NormalizeAll(toolName, a + b) == NormalizeAll(toolName, a) + NormalizeAll(toolName, b)
  {
    if b != [] {
      NormalizeAllAppend(toolName, a, b[..|b| - 1]);
      assert (a + b)[..|a + b| - 1] == a + b[..|b| - 1];
    } else {
      assert a + b == a;
    }
  }

  /** Non-dict results always convert, so a list of them loses nothing. */
  lemma {:induction false} NormalizeNonDicts(toolName: string, raws: seq<Value>)
    requires forall i :: 0 <= i < |raws| ==> !raws[i].Dict?
    ensures |NormalizeAll(toolName, raws)| == |raws|
  {
    if raws != [] {
      NormalizeNonDicts(toolName, raws[..|raws| - 1]);
    }
  }

  method NormalizeStaticFindings(toolName: string, raws: seq<Value>) returns (findings: seq<Finding>)
    ensures findings == NormalizeAll(toolName, raws)
  {
    findings := [];
    for i := 0 to |raws|
      invariant findings == NormalizeAll(toolName, raws[..i])
    {
      assert raws[..i + 1][..i] == raws[..i];
      match ConvertToFinding(toolName, raws[i])
      case Success(f) =>
        findings := findings + [f];
      case Failure(_) =>
    }
    assert raws[..|raws|] == raws;
  }

  /** One (adapter, contract) job of the static phase: the adapter's class name and
      raw results, or the exception it raised. */
  datatype AdapterOutcome = Ran(adapterName: string, raws: seq<Value>) | Crashed(error: Exception)

  /** A phase's output: its findings and its tool errors. */
  datatype PhaseOutput = PhaseOutput(findings: seq<Finding>, errors: seq<ToolError>)

  /** `_run_static_analysis` with a working `_run_static_adapter`: jobs are collected in
      order; the first exception stops the collection and is recorded as a
      `static_analysis` error, keeping the findings gathered before it. */
  function StaticAnalysis(jobs: seq<AdapterOutcome>): (out: PhaseOutput)
  {
    if jobs == [] then PhaseOutput([], [])
    else match jobs[0]
      case Crashed(e) => PhaseOutput([], [ToolError("static_analysis", e.Name())])
      case Ran(name, raws) =>
        var rest := StaticAnalysis(jobs[1..]);
        PhaseOutput(NormalizeAll(name, raws) + rest.findings, rest.errors)
  }

  /** The static phase records at most one error, and none exactly when every job
      finished. */
  lemma {:induction false} StaticAnalysisErrors(jobs: seq<AdapterOutcome>)
    ensures |StaticAnalysis(jobs).errors| <= 1
    ensures StaticAnalysis(jobs).errors == [] <==> forall i :: 0 <= i < |jobs| ==> jobs[i].Ran?
  {
    if jobs != [] && jobs[0].Ran? {
      StaticAnalysisErrors(jobs[1..]);
      assert forall i :: 1 <= i < |jobs| ==> jobs[i] == jobs[1..][i - 1];
    }
  }

  /** The static phase as the loop over completed jobs. */
  method RunStaticAnalysis(jobs: seq<AdapterOutcome>) returns (out: PhaseOutput)
    ensures out == StaticAnalysis(jobs)
  {
    var findings: seq<Finding> := [];
    for i := 0 to |jobs|
      invariant StaticAnalysisFrom(jobs, i, findings)
    {
      match jobs[i]
      case Crashed(e) =>
        StaticCrashStep(jobs, i, findings);
        return PhaseOutput(findings, [ToolError("static_analysis", e.Name())]);
      case Ran(name, raws) =>
        var normalized := NormalizeStaticFindings(name, raws);
        StaticRanStep(jobs, i, findings);
        findings := findings + normalized;
    }
    assert jobs[|jobs|..] == [];
    out := PhaseOutput(findings, []);
  }

  /** The loop's invariant: the phase's output is `findings` followed by what the jobs
      from `i` on give. */
  predicate StaticAnalysisFrom(jobs: seq<AdapterOutcome>, i: nat, findings: seq<Finding>)
    requires i <= |jobs|
  {
    StaticAnalysis(jobs) == PhaseOutput(findings + StaticAnalysis(jobs[i..]).findings, StaticAnalysis(jobs[i..]).errors)
  }

  /** A crash at job `i` ends the phase with the findings gathered so far. */
  lemma StaticCrashStep(jobs: seq<AdapterOutcome>, i: nat, findings: seq<Finding>)
    requires i < |jobs| && jobs[i].Crashed? && StaticAnalysisFrom(jobs, i, findings)
    ensures StaticAnalysis(jobs) == PhaseOutput(findings, [ToolError("static_analysis", jobs[i].error.Name())])
  {
    StaticAnalysisCons(jobs[i..]);
    assert findings + [] == findings;
  }

  /** A finished job `i` appends its normalised findings. */
  lemma StaticRanStep(jobs: seq<AdapterOutcome>, i: nat, findings: seq<Finding>)
    requires i < |jobs| && jobs[i].Ran? && StaticAnalysisFrom(jobs, i, findings)
    ensures StaticAnalysisFrom(jobs, i + 1, findings + NormalizeAll(jobs[i].adapterName, jobs[i].raws))
  {
    StaticAnalysisCons(jobs[i..]);
    assert jobs[i..][1..] == jobs[i + 1..];
    var normalized := NormalizeAll(jobs[i].adapterName, jobs[i].raws);
    var rest := StaticAnalysis(jobs[i + 1..]).findings;
    assert findings + (normalized + rest) == findings + normalized + rest;
  }

  /** The static phase's first job: a crash ends the phase, a finished job's findings come
      before the rest's. */
  lemma StaticAnalysisCons(jobs: seq<AdapterOutcome>)
    requires jobs != []
    ensures jobs[0].Crashed? ==> StaticAnalysis(jobs) == PhaseOutput([], [ToolError("static_analysis", jobs[0].error.Name())])
    ensures jobs[0].Ran? ==>
              StaticAnalysis(jobs)
              == PhaseOutput(NormalizeAll(jobs[0].adapterName, jobs[0].raws) + StaticAnalysis(jobs[1..]).findings,
                             StaticAnalysis(jobs[1..]).errors)
  {
  }

  /** `_run_static_analysis` as written: `_run_static_adapter` only defines a nested
      function, and it is submitted with one argument more than it takes, so the first
      job raises TypeError. With no adapters, or no contracts, there are no jobs. */
  function StaticAnalysisAsWritten(adapterCount: nat, contractCount: nat): (out: PhaseOutput)
    ensures out.findings == []
  {
    if adapterCount > 0 && contractCount > 0 then PhaseOutput([], [ToolError("static_analysis", TypeError.Name())])
    else PhaseOutput([], [])
  }

  /** As written, static analysis of at least one contract by at least one adapter never
      reports a finding, although the repaired version reports those of every
      finished job. */
  lemma StaticAnalysisAsWrittenLosesFindings()
    ensures StaticAnalysisAsWritten(1, 1) == PhaseOutput([], [ToolError("static_analysis", "TypeError")])
    ensures |StaticAnalysis([Ran("MythrilAdapter", [Null])]).findings| == 1
  {
    var jobs := [Ran("MythrilAdapter", [Null])];
    assert jobs[1..] == [];
    assert [Null][..0] == [];
  }

  // ---------------------------------------------------------------------------
  // Dynamic analysis
  // ---------------------------------------------------------------------------

  /** The confidence a dynamic result carries, converted through its `.value` string. */
  function DynamicConfidence(c: DA.ConfidenceLevel): (r: real)
    ensures 0.0 <= r <= 1.0
    ensures c == DA.Low ==> r == 0.4
    ensures c == DA.Medium ==> r == 0.7
    ensures c == DA.High ==> r == 0.9
    ensures c == DA.Critical ==> r == 0.97
  {
    assert Lower(c.Value()) == c.Value();
    ConfidenceToFloat(Str(c.Value())).value
  }

  /** `key` is present in `d` and holds a string. */
  predicate StrEntry(d: Entries, key: string) {
    Lookup(d, key).Some? && Lookup(d, key).value.Str?
  }

  /** A dynamic result as a finding, with the confidence taken through its `.value`:
      the vulnerability type is the description, the details supply the SWC id, the
      file path and the reproduction steps, and the remediation is split into lines. */
  function DynamicToFinding(r: DA.DynResult): (f: Result<Finding, Exception>)
    ensures f.Success? ==> ValidFinding(f.value) && f.value.toolName == r.toolName
                           && f.value.description == r.vulnerabilityType
                           && f.value.severity == MapSeverity(r.severity)
                           && f.value.crossChainImpact == r.crossChain
                           && f.value.confidence == DynamicConfidence(r.confidence)
                           && f.value.toolVersion == "unknown" && f.value.exploitComplexity == ComplexityMedium
    // the reproduction steps: a string entry as it is, otherwise `str(details)`
    ensures f.Success? && StrEntry(r.details, "reproduction_steps") ==> f.value.reproductionSteps == Get(r.details, "reproduction_steps", Null).s
    ensures f.Success? && Lookup(r.details, "reproduction_steps").None? ==> f.value.reproductionSteps == Display(Dict(r.details))
    // the SWC id and the file path, with "unknown" when neither path is given
    ensures f.Success? && StrEntry(r.details, "swc_id") ==> f.value.swcId == Some(Get(r.details, "swc_id", Null).s)
    ensures f.Success? && Lookup(r.details, "swc_id") in {None, Some(Null)} ==> f.value.swcId.None?
    ensures f.Success? && StrEntry(r.details, "file_path") && Get(r.details, "file_path", Null).s != ""
            ==> f.value.filePath == Get(r.details, "file_path", Null).s
    ensures f.Success? && Lookup(r.details, "file_path").None? && Lookup(r.details, "contract_path").None?
            ==> f.value.filePath == "unknown"
    ensures f.Success? && (r.remediation.None? || r.remediation == Some("")) ==> f.value.recommendations == []
    // only the details can make the conversion fail; empty details give `"{}"` as the steps
    ensures f.Failure? ==> f.error == ValidationError
    ensures f.Failure? ==> Lookup(r.details, "swc_id").Some? || Lookup(r.details, "file_path").Some?
                           || Lookup(r.details, "contract_path").Some?
    ensures r.details == [] ==> f.Success? && f.value.reproductionSteps == "{}" && f.value.filePath == "unknown"
  {
    var swc := CoerceOptStr(Get(r.details, "swc_id", Null));
    var path := CoerceStr(Or(Or(Get(r.details, "file_path", Null), Get(r.details, "contract_path", Null)), Str("unknown")));
    var steps := Display(Get(r.details, "reproduction_steps", Dict(r.details)));
    var recs := if r.remediation.Some? && r.remediation.value != "" then Split(r.remediation.value, '\n') else [];
    if swc.Failure? || path.Failure? then Failure(ValidationError)
    else CheckFinding(Finding(
      swc.value, MapSeverity(r.severity), r.toolName, "unknown", path.value, None, None, None,
      r.vulnerabilityType, steps, None, ComplexityMedium, DynamicConfidence(r.confidence), false,
      recs, r.crossChain, None))
  }

  /** A remediation is split into its lines: joining them gives it back. */
  lemma DynamicRecommendationsAreLines(r: DA.DynResult)
    requires DynamicToFinding(r).Success? && r.remediation.Some? && r.remediation.value != ""
    ensures Join(DynamicToFinding(r).value.recommendations, '\n') == r.remediation.value
  {
    JoinSplit(r.remediation.value, '\n');
  }

  /** The conversion loop of `_run_dynamic_analysis` over the consensus results: the
      first failing conversion discards every finding and becomes a `dynamic_analysis`
      error. */
  function DynamicAnalysis(rs: seq<DA.DynResult>): (out: PhaseOutput)
    ensures |out.errors| <= 1
    ensures out.errors == [] ==> |out.findings| == |rs|
    ensures out.errors != [] ==> out.findings == []
  {
    MapResultsSpec(DynamicToFinding, rs);
    match MapResults(DynamicToFinding, rs)
    case Failure(e) => PhaseOutput([], [ToolError("dynamic_analysis", e.Name())])
    case Success(fs) => PhaseOutput(fs, [])
  }

  /** A result of the conversion loop is the finding of the result at that position. */
  lemma DynamicAnalysisAt(rs: seq<DA.DynResult>, i: int)
    requires DynamicAnalysis(rs).errors == [] && 0 <= i < |rs|
    ensures DynamicToFinding(rs[i]).Success? && DynamicAnalysis(rs).findings[i] == DynamicToFinding(rs[i]).value
  {
    MapResultsSpec(DynamicToFinding, rs);
  }

  /** `_run_dynamic_analysis` with the confidence converted through its value: the
      converted consensus results, in order. */
  method RunDynamicAnalysis(rs: seq<DA.DynResult>) returns (out: PhaseOutput)
    ensures out == DynamicAnalysis(rs)
  {
    var findings: seq<Finding> := [];
    for i := 0 to |rs|
      invariant MapResults(DynamicToFinding, rs[..i]) == Success(findings)
    {
      MapResultsStep(DynamicToFinding, rs, i, findings);
      match DynamicToFinding(rs[i])
      case Failure(e) =>
        out := PhaseOutput([], [ToolError("dynamic_analysis", e.Name())]);
        return;
      case Success(f) =>
        findings := findings + [f];
    }
    assert rs[..|rs|] == rs;
    out := PhaseOutput(findings, []);
  }

  /** The first failing conversion decides the phase's error. */
  lemma DynamicAnalysisFails(rs: seq<DA.DynResult>, i: int, e: Exception)
    requires 0 <= i < |rs| && DynamicToFinding(rs[i]) == Failure(e)
    requires forall j :: 0 <= j < i ==> DynamicToFinding(rs[j]).Success?
    ensures DynamicAnalysis(rs) == PhaseOutput([], [ToolError("dynamic_analysis", e.Name())])
  {
    var prefix := rs[..i + 1];
    assert prefix[..i] == rs[..i];
    MapResultsSpec(DynamicToFinding, rs[..i]);
    assert MapResults(DynamicToFinding, prefix) == Failure(e);
    MapResultsFailurePersists(DynamicToFinding, rs, i + 1);
  }

  /** When every conversion succeeds, the findings are the converted results. */
  lemma DynamicAnalysisSucceeds(rs: seq<DA.DynResult>, fs: seq<Finding>)
    requires |fs| == |rs| && forall j :: 0 <= j < |rs| ==> DynamicToFinding(rs[j]) == Success(fs[j])
    ensures DynamicAnalysis(rs) == PhaseOutput(fs, [])
  {
    MapResultsSpec(DynamicToFinding, rs);
    assert MapResults(DynamicToFinding, rs).value == fs;
  }

  /** `_run_dynamic_analysis` as written, given the results the orchestrator collected:
      the consensus raises for a shared key, and otherwise `float()` of the first
      result's plain-`Enum` confidence raises; either TypeError is caught and reported. */
  function DynamicAnalysisAsWritten(rs: seq<DA.DynResult>): (out: PhaseOutput)
    ensures out.findings == []
  {
    match DA.ConsensusAsWritten(rs)
    case Failure(e) => PhaseOutput([], [ToolError("dynamic_analysis", e.Name())])
    case Success(consensus) =>
      if consensus == [] then PhaseOutput([], [])
      else
        match ConfidenceToFloat(Obj("ConfidenceLevel"))
        case Failure(e) => PhaseOutput([], [ToolError("dynamic_analysis", e.Name())])
        case Success(_) => PhaseOutput([], [])
  }

  /** As written, dynamic analysis reports no finding whatever the tools found, and
      reports a TypeError exactly when a tool found anything. */
  lemma DynamicAnalysisAsWrittenBehaviour(rs: seq<DA.DynResult>)
    ensures DynamicAnalysisAsWritten(rs).findings == []
    ensures DynamicAnalysisAsWritten(rs).errors == (if rs == [] then [] else [ToolError("dynamic_analysis", "TypeError")])
  {
    DA.ConsensusAsWrittenBehaviour(rs);
    if rs != [] && !DA.HasSharedKey(rs) {
      assert DA.KeyOf(rs[0]) in DA.DistinctKeys(rs);
    }
  }

  /** The corrected conversion keeps every consensus result of a single tool's report. */
  lemma DynamicAnalysisSingleResult(r: DA.DynResult)
    requires DynamicToFinding(r).Success?
    ensures DynamicAnalysis([r]) == PhaseOutput([DynamicToFinding(r).value], [])
  {
    DynamicAnalysisSucceeds([r], [DynamicToFinding(r).value]);
  }

  // ---------------------------------------------------------------------------
  // The analysis phase and `analyze`
  // ---------------------------------------------------------------------------

  /** What a phase task of `asyncio.gather(..., return_exceptions=True)` produced. */
  datatype TaskResult = Completed(output: PhaseOutput) | Raised(exception: Exception)

  /** The static findings, the dynamic findings and the tool errors of the phase. */
  datatype PhaseResults = PhaseResults(staticFindings: seq<Finding>, dynamicFindings: seq<Finding>, toolErrors: seq<ToolError>)

  /** The errors a task contributes, under the name of its phase. */
  function TaskErrors(source: string, t: TaskResult): seq<ToolError> {
    match t
    case Completed(o) => o.errors
    case Raised(e) => [ToolError(source + "_analysis", e.Name())]
  }

  function TaskFindings(t: TaskResult): seq<Finding> {
    if t.Completed? then t.output.findings else []
  }

  /** The phase as its requested tasks promise: static findings from the static task,
      dynamic findings from the dynamic task, the static task's errors first. */
  function AnalysisPhase(includeStatic: bool, includeDynamic: bool, staticTask: TaskResult, dynamicTask: TaskResult): PhaseResults {
    PhaseResults(
      if includeStatic then TaskFindings(staticTask) else [],
      if includeDynamic then TaskFindings(dynamicTask) else [],
      (if includeStatic then TaskErrors("static", staticTask) else [])
      + (if includeDynamic then TaskErrors("dynamic", dynamicTask) else []))
  }

  /** With neither analysis requested the phase returns three empty lists. */
  lemma NoTasksNoResults(staticTask: TaskResult, dynamicTask: TaskResult)
    ensures AnalysisPhase(false, false, staticTask, dynamicTask) == PhaseResults([], [], [])
  {
  }

  /** `_run_analysis_phase`: the task list is built, and each result is assigned by its
      position, the first counting as static when static analysis was requested. */
  method RunAnalysisPhase(includeStatic: bool, includeDynamic: bool, staticTask: TaskResult, dynamicTask: TaskResult)
    returns (out: PhaseResults)
    ensures out == AnalysisPhase(includeStatic, includeDynamic, staticTask, dynamicTask)
  {
    var tasks: seq<TaskResult> := [];
    if includeStatic {
      tasks := tasks + [staticTask];
    }
    if includeDynamic {
      tasks := tasks + [dynamicTask];
    }
    if tasks == [] {
      return PhaseResults([], [], []);
    }
    var staticFindings: seq<Finding> := [];
    var dynamicFindings: seq<Finding> := [];
    var toolErrors: seq<ToolError> := [];
    for i := 0 to |tasks|
      invariant i == 0 ==> staticFindings == [] && dynamicFindings == [] && toolErrors == []
      invariant i >= 1 ==> staticFindings == (if includeStatic then TaskFindings(staticTask) else [])
      invariant i == 1 ==> toolErrors == TaskErrors(if includeStatic then "static" else "dynamic", tasks[0])
      invariant i == 1 ==> dynamicFindings == (if includeStatic then [] else TaskFindings(dynamicTask))
      invariant i == 2 ==> dynamicFindings == TaskFindings(dynamicTask)
                           && toolErrors == TaskErrors("static", staticTask) + TaskErrors("dynamic", dynamicTask)
    {
      var isStatic := i == 0 && includeStatic;
      match tasks[i]
      case Raised(e) =>
        var source := if isStatic then "static" else "dynamic";
        toolErrors := toolErrors + [ToolError(source + "_analysis", e.Name())];
      case Completed(o) =>
        if isStatic {
          staticFindings := o.findings;
        } else {
          dynamicFindings := o.findings;
        }
        toolErrors := toolErrors + o.errors;
    }
    out := PhaseResults(staticFindings, dynamicFindings, toolErrors);
  }

  /** `analyze`, given the outcome of contract validation (a file-system check), the
      request's flags, and what the static jobs and the dynamic tools produced. The
      static findings come first. A validation failure, and the placeholder RL-feedback
      step (which returns an undefined name), end in an `AuditEngine` AnalysisError
      after the findings gathered so far are stored; `finalize` runs on every path. */
  method Analyze(paths: seq<string>, validated: Result<seq<string>, Exception>,
                 includeStatic: bool, includeDynamic: bool, rlFeedback: bool,
                 staticJobs: seq<AdapterOutcome>, dynamicResults: seq<DA.DynResult>)
    returns (result: AnalysisResult)
    ensures fresh(result)
    ensures result.contractPaths == paths
    ensures validated.Failure? ==>
              result.findings == [] && result.toolErrors == [ToolError("AuditEngine", "AnalysisError")]
    ensures validated.Success? ==>
              var phase := AnalysisPhase(includeStatic, includeDynamic,
                                         Completed(StaticAnalysis(staticJobs)), Completed(DynamicAnalysis(dynamicResults)));
              && result.findings == phase.staticFindings + phase.dynamicFindings
              && result.toolErrors == phase.toolErrors + (if rlFeedback then [ToolError("AuditEngine", "AnalysisError")] else [])
    ensures result.totalFindings == |result.findings|
    ensures result.severityDistribution == Distribution(result.findings)
    ensures DistributionTotal(result.severityDistribution) == result.totalFindings
  {
    result := new AnalysisResult(paths);
    if validated.Failure? {
      result.toolErrors := result.toolErrors + [ToolError("AuditEngine", "AnalysisError")];
      result.Finalize();
      return;
    }
    var staticOut := RunStaticAnalysis(staticJobs);
    var dynamicOut := RunDynamicAnalysis(dynamicResults);
    var phase := RunAnalysisPhase(includeStatic, includeDynamic, Completed(staticOut), Completed(dynamicOut));
    result.findings := phase.staticFindings + phase.dynamicFindings;
    result.toolErrors := phase.toolErrors;
    if rlFeedback {
      result.toolErrors := result.toolErrors + [ToolError("AuditEngine", "AnalysisError")];
    }
    result.Finalize();
  }

  /** The combined findings are the static findings followed by the dynamic ones, so
      their severity counts add up. */
  lemma CombinedCounts(phase: PhaseResults, s: SeverityLevel)
    ensures CountIn(Distribution(phase.staticFindings + phase.dynamicFindings), s)
            == CountIn(Distribution(phase.staticFindings), s) + CountIn(Distribution(phase.dynamicFindings), s)
  {
    DistributionOfConcat(phase.staticFindings, phase.dynamicFindings, s);
  }
}
