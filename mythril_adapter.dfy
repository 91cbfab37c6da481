/**
 * `MythrilAdapter.parse_output`: each issue of Mythril's JSON report becomes one
 * standardised finding dict, and any error makes the whole result empty.
 */
module MythrilAdapter {
  import opened Wrappers
  import opened PyValue
  import opened StaticBase
  import opened Seqs

  /** `[loc.get("sourceMap", "") for loc in locations]`. */
  function SourceMaps(locs: seq<Entries>): (r: seq<Value>)
    ensures |r| == |locs| && forall i :: 0 <= i < |locs| ==> r[i] == Get(locs[i], "sourceMap", Str(""))
  {
    seq(|locs|, i requires 0 <= i < |locs| => Get(locs[i], "sourceMap", Str("")))
  }

  /** The finding dict built for one issue, before standardisation. */
  function RawFinding(issue: Entries, locs: seq<Entries>): Entries {
    FindingDict(Get(issue, "title", Str("")),
                Get(issue, "description", Str("")),
                Get(issue, "severity", Str("Medium")),
                Get(issue, "swc-id", Str("")),
                List(SourceMaps(locs)),
                Get(issue, "confidence", Str("Medium")),
                Str("Mythril"))
  }

  /** One issue: its locations must iterate as dicts, or the mapping raises. */
  function MapIssue(issue: Entries): (r: Result<Entries, Exception>)
    ensures r.Success? <==> IterateDicts(Get(issue, "locations", List([]))).Success?
  {
    match IterateDicts(Get(issue, "locations", List([])))
    case Failure(e) => Failure(e)
    case Success(locs) => Success(RawFinding(issue, locs))
  }

  /** An issue maps without raising. */
  predicate Mappable(issue: Entries) {
    MapIssue(issue).Success?
  }

  /** Every issue maps without raising. */
  predicate AllMapped(issues: seq<Entries>) {
    All(Mappable, issues)
  }

  /** The standardised finding of one issue (never used for an issue that raises). */
  function IssueFinding(issue: Entries): Value {
    match MapIssue(issue)
    case Success(raw) => Dict(StandardizeFinding(raw))
    case Failure(_) => Null
  }

  /** What `parse_output` returns for the parsed document (`None` for invalid JSON): one
      finding per issue, in order, or nothing at all once anything raises. */
  function Findings(output: Option<Value>): seq<Value> {
    match JsonDictList(output, "issues")
    case Failure(_) => []
    case Success(issues) => if AllMapped(issues) then MapSeq(IssueFinding, issues) else []
  }

  /** `parse_output`: parse, then map the issues. */
  method ParseOutput(output: Option<Value>) returns (findings: seq<Value>)
    ensures findings == Findings(output)
  {
    var parsed := JsonDictList(output, "issues");
    if parsed.Failure? {
      return [];
    }
    findings := MapAllIssues(parsed.value);
  }

  /** The loop over the issues, appending one standardised finding each; the first issue
      that raises abandons the report. */
  method MapAllIssues(issues: seq<Entries>) returns (findings: seq<Value>)
    ensures AllMapped(issues) ==> findings == MapSeq(IssueFinding, issues)
    ensures !AllMapped(issues) ==> findings == []
  {
    findings := [];
    var i := 0;
    while i < |issues|
      invariant 0 <= i <= |issues|
      invariant AllMapped(issues[..i])
      invariant findings == MapSeq(IssueFinding, issues[..i])
    {
      if !Mappable(issues[i]) {
        assert !AllMapped(issues);
        return [];
      }
      AllSnoc(Mappable, issues, i);
      MapSeqSnoc(IssueFinding, issues, i);
      findings := findings + [IssueFinding(issues[i])];
      i := i + 1;
    }
    assert issues[..i] == issues;
  }

  /** A missing document (invalid JSON), a document that is not an object, or one without
      an "issues" key gives no findings. */
  lemma NoIssuesNoFindings(output: Option<Value>)
    requires output.None? || !output.value.Dict? || "issues" !in Keys(output.value.entries)
    ensures Findings(output) == []
  {
  }

  /** An issue whose locations cannot be read spoils the whole report. */
  lemma BadIssueSpoilsAll(output: Option<Value>, k: nat)
    requires JsonDictList(output, "issues").Success?
    requires k < |JsonDictList(output, "issues").value|
    requires MapIssue(JsonDictList(output, "issues").value[k]).Failure?
    ensures Findings(output) == []
  {
  }

  /** Exactly one finding per issue, in order. */
  lemma OneFindingPerIssue(output: Option<Value>)
    requires JsonDictList(output, "issues").Success?
    requires AllMapped(JsonDictList(output, "issues").value)
    ensures |Findings(output)| == |JsonDictList(output, "issues").value|
  {
  }

  /** The fields of the finding made from one issue that standardisation keeps: the
      fixed tool name, and the issue's title, description, severity and confidence with
      their defaults. */
  lemma FindingKeptFields(issue: Entries, locs: seq<Entries>)
    ensures var f := StandardizeFinding(RawFinding(issue, locs));
      && Lookup(f, "tool") == Some(Str("Mythril"))
      && Lookup(f, "title") == Some(Get(issue, "title", Str("")))
      && Lookup(f, "description") == Some(Get(issue, "description", Str("")))
      && Lookup(f, "severity") == Some(Get(issue, "severity", Str("Medium")))
      && Lookup(f, "confidence") == Some(Get(issue, "confidence", Str("Medium")))
  {
    var raw := RawFinding(issue, locs);
    FindingDictFields(Get(issue, "title", Str("")), Get(issue, "description", Str("")),
                      Get(issue, "severity", Str("Medium")), Get(issue, "swc-id", Str("")),
                      List(SourceMaps(locs)), Get(issue, "confidence", Str("Medium")),
                      Str("Mythril"));
    assert |"line_numbers"| == 12 && |"swc_id"| == 6;
    assert |"tool"| == 4 && |"title"| == 5 && |"description"| == 11;
    assert |"severity"| == 8 && |"confidence"| == 10;
    StandardizeKeeps(raw, "tool");
    StandardizeKeeps(raw, "title");
    StandardizeKeeps(raw, "description");
    StandardizeKeeps(raw, "severity");
    StandardizeKeeps(raw, "confidence");
  }

  /** The fields standardisation rewrites: the swc id, read from the hyphenated "swc-id"
      key and turned into a string, and the line numbers, which stay the list of each
      location's source map. */
  lemma FindingNormalisedFields(issue: Entries, locs: seq<Entries>)
    ensures var f := StandardizeFinding(RawFinding(issue, locs));
      && Lookup(f, "swc_id") == Some(Str(Display(Get(issue, "swc-id", Str("")))))
      && Lookup(f, "line_numbers") == Some(List(SourceMaps(locs)))
  {
    var raw := RawFinding(issue, locs);
    StandardizeFindingSpec(raw);
    FindingDictFields(Get(issue, "title", Str("")), Get(issue, "description", Str("")),
                      Get(issue, "severity", Str("Medium")), Get(issue, "swc-id", Str("")),
                      List(SourceMaps(locs)), Get(issue, "confidence", Str("Medium")),
                      Str("Mythril"));
    var ln := List(SourceMaps(locs));
    assert Get(raw, "line_numbers", List([])) == ln;
    assert NormalizeLineNumbers(ln) == ln by {
      if !Truthy(ln) {
        assert SourceMaps(locs) == [];
      }
    }
  }

  /** As written, `standardize_finding` returns `None`, so the report holds one `None`
      per issue. */
  lemma AsWrittenFindingsAreNone(raws: seq<Entries>)
    ensures forall i :: 0 <= i < |raws| ==> StandardizeFindingAsWritten(raws[i]) == Null
  {
  }
}
