/**
 * `EchidnaAdapter.parse_output`: each failed property test of Echidna's JSON report
 * becomes one standardised finding dict; passing tests are skipped.
 */
module EchidnaAdapter {
  import opened Wrappers
  import opened Seqs
  import opened PyValue
  import opened StaticBase

  /** A test fails when its "pass" entry is falsy; a missing entry counts as passing. */
  predicate Fails(test: Entries) {
    !Truthy(Get(test, "pass", Bool(true)))
  }

  /** The finding dict built for a failed test, before standardisation. */
  function TestFinding(test: Entries): Entries {
    FindingDict(Str("Property Violation: " + Display(Get(test, "name", Str("")))),
                Get(test, "message", Str("")),
                Str("High"),
                Str(""),
                Get(test, "locations", List([])),
                Str("High"),
                Str("Echidna"))
  }

  /** The standardised finding of a failed test. */
  function TestValue(test: Entries): Value {
    Dict(StandardizeFinding(TestFinding(test)))
  }

  /** The failed tests, in report order. */
  function FailedTests(tests: seq<Entries>): (r: seq<Entries>)
    ensures |r| <= |tests|
    ensures forall i :: 0 <= i < |r| ==> Fails(r[i])
  {
    if tests == [] then []
    else
      var last := tests[|tests| - 1];
      FailedTests(tests[..|tests| - 1]) + (if Fails(last) then [last] else [])
  }

  lemma {:induction false} FailedTestsAppend(a: seq<Entries>, b: seq<Entries>)
    ensures FailedTests(a + b) == FailedTests(a) + FailedTests(b)
  {
    if b == [] {
      assert a + b == a;
    } else {
      assert (a + b)[..|a + b| - 1] == a + b[..|b| - 1];
      FailedTestsAppend(a, b[..|b| - 1]);
    }
  }

  /** A test is kept exactly when it fails. */
  lemma FailedTestsOfOne(test: Entries)
    ensures FailedTests([test]) == (if Fails(test) then [test] else [])
  {
    assert [test][..0] == [];
  }

  /** Every failed test is kept, and nothing else. */
  lemma {:induction false} FailedTestsMembers(tests: seq<Entries>, t: Entries)
    ensures t in FailedTests(tests) <==> t in tests && Fails(t)
  {
    if tests != [] {
      var init := tests[..|tests| - 1];
      FailedTestsMembers(init, t);
      assert tests == init + [tests[|tests| - 1]];
    }
  }

  /** What `parse_output` returns for the parsed document (`None` for invalid JSON). */
  function Findings(output: Option<Value>): seq<Value> {
    match JsonDictList(output, "tests")
    case Failure(_) => []
    case Success(tests) => MapSeq(TestValue, FailedTests(tests))
  }

  /** `parse_output`: parse, then collect the failed tests' findings. */
  method ParseOutput(output: Option<Value>) returns (findings: seq<Value>)
    ensures findings == Findings(output)
  {
    var parsed := JsonDictList(output, "tests");
    if parsed.Failure? {
      return [];
    }
    findings := CollectFailures(parsed.value);
  }

  /** The loop over the tests, appending a finding for each failed one. */
  method CollectFailures(tests: seq<Entries>) returns (findings: seq<Value>)
    ensures findings == MapSeq(TestValue, FailedTests(tests))
  {
    findings := [];
    for i := 0 to |tests|
      invariant findings == MapSeq(TestValue, FailedTests(tests[..i]))
    {
      CollectStep(tests, i);
      var found := if Fails(tests[i]) then [TestValue(tests[i])] else [];
      findings := findings + found;
    }
    assert tests[..|tests|] == tests;
  }

  /** One more test of the loop appends its finding when it fails. */
  lemma CollectStep(tests: seq<Entries>, i: nat)
    requires i < |tests|
    ensures MapSeq(TestValue, FailedTests(tests[..i + 1]))
            == MapSeq(TestValue, FailedTests(tests[..i])) + (if Fails(tests[i]) then [TestValue(tests[i])] else [])
  {
    FailedTestsSnoc(tests, i);
    MapSeqOptionalSnoc(TestValue, FailedTests(tests[..i]), tests[i], Fails(tests[i]));
  }

  lemma FailedTestsSnoc(tests: seq<Entries>, i: nat)
    requires i < |tests|
    ensures FailedTests(tests[..i + 1])
            == FailedTests(tests[..i]) + (if Fails(tests[i]) then [tests[i]] else [])
  {
    assert tests[..i + 1][..i] == tests[..i];
  }

  /** A missing document (invalid JSON), a document that is not an object, or one without
      a "tests" key gives no findings. */
  lemma NoTestsNoFindings(output: Option<Value>)
    requires output.None? || !output.value.Dict? || "tests" !in Keys(output.value.entries)
    ensures Findings(output) == []
  {
  }

  /** One finding per failed test. */
  lemma OneFindingPerFailure(output: Option<Value>)
    requires JsonDictList(output, "tests").Success?
    ensures |Findings(output)| == |FailedTests(JsonDictList(output, "tests").value)|
  {
  }

  /** A test without a "pass" entry is a passing one. */
  lemma MissingPassPasses(test: Entries)
    requires "pass" !in Keys(test)
    ensures !Fails(test)
    ensures FailedTests([test]) == []
  {
    FailedTestsOfOne(test);
  }

  /** The fields of a failed test's finding that standardisation keeps: the title
      "Property Violation: " followed by the test's name, the message as description,
      HIGH severity and confidence, and the tool name. */
  lemma FindingKeptFields(test: Entries)
    ensures var f := StandardizeFinding(TestFinding(test));
      && Lookup(f, "title") == Some(Str("Property Violation: " + Display(Get(test, "name", Str("")))))
      && Lookup(f, "description") == Some(Get(test, "message", Str("")))
      && Lookup(f, "severity") == Some(Str("High"))
      && Lookup(f, "confidence") == Some(Str("High"))
      && Lookup(f, "tool") == Some(Str("Echidna"))
  {
    StandardizeFindingSpec(TestFinding(test));
    FindingDictFields(Str("Property Violation: " + Display(Get(test, "name", Str("")))),
                      Get(test, "message", Str("")), Str("High"), Str(""),
                      Get(test, "locations", List([])), Str("High"), Str("Echidna"));
  }

  /** The rewritten fields: an empty swc id, and the test's locations normalised. */
  lemma FindingNormalisedFields(test: Entries)
    ensures var f := StandardizeFinding(TestFinding(test));
      && Lookup(f, "swc_id") == Some(Str(""))
      && Lookup(f, "line_numbers") == Some(NormalizeLineNumbers(Get(test, "locations", List([]))))
  {
    StandardizeFindingSpec(TestFinding(test));
    FindingDictFields(Str("Property Violation: " + Display(Get(test, "name", Str("")))),
                      Get(test, "message", Str("")), Str("High"), Str(""),
                      Get(test, "locations", List([])), Str("High"), Str("Echidna"));
  }
}
