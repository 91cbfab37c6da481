/**
 * `AuditReportGenerator`: an accumulator for the three result lists of an
 * audit (static findings, dynamic findings, scores) and its metadata
 * dictionary. Its methods extend the lists, or replace the metadata, in place.
 */
module ReportGenerator {
  import opened PyValue

  /** A snapshot of the generator's four fields. */
  datatype Report = Report(
    staticResults: seq<Entries>,
    dynamicResults: seq<Entries>,
    scores: seq<Entries>,
    metadata: Entries)

  const EmptyReport: Report := Report([], [], [], [])

  /** The report after `add_static_results(results)`. */
  function WithStatic(r: Report, results: seq<Entries>): (r': Report)
    ensures |r'.staticResults| == |r.staticResults| + |results|
    ensures r'.staticResults[..|r.staticResults|] == r.staticResults
    ensures r'.staticResults[|r.staticResults|..] == results
    ensures r'.dynamicResults == r.dynamicResults && r'.scores == r.scores && r'.metadata == r.metadata
  {
    r.(staticResults := r.staticResults + results)
  }

  /** The report after `add_dynamic_results(results)`. */
  function WithDynamic(r: Report, results: seq<Entries>): (r': Report)
    ensures |r'.dynamicResults| == |r.dynamicResults| + |results|
    ensures r'.dynamicResults[..|r.dynamicResults|] == r.dynamicResults
    ensures r'.dynamicResults[|r.dynamicResults|..] == results
    ensures r'.staticResults == r.staticResults && r'.scores == r.scores && r'.metadata == r.metadata
  {
    r.(dynamicResults := r.dynamicResults + results)
  }

  /** The report after `add_scores(scores)`. */
  function WithScores(r: Report, scores: seq<Entries>): (r': Report)
    ensures |r'.scores| == |r.scores| + |scores|
    ensures r'.scores[..|r.scores|] == r.scores
    ensures r'.scores[|r.scores|..] == scores
    ensures r'.staticResults == r.staticResults && r'.dynamicResults == r.dynamicResults
    ensures r'.metadata == r.metadata
  {
    r.(scores := r.scores + scores)
  }

  /** The report after `set_metadata(metadata)`. */
  function WithMetadata(r: Report, metadata: Entries): (r': Report)
    ensures r'.metadata == metadata
    ensures r'.staticResults == r.staticResults && r'.dynamicResults == r.dynamicResults
    ensures r'.scores == r.scores
  {
    r.(metadata := metadata)
  }

  class AuditReportGenerator {
    var staticResults: seq<Entries>
    var dynamicResults: seq<Entries>
    var scores: seq<Entries>
    var metadata: Entries

    /** The four fields as a value. */
    function Snapshot(): Report
      reads this
    {
      Report(staticResults, dynamicResults, scores, metadata)
    }

    /** A new generator: three empty lists and empty metadata. */
    constructor ()
      ensures Snapshot() == EmptyReport
    {
      staticResults := [];
      dynamicResults := [];
      scores := [];
      metadata := [];
    }

    /** `add_static_results`: `extend`, in order. */
    method AddStaticResults(results: seq<Entries>)
      modifies this
      ensures Snapshot() == WithStatic(old(Snapshot()), results)
    {
      staticResults := staticResults + results;
    }

    /** `add_dynamic_results`. */
    method AddDynamicResults(results: seq<Entries>)
      modifies this
      ensures Snapshot() == WithDynamic(old(Snapshot()), results)
    {
      dynamicResults := dynamicResults + results;
    }

    /** `add_scores`. */
    method AddScores(newScores: seq<Entries>)
      modifies this
      ensures Snapshot() == WithScores(old(Snapshot()), newScores)
    {
      scores := scores + newScores;
    }

    /** `set_metadata`: the dictionary is replaced, not merged. */
    method SetMetadata(newMetadata: Entries)
      modifies this
      ensures Snapshot() == WithMetadata(old(Snapshot()), newMetadata)
    {
      metadata := newMetadata;
    }
  }

  /** Two batches of static results add up to one batch holding both, in order; the same
      holds for dynamic results and scores. */
  lemma BatchesConcatenate(r: Report, a: seq<Entries>, b: seq<Entries>)
    ensures WithStatic(WithStatic(r, a), b) == WithStatic(r, a + b)
    ensures WithDynamic(WithDynamic(r, a), b) == WithDynamic(r, a + b)
    ensures WithScores(WithScores(r, a), b) == WithScores(r, a + b)
  {
    assert r.staticResults + a + b == r.staticResults + (a + b);
    assert r.dynamicResults + a + b == r.dynamicResults + (a + b);
    assert r.scores + a + b == r.scores + (a + b);
  }

  /** Additions to different lists, and the metadata update, commute with each other. */
  lemma UpdatesCommute(r: Report, s: seq<Entries>, d: seq<Entries>, c: seq<Entries>, m: Entries)
    ensures WithDynamic(WithStatic(r, s), d) == WithStatic(WithDynamic(r, d), s)
    ensures WithScores(WithStatic(r, s), c) == WithStatic(WithScores(r, c), s)
    ensures WithScores(WithDynamic(r, d), c) == WithDynamic(WithScores(r, c), d)
    ensures WithMetadata(WithStatic(r, s), m) == WithStatic(WithMetadata(r, m), s)
  {
  }

  /** The last metadata set wins. */
  lemma MetadataReplaced(r: Report, m1: Entries, m2: Entries)
    ensures WithMetadata(WithMetadata(r, m1), m2) == WithMetadata(r, m2)
  {
  }

  /** From a new generator, one call of each method leaves exactly what was passed in. */
  lemma OneOfEach(s: seq<Entries>, d: seq<Entries>, c: seq<Entries>, m: Entries)
    ensures WithMetadata(WithScores(WithDynamic(WithStatic(EmptyReport, s), d), c), m)
            == Report(s, d, c, m)
  {
    assert [] + s == s && [] + d == d && [] + c == c;
  }

  /** The same story told with the object: the methods compose as the functions do. */
  method BuildReport(s: seq<Entries>, d: seq<Entries>, c: seq<Entries>, m: Entries)
    returns (r: Report)
    ensures r == Report(s, d, c, m)
  {
    var g := new AuditReportGenerator();
    g.AddStaticResults(s);
    g.AddDynamicResults(d);
    g.AddScores(c);
    g.SetMetadata(m);
    OneOfEach(s, d, c, m);
    r := g.Snapshot();
  }
}
