/**
 * The dynamic-analysis orchestrator's deterministic parts: turning an
 * adapter's raw results into `AnalysisResult` records (trust band,
 * remediation text, cross-chain impact), the multi-tool consensus that
 * groups records by (vulnerability type, finding details) and adjusts their
 * confidence, and the legacy mode of `run_dynamic_analysis` that flattens
 * pre-built adapters' outputs.
 */
module DynamicAnalysis {
  import opened Wrappers
  import opened PyString
  import opened PyValue
  import Seqs

  /** The module's own `ConfidenceLevel`: a plain `Enum` (no ordering), listed in
      declaration order. */
  datatype ConfidenceLevel = Low | Medium | High | Critical {
    function Value(): string {
      match this
      case Low => "low"
      case Medium => "medium"
      case High => "high"
      case Critical => "critical"
    }
  }

  /** `_confidence_weight`: the numeric weight used to pick a group's primary result. */
  function Weight(c: ConfidenceLevel): (w: nat)
    ensures w <= 3
  {
    match c
    case Critical => 0
    case Low => 1
    case Medium => 2
    case High => 3
  }

  /** The weights order the levels strictly: CRITICAL < LOW < MEDIUM < HIGH. */
  lemma WeightOrder(a: ConfidenceLevel, b: ConfidenceLevel)
    ensures Weight(Critical) < Weight(Low) < Weight(Medium) < Weight(High)
    ensures Weight(a) == Weight(b) ==> a == b
  {
  }

  /** The band mapping at the end of `_calculate_confidence_level`. */
  function Band(adjusted: real): (c: ConfidenceLevel)
    ensures c == High <==> adjusted >= 0.9
    ensures c == Medium <==> 0.7 <= adjusted < 0.9
    ensures c == Low <==> 0.4 <= adjusted < 0.7
    ensures c == Critical <==> adjusted < 0.4
  {
    if adjusted >= 0.9 then High
    else if adjusted >= 0.7 then Medium
    else if adjusted >= 0.4 then Low
    else Critical
  }

  /** A higher adjusted score never gives a band of lower weight. */
  lemma BandWeightMonotone(x: real, y: real)
    requires x <= y
    ensures Weight(Band(x)) <= Weight(Band(y))
  {
  }

  /** An adapter, known by its class name; `adversarial` is `isinstance(adapter, AdversarialFuzz)`. */
  datatype Adapter = Adapter(className: string, adversarial: bool)

  /** A Python number (`bool` is a subclass of `int`) as a real. */
  function Numeric(v: Value): (r: Option<real>)
    ensures r.Some? <==> (v.Int? || v.Float? || v.Bool?)
  {
    match v
    case Int(i) => Some(i as real)
    case Float(x) => Some(x)
    case Bool(b) => Some(if b then 1.0 else 0.0)
    case _ => None
  }

  /** The attributes of one raw adapter result; `None` is a missing attribute. A
      plain dict, which is what the repository's adapters return, has none of them. */
  datatype RawResult = RawResult(
    vulnerabilityType: Option<Value>,
    severity: Option<Value>,
    details: Option<Entries>,
    confidenceScore: Option<Value>)

  /** `_calculate_confidence_level`: the score (default 0.5) is scaled by 1.2 for the
      adversarial fuzzer and by the configured `<ClassName>_accuracy` (default 0.8), then
      banded. Multiplying or comparing a non-number raises TypeError. */
  function CalculateConfidence(adapter: Adapter, r: RawResult, config: Entries): (c: Result<ConfidenceLevel, Exception>)
    ensures c.Failure? <==> ScoreOf(r).None? || AccuracyOf(adapter, config).None?
    ensures c.Failure? ==> c.error == TypeError
    ensures c.Success? ==> c.value == Band(Adjusted(adapter, ScoreOf(r).value, AccuracyOf(adapter, config).value))
  {
    var score := ScoreOf(r);
    var accuracy := AccuracyOf(adapter, config);
    if score.None? || accuracy.None? then Failure(TypeError)
    else Success(Band(Adjusted(adapter, score.value, accuracy.value)))
  }

  /** The score scaled by 1.2 for the adversarial fuzzer, then by the accuracy. */
  function Adjusted(adapter: Adapter, score: real, accuracy: real): real {
    (if adapter.adversarial then score * 1.2 else score) * accuracy
  }

  /** The result's `confidence_score` as a number, 0.5 when it has none. */
  function ScoreOf(r: RawResult): Option<real> {
    Numeric(r.confidenceScore.GetOr(Float(0.5)))
  }

  /** The configured `<ClassName>_accuracy` as a number, 0.8 when it is not configured. */
  function AccuracyOf(adapter: Adapter, config: Entries): Option<real> {
    Numeric(Get(config, adapter.className + "_accuracy", Float(0.8)))
  }

  const ReentrancyAdvice := "Consider using the checks-effects-interactions pattern or ReentrancyGuard modifier"
  const OverflowAdvice := "Use SafeMath library or Solidity 0.8+ built-in overflow protection"
  const UncheckedCallAdvice := "Always check return values of external calls and handle failures appropriately"

  /** `_generate_remediation_suggestion`: a template looked up by the lower-cased
      vulnerability type. */
  function Remediation(vulnType: string): (r: Option<string>)
    ensures r.Some? <==> Lower(vulnType) in ["reentrancy", "integer_overflow", "unchecked_call"]
    ensures Lower(vulnType) == "reentrancy" ==> r == Some(ReentrancyAdvice)
    ensures Lower(vulnType) == "integer_overflow" ==> r == Some(OverflowAdvice)
    ensures Lower(vulnType) == "unchecked_call" ==> r == Some(UncheckedCallAdvice)
  {
    var key := Lower(vulnType);
    if key == "reentrancy" then Some(ReentrancyAdvice)
    else if key == "integer_overflow" then Some(OverflowAdvice)
    else if key == "unchecked_call" then Some(UncheckedCallAdvice)
    else None
  }

  /** The lookup ignores ASCII case: a type and its lower-case form get the same answer. */
  lemma RemediationCaseInsensitive(vulnType: string)
    ensures Remediation(vulnType) == Remediation(Lower(vulnType))
  {
    LowerIdempotent(vulnType);
  }

  /** Upper-case spellings of the three types get their templates too. */
  lemma RemediationUpperCase()
    ensures Remediation("REENTRANCY") == Some(ReentrancyAdvice)
    ensures Remediation("Integer_Overflow") == Some(OverflowAdvice)
    ensures Remediation("reentrancy_guard") == None
  {
    assert Lower("REENTRANCY") == "reentrancy";
    assert Lower("Integer_Overflow") == "integer_overflow";
    assert Lower("reentrancy_guard") == "reentrancy_guard";
  }

  /** `_analyze_cross_chain_impact`: exact-match lookup, `None` when disabled or unknown. */
  function CrossChainImpact(enabled: bool, vulnType: string): (r: Option<seq<string>>)
    ensures !enabled ==> r.None?
    ensures r.Some? <==> enabled && vulnType in ["gas_limit", "block_gas_limit", "timestamp_dependence"]
    ensures r.Some? && vulnType == "timestamp_dependence" ==> r.value == ["ethereum", "arbitrum"]
    ensures r.Some? && vulnType != "timestamp_dependence" ==> r.value == ["ethereum", "polygon", "bsc"]
  {
    if !enabled then None
    else if vulnType == "gas_limit" || vulnType == "block_gas_limit" then Some(["ethereum", "polygon", "bsc"])
    else if vulnType == "timestamp_dependence" then Some(["ethereum", "arbitrum"])
    else None
  }

  /** The orchestrator's `AnalysisResult` record (`exploit_poc` and `timestamp` are
      always `None` here and are not modelled). */
  datatype DynResult = DynResult(
    toolName: string,
    vulnerabilityType: string,
    severity: Value,
    confidence: ConfidenceLevel,
    details: Entries,
    remediation: Option<string>,
    crossChain: Option<seq<string>>)

  /** One iteration of `_process_adapter_results`: a record, or the exception that makes
      the loop skip this raw result. A vulnerability type that is not a string has no
      `lower()`. */
  function ProcessOne(adapter: Adapter, r: RawResult, config: Entries, crossChain: bool): (p: Result<DynResult, Exception>)
    ensures p.Success? <==> CalculateConfidence(adapter, r, config).Success?
                            && r.vulnerabilityType.GetOr(Str("unknown")).Str?
    ensures p.Success? ==> var vt := r.vulnerabilityType.GetOr(Str("unknown")).s;
              && p.value.toolName == adapter.className
              && p.value.vulnerabilityType == vt
              && p.value.severity == r.severity.GetOr(Str("medium"))
              && p.value.details == r.details.GetOr([])
              && p.value.confidence == CalculateConfidence(adapter, r, config).value
              && p.value.remediation == Remediation(vt)
              && p.value.crossChain == CrossChainImpact(crossChain, vt)
  {
    var vt := r.vulnerabilityType.GetOr(Str("unknown"));
    match CalculateConfidence(adapter, r, config)
    case Failure(e) => Failure(e)
    case Success(level) =>
      if !vt.Str? then Failure(AttributeError)
      else Success(DynResult(adapter.className, vt.s, r.severity.GetOr(Str("medium")), level,
                             r.details.GetOr([]), Remediation(vt.s), CrossChainImpact(crossChain, vt.s)))
  }

  /** What `_process_adapter_results` returns: every raw result that processes, in order. */
  function ProcessAll(adapter: Adapter, raws: seq<RawResult>, config: Entries, crossChain: bool): seq<DynResult> {
    if raws == [] then []
    else
      var rest := ProcessAll(adapter, raws[..|raws| - 1], config, crossChain);
      match ProcessOne(adapter, raws[|raws| - 1], config, crossChain)
      case Success(d) => rest + [d]
      case Failure(_) => rest
  }

  /** Processing a concatenation processes each part. */
  lemma {:induction false} ProcessAllAppend(adapter: Adapter, a: seq<RawResult>, b: seq<RawResult>, config: Entries, crossChain: bool)
    ensures ProcessAll(adapter, a + b, config, crossChain)
            == ProcessAll(adapter, a, config, crossChain) + ProcessAll(adapter, b, config, crossChain)
  {
    if b == [] {
      assert a + b == a;
    } else {
      ProcessAllAppend(adapter, a, b[..|b| - 1], config, crossChain);
      assert (a + b)[..|a + b| - 1] == a + b[..|b| - 1];
    }
  }

  /** Every processed record carries the adapter's class name and at most one record
      comes from each raw result. */
  lemma {:induction false} ProcessAllShape(adapter: Adapter, raws: seq<RawResult>, config: Entries, crossChain: bool)
    ensures |ProcessAll(adapter, raws, config, crossChain)| <= |raws|
    ensures forall d :: d in ProcessAll(adapter, raws, config, crossChain) ==> d.toolName == adapter.className
    ensures !crossChain ==> forall d :: d in ProcessAll(adapter, raws, config, crossChain) ==> d.crossChain.None?
  {
    if raws != [] {
      ProcessAllShape(adapter, raws[..|raws| - 1], config, crossChain);
    }
  }

  /** `_process_adapter_results`. */
  method ProcessAdapterResults(adapter: Adapter, raws: seq<RawResult>, config: Entries, crossChain: bool)
    returns (processed: seq<DynResult>)
    ensures processed == ProcessAll(adapter, raws, config, crossChain)
  {
    processed := [];
    for i := 0 to |raws|
      invariant processed == ProcessAll(adapter, raws[..i], config, crossChain)
    {
      assert raws[..i + 1][..i] == raws[..i];
      match ProcessOne(adapter, raws[i], config, crossChain)
      case Success(d) =>
        processed := processed + [d];
      case Failure(_) =>
    }
    assert raws[..|raws|] == raws;
  }

  // ---------------------------------------------------------------------------
  // Consensus
  // ---------------------------------------------------------------------------

  /** The grouping key: the vulnerability type and the finding details. The source
      hashes `str(details)`; the model compares the details themselves. */
  type Key = (string, Entries)

  function KeyOf(r: DynResult): Key {
    (r.vulnerabilityType, r.details)
  }

  /** The group keys in order of first occurrence (the insertion order of the
      source's dict of groups). */
  function DistinctKeys(rs: seq<DynResult>): (ks: seq<Key>)
    ensures forall i, j :: 0 <= i < j < |ks| ==> ks[i] != ks[j]
    ensures forall i :: 0 <= i < |rs| ==> KeyOf(rs[i]) in ks
  {
    if rs == [] then []
    else
      var prefix := DistinctKeys(rs[..|rs| - 1]);
      var k := KeyOf(rs[|rs| - 1]);
      assert forall i :: 0 <= i < |rs| - 1 ==> rs[i] == rs[..|rs| - 1][i];
      if k in prefix then prefix else prefix + [k]
  }

  /** The results with key `k`, in input order. */
  function Group(rs: seq<DynResult>, k: Key): (g: seq<DynResult>)
    ensures forall r :: r in g ==> KeyOf(r) == k
    ensures |g| <= |rs|
  {
    if rs == [] then []
    else
      var prefix := Group(rs[..|rs| - 1], k);
      if KeyOf(rs[|rs| - 1]) == k then prefix + [rs[|rs| - 1]] else prefix
  }

  /** Every distinct key is the key of some result. */
  lemma {:induction false} DistinctKeysOccur(rs: seq<DynResult>, k: Key)
    requires k in DistinctKeys(rs)
    ensures exists i :: 0 <= i < |rs| && KeyOf(rs[i]) == k
  {
    var init := rs[..|rs| - 1];
    if k in DistinctKeys(init) {
      DistinctKeysOccur(init, k);
      var i :| 0 <= i < |init| && KeyOf(init[i]) == k;
      assert rs[i] == init[i];
    } else {
      assert KeyOf(rs[|rs| - 1]) == k;
    }
  }

  /** A key has a non-empty group exactly when it is one of the distinct keys. */
  lemma {:induction false} GroupNonEmptyIffKey(rs: seq<DynResult>, k: Key)
    ensures Group(rs, k) != [] <==> k in DistinctKeys(rs)
  {
    if rs != [] {
      GroupNonEmptyIffKey(rs[..|rs| - 1], k);
    }
  }

  /** `i` is the first position of key `k` in `rs`. */
  predicate IsFirstOccurrence(rs: seq<DynResult>, k: Key, i: int) {
    0 <= i < |rs| && KeyOf(rs[i]) == k && forall j :: 0 <= j < i ==> KeyOf(rs[j]) != k
  }

  /** A key already seen in the prefix has its first occurrence there. */
  lemma FirstOccurrenceInPrefix(rs: seq<DynResult>, k: Key, i: int)
    requires rs != [] && k in DistinctKeys(rs[..|rs| - 1]) && IsFirstOccurrence(rs, k, i)
    ensures i < |rs| - 1 && IsFirstOccurrence(rs[..|rs| - 1], k, i)
  {
    var prefix := rs[..|rs| - 1];
    DistinctKeysOccur(prefix, k);
    var t :| 0 <= t < |prefix| && KeyOf(prefix[t]) == k;
    assert KeyOf(rs[t]) == k;
  }

  /** A key new in the last position first occurs there. */
  lemma FirstOccurrenceOfNewKey(rs: seq<DynResult>, j: int)
    requires rs != [] && KeyOf(rs[|rs| - 1]) !in DistinctKeys(rs[..|rs| - 1])
    requires IsFirstOccurrence(rs, KeyOf(rs[|rs| - 1]), j)
    ensures j == |rs| - 1
  {
    var prefix := rs[..|rs| - 1];
    assert forall t :: 0 <= t < |prefix| ==> rs[t] == prefix[t];
  }

  /** The distinct keys are listed in the order of their first occurrences. */
  lemma {:induction false} DistinctKeysInFirstOccurrenceOrder(rs: seq<DynResult>, m: int, n: int, i: int, j: int)
    requires 0 <= m < n < |DistinctKeys(rs)|
    requires IsFirstOccurrence(rs, DistinctKeys(rs)[m], i)
    requires IsFirstOccurrence(rs, DistinctKeys(rs)[n], j)
    ensures i < j
  {
    var prefix := rs[..|rs| - 1];
    var pk := DistinctKeys(prefix);
    assert DistinctKeys(rs)[m] == pk[m];
    FirstOccurrenceInPrefix(rs, pk[m], i);
    if n < |pk| {
      assert DistinctKeys(rs)[n] == pk[n];
      FirstOccurrenceInPrefix(rs, pk[n], j);
      DistinctKeysInFirstOccurrenceOrder(prefix, m, n, i, j);
    } else {
      FirstOccurrenceOfNewKey(rs, j);
    }
  }

  /** `max(group, key=weight)`: the position of the first result of maximal weight. */
  function PrimaryIndex(g: seq<DynResult>): (p: nat)
    requires g != []
    ensures p < |g|
    ensures forall j :: 0 <= j < |g| ==> Weight(g[j].confidence) <= Weight(g[p].confidence)
    ensures forall j :: 0 <= j < p ==> Weight(g[j].confidence) < Weight(g[p].confidence)
  {
    if |g| == 1 then 0
    else
      var p := PrimaryIndex(g[..|g| - 1]);
      assert forall j :: 0 <= j < |g| - 1 ==> g[j] == g[..|g| - 1][j];
      if Weight(g[|g| - 1].confidence) > Weight(g[p].confidence) then |g| - 1 else p
  }

  /** A result seen by one tool only: HIGH confidence drops to MEDIUM. */
  function Downgrade(r: DynResult): (d: DynResult)
    ensures d.confidence == (if r.confidence == High then Medium else r.confidence)
    ensures d == r.(confidence := d.confidence)
  {
    if r.confidence == High then r.(confidence := Medium) else r
  }

  /** The evidently intended upgrade of a confirmed result: one step up in
      declaration order (LOW < MEDIUM < HIGH < CRITICAL), capped at HIGH. */
  function Upgrade(c: ConfidenceLevel): (u: ConfidenceLevel)
    ensures u != Critical
    ensures c == Low ==> u == Medium
    ensures c != Low ==> u == High
  {
    match c
    case Low => Medium
    case Medium => High
    case High => High
    case Critical => High
  }

  /** The tools that reported a group, in input order. */
  function ToolNames(g: seq<DynResult>): (names: seq<string>)
    ensures |names| == |g| && forall i :: 0 <= i < |g| ==> names[i] == g[i].toolName
  {
    seq(|g|, i requires 0 <= i < |g| => g[i].toolName)
  }

  /** A group seen by several tools: the primary result, upgraded, with
      `consensus_tools` added to its details. */
  function Merge(g: seq<DynResult>): (m: DynResult)
    requires g != []
  {
    var primary := g[PrimaryIndex(g)];
    primary.(confidence := Upgrade(primary.confidence),
             details := Put(primary.details, "consensus_tools", StrList(ToolNames(g))))
  }

  /** The consensus result for one group. */
  function Resolve(g: seq<DynResult>): DynResult
    requires g != []
  {
    if |g| == 1 then Downgrade(g[0]) else Merge(g)
  }

  /** `_apply_consensus_scoring` with the evidently intended upgrade: one result per
      distinct key, in first-occurrence order. */
  function Consensus(rs: seq<DynResult>): (out: seq<DynResult>)
    ensures |out| == |DistinctKeys(rs)|
  {
    var ks := DistinctKeys(rs);
    assert forall k :: k in ks ==> Group(rs, k) != [] by {
      forall k | k in ks ensures Group(rs, k) != [] {
        GroupNonEmptyIffKey(rs, k);
      }
    }
    seq(|ks|, m requires 0 <= m < |ks| => Resolve(Group(rs, ks[m])))
  }

  /** Position `m` of the consensus output comes from the `m`-th distinct key's group:
      a singleton is downgraded (only HIGH changes); a larger group yields its first
      result of maximal weight, upgraded, whose details keep every other key and gain
      `consensus_tools`, the group's tool names in input order. */
  lemma ConsensusAt(rs: seq<DynResult>, m: int)
    requires 0 <= m < |DistinctKeys(rs)|
    ensures var g := Group(rs, DistinctKeys(rs)[m]);
            var out := Consensus(rs)[m];
            && g != []
            && out.vulnerabilityType == DistinctKeys(rs)[m].0
            && (|g| == 1 ==> out == g[0].(confidence := if g[0].confidence == High then Medium else g[0].confidence))
            && (|g| >= 2 ==>
                  var p := g[PrimaryIndex(g)];
                  && (forall j :: 0 <= j < |g| ==> Weight(g[j].confidence) <= Weight(p.confidence))
                  && (forall j :: 0 <= j < PrimaryIndex(g) ==> Weight(g[j].confidence) < Weight(p.confidence))
                  && out.toolName == p.toolName && out.severity == p.severity
                  && out.vulnerabilityType == p.vulnerabilityType
                  && out.confidence == Upgrade(p.confidence)
                  && Lookup(out.details, "consensus_tools") == Some(StrList(ToolNames(g)))
                  && (forall key :: key != "consensus_tools" ==> Lookup(out.details, key) == Lookup(p.details, key)))
  {
    var ks := DistinctKeys(rs);
    var g := Group(rs, ks[m]);
    GroupNonEmptyIffKey(rs, ks[m]);
    assert g[0] in g;
    if |g| >= 2 {
      var p := g[PrimaryIndex(g)];
      assert p in g;
      forall key | key != "consensus_tools"
        ensures Lookup(Merge(g).details, key) == Lookup(p.details, key)
      {
        PutKeepsOthers(p.details, "consensus_tools", StrList(ToolNames(g)), key);
      }
    }
  }

  /** Every group reported by several tools ends up at confidence MEDIUM or HIGH, only
      such a group reaches HIGH, and no consensus result is CRITICAL unless the single
      tool that reported it said so. */
  lemma ConsensusConfidence(rs: seq<DynResult>, m: int)
    requires 0 <= m < |DistinctKeys(rs)|
    ensures |Group(rs, DistinctKeys(rs)[m])| >= 2 ==> Consensus(rs)[m].confidence in {Medium, High}
    ensures Consensus(rs)[m].confidence != High || |Group(rs, DistinctKeys(rs)[m])| >= 2
    ensures Consensus(rs)[m].confidence == Critical
            ==> |Group(rs, DistinctKeys(rs)[m])| == 1 && Group(rs, DistinctKeys(rs)[m])[0].confidence == Critical
  {
    ConsensusAt(rs, m);
  }

  /** Appending one result extends the distinct keys by its key when the key is new. */
  lemma DistinctKeysSnoc(rs: seq<DynResult>, r: DynResult)
    ensures DistinctKeys(rs + [r]) == if KeyOf(r) in DistinctKeys(rs) then DistinctKeys(rs) else DistinctKeys(rs) + [KeyOf(r)]
  {
    assert (rs + [r])[..|rs|] == rs;
  }

  /** Appending one result extends its key's group and no other. */
  lemma GroupSnoc(rs: seq<DynResult>, r: DynResult, k: Key)
    ensures Group(rs + [r], k) == if KeyOf(r) == k then Group(rs, k) + [r] else Group(rs, k)
  {
    assert (rs + [r])[..|rs|] == rs;
  }

  /** The dict of groups of `rs`, keyed by `ks`. */
  ghost predicate GroupsOf(rs: seq<DynResult>, ks: seq<Key>, groups: map<Key, seq<DynResult>>) {
    && ks == DistinctKeys(rs)
    && (forall k :: k in groups <==> k in ks)
    && (forall k :: k in groups ==> groups[k] == Group(rs, k))
  }

  /** A result with a new key opens a group of its own. */
  lemma GroupStepNewKey(rs: seq<DynResult>, ks: seq<Key>, groups: map<Key, seq<DynResult>>, r: DynResult)
    requires GroupsOf(rs, ks, groups) && KeyOf(r) !in groups
    ensures GroupsOf(rs + [r], ks + [KeyOf(r)], groups[KeyOf(r) := [r]])
  {
    DistinctKeysSnoc(rs, r);
    GroupNonEmptyIffKey(rs, KeyOf(r));
    var g' := groups[KeyOf(r) := [r]];
    forall k | k in g' ensures g'[k] == Group(rs + [r], k) {
      GroupSnoc(rs, r, k);
    }
  }

  /** A result with a known key joins that key's group. */
  lemma GroupStepKnownKey(rs: seq<DynResult>, ks: seq<Key>, groups: map<Key, seq<DynResult>>, r: DynResult)
    requires GroupsOf(rs, ks, groups) && KeyOf(r) in groups
    ensures GroupsOf(rs + [r], ks, groups[KeyOf(r) := groups[KeyOf(r)] + [r]])
  {
    assert KeyOf(r) in ks;
    assert DistinctKeys(rs + [r]) == ks by {
      DistinctKeysSnoc(rs, r);
    }
    var g' := groups[KeyOf(r) := groups[KeyOf(r)] + [r]];
    assert forall k :: k in g' <==> k in groups;
    forall k | k in g' ensures g'[k] == Group(rs + [r], k) {
      GroupSnoc(rs, r, k);
    }
  }

  /** The two steps above, on a prefix of the input. */
  lemma GroupPrefixNewKey(results: seq<DynResult>, i: int, ks: seq<Key>, groups: map<Key, seq<DynResult>>)
    requires 0 <= i < |results| && GroupsOf(results[..i], ks, groups) && KeyOf(results[i]) !in groups
    ensures GroupsOf(results[..i + 1], ks + [KeyOf(results[i])], groups[KeyOf(results[i]) := [results[i]]])
  {
    assert results[..i + 1] == results[..i] + [results[i]];
    GroupStepNewKey(results[..i], ks, groups, results[i]);
  }

  lemma GroupPrefixKnownKey(results: seq<DynResult>, i: int, ks: seq<Key>, groups: map<Key, seq<DynResult>>)
    requires 0 <= i < |results| && GroupsOf(results[..i], ks, groups) && KeyOf(results[i]) in groups
    ensures GroupsOf(results[..i + 1], ks, groups[KeyOf(results[i]) := groups[KeyOf(results[i])] + [results[i]]])
  {
    assert results[..i + 1] == results[..i] + [results[i]];
    GroupStepKnownKey(results[..i], ks, groups, results[i]);
  }

  /** The first pass of `_apply_consensus_scoring`: the dict of groups, keyed in
      first-occurrence order. */
  method GroupResults(results: seq<DynResult>) returns (keys: seq<Key>, groups: map<Key, seq<DynResult>>)
    ensures GroupsOf(results, keys, groups)
  {
    keys := [];
    groups := map[];
    for i := 0 to |results|
      invariant GroupsOf(results[..i], keys, groups)
    {
      var r := results[i];
      var k := KeyOf(r);
      if k !in groups {
        GroupPrefixNewKey(results, i, keys, groups);
        keys := keys + [k];
        groups := groups[k := [r]];
      } else {
        GroupPrefixKnownKey(results, i, keys, groups);
        groups := groups[k := groups[k] + [r]];
      }
    }
    assert results[..|results|] == results;
  }

  /** Position `m` of the consensus resolves the group of the `m`-th distinct key. */
  lemma ConsensusIndex(rs: seq<DynResult>, m: int)
    requires 0 <= m < |DistinctKeys(rs)|
    ensures Group(rs, DistinctKeys(rs)[m]) != []
    ensures Consensus(rs)[m] == Resolve(Group(rs, DistinctKeys(rs)[m]))
  {
    GroupNonEmptyIffKey(rs, DistinctKeys(rs)[m]);
  }

  /** The dict of groups hands the second pass the group of each distinct key. */
  lemma ConsensusFromGroups(results: seq<DynResult>, keys: seq<Key>, groups: map<Key, seq<DynResult>>, j: int)
    requires GroupsOf(results, keys, groups) && 0 <= j < |keys|
    ensures keys[j] in groups && groups[keys[j]] == Group(results, keys[j]) != []
    ensures |Consensus(results)| == |keys| && Consensus(results)[j] == Resolve(groups[keys[j]])
    ensures Consensus(results)[..j + 1] == Consensus(results)[..j] + [Resolve(groups[keys[j]])]
  {
    ConsensusIndex(results, j);
    assert keys[j] in keys;
    Seqs.PrefixSnoc(Consensus(results), j);
  }

  /** `_apply_consensus_scoring`: group in a first pass, resolve each group in a second. */
  method ApplyConsensusScoring(results: seq<DynResult>) returns (out: seq<DynResult>)
    ensures out == Consensus(results)
  {
    var keys, groups := GroupResults(results);
    out := [];
    for j := 0 to |keys|
      invariant |Consensus(results)| == |keys|
      invariant out == Consensus(results)[..j]
    {
      ConsensusFromGroups(results, keys, groups, j);
      var g := groups[keys[j]];
      out := out + [Resolve(g)];
    }
    assert Consensus(results)[..|keys|] == Consensus(results);
  }

  // ---------------------------------------------------------------------------
  // The consensus as written
  // ---------------------------------------------------------------------------

  /** The position of a level in declaration order, `list(ConfidenceLevel).index(c)`. */
  function DeclarationIndex(c: ConfidenceLevel): nat {
    match c
    case Low => 0
    case Medium => 1
    case High => 2
    case Critical => 3
  }

  /** `ConfidenceLevel(list(ConfidenceLevel)[min(3, index(c) + 1)])`: the next level in
      declaration order, CRITICAL staying CRITICAL. */
  function NextLevel(c: ConfidenceLevel): (n: ConfidenceLevel)
    ensures DeclarationIndex(n) == if DeclarationIndex(c) == 3 then 3 else DeclarationIndex(c) + 1
  {
    match c
    case Low => Medium
    case Medium => High
    case High => Critical
    case Critical => Critical
  }

  /** The corrected upgrade is the source's `min(HIGH, next level)` with `min` taken in
      declaration order. */
  lemma UpgradeIsDeclarationOrderMin(c: ConfidenceLevel)
    ensures Upgrade(c) == if DeclarationIndex(NextLevel(c)) <= DeclarationIndex(High) then NextLevel(c) else High
  {
  }

  /** `min(ConfidenceLevel.HIGH, c)` on a plain `Enum`: its members define no `<`, so
      Python raises TypeError whatever `c` is. */
  function PlainEnumMin(a: ConfidenceLevel, b: ConfidenceLevel): (r: Result<ConfidenceLevel, Exception>)
    ensures r == Failure(TypeError)
  {
    Failure(TypeError)
  }

  /** `_apply_consensus_scoring` as written, resolving the groups of `ks` in order:
      singletons are downgraded, and the first group of two or more raises the
      exception of its `min` call. */
  function ConsensusAsWrittenOver(rs: seq<DynResult>, ks: seq<Key>): Result<seq<DynResult>, Exception>
    requires forall k :: k in ks ==> Group(rs, k) != []
  {
    if ks == [] then Success([])
    else
      var g := Group(rs, ks[0]);
      assert ks[0] in ks;
      if |g| == 1 then
        match ConsensusAsWrittenOver(rs, ks[1..])
        case Success(tail) => Success([Downgrade(g[0])] + tail)
        case Failure(e) => Failure(e)
      else
        var p := g[PrimaryIndex(g)];
        Failure(PlainEnumMin(High, NextLevel(p.confidence)).error)
  }

  function ConsensusAsWritten(rs: seq<DynResult>): Result<seq<DynResult>, Exception> {
    var ks := DistinctKeys(rs);
    assert forall k :: k in ks ==> Group(rs, k) != [] by {
      forall k | k in ks ensures Group(rs, k) != [] {
        GroupNonEmptyIffKey(rs, k);
      }
    }
    ConsensusAsWrittenOver(rs, ks)
  }

  /** Two results share a grouping key. */
  predicate HasSharedKey(rs: seq<DynResult>) {
    exists i, j :: 0 <= i < j < |rs| && KeyOf(rs[i]) == KeyOf(rs[j])
  }

  /** Each result of `rs` is in its own key's group. */
  lemma {:induction false} GroupContains(rs: seq<DynResult>, i: int)
    requires 0 <= i < |rs|
    ensures rs[i] in Group(rs, KeyOf(rs[i]))
  {
    if i < |rs| - 1 {
      GroupContains(rs[..|rs| - 1], i);
      assert rs[i] == rs[..|rs| - 1][i];
    }
  }

  /** Two results with the same key make a group of two or more. */
  lemma {:induction false} SharedKeyGivesLargeGroup(rs: seq<DynResult>, i: int, j: int)
    requires 0 <= i < j < |rs| && KeyOf(rs[i]) == KeyOf(rs[j])
    ensures |Group(rs, KeyOf(rs[i]))| >= 2
  {
    var prefix := rs[..|rs| - 1];
    assert rs[i] == prefix[i];
    if j < |rs| - 1 {
      assert rs[j] == prefix[j];
      SharedKeyGivesLargeGroup(prefix, i, j);
    } else {
      GroupContains(prefix, i);
    }
  }

  /** A group of two or more holds two results with the same key. */
  lemma {:induction false} LargeGroupGivesSharedKey(rs: seq<DynResult>, k: Key)
    requires |Group(rs, k)| >= 2
    ensures HasSharedKey(rs)
  {
    var prefix := rs[..|rs| - 1];
    var n := |rs| - 1;
    if KeyOf(rs[n]) == k {
      GroupNonEmptyIffKey(prefix, k);
      DistinctKeysOccur(prefix, k);
      var i :| 0 <= i < |prefix| && KeyOf(prefix[i]) == k;
      assert KeyOf(rs[i]) == KeyOf(rs[n]);
    } else {
      LargeGroupGivesSharedKey(prefix, k);
      var i, j :| 0 <= i < j < |prefix| && KeyOf(prefix[i]) == KeyOf(prefix[j]);
      assert KeyOf(rs[i]) == KeyOf(rs[j]);
    }
  }

  lemma {:induction false} AsWrittenOverSucceeds(rs: seq<DynResult>, ks: seq<Key>)
    requires forall k :: k in ks ==> |Group(rs, k)| == 1
    ensures var r := ConsensusAsWrittenOver(rs, ks);
            && r.Success? && |r.value| == |ks|
            && forall m :: 0 <= m < |ks| ==> r.value[m] == Downgrade(Group(rs, ks[m])[0])
  {
    if ks != [] {
      assert ks[0] in ks;
      assert forall k :: k in ks[1..] ==> k in ks;
      AsWrittenOverSucceeds(rs, ks[1..]);
    }
  }

  lemma {:induction false} AsWrittenOverFails(rs: seq<DynResult>, ks: seq<Key>, k: Key)
    requires forall k :: k in ks ==> Group(rs, k) != []
    requires k in ks && |Group(rs, k)| >= 2
    ensures ConsensusAsWrittenOver(rs, ks) == Failure(TypeError)
  {
    assert ks[0] in ks;
    if ks[0] != k {
      AsWrittenOverFails(rs, ks[1..], k);
    }
  }

  /** As written, the consensus raises TypeError exactly when two results share a key;
      otherwise it agrees with the intended consensus. */
  lemma ConsensusAsWrittenBehaviour(rs: seq<DynResult>)
    ensures HasSharedKey(rs) ==> ConsensusAsWritten(rs) == Failure(TypeError)
    ensures !HasSharedKey(rs) ==> ConsensusAsWritten(rs) == Success(Consensus(rs))
  {
    var ks := DistinctKeys(rs);
    forall k | k in ks ensures Group(rs, k) != [] {
      GroupNonEmptyIffKey(rs, k);
    }
    if HasSharedKey(rs) {
      var i, j :| 0 <= i < j < |rs| && KeyOf(rs[i]) == KeyOf(rs[j]);
      SharedKeyGivesLargeGroup(rs, i, j);
      AsWrittenOverFails(rs, ks, KeyOf(rs[i]));
    } else {
      forall k | k in ks ensures |Group(rs, k)| == 1 {
        if |Group(rs, k)| >= 2 {
          LargeGroupGivesSharedKey(rs, k);
        }
      }
      AsWrittenOverSucceeds(rs, ks);
      var r := ConsensusAsWrittenOver(rs, ks).value;
      forall m | 0 <= m < |ks| ensures r[m] == Consensus(rs)[m] {
        assert ks[m] in ks;
        ConsensusIndex(rs, m);
      }
      assert r == Consensus(rs);
    }
  }

  /** The counterexample: Echidna and the adversarial fuzzer both report the default
      vulnerability type with empty details, at LOW and MEDIUM confidence. */
  const EchidnaReport := DynResult("EchidnaAdapter", "unknown", Str("medium"), Low, [], None, None)
  const FuzzReport := DynResult("AdversarialFuzz", "unknown", Str("medium"), Medium, [], None, None)

  /** As written, the two reports make the consensus raise TypeError. */
  lemma ConsensusAsWrittenCounterexample()
    ensures ConsensusAsWritten([EchidnaReport, FuzzReport]) == Failure(TypeError)
  {
    var rs := [EchidnaReport, FuzzReport];
    assert KeyOf(rs[0]) == KeyOf(rs[1]);
    assert HasSharedKey(rs);
    ConsensusAsWrittenBehaviour(rs);
  }

  /** The intended consensus merges the two reports into one, taken from the fuzzer
      (the higher weight) and upgraded to HIGH. */
  lemma ConsensusCorrectedCounterexample()
    ensures |Consensus([EchidnaReport, FuzzReport])| == 1
    ensures Consensus([EchidnaReport, FuzzReport])[0].confidence == High
    ensures Consensus([EchidnaReport, FuzzReport])[0].toolName == "AdversarialFuzz"
  {
    var a, b := EchidnaReport, FuzzReport;
    var rs := [a, b];
    assert rs[..1] == [a];
    assert [a][..0] == [];
    assert DistinctKeys([a]) == [KeyOf(a)];
    assert DistinctKeys(rs) == [KeyOf(a)];
    assert Group([a], KeyOf(a)) == [a];
    assert Group(rs, KeyOf(a)) == rs;
    assert PrimaryIndex(rs) == 1;
    ConsensusIndex(rs, 0);
  }

  // ---------------------------------------------------------------------------
  // Legacy mode of run_dynamic_analysis
  // ---------------------------------------------------------------------------

  /** What one pre-built adapter's `run` did: raised, or returned a value. */
  datatype AdapterRun = Raised | Returned(v: Value)

  /** The findings the legacy loop collects from one adapter: a list is spliced in, any
      other truthy value is one finding, a falsy value or an exception contributes nothing. */
  function FromRun(run: AdapterRun): seq<Value> {
    match run
    case Raised => []
    case Returned(v) => if !Truthy(v) then [] else if v.List? then v.items else [v]
  }

  function Flatten(runs: seq<AdapterRun>): seq<Value> {
    if runs == [] then [] else Flatten(runs[..|runs| - 1]) + FromRun(runs[|runs| - 1])
  }

  /** Flattening a concatenation flattens each part. */
  lemma {:induction false} FlattenAppend(a: seq<AdapterRun>, b: seq<AdapterRun>)
    ensures Flatten(a + b) == Flatten(a) + Flatten(b)
  {
    if b == [] {
      assert a + b == a;
    } else {
      var init := b[..|b| - 1];
      var last := b[|b| - 1];
      assert (a + b)[..|a + b| - 1] == a + init;
      assert (a + b)[|a + b| - 1] == last;
      assert Flatten(a + b) == Flatten(a + init) + FromRun(last);
      FlattenAppend(a, init);
      assert Flatten(b) == Flatten(init) + FromRun(last);
    }
  }

  /** A single run contributes its list items, itself, or nothing. */
  lemma FlattenSingle(run: AdapterRun)
    ensures run.Returned? && run.v.List? ==> Flatten([run]) == run.v.items
    ensures run.Returned? && Truthy(run.v) && !run.v.List? ==> Flatten([run]) == [run.v]
    ensures run.Raised? || !Truthy(run.v) ==> Flatten([run]) == []
  {
    assert [run][..0] == [];
  }

  /** One more run appends its own findings. */
  lemma FlattenStep(runs: seq<AdapterRun>, i: int)
    requires 0 <= i < |runs|
    ensures Flatten(runs[..i + 1]) == Flatten(runs[..i]) + FromRun(runs[i])
  {
    assert runs[..i + 1][..i] == runs[..i];
  }

  /** The record each legacy finding is wrapped in. */
  function Wrap(f: Value): DynResult {
    DynResult("unknown", "unknown", Str("medium"), Medium, [("raw_finding", f)], None, None)
  }

  /** The legacy loop over pre-built adapters. */
  method CollectLegacyFindings(runs: seq<AdapterRun>) returns (findings: seq<Value>)
    ensures findings == Flatten(runs)
  {
    findings := [];
    for i := 0 to |runs|
      invariant findings == Flatten(runs[..i])
    {
      FlattenStep(runs, i);
      match runs[i]
      case Raised =>
      case Returned(v) =>
        if Truthy(v) {
          findings := findings + (if v.List? then v.items else [v]);
        }
    }
    assert runs[..|runs|] == runs;
  }

  /** `run_dynamic_analysis` with pre-built adapters: every collected finding wrapped,
      order preserved. With no adapters the orchestrator path runs, which is not part
      of this model (`None`). */
  method RunLegacy(runs: seq<AdapterRun>) returns (r: Option<seq<DynResult>>)
    ensures runs == [] <==> r.None?
    ensures r.Some? ==> |r.value| == |Flatten(runs)|
    ensures r.Some? ==> forall i :: 0 <= i < |r.value| ==>
              && r.value[i].toolName == "unknown" && r.value[i].vulnerabilityType == "unknown"
              && r.value[i].severity == Str("medium") && r.value[i].confidence == Medium
              && r.value[i].details == [("raw_finding", Flatten(runs)[i])]
  {
    if runs == [] {
      return None;
    }
    var findings := CollectLegacyFindings(runs);
    var wrapped := seq(|findings|, i requires 0 <= i < |findings| => Wrap(findings[i]));
    return Some(wrapped);
  }
}
