/**
 * The dynamic-analysis settings: field bounds and the "at least one tool"
 * rule, recursive masking of secrets in a configuration dump, and the
 * per-tool lookups.
 */
module DynamicConfig {
  import opened Wrappers
  import opened PyString
  import opened PyValue

  /** The settings that the modelled operations read (the API key and auth token are
      left to the masking, which sees them in the dump). */
  datatype Settings = Settings(
    enableEchidna: bool,
    enableAdversarialFuzz: bool,
    analysisTimeout: int,
    maxWorkers: int,
    reinforcementLearning: bool,
    crossChainAnalysis: bool,
    echidna: Entries,
    adversarialFuzz: Entries,
    echidnaAdapterAccuracy: real,
    adversarialFuzzAccuracy: real)

  /** The defaults. */
  const DefaultSettings := Settings(true, true, 600, 4, false, false, [], [], 0.8, 0.85)

  /** A rejected configuration: a field outside its bounds, or the model rule. */
  datatype ConfigError = FieldOutOfRange(field: string) | ModelRule(message: string)

  /** The field bounds. */
  predicate FieldsInRange(s: Settings) {
    && 1 <= s.analysisTimeout <= 3600
    && 1 <= s.maxWorkers <= 16
    && 0.0 <= s.echidnaAdapterAccuracy <= 1.0
    && 0.0 <= s.adversarialFuzzAccuracy <= 1.0
  }

  /** Field validation followed by `validate_model`. The tool configurations are typed
      as dicts, so the two "must be a dictionary" checks cannot fail once the fields
      are validated. */
  function Validate(s: Settings): (r: Result<Settings, ConfigError>)
    ensures r.Success? <==> FieldsInRange(s) && (s.enableEchidna || s.enableAdversarialFuzz)
    ensures r.Success? ==> r.value == s
    ensures FieldsInRange(s) && !s.enableEchidna && !s.enableAdversarialFuzz ==>
              r == Failure(ModelRule("At least one analysis tool must be enabled"))
  {
    if !(1 <= s.analysisTimeout <= 3600) then Failure(FieldOutOfRange("analysis_timeout"))
    else if !(1 <= s.maxWorkers <= 16) then Failure(FieldOutOfRange("max_workers"))
    else if !(0.0 <= s.echidnaAdapterAccuracy <= 1.0) then Failure(FieldOutOfRange("echidna_adapter_accuracy"))
    else if !(0.0 <= s.adversarialFuzzAccuracy <= 1.0) then Failure(FieldOutOfRange("adversarial_fuzz_accuracy"))
    else if !(s.enableEchidna || s.enableAdversarialFuzz) then Failure(ModelRule("At least one analysis tool must be enabled"))
    else Success(s)
  }

  /** The defaults are accepted, and disabling both tools in them is not. */
  lemma DefaultsValid()
    ensures Validate(DefaultSettings) == Success(DefaultSettings)
    ensures Validate(DefaultSettings.(enableEchidna := false, enableAdversarialFuzz := false)).Failure?
  {
  }

  // ---------------------------------------------------------------------------
  // Masking
  // ---------------------------------------------------------------------------

  /** The substrings that mark a key as sensitive. */
  const SensitivePatterns: seq<string> :=
    ["api_key", "auth_token", "password", "secret", "token", "key", "credential", "auth", "pass", "pwd"]

  /** A key is sensitive when its lower-case form contains one of the patterns. */
  predicate IsSensitiveKey(key: string) {
    exists j :: 0 <= j < |SensitivePatterns| && Contains(Lower(key), SensitivePatterns[j])
  }

  /** Sensitivity ignores letter case. */
  lemma SensitivityCaseInsensitive(key: string)
    ensures IsSensitiveKey(key) == IsSensitiveKey(Lower(key))
  {
    LowerIdempotent(key);
  }

  /** A sensitive value's replacement: a string longer than 8 characters keeps its first
      three and last two characters around "***"; anything else is "***". */
  function MaskValue(v: Value): (r: Value)
    ensures r.Str? && |r.s| <= 8
    ensures v.Str? && |v.s| > 8 ==> r.s == v.s[..3] + "***" + v.s[|v.s| - 2..]
    ensures !(v.Str? && |v.s| > 8) ==> r.s == "***"
  {
    if v.Str? && |v.s| > 8 then Str(v.s[..3] + "***" + v.s[|v.s| - 2..]) else Str("***")
  }

  /** `_mask_sensitive_data`: dicts are rebuilt key by key, a sensitive key with a
      non-None value getting its masked replacement and every other value masked
      recursively; lists and tuples become lists of masked items; anything else is
      returned as it is. */
  function Mask(v: Value): (r: Value)
    decreases v
  {
    match v
    case Dict(es) =>
      Dict(seq(|es|, i requires 0 <= i < |es| =>
        (es[i].0, if IsSensitiveKey(es[i].0) && !es[i].1.Null? then MaskValue(es[i].1) else Mask(es[i].1))))
    case List(xs) => List(seq(|xs|, i requires 0 <= i < |xs| => Mask(xs[i])))
    case Tuple(xs) => List(seq(|xs|, i requires 0 <= i < |xs| => Mask(xs[i])))
    case _ => v
  }

  /** Masking a dict keeps its keys, in order, and says entry by entry what each value
      becomes. */
  lemma MaskDict(es: Entries)
    ensures Mask(Dict(es)).Dict?
    ensures Keys(Mask(Dict(es)).entries) == Keys(es)
    ensures forall i :: 0 <= i < |es| ==>
              Mask(Dict(es)).entries[i].1
              == (if IsSensitiveKey(es[i].0) && !es[i].1.Null? then MaskValue(es[i].1) else Mask(es[i].1))
  {
    MaskDictShape(es);
    SameKeys(Mask(Dict(es)).entries, es);
    MaskDictValues(es);
  }

  lemma MaskDictShape(es: Entries)
    ensures Mask(Dict(es)).Dict? && |Mask(Dict(es)).entries| == |es|
    ensures forall i :: 0 <= i < |es| ==> Mask(Dict(es)).entries[i].0 == es[i].0
  {
  }

  lemma MaskDictValues(es: Entries)
    ensures Mask(Dict(es)).Dict? && |Mask(Dict(es)).entries| == |es|
    ensures forall i :: 0 <= i < |es| ==>
              Mask(Dict(es)).entries[i].1
              == (if IsSensitiveKey(es[i].0) && !es[i].1.Null? then MaskValue(es[i].1) else Mask(es[i].1))
  {
  }

  /** Entries with the same keys position by position have the same key list. */
  lemma SameKeys(a: Entries, b: Entries)
    requires |a| == |b| && forall i :: 0 <= i < |a| ==> a[i].0 == b[i].0
    ensures Keys(a) == Keys(b)
  {
    var ka := Keys(a);
    var kb := Keys(b);
    assert forall i :: 0 <= i < |ka| ==> ka[i] == kb[i];
  }

  /** Lists and tuples map item by item to lists; scalars are unchanged. */
  lemma MaskSequences(v: Value)
    ensures (v.List? || v.Tuple?) ==> Mask(v) == List(seq(|v.items|, i requires 0 <= i < |v.items| => Mask(v.items[i])))
    ensures !(v.List? || v.Tuple? || v.Dict?) ==> Mask(v) == v
  {
  }

  /** No sensitive key anywhere in `v` holds a string longer than 8 characters. */
  predicate NoLongSecrets(v: Value)
    decreases v
  {
    match v
    case Dict(es) =>
      forall i :: 0 <= i < |es| ==>
        (IsSensitiveKey(es[i].0) && es[i].1.Str? ==> |es[i].1.s| <= 8) && NoLongSecrets(es[i].1)
    case List(xs) => forall i :: 0 <= i < |xs| ==> NoLongSecrets(xs[i])
    case Tuple(xs) => forall i :: 0 <= i < |xs| ==> NoLongSecrets(xs[i])
    case _ => true
  }

  /** After masking, no sensitive key at any depth exposes more than eight characters. */
  lemma {:induction false} MaskHidesSecrets(v: Value)
    ensures NoLongSecrets(Mask(v))
    decreases v
  {
    match v
    case Dict(es) =>
      var m := Mask(v);
      forall i | 0 <= i < |es|
        ensures (IsSensitiveKey(m.entries[i].0) && m.entries[i].1.Str? ==> |m.entries[i].1.s| <= 8) && NoLongSecrets(m.entries[i].1)
      {
        if !(IsSensitiveKey(es[i].0) && !es[i].1.Null?) {
          MaskHidesSecrets(es[i].1);
          if IsSensitiveKey(es[i].0) {
            assert es[i].1.Null?;
          }
        }
      }
    case List(xs) =>
      forall i | 0 <= i < |xs| ensures NoLongSecrets(Mask(xs[i])) {
        MaskHidesSecrets(xs[i]);
      }
    case Tuple(xs) =>
      forall i | 0 <= i < |xs| ensures NoLongSecrets(Mask(xs[i])) {
        MaskHidesSecrets(xs[i]);
      }
    case _ =>
  }

  /** An example: an API key in a configuration dump keeps "sk-" and its last two
      characters; a None-valued token is left as None. */
  lemma MaskExample()
    ensures Mask(Dict([("api_key", Str("sk-1234567890")), ("auth_token", Null)]))
            == Dict([("api_key", Str("sk-***90")), ("auth_token", Null)])
  {
    var es := [("api_key", Str("sk-1234567890")), ("auth_token", Null)];
    assert OccursAt(Lower("api_key"), SensitivePatterns[0], 0);
    assert IsSensitiveKey("api_key");
    var m := Mask(Dict(es));
    assert "sk-1234567890"[..3] + "***" + "sk-1234567890"[11..] == "sk-***90";
    assert m.entries[0] == ("api_key", Str("sk-***90"));
    assert m.entries[1] == ("auth_token", Null);
    assert m.entries == [("api_key", Str("sk-***90")), ("auth_token", Null)];
  }

  /** The configuration object that masks its dump; the pattern set is filled in on the
      first call and kept afterwards. */
  class MaskingSettings {
    var sensitivePatterns: Option<seq<string>>

    constructor ()
      ensures sensitivePatterns == None
    {
      sensitivePatterns := None;
    }

    /** The attribute is either unset or the fixed pattern set. */
    predicate Valid()
      reads this
    {
      sensitivePatterns == None || sensitivePatterns == Some(SensitivePatterns)
    }

    /** `_mask_sensitive_data` on the object: the pattern set is present afterwards, and
        the result is the masking of `obj`. */
    method MaskSensitiveData(obj: Value) returns (r: Value)
      requires Valid()
      modifies this
      ensures sensitivePatterns == Some(SensitivePatterns)
      ensures r == Mask(obj)
    {
      if sensitivePatterns.None? {
        sensitivePatterns := Some(SensitivePatterns);
      }
      r := Mask(obj);
    }
  }

  // ---------------------------------------------------------------------------
  // Tool lookups
  // ---------------------------------------------------------------------------

  /** `get_tool_config`: the tool's configuration by lower-case name, `{}` otherwise. */
  function GetToolConfig(s: Settings, toolName: string): (r: Entries)
    ensures Lower(toolName) == "echidna" ==> r == s.echidna
    ensures Lower(toolName) == "adversarial_fuzz" ==> r == s.adversarialFuzz
    ensures Lower(toolName) != "echidna" && Lower(toolName) != "adversarial_fuzz" ==> r == []
  {
    var name := Lower(toolName);
    if name == "echidna" then s.echidna
    else if name == "adversarial_fuzz" then s.adversarialFuzz
    else []
  }

  /** `get_tool_accuracy`: only "echidna_adapter" and "adversarialfuzz" are known. */
  function GetToolAccuracy(s: Settings, toolName: string): (r: real)
    ensures Lower(toolName) == "echidna_adapter" ==> r == s.echidnaAdapterAccuracy
    ensures Lower(toolName) == "adversarialfuzz" ==> r == s.adversarialFuzzAccuracy
    ensures Lower(toolName) != "echidna_adapter" && Lower(toolName) != "adversarialfuzz" ==> r == 0.8
  {
    var name := Lower(toolName);
    if name == "echidna_adapter" then s.echidnaAdapterAccuracy
    else if name == "adversarialfuzz" then s.adversarialFuzzAccuracy
    else 0.8
  }

  /** `is_tool_enabled`: the tool's flag by lower-case name, false otherwise. */
  function IsToolEnabled(s: Settings, toolName: string): (r: bool)
    ensures Lower(toolName) == "echidna" ==> r == s.enableEchidna
    ensures Lower(toolName) == "adversarial_fuzz" ==> r == s.enableAdversarialFuzz
    ensures Lower(toolName) != "echidna" && Lower(toolName) != "adversarial_fuzz" ==> !r
  {
    var name := Lower(toolName);
    if name == "echidna" then s.enableEchidna
    else if name == "adversarial_fuzz" then s.enableAdversarialFuzz
    else false
  }

  /** The lookups ignore letter case. */
  lemma LookupsCaseInsensitive(s: Settings, toolName: string)
    ensures GetToolConfig(s, toolName) == GetToolConfig(s, Lower(toolName))
    ensures GetToolAccuracy(s, toolName) == GetToolAccuracy(s, Lower(toolName))
    ensures IsToolEnabled(s, toolName) == IsToolEnabled(s, Lower(toolName))
  {
    LowerIdempotent(toolName);
  }

  /** A validated configuration enables at least one of the two tools by name. */
  lemma ValidEnablesATool(s: Settings)
    requires Validate(s).Success?
    ensures IsToolEnabled(s, "echidna") || IsToolEnabled(s, "adversarial_fuzz")
  {
    assert Lower("echidna") == "echidna";
    assert Lower("adversarial_fuzz") == "adversarial_fuzz";
  }

  /** The adapters' class names are not among the accuracy keys: "EchidnaAdapter" and
      "AdversarialFuzz" lower-case to "echidnaadapter" and "adversarialfuzz", so only the
      fuzzer finds its setting. */
  lemma AccuracyByClassName(s: Settings)
    ensures GetToolAccuracy(s, "EchidnaAdapter") == 0.8
    ensures GetToolAccuracy(s, "AdversarialFuzz") == s.adversarialFuzzAccuracy
  {
    assert Lower("EchidnaAdapter") == "echidnaadapter";
    assert Lower("AdversarialFuzz") == "adversarialfuzz";
  }
}
