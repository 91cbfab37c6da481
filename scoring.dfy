/**
 * Scoring: the CVSS-inspired score of a finding, computed from its severity's
 * base score and its confidence over the reals, and the interim table from
 * SWC identifiers to severities.
 */
module Scoring {
  import opened Wrappers
  import opened PyString
  import opened PyValue
  import Schemas

  /** A finding's `severity` attribute: missing, an enum member (whose `.value` is
      read), or a plain value. */
  datatype SeverityAttr = Missing | EnumMember(value: Value) | Plain(raw: Value)

  /** `getattr(sev, "value", sev)`, with a missing attribute read as `None`. */
  function SeverityValue(sev: SeverityAttr): Value {
    match sev
    case Missing => Null
    case EnumMember(x) => x
    case Plain(x) => x
  }

  /** `str(getattr(sev, "value", sev) or "medium")`. */
  function SeverityText(sev: SeverityAttr): string {
    Display(Or(SeverityValue(sev), Str("medium")))
  }

  /** `str(getattr(sev, "value", sev) or "medium").strip().lower()`. */
  function SeverityKey(sev: SeverityAttr): string {
    Lower(Strip(SeverityText(sev)))
  }

  /** The severity-to-base-score table; 5.0 for any other key. */
  function BaseScore(key: string): (b: real)
    ensures 1.0 <= b <= 9.5
  {
    if key == "critical" then 9.5
    else if key == "high" || key == "major" then 8.0
    else if key == "medium" then 6.0
    else if key == "low" || key == "minor" then 3.0
    else if key == "informational" || key == "info" then 1.0
    else 5.0
  }

  /** The confidence actually used: a missing or falsy confidence counts as 0.5. */
  function EffectiveConfidence(confidence: Option<real>): (c: real)
    ensures confidence.None? || confidence == Some(0.0) ==> c == 0.5
    ensures confidence.Some? && confidence.value != 0.0 ==> c == confidence.value
  {
    if confidence.None? || confidence.value == 0.0 then 0.5 else confidence.value
  }

  /** The formula, over reals and without the source's rounding to two decimals. */
  function Formula(base: real, c: real): real {
    base * (0.6 + 0.4 * c)
  }

  /** `calculate_score`. */
  function CalculateScore(sev: SeverityAttr, confidence: Option<real>): real {
    Formula(BaseScore(SeverityKey(sev)), EffectiveConfidence(confidence))
  }

  /** For a confidence in [0, 1], the formula lies between 0.6 and 1 times the base, and
      grows with the confidence. */
  lemma FormulaBounds(base: real, c: real)
    requires base >= 0.0 && 0.0 <= c <= 1.0
    ensures 0.6 * base <= Formula(base, c) <= base
  {
  }

  lemma FormulaMonotone(base: real, c: real, d: real)
    requires base >= 0.0 && c <= d
    ensures Formula(base, c) <= Formula(base, d)
  {
  }

  /** Every score of a confidence in [0, 1] lies between 0.6 and 9.5. */
  lemma ScoreBounds(sev: SeverityAttr, confidence: Option<real>)
    requires confidence.Some? ==> 0.0 <= confidence.value <= 1.0
    ensures 0.6 <= CalculateScore(sev, confidence) <= 9.5
  {
    FormulaBounds(BaseScore(SeverityKey(sev)), EffectiveConfidence(confidence));
  }

  /** A non-empty string severity is stripped and lower-cased. */
  lemma SeverityKeyOfStr(s: string)
    requires s != ""
    ensures SeverityKey(Plain(Str(s))) == Lower(Strip(s))
    ensures SeverityKey(EnumMember(Str(s))) == Lower(Strip(s))
  {
    assert Truthy(Str(s));
    assert SeverityText(Plain(Str(s))) == s;
    assert SeverityText(EnumMember(Str(s))) == s;
  }

  /** The schema's level names, lower-cased. */
  function SchemaKey(s: Schemas.SeverityLevel): string {
    match s
    case Critical => "critical"
    case Major => "major"
    case Medium => "medium"
    case Minor => "minor"
    case Informational => "informational"
  }

  lemma SchemaWord(s: Schemas.SeverityLevel)
    ensures Strip(s.Value()) == s.Value()
  {
    StripUnpadded(s.Value());
  }

  lemma SchemaLower(s: Schemas.SeverityLevel)
    ensures Lower(s.Value()) == SchemaKey(s)
  {
    match s
    case Critical => assert Lower("Critical") == "critical";
    case Major => assert Lower("Major") == "major";
    case Medium => assert Lower("Medium") == "medium";
    case Minor => assert Lower("Minor") == "minor";
    case Informational => assert Lower("Informational") == "informational";
  }

  lemma SchemaSeverityKey(s: Schemas.SeverityLevel)
    ensures SeverityKey(Plain(Str(s.Value()))) == SchemaKey(s)
  {
    SeverityKeyOfStr(s.Value());
    SchemaWord(s);
    SchemaLower(s);
  }

  /** A finding's severity (stored as its string value) has its schema level's name,
      lower-cased, as key, and that key's base score is CRITICAL 9.5, MAJOR 8, MEDIUM 6,
      MINOR 3, INFORMATIONAL 1. */
  lemma BaseScoreOfSchemaSeverity(s: Schemas.SeverityLevel)
    ensures SeverityKey(Plain(Str(s.Value()))) == SchemaKey(s)
    ensures BaseScore(SchemaKey(s))
            == match s
               case Critical => 9.5
               case Major => 8.0
               case Medium => 6.0
               case Minor => 3.0
               case Informational => 1.0
  {
    SchemaSeverityKey(s);
    SchemaBaseScore(s);
  }

  lemma SchemaBaseScore(s: Schemas.SeverityLevel)
    ensures BaseScore(SchemaKey(s))
            == match s
               case Critical => 9.5
               case Major => 8.0
               case Medium => 6.0
               case Minor => 3.0
               case Informational => 1.0
  {
    match s
    case Critical =>
    case Major => assert "major"[0] != "critical"[0] && "major"[0] != "high"[0];
    case Medium => assert "medium"[0] != "critical"[0] && "medium"[0] != "high"[0] && "medium" != "major";
    case Minor =>
      assert "minor"[0] != "critical"[0] && "minor"[0] != "high"[0] && "minor"[1] != "medium"[1];
      assert "minor"[1] != "major"[1] && "minor"[0] != "low"[0];
    case Informational =>
      assert "informational"[0] != "critical"[0] && "informational"[0] != "high"[0];
      assert "informational"[0] != "major"[0] && "informational"[0] != "medium"[0];
      assert "informational"[0] != "low"[0] && "informational"[0] != "minor"[0];
  }

  /** Any key whose first letter no table key starts with has the default base score. */
  lemma BaseScoreOfUnknownInitial(key: string)
    requires key != [] && key[0] !in {'c', 'h', 'm', 'l', 'i'}
    ensures BaseScore(key) == 5.0
  {
    assert key[0] != "critical"[0] && key[0] != "high"[0] && key[0] != "major"[0];
    assert key[0] != "medium"[0] && key[0] != "low"[0] && key[0] != "minor"[0];
    assert key[0] != "informational"[0] && key[0] != "info"[0];
  }

  /** The default key. */
  lemma MediumKey()
    ensures Lower(Strip("medium")) == "medium"
  {
    StripUnpadded("medium");
    LowerOfLower("medium");
  }

  /** A missing or empty severity scores as "medium". */
  lemma SeverityKeyDefault()
    ensures SeverityKey(Missing) == "medium"
    ensures SeverityKey(Plain(Str(""))) == "medium"
    ensures SeverityKey(EnumMember(Null)) == "medium"
  {
    DefaultText();
    MediumKey();
  }

  lemma DefaultText()
    ensures SeverityText(Missing) == "medium"
    ensures SeverityText(Plain(Str(""))) == "medium"
    ensures SeverityText(EnumMember(Null)) == "medium"
  {
    assert !Truthy(Null) && !Truthy(Str(""));
  }

  lemma HighStripped()
    ensures Strip(" High ") == "High"
  {
    assert " High " == [' '] + "High" + [' '];
    StripSpaced("High");
  }

  lemma HighLowered()
    ensures Lower("High") == "high"
  {
  }

  /** Surrounding whitespace and letter case are ignored. */
  lemma SeverityKeyNormalisation()
    ensures SeverityKey(EnumMember(Str(" High "))) == "high"
  {
    SeverityKeyOfStr(" High ");
    HighStripped();
    HighLowered();
  }

  lemma SevereWord()
    ensures Strip("severe") == "severe" && Lower("severe") == "severe"
  {
    StripUnpadded("severe");
    LowerOfLower("severe");
  }

  lemma SevereKey()
    ensures SeverityKey(Plain(Str("severe"))) == "severe"
  {
    SeverityKeyOfStr("severe");
    SevereWord();
  }

  /** An unknown severity has base score 5. */
  lemma UnknownSeverityBase()
    ensures BaseScore(SeverityKey(Plain(Str("severe")))) == 5.0
  {
    SevereKey();
    BaseScoreOfUnknownInitial("severe");
  }

  /** As written, a confidence of 0 scores higher than a confidence of 0.1, because the
      falsy 0 is replaced by 0.5: the score is not monotone in the confidence. */
  lemma ZeroConfidenceScoresAboveLow(sev: SeverityAttr)
    ensures CalculateScore(sev, Some(0.0)) > CalculateScore(sev, Some(0.1))
  {
  }

  /** The evidently intended default: only a missing confidence counts as 0.5. */
  function CorrectedConfidence(confidence: Option<real>): (c: real)
    ensures confidence.Some? ==> c == confidence.value
  {
    if confidence.None? then 0.5 else confidence.value
  }

  function CorrectedScore(sev: SeverityAttr, confidence: Option<real>): real {
    Formula(BaseScore(SeverityKey(sev)), CorrectedConfidence(confidence))
  }

  /** The corrected score grows with the confidence over all of [0, 1]. */
  lemma CorrectedScoreMonotone(sev: SeverityAttr, c: real, d: real)
    requires 0.0 <= c <= d <= 1.0
    ensures CorrectedScore(sev, Some(c)) <= CorrectedScore(sev, Some(d))
    ensures CorrectedScore(sev, Some(0.0)) < CorrectedScore(sev, Some(0.1))
  {
    FormulaMonotone(BaseScore(SeverityKey(sev)), c, d);
  }

  /** The two scores differ only at confidence 0. */
  lemma CorrectedAgreesAwayFromZero(sev: SeverityAttr, confidence: Option<real>)
    requires confidence != Some(0.0)
    ensures CorrectedScore(sev, confidence) == CalculateScore(sev, confidence)
  {
  }

  // ---------------------------------------------------------------------------
  // SWC identifiers
  // ---------------------------------------------------------------------------

  /** The severity enum of the SWC table. */
  datatype SwcSeverity = SwcCritical | SwcHigh | SwcMedium | SwcLow | SwcInformational

  /** The identifiers the table maps. */
  const MappedSwcIds: seq<string> := ["SWC-107", "SWC-101", "SWC-110", "SWC-114", "SWC-116"]

  /** `map_swc_to_severity`: an exact, case-sensitive lookup, INFORMATIONAL otherwise. */
  function MapSwcToSeverity(swcId: string): (r: SwcSeverity)
    ensures swcId !in MappedSwcIds ==> r == SwcInformational
  {
    if swcId == "SWC-107" then SwcCritical
    else if swcId == "SWC-101" then SwcHigh
    else if swcId == "SWC-110" || swcId == "SWC-114" then SwcMedium
    else if swcId == "SWC-116" then SwcLow
    else SwcInformational
  }

  /** The table's entries; each mapped identifier is told apart from the default. */
  lemma SwcTable()
    ensures MapSwcToSeverity("SWC-107") == SwcCritical
    ensures MapSwcToSeverity("SWC-101") == SwcHigh
    ensures MapSwcToSeverity("SWC-110") == SwcMedium
    ensures MapSwcToSeverity("SWC-114") == SwcMedium
    ensures MapSwcToSeverity("SWC-116") == SwcLow
  {
  }

  /** An identifier is mapped to something other than INFORMATIONAL exactly when it is
      in the table. */
  lemma SwcMappedIffInTable(swcId: string)
    ensures MapSwcToSeverity(swcId) != SwcInformational <==> swcId in MappedSwcIds
  {
  }

  /** The lookup is case-sensitive. */
  lemma SwcLookupCaseSensitive()
    ensures MapSwcToSeverity("swc-107") == SwcInformational
  {
    assert "swc-107" != "SWC-107" by {
      assert "swc-107"[0] != "SWC-107"[0];
    }
    assert "swc-107" !in MappedSwcIds;
  }
}
