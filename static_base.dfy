/**
 * The base of every static adapter: `standardize_finding`, which normalises a
 * finding dict's `line_numbers` to a list of integers and its `swc_id` to a
 * string.
 */
module StaticBase {
  import opened Wrappers
  import opened PyString
  import opened PyValue

  /** One stripped piece: its int if it is all digits, nothing otherwise. */
  function PieceValue(piece: string): (r: seq<Value>)
    ensures |r| <= 1 && forall i :: 0 <= i < |r| ==> r[i].Int? && r[i].i >= 0
  {
    var p := Strip(piece);
    if IsDigits(p) then [Int(DigitsValue(p))] else []
  }

  /** `[int(p) for p in parts if p.isdigit()]`, over the stripped pieces. */
  function DigitPieces(pieces: seq<string>): (r: seq<Value>)
  {
    if pieces == [] then [] else PieceValue(pieces[0]) + DigitPieces(pieces[1..])
  }

  lemma DigitPiecesCons(x: string, rest: seq<string>)
    ensures DigitPieces([x] + rest) == PieceValue(x) + DigitPieces(rest)
  {
    assert ([x] + rest)[0] == x && ([x] + rest)[1..] == rest;
  }

  lemma {:induction false} DigitPiecesAppend(a: seq<string>, b: seq<string>)
    ensures DigitPieces(a + b) == DigitPieces(a) + DigitPieces(b)
  {
    if a != [] {
      var h, t := a[0], a[1..];
      assert a == [h] + t && a + b == [h] + (t + b);
      DigitPiecesCons(h, t + b);
      DigitPiecesCons(h, t);
      DigitPiecesAppend(t, b);
      var v, x, y := PieceValue(h), DigitPieces(t), DigitPieces(b);
      assert v + (x + y) == (v + x) + y;
    } else {
      assert a + b == b;
    }
  }

  /** A piece that is not all digits once stripped contributes nothing. */
  lemma DigitPiecesDropsJunk(a: seq<string>, junk: string, b: seq<string>)
    requires !IsDigits(Strip(junk))
    ensures DigitPieces(a + [junk] + b) == DigitPieces(a) + DigitPieces(b)
  {
    DigitPiecesAppend(a + [junk], b);
    DigitPiecesAppend(a, [junk]);
    assert PieceValue(junk) == [];
    assert [junk][0] == junk && [junk][1..] == [];
    assert DigitPieces([junk]) == [];
    assert DigitPieces(a) + [] == DigitPieces(a);
  }

  /** The `line_numbers` normalisation: an int (a bool is one in Python) becomes a
      one-element list; a string is split on commas, keeping the all-digit pieces as ints;
      anything else is kept when truthy and becomes `[]` otherwise. */
  function NormalizeLineNumbers(ln: Value): (r: Value)
    ensures ln.Int? || ln.Bool? ==> r == List([ln])
    ensures ln.Str? ==> r == List(DigitPieces(Split(ln.s, ',')))
    ensures !(ln.Int? || ln.Bool? || ln.Str?) && Truthy(ln) ==> r == ln
    ensures !(ln.Int? || ln.Bool? || ln.Str?) && !Truthy(ln) ==> r == List([])
    ensures r.List? || !(ln.Int? || ln.Bool? || ln.Str?)
  {
    match ln
    case Int(_) => List([ln])
    case Bool(_) => List([ln])
    case Str(s) => List(DigitPieces(Split(s, ',')))
    case _ => Or(ln, List([]))
  }

  /** The decimal texts of some line numbers. */
  function NatStrings(ns: seq<nat>): (r: seq<string>)
    ensures |r| == |ns| && forall i :: 0 <= i < |ns| ==> r[i] == NatToString(ns[i])
  {
    seq(|ns|, i requires 0 <= i < |ns| => NatToString(ns[i]))
  }

  /** Line numbers as Python ints. */
  function Ints(ns: seq<nat>): (r: seq<Value>)
    ensures |r| == |ns| && forall i :: 0 <= i < |ns| ==> r[i] == Int(ns[i])
  {
    seq(|ns|, i requires 0 <= i < |ns| => Int(ns[i]))
  }

  /** The decimal text of a number is one piece holding that number. */
  lemma PieceOfNumber(n: nat)
    ensures PieceValue(NatToString(n)) == [Int(n)]
  {
    StripUnpadded(NatToString(n));
    NatToStringRoundTrip(n);
  }

  lemma {:induction false} DigitPiecesOfNumbers(ns: seq<nat>)
    ensures DigitPieces(NatStrings(ns)) == Ints(ns)
  {
    if ns != [] {
      var ps := NatStrings(ns);
      PieceOfNumber(ns[0]);
      assert ps[1..] == NatStrings(ns[1..]);
      DigitPiecesOfNumbers(ns[1..]);
      assert DigitPieces(ps) == [Int(ns[0])] + Ints(ns[1..]);
      assert [Int(ns[0])] + Ints(ns[1..]) == Ints(ns);
    }
  }

  /** Round trip: comma-joined decimal line numbers come back as the same ints, in order. */
  lemma LineNumbersRoundTrip(ns: seq<nat>)
    requires |ns| >= 1
    ensures NormalizeLineNumbers(Str(Join(NatStrings(ns), ','))) == List(Ints(ns))
  {
    var ps := NatStrings(ns);
    forall k | 0 <= k < |ps| ensures ',' !in ps[k] {
      assert IsDigits(ps[k]);
      assert forall j :: 0 <= j < |ps[k]| ==> ps[k][j] != ',';
    }
    SplitJoin(ps, ',');
    DigitPiecesOfNumbers(ns);
  }

  /** The empty string, and a string none of whose pieces is all digits, give `[]`. */
  lemma LineNumbersWithoutDigits(s: string)
    requires forall k :: 0 <= k < |Split(s, ',')| ==> !IsDigits(Strip(Split(s, ',')[k]))
    ensures NormalizeLineNumbers(Str(s)) == List([])
    ensures NormalizeLineNumbers(Str("")) == List([])
  {
    var ps := Split(s, ',');
    assert DigitPieces(ps) == [] by {
      NoDigitPieces(ps);
    }
    assert Split("", ',') == [""];
    assert Strip("") == "";
  }

  lemma {:induction false} NoDigitPieces(ps: seq<string>)
    requires forall k :: 0 <= k < |ps| ==> !IsDigits(Strip(ps[k]))
    ensures DigitPieces(ps) == []
  {
    if ps != [] {
      NoDigitPieces(ps[1..]);
    }
  }

  /** `str(finding.get("swc_id", ""))`. */
  function SwcIdText(finding: Entries): (r: string)
    ensures "swc_id" !in Keys(finding) ==> r == ""
    ensures Lookup(finding, "swc_id").Some? && Lookup(finding, "swc_id").value.Str?
            ==> r == Lookup(finding, "swc_id").value.s
  {
    Display(Get(finding, "swc_id", Str("")))
  }

  /** What `standardize_finding` computes before it falls off its end: the raw severity,
      the normalised line numbers, the swc id text, and whether the vulnerability
      lookups run (only for a non-empty id). */
  datatype StandardizeLocals = StandardizeLocals(
    severityRaw: Value, lineNumbers: Value, swcId: string, lookupsRun: bool)

  function Locals(finding: Entries): (r: StandardizeLocals)
    ensures r.lookupsRun <==> r.swcId != ""
    ensures r.swcId == SwcIdText(finding)
    ensures r.lineNumbers == NormalizeLineNumbers(Get(finding, "line_numbers", List([])))
  {
    var swc := SwcIdText(finding);
    StandardizeLocals(Get(finding, "severity", Null),
                      NormalizeLineNumbers(Get(finding, "line_numbers", List([]))),
                      swc, swc != "")
  }

  /** `standardize_finding` as written: it has no `return`, so every call gives `None`. */
  function StandardizeFindingAsWritten(finding: Entries): Value {
    var _ := Locals(finding);
    Null
  }

  lemma StandardizeFindingReturnsNone(finding: Entries)
    ensures StandardizeFindingAsWritten(finding) == Null
  {
  }

  /** The evidently intended result: the finding with its normalised `line_numbers` and
      `swc_id` written back. */
  function StandardizeFinding(finding: Entries): Entries {
    var l := Locals(finding);
    Put(Put(finding, "line_numbers", l.lineNumbers), "swc_id", Str(l.swcId))
  }

  /** The corrected `standardize_finding` stores the normalised line numbers and the swc
      id text, keeps every key, and leaves every other entry as it was. */
  lemma StandardizeFindingSpec(finding: Entries)
    ensures var r := StandardizeFinding(finding);
      && Lookup(r, "line_numbers") == Some(Locals(finding).lineNumbers)
      && Lookup(r, "swc_id") == Some(Str(Locals(finding).swcId))
      && (forall k :: k in Keys(finding) ==> k in Keys(r))
      && (forall k :: k != "line_numbers" && k != "swc_id" ==> Lookup(r, k) == Lookup(finding, k))
  {
    var l := Locals(finding);
    PutTwice(finding, "line_numbers", l.lineNumbers, "swc_id", Str(l.swcId));
  }

  /** A key other than the two rewritten ones reads the same after standardisation. */
  lemma StandardizeKeeps(finding: Entries, k: string)
    requires k != "line_numbers" && k != "swc_id"
    ensures Lookup(StandardizeFinding(finding), k) == Lookup(finding, k)
  {
    StandardizeFindingSpec(finding);
  }

  /** Two writes to distinct keys: both are read back, and nothing else moves. */
  lemma PutTwice(d: Entries, k1: string, v1: Value, k2: string, v2: Value)
    requires k1 != k2
    ensures Lookup(Put(Put(d, k1, v1), k2, v2), k1) == Some(v1)
    ensures Lookup(Put(Put(d, k1, v1), k2, v2), k2) == Some(v2)
    ensures forall k :: k in Keys(d) ==> k in Keys(Put(Put(d, k1, v1), k2, v2))
    ensures forall k :: k != k1 && k != k2 ==> Lookup(Put(Put(d, k1, v1), k2, v2), k) == Lookup(d, k)
  {
    var d1 := Put(d, k1, v1);
    PutKeysGrow(d, k1, v1);
    PutKeysGrow(d1, k2, v2);
    PutKeepsOthers(d1, k2, v2, k1);
    forall k | k != k1 && k != k2 ensures Lookup(Put(d1, k2, v2), k) == Lookup(d, k) {
      PutKeepsOthers(d, k1, v1, k);
      PutKeepsOthers(d1, k2, v2, k);
    }
  }

  /** Standardising twice is standardising once. */
  lemma StandardizeLineNumbersIdempotent(finding: Entries)
    ensures Lookup(StandardizeFinding(StandardizeFinding(finding)), "line_numbers")
            == Lookup(StandardizeFinding(finding), "line_numbers")
  {
    var once := StandardizeFinding(finding);
    StandardizeFindingSpec(finding);
    StandardizeFindingSpec(once);
    var ln := Locals(finding).lineNumbers;
    assert Get(once, "line_numbers", List([])) == ln;
    if ln.List? {
      if Truthy(ln) {
        assert NormalizeLineNumbers(ln) == ln;
      } else {
        assert ln == List([]);
      }
    } else {
      assert NormalizeLineNumbers(ln) == ln;
    }
  }

  /** `json.loads(output).get(key, [])`, iterated as a list of dicts: invalid JSON
      (`None` here) raises a `ValueError`, a document that is not an object has no `get`,
      and an element that is not a dict has no `get` either. */
  function JsonDictList(output: Option<Value>, key: string): (r: Result<seq<Entries>, Exception>)
    ensures output.None? ==> r == Failure(ValueError)
    ensures output.Some? && !output.value.Dict? ==> r == Failure(AttributeError)
    ensures output.Some? && output.value.Dict? && key !in Keys(output.value.entries) ==> r == Success([])
  {
    match output
    case None => Failure(ValueError)
    case Some(data) =>
      if data.Dict? then
        var items := Get(data.entries, key, List([]));
        assert key !in Keys(data.entries) ==> items == List([]);
        IterateDicts(items)
      else Failure(AttributeError)
  }

  /** The finding dict every adapter builds, with its keys in the adapters' order. */
  function FindingDict(title: Value, description: Value, severity: Value, swcId: Value,
                       lineNumbers: Value, confidence: Value, tool: Value): Entries {
    [("title", title), ("description", description), ("severity", severity),
     ("swc_id", swcId), ("line_numbers", lineNumbers), ("confidence", confidence),
     ("tool", tool)]
  }

  /** The `i`-th entry of a finding dict is what a lookup of its key finds. */
  lemma FindingDictEntry(title: Value, description: Value, severity: Value, swcId: Value,
                         lineNumbers: Value, confidence: Value, tool: Value, i: nat)
    requires i < 7
    ensures var d := FindingDict(title, description, severity, swcId, lineNumbers, confidence, tool);
      Lookup(d, d[i].0) == Some(d[i].1)
  {
    var d := FindingDict(title, description, severity, swcId, lineNumbers, confidence, tool);
    LookupFirst(d, i);
  }

  /** Each key of a finding dict reads back its own field. */
  lemma FindingDictFields(title: Value, description: Value, severity: Value, swcId: Value,
                          lineNumbers: Value, confidence: Value, tool: Value)
    ensures var d := FindingDict(title, description, severity, swcId, lineNumbers, confidence, tool);
      && Lookup(d, "title") == Some(title)
      && Lookup(d, "description") == Some(description)
      && Lookup(d, "severity") == Some(severity)
      && Lookup(d, "swc_id") == Some(swcId)
      && Lookup(d, "line_numbers") == Some(lineNumbers)
      && Lookup(d, "confidence") == Some(confidence)
      && Lookup(d, "tool") == Some(tool)
  {
    FindingDictEntry(title, description, severity, swcId, lineNumbers, confidence, tool, 0);
    FindingDictEntry(title, description, severity, swcId, lineNumbers, confidence, tool, 1);
    FindingDictEntry(title, description, severity, swcId, lineNumbers, confidence, tool, 2);
    FindingDictEntry(title, description, severity, swcId, lineNumbers, confidence, tool, 3);
    FindingDictEntry(title, description, severity, swcId, lineNumbers, confidence, tool, 4);
    FindingDictEntry(title, description, severity, swcId, lineNumbers, confidence, tool, 5);
    FindingDictEntry(title, description, severity, swcId, lineNumbers, confidence, tool, 6);
  }
}
