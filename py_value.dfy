/**
 * Python values as the audit engine sees them: parsed JSON, tool result
 * dictionaries and configuration dumps. A dictionary is its ordered list of
 * (key, value) entries, as a Python dict keeps insertion order.
 */
module PyValue {
  import opened Wrappers
  import PyString

  /** The Python exceptions the modelled code raises or catches. */
  datatype Exception = TypeError | ValueError | AttributeError | KeyError | NameError | ValidationError {
    /** `type(e).__name__`. */
    function Name(): string {
      match this
      case TypeError => "TypeError"
      case ValueError => "ValueError"
      case AttributeError => "AttributeError"
      case KeyError => "KeyError"
      case NameError => "NameError"
      case ValidationError => "ValidationError"
    }
  }

  datatype Value =
    | Null
    | Bool(b: bool)
    | Int(i: int)
    | Float(r: real)
    | Str(s: string)
    | List(items: seq<Value>)
    | Tuple(items: seq<Value>)
    | Dict(entries: seq<(string, Value)>)
      /** Any other object: truthy, not iterable, without `get`, rejected by `float()`
          (a plain `Enum` member is one). */
    | Obj(cls: string)

  type Entries = seq<(string, Value)>

  /** Python truthiness: `bool(v)`. */
  predicate Truthy(v: Value) {
    match v
    case Null => false
    case Bool(b) => b
    case Int(i) => i != 0
    case Float(r) => r != 0.0
    case Str(s) => s != ""
    case List(xs) => xs != []
    case Tuple(xs) => xs != []
    case Dict(es) => es != []
    case Obj(_) => true
  }

  function Keys(d: Entries): (ks: seq<string>)
    ensures |ks| == |d| && forall i :: 0 <= i < |d| ==> ks[i] == d[i].0
  {
    if d == [] then [] else [d[0].0] + Keys(d[1..])
  }

  /** `d.get(key)`: the value of the first entry with that key, if any. */
  function Lookup(d: Entries, key: string): (r: Option<Value>)
    ensures r.None? <==> key !in Keys(d)
    ensures r.Some? ==> (key, r.value) in d
  {
    if d == [] then None
    else if d[0].0 == key then Some(d[0].1)
    else Lookup(d[1..], key)
  }

  /** `a or b`: `a` when truthy, otherwise `b`. */
  function Or(a: Value, b: Value): (r: Value)
    ensures Truthy(a) ==> r == a
    ensures !Truthy(a) ==> r == b
  {
    if Truthy(a) then a else b
  }

  /** `d.get(key, default)`. */
  function Get(d: Entries, key: string, default: Value): Value {
    Lookup(d, key).GetOr(default)
  }

  /** `d[key] = v`: overwrite the entry in place, or append a new one. */
  function Put(d: Entries, key: string, v: Value): (r: Entries)
    ensures Lookup(r, key) == Some(v)
  {
    if d == [] then [(key, v)]
    else if d[0].0 == key then [(key, v)] + d[1..]
    else
      var r := [d[0]] + Put(d[1..], key, v);
      assert r[1..] == Put(d[1..], key, v);
      r
  }

  /** Overwriting an existing key keeps the key order. */
  lemma {:induction false} PutExistingKeys(d: Entries, key: string, v: Value)
    requires key in Keys(d)
    ensures Keys(Put(d, key, v)) == Keys(d)
  {
    if d[0].0 != key {
      PutExistingKeys(d[1..], key, v);
      assert Put(d, key, v)[1..] == Put(d[1..], key, v);
    } else {
      assert Put(d, key, v)[1..] == d[1..];
    }
  }

  /** A new key is appended after the existing ones. */
  lemma {:induction false} PutNewKeys(d: Entries, key: string, v: Value)
    requires key !in Keys(d)
    ensures Keys(Put(d, key, v)) == Keys(d) + [key]
  {
    if d != [] {
      PutNewKeys(d[1..], key, v);
      assert Put(d, key, v)[1..] == Put(d[1..], key, v);
    }
  }

  /** `d[key] = v` leaves every other key's value as it was. */
  lemma {:induction false} PutKeepsOthers(d: Entries, key: string, v: Value, k: string)
    requires k != key
    ensures Lookup(Put(d, key, v), k) == Lookup(d, k)
  {
    if d != [] && d[0].0 != key {
      PutKeepsOthers(d[1..], key, v, k);
      assert Put(d, key, v)[1..] == Put(d[1..], key, v);
    } else if d != [] {
      assert Put(d, key, v)[1..] == d[1..];
    }
  }

  /** The first entry with a key is the one a lookup finds. */
  lemma {:induction false} LookupFirst(d: Entries, i: nat)
    requires i < |d| && forall j :: 0 <= j < i ==> d[j].0 != d[i].0
    ensures Lookup(d, d[i].0) == Some(d[i].1)
  {
    if i > 0 {
      LookupFirst(d[1..], i - 1);
    }
  }

  /** A write keeps every key and adds its own. */
  lemma PutKeysGrow(d: Entries, key: string, v: Value)
    ensures forall k :: k in Keys(d) ==> k in Keys(Put(d, key, v))
  {
    if key in Keys(d) {
      PutExistingKeys(d, key, v);
    } else {
      PutNewKeys(d, key, v);
    }
  }

  /** `for x in v`: lists and tuples give their items, strings their characters,
      dicts their keys; anything else raises TypeError. */
  function Iterate(v: Value): (r: Result<seq<Value>, Exception>)
    ensures r.Failure? <==> !(v.List? || v.Tuple? || v.Str? || v.Dict?)
    ensures r.Success? ==> |r.value| == (match v
                                         case Str(s) => |s|
                                         case Dict(es) => |es|
                                         case _ => |v.items|)
  {
    match v
    case List(xs) => Success(xs)
    case Tuple(xs) => Success(xs)
    case Str(s) => Success(seq(|s|, i requires 0 <= i < |s| => Str([s[i]])))
    case Dict(es) => Success(seq(|es|, i requires 0 <= i < |es| => Str(es[i].0)))
    case _ => Failure(TypeError)
  }

  /** Iterates over `v` where every element must support `.get`: the elements must be
      dicts, otherwise the first `.get` raises AttributeError. */
  function IterateDicts(v: Value): (r: Result<seq<Entries>, Exception>)
    ensures r.Success? ==> (Iterate(v).Success? && |r.value| == |Iterate(v).value|
      && forall i :: 0 <= i < |r.value| ==> Iterate(v).value[i] == Dict(r.value[i]))
    ensures r.Success? <==> (Iterate(v).Success?
                             && forall i :: 0 <= i < |Iterate(v).value| ==> Iterate(v).value[i].Dict?)
  {
    match Iterate(v)
    case Failure(e) => Failure(e)
    case Success(xs) =>
      if forall i :: 0 <= i < |xs| ==> xs[i].Dict?
      then Success(seq(|xs|, i requires 0 <= i < |xs| => xs[i].entries))
      else Failure(AttributeError)
  }

  /** A hexadecimal digit, lower case, as `repr` writes it. */
  function HexDigit(d: nat): (c: char)
    requires d < 16
  {
    if d < 10 then PyString.DigitChar(d) else ('a' as int + (d - 10)) as char
  }

  /** One character inside a `repr` quoted with `q`: backslash, the quote, the three
      common control characters and the other ASCII control characters are escaped. */
  function EscapeChar(c: char, q: char): string {
    if c == '\\' then "\\\\"
    else if c == q then ['\\', q]
    else if c == '\n' then "\\n"
    else if c == '\r' then "\\r"
    else if c == '\t' then "\\t"
    else if c as int < 32 || c as int == 127 then ['\\', 'x', HexDigit(c as int / 16), HexDigit(c as int % 16)]
    else [c]
  }

  function Escaped(s: string, q: char): string {
    if s == [] then [] else EscapeChar(s[0], q) + Escaped(s[1..], q)
  }

  /** `repr(s)` for a string: single quotes, unless the text holds a single quote and
      no double quote. */
  function ReprString(s: string): (r: string)
    ensures |r| >= 2
  {
    var q := if '\'' in s && '"' !in s then '"' else '\'';
    [q] + Escaped(s, q) + [q]
  }

  /** `sep.join(pieces)` for a separator of any length; empty for no pieces. */
  function JoinWith(pieces: seq<string>, sep: string): string {
    if |pieces| == 0 then ""
    else if |pieces| == 1 then pieces[0]
    else pieces[0] + sep + JoinWith(pieces[1..], sep)
  }

  /** The decimal digits of a fraction `0 <= f < 1`, when they end within `places`. */
  function FractionDigits(f: real, places: nat): Option<string>
    requires 0.0 <= f < 1.0
    decreases places
  {
    if f == 0.0 then Some("")
    else if places == 0 then None
    else
      var t := f * 10.0;
      var d := t.Floor;
      assert 0 <= d < 10;
      match FractionDigits(t - d as real, places - 1)
      case None => None
      case Some(ds) => Some([PyString.DigitChar(d)] + ds)
  }

  /** `repr(x)` of a float in fixed notation, `1e-4 <= |x| < 1e16`, with at most fifteen
      decimal places: the integer part, a point, and the fraction's digits (at least one).
      Reals outside that reach are shown as the fixed text "<value>". */
  function FloatText(x: real): string {
    if x == 0.0 then "0.0"
    else
      var a := if x < 0.0 then -x else x;
      if a < 0.0001 || a >= 10000000000000000.0 then "<value>"
      else
        match FractionDigits(a - a.Floor as real, 15)
        case None => "<value>"
        case Some(ds) =>
          (if x < 0.0 then "-" else "") + PyString.NatToString(a.Floor) + "." + (if ds == "" then "0" else ds)
  }

  /** `str(v)`, which f-strings use too: strings as they are, containers through the
      `repr` of their elements. An object's text (its class and address) is not
      modelled and is shown as the fixed text "<value>". */
  function Display(v: Value): string
    decreases v, 0
  {
    match v
    case Null => "None"
    case Bool(b) => if b then "True" else "False"
    case Int(i) => PyString.IntToString(i)
    case Float(x) => FloatText(x)
    case Str(s) => s
    case List(xs) => "[" + JoinWith(seq(|xs|, i requires 0 <= i < |xs| => Repr(xs[i])), ", ") + "]"
    case Tuple(xs) =>
      if |xs| == 1 then "(" + Repr(xs[0]) + ",)"
      else "(" + JoinWith(seq(|xs|, i requires 0 <= i < |xs| => Repr(xs[i])), ", ") + ")"
    case Dict(es) =>
      "{" + JoinWith(seq(|es|, i requires 0 <= i < |es| => ReprString(es[i].0) + ": " + Repr(es[i].1)), ", ") + "}"
    case Obj(_) => "<value>"
  }

  /** `repr(v)`: quoted for a string, the same as `str` for everything else modelled. */
  function Repr(v: Value): string
    decreases v, 1
  {
    if v.Str? then ReprString(v.s) else Display(v)
  }

  /** `str()` of empty containers: `str({}) == "{}"`, `str([]) == "[]"`, `str(()) == "()"`. */
  lemma DisplayEmpty()
    ensures Display(Dict([])) == "{}" && Display(List([])) == "[]" && Display(Tuple([])) == "()"
  {
  }

  /** `str(['a', 1]) == "['a', 1]"` and `str((None,)) == "(None,)"`. */
  lemma DisplayList()
    ensures Display(List([Str("a"), Int(1)])) == "['a', 1]"
    ensures Display(Tuple([Null])) == "(None,)"
  {
    assert PyString.DigitChar(1) == '1';
    assert Escaped("a", '\'') == "a" by { assert Escaped("", '\'') == ""; }
    var xs := [Str("a"), Int(1)];
    assert Repr(xs[0]) == "'a'" && Repr(xs[1]) == "1";
    assert seq(|xs|, i requires 0 <= i < |xs| => Repr(xs[i])) == ["'a'", "1"];
    assert JoinWith(["'a'", "1"], ", ") == "'a', 1" by { assert JoinWith(["1"], ", ") == "1"; }
  }

  /** A string holding a single quote is quoted with double quotes inside a dict. */
  lemma DisplayDict()
    ensures Display(Dict([("k", Str("it's"))])) == "{'k': \"it's\"}"
  {
    assert Escaped("it's", '"') == "it's" by {
      assert Escaped("s", '"') == "s" by { assert Escaped("", '"') == ""; }
      assert Escaped("'s", '"') == "'s";
      assert Escaped("t's", '"') == "t's";
    }
    assert Escaped("k", '\'') == "k" by { assert Escaped("", '\'') == ""; }
    var es := [("k", Str("it's"))];
    assert ReprString(es[0].0) + ": " + Repr(es[0].1) == "'k': \"it's\"";
    assert seq(|es|, i requires 0 <= i < |es| => ReprString(es[i].0) + ": " + Repr(es[i].1)) == ["'k': \"it's\""];
  }

  /** The fraction one half has the single digit 5 whenever a place is left. */
  lemma FractionFive(places: nat)
    requires places >= 1
    ensures FractionDigits(0.5, places) == Some("5")
  {
    assert FractionDigits(0.0, places - 1) == Some("");
    var t := 0.5 * 10.0;
    var d := t.Floor;
    assert d == 5;
    assert t - d as real == 0.0;
    assert [PyString.DigitChar(d)] + "" == "5";
  }

  /** `str(1.5) == "1.5"`, `str(2.0) == "2.0"`, `str(-0.25) == "-0.25"`. */
  lemma DisplayFloat()
    ensures Display(Float(1.5)) == "1.5" && Display(Float(2.0)) == "2.0" && Display(Float(-0.25)) == "-0.25"
  {
    assert (1.5).Floor == 1 && (5.0).Floor == 5 && (2.0).Floor == 2;
    assert (0.25).Floor == 0 && (2.5).Floor == 2;
    assert PyString.DigitChar(1) == '1' && PyString.DigitChar(2) == '2' && PyString.DigitChar(5) == '5';
    assert PyString.DigitChar(0) == '0';
    FractionFive(15);
    assert FractionDigits(0.0, 15) == Some("");
    assert FractionDigits(0.25, 15) == Some("25") by {
      FractionFive(14);
      var t := 0.25 * 10.0;
      var d := t.Floor;
      assert t == 2.5 && d == 2 && t - d as real == 0.5;
      assert [PyString.DigitChar(d)] + "5" == "25";
    }
  }

  /** A list of strings as a Python list value. */
  function StrList(xs: seq<string>): (r: Value)
    ensures r.List? && |r.items| == |xs| && forall i :: 0 <= i < |xs| ==> r.items[i] == Str(xs[i])
  {
    List(seq(|xs|, i requires 0 <= i < |xs| => Str(xs[i])))
  }
}
