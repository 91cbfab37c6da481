/**
 * `AdversarialFuzz.run`: the error findings for a missing contract file or a
 * failed deployment, and the plan of symbolic transactions built from the
 * deployed contract's ABI: one transaction per state-changing function, one
 * constrained symbolic argument per input, in order. What Manticore then
 * explores is not part of this model.
 */
module AdversarialFuzz {
  import opened Wrappers
  import opened PyString
  import opened PyValue
  import opened StaticBase
  import opened Seqs

  // ---------------------------------------------------------------------------
  // Symbolic arguments
  // ---------------------------------------------------------------------------

  /** `2 ** n`. */
  function Pow2(n: nat): (p: nat)
    ensures p >= 1
  {
    if n == 0 then 1 else 2 * Pow2(n - 1)
  }

  /** `2 ** e` for any integer exponent, as Python computes it (a float below zero). */
  function Pow2Real(e: int): real {
    if e >= 0 then Pow2(e) as real else 1.0 / (Pow2(-e) as real)
  }

  /** The `Operators` constraints the adapter places on a symbolic value. */
  datatype Constraint = Ult(bound: real) | Ule(bound: real) | Sge(bound: real) | Sle(bound: real) | ZeroOrOne

  /** A value satisfies a constraint; a value is read as the integer its parameter's type
      denotes, non-negative under the unsigned comparisons. */
  predicate Holds(c: Constraint, v: int) {
    match c
    case Ult(b) => 0 <= v && (v as real) < b
    case Ule(b) => 0 <= v && (v as real) <= b
    case Sge(b) => (v as real) >= b
    case Sle(b) => (v as real) <= b
    case ZeroOrOne => v == 0 || v == 1
  }

  /** A symbolic value: its name and its constraints. */
  datatype SymbolicArg = SymbolicArg(name: string, constraints: seq<Constraint>)

  /** The values a symbolic argument may take. */
  predicate InDomain(arg: SymbolicArg, v: int) {
    AllHold(arg.constraints, v)
  }

  predicate AllHold(cs: seq<Constraint>, v: int) {
    forall i :: 0 <= i < |cs| ==> Holds(cs[i], v)
  }

  /** The ASCII digits of a type name, in order. */
  function DigitsOf(t: string): (d: string)
    ensures forall i :: 0 <= i < |d| ==> IsAsciiDigit(d[i])
  {
    if t == [] then []
    else DigitsOf(t[..|t| - 1]) + (if IsAsciiDigit(t[|t| - 1]) then [t[|t| - 1]] else [])
  }

  /** `int("".join(ch for ch in t if ch.isdigit()) or "256")`. */
  function Bits(t: string): nat {
    var d := DigitsOf(t);
    if d == [] then 256 else DigitsValue(d)
  }

  /** The symbolic value's name, `f"{func_name}_{inp['name']}_{kind}"`. */
  function ArgName(funcName: string, name: Value, kind: string): string {
    funcName + "_" + Display(name) + "_" + kind
  }

  /** The kind suffix of the symbolic value's name. */
  function TypeKind(t: string): string {
    if t == "address" then "address"
    else if StartsWith(t, "uint") || StartsWith(t, "int") then "int"
    else if t == "bool" then "bool"
    else "any"
  }

  /** The constraints for a value of type `t`: below 2^160 for an address; at most
      `2**bits - 1` for `uintN`; between `-(2**(bits - 1))` and `2**(bits - 1) - 1` for
      `intN`; 0 or 1 for bool; at most `2**256 - 1` for anything else. */
  function TypeConstraints(t: string): seq<Constraint> {
    if t == "address" then [Ult(Pow2Real(160))]
    else if StartsWith(t, "uint") || StartsWith(t, "int") then
      var bits := Bits(t);
      if StartsWith(t, "uint") then [Ule(Pow2Real(bits) - 1.0)]
      else [Sge(-Pow2Real(bits - 1)), Sle(Pow2Real(bits - 1) - 1.0)]
    else if t == "bool" then [ZeroOrOne]
    else [Ule(Pow2Real(256) - 1.0)]
  }

  /** One ABI input: its type is read first, then its name, and the type picks the kind
      and the constraints. A missing key raises `KeyError`; a type that is not a string and
      not "address" has no `startswith` and raises `AttributeError`. */
  function ArgOf(funcName: string, inp: Entries): (r: Result<SymbolicArg, Exception>)
    ensures r.Failure? <==> (|| Lookup(inp, "type").None?
                             || !Lookup(inp, "type").value.Str?
                             || Lookup(inp, "name").None?)
    ensures Lookup(inp, "type").None? ==> r == Failure(KeyError)
    ensures Lookup(inp, "type").Some? && !Lookup(inp, "type").value.Str? ==> r == Failure(AttributeError)
    ensures Lookup(inp, "type").Some? && Lookup(inp, "type").value.Str? && Lookup(inp, "name").None?
            ==> r == Failure(KeyError)
  {
    match Lookup(inp, "type")
    case None => Failure(KeyError)
    case Some(tv) =>
      if !tv.Str? then Failure(AttributeError)
      else
        match Lookup(inp, "name")
        case None => Failure(KeyError)
        case Some(n) =>
          var t := tv.s;
          Success(SymbolicArg(ArgName(funcName, n, TypeKind(t)), TypeConstraints(t)))
  }

  /** An element of `inputs`: subscripting anything but a dict raises `TypeError`. */
  function InputArg(funcName: string, inp: Value): (r: Result<SymbolicArg, Exception>)
    ensures !inp.Dict? ==> r == Failure(TypeError)
  {
    if inp.Dict? then ArgOf(funcName, inp.entries) else Failure(TypeError)
  }

  /** `InputArg` for one function, as a value the loop can apply. */
  function InputStep(funcName: string): Value -> Result<SymbolicArg, Exception> {
    inp => InputArg(funcName, inp)
  }

  /** The arguments of one function, inputs taken in order; the first input that raises
      ends the run. */
  function ArgsOf(funcName: string, inputs: seq<Value>): Result<seq<SymbolicArg>, Exception> {
    MapResults(InputStep(funcName), inputs)
  }

  // ---------------------------------------------------------------------------
  // Transactions
  // ---------------------------------------------------------------------------

  /** A planned `m.transaction` call: the function's name and its symbolic arguments. */
  datatype Transaction = Transaction(functionName: string, args: seq<SymbolicArg>)

  /** The ABI filter: only entries of type "function" that are not `view`. */
  predicate Fuzzed(func: Entries) {
    Get(func, "type", Null) == Str("function") && Get(func, "stateMutability", Null) != Str("view")
  }

  /** One ABI entry: skipped (`None`), or a transaction; a function without a name raises
      `KeyError`, and inputs that do not iterate raise `TypeError`. */
  function PlanFunc(func: Entries): Result<Option<Transaction>, Exception> {
    if !Fuzzed(func) then Success(None)
    else
      match Lookup(func, "name")
      case None => Failure(KeyError)
      case Some(n) =>
        match Iterate(Get(func, "inputs", List([])))
        case Failure(_) => Failure(TypeError)
        case Success(inputs) =>
          match ArgsOf(Display(n), inputs)
          case Failure(e) => Failure(e)
          case Success(args) => Success(Some(Transaction(Display(n), args)))
  }

  /** The transactions for a whole ABI, in order; the first entry that raises ends the
      run. */
  function Plan(abi: seq<Entries>): Result<seq<Transaction>, Exception> {
    FilterResults(PlanFunc, abi)
  }

  /** The inner loop: one symbolic argument per input, appended in order. */
  method BuildArgs(funcName: string, inputs: seq<Value>) returns (r: Result<seq<SymbolicArg>, Exception>)
    ensures r == ArgsOf(funcName, inputs)
  {
    var args: seq<SymbolicArg> := [];
    for i := 0 to |inputs|
      invariant ArgsOf(funcName, inputs[..i]) == Success(args)
    {
      MapResultsStep(InputStep(funcName), inputs, i, args);
      var a := InputArg(funcName, inputs[i]);
      assert InputStep(funcName)(inputs[i]) == a;
      if a.Failure? {
        return Failure(a.error);
      }
      args := args + [a.value];
    }
    assert inputs[..|inputs|] == inputs;
    r := Success(args);
  }

  /** The body of the outer loop for one ABI entry. */
  method PlanFunction(func: Entries) returns (r: Result<Option<Transaction>, Exception>)
    ensures r == PlanFunc(func)
  {
    if Get(func, "type", Null) != Str("function") {
      return Success(None);
    }
    if Get(func, "stateMutability", Null) == Str("view") {
      return Success(None);
    }
    var name := Lookup(func, "name");
    if name.None? {
      return Failure(KeyError);
    }
    var inputs := Iterate(Get(func, "inputs", List([])));
    if inputs.Failure? {
      return Failure(TypeError);
    }
    var args := BuildArgs(Display(name.value), inputs.value);
    if args.Failure? {
      return Failure(args.error);
    }
    r := Success(Some(Transaction(Display(name.value), args.value)));
  }

  /** The outer loop over the ABI. */
  method PlanTransactions(abi: seq<Entries>) returns (r: Result<seq<Transaction>, Exception>)
    ensures r == Plan(abi)
  {
    var txs: seq<Transaction> := [];
    for i := 0 to |abi|
      invariant Plan(abi[..i]) == Success(txs)
    {
      FilterResultsStep(PlanFunc, abi, i, txs);
      var planned := PlanFunction(abi[i]);
      if planned.Failure? {
        return Failure(planned.error);
      }
      if planned.value.Some? {
        txs := txs + [planned.value.value];
      }
    }
    assert abi[..|abi|] == abi;
    r := Success(txs);
  }

  // ---------------------------------------------------------------------------
  // The run
  // ---------------------------------------------------------------------------

  /** What deploying the contract gave: its ABI, or the text of the exception raised. */
  datatype Deployment = Deployed(abi: seq<Entries>) | DeployFailed(message: string)

  /** `run`'s result: a list of findings it returns at once, or the transactions it
      hands to Manticore. */
  datatype FuzzOutcome = Reported(findings: seq<Value>) | Explored(transactions: seq<Transaction>)

  /** The error finding the adapter reports, before standardisation. */
  function ErrorFinding(description: string): Entries {
    FindingDict(Str("AdversarialFuzz Error"), Str(description), Str("Low"), Str(""),
                List([]), Str("Low"), Str("AdversarialFuzz"))
  }

  function MissingFileMessage(contractPath: string): string {
    "Contract file " + contractPath + " does not exist."
  }

  function DeployFailedMessage(message: string): string {
    "Contract compilation/deploy failed: " + message
  }

  /** `run`, with `ManticoreEVM` in scope: the file's existence and the deployment are
      inputs. */
  function Run(fileExists: bool, contractPath: string, deployment: Deployment): Result<FuzzOutcome, Exception> {
    if !fileExists then
      Success(Reported([Dict(StandardizeFinding(ErrorFinding(MissingFileMessage(contractPath))))]))
    else
      match deployment
      case DeployFailed(msg) =>
        Success(Reported([Dict(StandardizeFinding(ErrorFinding(DeployFailedMessage(msg))))]))
      case Deployed(abi) =>
        match Plan(abi)
        case Failure(e) => Failure(e)
        case Success(txs) => Success(Explored(txs))
  }

  /** The imperative `run`, up to the hand-over to Manticore. */
  method RunFuzz(fileExists: bool, contractPath: string, deployment: Deployment)
    returns (r: Result<FuzzOutcome, Exception>)
    ensures r == Run(fileExists, contractPath, deployment)
  {
    if !fileExists {
      return Success(Reported([Dict(StandardizeFinding(ErrorFinding(MissingFileMessage(contractPath))))]));
    }
    if deployment.DeployFailed? {
      return Success(Reported([Dict(StandardizeFinding(ErrorFinding(DeployFailedMessage(deployment.message))))]));
    }
    var txs := PlanTransactions(deployment.abi);
    if txs.Failure? {
      return Failure(txs.error);
    }
    r := Success(Explored(txs.value));
  }

  /** `run` as written: `ManticoreEVM` is imported only inside the module-level `run`
      function, so for an existing file the name is unbound and the call raises
      `NameError`; and `standardize_finding` returns `None`. */
  function RunAsWritten(fileExists: bool, contractPath: string): Result<FuzzOutcome, Exception> {
    if !fileExists then Success(Reported([StandardizeFindingAsWritten(ErrorFinding(MissingFileMessage(contractPath)))]))
    else Failure(NameError)
  }

  // ---------------------------------------------------------------------------
  // Properties
  // ---------------------------------------------------------------------------

  /** As written, no contract is ever fuzzed: an existing file raises `NameError`, and a
      missing one yields a single `None`. */
  lemma AsWrittenNeverFuzzes(fileExists: bool, contractPath: string)
    ensures fileExists ==> RunAsWritten(fileExists, contractPath) == Failure(NameError)
    ensures !fileExists ==> RunAsWritten(fileExists, contractPath) == Success(Reported([Null]))
  {
  }

  /** The run raises only when the ABI does, and it explores only a deployed contract. */
  lemma RunOutcomes(fileExists: bool, contractPath: string, deployment: Deployment)
    ensures Run(fileExists, contractPath, deployment).Failure?
            <==> fileExists && deployment.Deployed? && Plan(deployment.abi).Failure?
    ensures (Run(fileExists, contractPath, deployment).Success?
             && Run(fileExists, contractPath, deployment).value.Explored?)
            <==> fileExists && deployment.Deployed? && Plan(deployment.abi).Success?
    ensures !fileExists || deployment.DeployFailed?
            ==> Run(fileExists, contractPath, deployment).Success?
                && |Run(fileExists, contractPath, deployment).value.findings| == 1
  {
  }

  /** The standardised error finding: the fixed title, severity, confidence and tool, no
      SWC id and no line numbers, and the given description. */
  lemma ErrorFindingFields(description: string)
    ensures var f := StandardizeFinding(ErrorFinding(description));
      && Lookup(f, "title") == Some(Str("AdversarialFuzz Error"))
      && Lookup(f, "description") == Some(Str(description))
      && Lookup(f, "severity") == Some(Str("Low"))
      && Lookup(f, "confidence") == Some(Str("Low"))
      && Lookup(f, "tool") == Some(Str("AdversarialFuzz"))
      && Lookup(f, "swc_id") == Some(Str(""))
      && Lookup(f, "line_numbers") == Some(List([]))
  {
    var raw := ErrorFinding(description);
    StandardizeFindingSpec(raw);
    FindingDictFields(Str("AdversarialFuzz Error"), Str(description), Str("Low"), Str(""),
                      List([]), Str("Low"), Str("AdversarialFuzz"));
    assert Get(raw, "swc_id", Str("")) == Str("");
    assert Get(raw, "line_numbers", List([])) == List([]);
  }

  /** An entry is skipped exactly when it is not a function or is a `view` function. */
  lemma SkippedIffFiltered(func: Entries)
    ensures PlanFunc(func) == Success(None) <==> !Fuzzed(func)
  {
  }

  /** The arguments succeed exactly when every input does, and then there is one argument
      per input, in order. */
  lemma ArgsOfSpec(funcName: string, inputs: seq<Value>)
    ensures ArgsOf(funcName, inputs).Success?
            <==> forall i :: 0 <= i < |inputs| ==> InputArg(funcName, inputs[i]).Success?
    ensures ArgsOf(funcName, inputs).Success? ==> OnePerInput(funcName, inputs, ArgsOf(funcName, inputs).value)
  {
    MapResultsSpec(InputStep(funcName), inputs);
  }

  /** One argument per input, in order: the `i`-th is the `i`-th input's. */
  predicate OnePerInput(funcName: string, inputs: seq<Value>, args: seq<SymbolicArg>) {
    && |args| == |inputs|
    && forall i :: 0 <= i < |inputs| ==> InputArg(funcName, inputs[i]) == Success(args[i])
  }

  /** A fuzzed function that plans without raising is called with its own name and one
      argument per input. */
  lemma PlannedTransaction(func: Entries)
    requires Fuzzed(func) && PlanFunc(func).Success?
    ensures Lookup(func, "name").Some?
    ensures Iterate(Get(func, "inputs", List([]))).Success?
    ensures PlanFunc(func).value.Some?
    ensures PlanFunc(func).value.value.functionName == Display(Lookup(func, "name").value)
    ensures OnePerInput(PlanFunc(func).value.value.functionName, Iterate(Get(func, "inputs", List([]))).value,
                        PlanFunc(func).value.value.args)
  {
    var name := Lookup(func, "name");
    assert name.Some?;
    var n := name.value;
    var inputs := Iterate(Get(func, "inputs", List([])));
    assert inputs.Success?;
    var args := ArgsOf(Display(n), inputs.value);
    assert args.Success?;
    ArgsOfSpec(Display(n), inputs.value);
    assert PlanFunc(func).value.value == Transaction(Display(n), args.value);
  }

  /** The whole ABI plans without raising exactly when every entry does, and never yields
      more transactions than entries. */
  lemma PlanSpec(abi: seq<Entries>)
    ensures Plan(abi).Success? <==> forall i :: 0 <= i < |abi| ==> PlanFunc(abi[i]).Success?
    ensures Plan(abi).Success? ==> |Plan(abi).value| <= |abi|
  {
    FilterResultsSpec(PlanFunc, abi);
  }

  /** An ABI with no fuzzed entry plans no transaction. */
  lemma NothingFuzzedNoTransactions(abi: seq<Entries>)
    requires forall i :: 0 <= i < |abi| ==> !Fuzzed(abi[i])
    ensures Plan(abi) == Success([])
  {
    FilterResultsSpec(PlanFunc, abi);
  }

  /** The values an input's type admits, stated directly: 160-bit addresses, `uintN` in
      [0, 2^N - 1], `intN` in [-2^(N-1), 2^(N-1) - 1] (nothing for N = 0), booleans 0 and 1,
      and any other type in [0, 2^256 - 1]. */
  predicate TypeAdmits(t: string, v: int) {
    if t == "address" then 0 <= v < Pow2(160)
    else if StartsWith(t, "uint") then 0 <= v <= Pow2(Bits(t)) - 1
    else if StartsWith(t, "int") then
      Bits(t) >= 1 && 0 - Pow2(Bits(t) - 1) <= v <= Pow2(Bits(t) - 1) - 1
    else if t == "bool" then v == 0 || v == 1
    else 0 <= v <= Pow2(256) - 1
  }

  /** `ULE(val, 2**bits - 1)`. */
  lemma UnsignedBound(bits: nat, v: int)
    ensures Holds(Ule(Pow2Real(bits) - 1.0), v) <==> 0 <= v <= Pow2(bits) - 1
  {
    assert Pow2Real(bits) == Pow2(bits) as real;
  }

  /** `SGE(val, -(2**(bits - 1)))` and `SLE(val, 2**(bits - 1) - 1)`; at width zero the
      bounds are -0.5 and -0.5, and no integer lies between them. */
  lemma SignedBounds(bits: nat, v: int)
    ensures Holds(Sge(-Pow2Real(bits - 1)), v) && Holds(Sle(Pow2Real(bits - 1) - 1.0), v)
            <==> bits >= 1 && 0 - Pow2(bits - 1) <= v <= Pow2(bits - 1) - 1
  {
    if bits == 0 {
      assert Pow2Real(-1) == 0.5;
    } else {
      assert Pow2Real(bits - 1) == Pow2(bits - 1) as real;
    }
  }

  /** The constraints of a type admit exactly the values the type admits. */
  lemma ConstraintsAdmit(t: string, v: int)
    ensures AllHold(TypeConstraints(t), v) <==> TypeAdmits(t, v)
  {
    if t == "address" {
      assert AllHold(TypeConstraints(t), v) ==> Holds(TypeConstraints(t)[0], v);
      assert Pow2Real(160) == Pow2(160) as real;
    } else if StartsWith(t, "uint") {
      assert AllHold(TypeConstraints(t), v) ==> Holds(TypeConstraints(t)[0], v);
      UnsignedBound(Bits(t), v);
    } else if StartsWith(t, "int") {
      assert AllHold(TypeConstraints(t), v)
             ==> Holds(TypeConstraints(t)[0], v) && Holds(TypeConstraints(t)[1], v);
      SignedBounds(Bits(t), v);
    } else if t == "bool" {
      assert AllHold(TypeConstraints(t), v) ==> Holds(TypeConstraints(t)[0], v);
    } else {
      assert AllHold(TypeConstraints(t), v) ==> Holds(TypeConstraints(t)[0], v);
      UnsignedBound(256, v);
    }
  }

  /** The constraints put on an input's symbolic value admit exactly the values its type
      admits, and the value is named after the function, the input and the kind. */
  lemma ArgDomain(funcName: string, inp: Entries, v: int)
    requires Lookup(inp, "type").Some? && Lookup(inp, "type").value.Str?
    requires Lookup(inp, "name").Some?
    ensures ArgOf(funcName, inp).Success?
    ensures var t := Lookup(inp, "type").value.s;
      && ArgOf(funcName, inp).value.name == ArgName(funcName, Lookup(inp, "name").value, TypeKind(t))
      && (InDomain(ArgOf(funcName, inp).value, v) <==> TypeAdmits(t, v))
  {
    ConstraintsAdmit(Lookup(inp, "type").value.s, v);
  }

  lemma {:induction false} DigitsOfAppend(a: string, b: string)
    ensures DigitsOf(a + b) == DigitsOf(a) + DigitsOf(b)
    decreases |b|
  {
    if b == [] {
      assert a + b == a;
    } else {
      var init := b[..|b| - 1];
      assert (a + b)[..|a + b| - 1] == a + init;
      DigitsOfAppend(a, init);
    }
  }

  lemma {:induction false} DigitsOfNone(t: string)
    requires forall i :: 0 <= i < |t| ==> !IsAsciiDigit(t[i])
    ensures DigitsOf(t) == []
    decreases |t|
  {
    if t != [] {
      DigitsOfNone(t[..|t| - 1]);
    }
  }

  lemma {:induction false} DigitsOfAll(t: string)
    requires forall i :: 0 <= i < |t| ==> IsAsciiDigit(t[i])
    ensures DigitsOf(t) == t
    decreases |t|
  {
    if t != [] {
      DigitsOfAll(t[..|t| - 1]);
      assert t[..|t| - 1] + [t[|t| - 1]] == t;
    }
  }

  /** A type name made of a digit-free part and then digits is as wide as those digits say. */
  lemma BitsOfDigitSuffix(p: string, d: string)
    requires forall i :: 0 <= i < |p| ==> !IsAsciiDigit(p[i])
    requires d != [] && forall i :: 0 <= i < |d| ==> IsAsciiDigit(d[i])
    ensures Bits(p + d) == DigitsValue(d)
  {
    DigitsOfNone(p);
    DigitsOfAll(d);
    DigitsOfAppend(p, d);
    assert [] + d == d;
    assert DigitsOf(p + d) == d;
  }

  /** Appending a digit-free part adds no digit; appending digits adds them all. */
  lemma DigitsOfNoneAppended(a: string, b: string)
    requires forall i :: 0 <= i < |b| ==> !IsAsciiDigit(b[i])
    ensures DigitsOf(a + b) == DigitsOf(a)
  {
    DigitsOfAppend(a, b);
    DigitsOfNone(b);
    assert DigitsOf(a) + [] == DigitsOf(a);
  }

  lemma DigitsOfAllAppended(a: string, b: string)
    requires forall i :: 0 <= i < |b| ==> IsAsciiDigit(b[i])
    ensures DigitsOf(a + b) == DigitsOf(a) + b
  {
    DigitsOfAppend(a, b);
    DigitsOfAll(b);
  }

  /** Two runs of digits between digit-free parts: the digits are read together. */
  lemma DigitsOfTwoRuns(p: string, d1: string, m: string, d2: string, q: string)
    requires forall i :: 0 <= i < |p| ==> !IsAsciiDigit(p[i])
    requires forall i :: 0 <= i < |m| ==> !IsAsciiDigit(m[i])
    requires forall i :: 0 <= i < |q| ==> !IsAsciiDigit(q[i])
    requires forall i :: 0 <= i < |d1| ==> IsAsciiDigit(d1[i])
    requires forall i :: 0 <= i < |d2| ==> IsAsciiDigit(d2[i])
    ensures DigitsOf(p + d1 + m + d2 + q) == d1 + d2
  {
    var s1 := p + d1;
    var s2 := s1 + m;
    var s3 := s2 + d2;
    DigitsOfNone(p);
    DigitsOfAllAppended(p, d1);
    assert DigitsOf(s1) == d1;
    DigitsOfNoneAppended(s1, m);
    DigitsOfAllAppended(s2, d2);
    assert DigitsOf(s3) == d1 + d2;
    DigitsOfNoneAppended(s3, q);
  }

  /** The width comes from every digit of the type, so an array type's length counts too. */
  lemma BitsOfArrayType()
    ensures Bits("uint8[2]") == 82
  {
    assert "uint" + "8" + "[" + "2" + "]" == "uint8[2]";
    DigitsOfTwoRuns("uint", "8", "[", "2", "]");
    assert "8" + "2" == "82";
    assert DigitsValue("82") == 82;
  }

  lemma BitsOfSizedType()
    ensures Bits("int16") == 16
  {
    assert "int" + "16" == "int16";
    BitsOfDigitSuffix("int", "16");
    assert DigitsValue("16") == 16;
  }

  /** A type without digits is 256 bits wide. */
  lemma BitsOfUnsizedType()
    ensures Bits("uint") == 256
  {
    DigitsOfNone("uint");
  }

  /** `address[]` is not `address`: it falls through to the 256-bit fallback. */
  lemma AddressArrayIsAny()
    ensures TypeKind("address[]") == "any"
  {
    assert "address[]" != "address";
    assert !StartsWith("address[]", "uint") by { assert "address[]"[0] != "uint"[0]; }
    assert !StartsWith("address[]", "int") by { assert "address[]"[0] != "int"[0]; }
    assert "address[]" != "bool";
  }
}
