/**
 * `ContractFileHandler.is_supported_contract`: a path names a contract when the
 * lower-cased suffix of its final component is ".sol", with suffixes read as
 * POSIX `pathlib` reads them.
 */
module FileHandler {
  import opened PyString

  /** The last component that is neither empty nor ".", which `pathlib` drops. */
  function LastComponent(pieces: seq<string>): (r: string)
    ensures r != "" && r != "." ==> r in pieces
  {
    if pieces == [] then ""
    else
      var last := pieces[|pieces| - 1];
      if last == "" || last == "." then LastComponent(pieces[..|pieces| - 1]) else last
  }

  /** `Path(path).name`. */
  function Name(path: string): string {
    LastComponent(Split(path, '/'))
  }

  /** `name.rfind(".")`: the index of the last dot, or -1. */
  function LastDot(s: string): (i: int)
    ensures -1 <= i < |s|
    ensures i >= 0 ==> s[i] == '.'
    ensures forall k :: i < k < |s| ==> s[k] != '.'
  {
    if s == [] then -1
    else if s[|s| - 1] == '.' then |s| - 1
    else LastDot(s[..|s| - 1])
  }

  /** `PurePath.suffix`: from the last dot on, unless that dot starts or ends the name. */
  function Suffix(name: string): (r: string)
    ensures r == [] || (2 <= |r| < |name| && r[0] == '.' && r == name[|name| - |r|..])
  {
    var i := LastDot(name);
    if 0 < i < |name| - 1 then name[i..] else ""
  }

  /** The set `SUPPORTED_EXTENSIONS`. */
  const SupportedExtensions: set<string> := {".sol"}

  /** `is_supported_contract`. */
  predicate IsSupportedContract(path: string) {
    Lower(Suffix(Name(path))) in SupportedExtensions
  }

  /** The same condition read off the name directly: at least one character, then a dot,
      then the three letters s, o, l in either case. */
  predicate SolName(name: string) {
    && |name| >= 5
    && name[|name| - 4] == '.'
    && LowerChar(name[|name| - 3]) == 's'
    && LowerChar(name[|name| - 2]) == 'o'
    && LowerChar(name[|name| - 1]) == 'l'
  }

  /** A path is supported exactly when its final component ends in ".sol", in any letter
      case, after at least one other character. */
  lemma SupportedIff(path: string)
    ensures IsSupportedContract(path) <==> SolName(Name(path))
  {
    var n := Name(path);
    if Lower(Suffix(n)) == ".sol" {
      SolSuffixGivesSolName(n);
    }
    if SolName(n) {
      SolNameGivesSolSuffix(n);
    }
  }

  lemma SolSuffixGivesSolName(n: string)
    requires Lower(Suffix(n)) == ".sol"
    ensures SolName(n)
  {
    var sfx := Suffix(n);
    assert |sfx| == 4;
    var i := LastDot(n);
    assert sfx == n[i..] && i == |n| - 4;
    assert Lower(sfx)[1] == LowerChar(n[|n| - 3]);
    assert Lower(sfx)[2] == LowerChar(n[|n| - 2]);
    assert Lower(sfx)[3] == LowerChar(n[|n| - 1]);
  }

  lemma SolNameGivesSolSuffix(n: string)
    requires SolName(n)
    ensures Lower(Suffix(n)) == ".sol"
  {
    assert LowerChar('.') == '.';
    var i := LastDot(n);
    assert i == |n| - 4;
    assert Suffix(n) == n[|n| - 4..];
  }

  /** A path without slashes is its own name. */
  lemma NameOfPlainFile(path: string)
    requires '/' !in path && path != "" && path != "."
    ensures Name(path) == path
  {
    SplitWithoutSeparator(path, '/');
  }

  /** Only the final suffix counts, and its letter case does not. */
  lemma DoubleSuffixAccepted()
    ensures IsSupportedContract("a.tar.sol")
  {
    NameOfPlainFile("a.tar.sol");
    SupportedIff("a.tar.sol");
  }

  lemma BackupRejected()
    ensures !IsSupportedContract("a.sol.bak")
  {
    NameOfPlainFile("a.sol.bak");
    SupportedIff("a.sol.bak");
  }

  lemma UpperCaseAccepted()
    ensures IsSupportedContract("X.SOL")
  {
    NameOfPlainFile("X.SOL");
    SupportedIff("X.SOL");
  }

  /** A name with no suffix is rejected, and so is a dot-file: its one dot starts it. */
  lemma NoSuffixRejected()
    ensures !IsSupportedContract("contract")
  {
    NameOfPlainFile("contract");
    SupportedIff("contract");
  }

  lemma DotFileRejected()
    ensures !IsSupportedContract(".sol")
  {
    NameOfPlainFile(".sol");
    SupportedIff(".sol");
  }

  /** The directories above the file do not matter. */
  lemma DirectoryIgnored(dir: string, file: string)
    requires '/' !in file && file != "" && file != "."
    ensures IsSupportedContract(dir + "/" + file) <==> IsSupportedContract(file)
  {
    SplitWithoutSeparator(file, '/');
    SplitConcat(dir, file, '/');
    assert dir + "/" + file == dir + ['/'] + file;
    var pieces := Split(dir, '/') + [file];
    assert pieces[..|pieces| - 1] == Split(dir, '/');
  }
}
