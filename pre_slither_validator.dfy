/**
 * The first fix `_apply_all_fixes` applies before Slither runs: a contract
 * without an SPDX licence comment gets an MIT one prepended. The comment is
 * found with `re.search(r'//\s*SPDX-License-Identifier:', content)`, where `\s`
 * is any character `str.isspace` accepts.
 */
module PreSlitherValidator {
  import opened PyString

  const Tag: string := "SPDX-License-Identifier:"

  /** The line the fix prepends. */
  const Header: string := "// SPDX-License-Identifier: MIT\n"

  /** The message the fix records. */
  const SpdxFixMessage: string := "Added SPDX license identifier"

  /** `\s*SPDX-License-Identifier:` matches at `j`: whitespace, as much as needed, then the tag. */
  predicate TagAfterSpaces(s: string, j: nat)
    requires j <= |s|
    decreases |s| - j
  {
    || StartsWith(s[j..], Tag)
    || (j < |s| && IsSpace(s[j]) && TagAfterSpaces(s, j + 1))
  }

  /** The whole pattern matches at `i`. */
  predicate MatchAt(s: string, i: nat)
    requires i <= |s|
  {
    i + 2 <= |s| && s[i..i + 2] == "//" && TagAfterSpaces(s, i + 2)
  }

  /** `re.search` finds the pattern somewhere in the content. */
  predicate HasSpdx(s: string) {
    exists i | 0 <= i <= |s| :: MatchAt(s, i)
  }

  /** Fix 1, on the content and the list of fixes so far (empty there): the new content
      and the fixes recorded. */
  function AddSpdx(content: string): (r: (string, seq<string>))
  {
    if !HasSpdx(content) then (Header + content, [SpdxFixMessage]) else (content, [])
  }

  /** `k` whitespace characters at `j`, then the tag. */
  predicate SpacesThenTagAt(s: string, j: nat, k: nat) {
    && j + k + |Tag| <= |s|
    && (forall m :: j <= m < j + k ==> IsSpace(s[m]))
    && s[j + k..j + k + |Tag|] == Tag
  }

  /** The recursive matcher agrees with the pattern read as "some run of whitespace, then
      the tag". */
  lemma {:induction false} TagAfterSpacesIff(s: string, j: nat)
    requires j <= |s|
    ensures TagAfterSpaces(s, j) <==> exists k: nat :: SpacesThenTagAt(s, j, k)
    decreases |s| - j
  {
    if StartsWith(s[j..], Tag) {
      assert s[j..j + |Tag|] == s[j..][..|Tag|];
      assert SpacesThenTagAt(s, j, 0);
    }
    if exists k: nat :: SpacesThenTagAt(s, j, k) {
      var k: nat :| SpacesThenTagAt(s, j, k);
      if k == 0 {
        assert s[j..][..|Tag|] == s[j..j + |Tag|];
      } else {
        assert SpacesThenTagAt(s, j + 1, k - 1);
        TagAfterSpacesIff(s, j + 1);
      }
    }
    if TagAfterSpaces(s, j) && !StartsWith(s[j..], Tag) {
      TagAfterSpacesIff(s, j + 1);
      var k: nat :| SpacesThenTagAt(s, j + 1, k);
      assert SpacesThenTagAt(s, j, k + 1);
    }
  }

  /** The prepended header carries a match at its very start, whatever follows it. */
  lemma HeaderMatches(c: string)
    ensures MatchAt(Header + c, 0)
  {
    var s := Header + c;
    assert Header == "// " + Tag + " MIT\n";
    assert s[0..2] == "//";
    assert s[2] == ' ';
    assert s[3..][..|Tag|] == Tag;
  }

  /** After the fix the content always has an SPDX comment. */
  lemma SpdxPresentAfter(content: string)
    ensures HasSpdx(AddSpdx(content).0)
  {
    if !HasSpdx(content) {
      HeaderMatches(content);
    }
  }

  /** The fix fires exactly when no SPDX comment is present: then it prepends the header
      and records one message; otherwise it changes nothing and records nothing. Either
      way the original content ends the result. */
  lemma AddSpdxSpec(content: string)
    ensures var (out, fixes) := AddSpdx(content);
            && (fixes == [SpdxFixMessage] <==> !HasSpdx(content))
            && (fixes == [] <==> out == content)
            && out[|out| - |content|..] == content
            && (out != content ==> out[..|Header|] == Header)
  {
  }

  /** Running the fix on its own output changes nothing and records nothing. */
  lemma AddSpdxIdempotent(content: string)
    ensures AddSpdx(AddSpdx(content).0) == (AddSpdx(content).0, [])
  {
    SpdxPresentAfter(content);
  }

  /** A comment written without a space after the slashes, or further down the file,
      still counts. */
  lemma UnspacedCommentKept(rest: string)
    ensures AddSpdx("//" + Tag + rest) == ("//" + Tag + rest, [])
  {
    var s := "//" + Tag + rest;
    assert s[2..][..|Tag|] == Tag;
    assert MatchAt(s, 0);
  }

  lemma LaterCommentKept(before: string, after: string)
    ensures AddSpdx(before + "// " + Tag + after) == (before + "// " + Tag + after, [])
  {
    var s := before + "// " + Tag + after;
    var i := |before|;
    assert s[i..i + 2] == "//";
    assert s[i + 2] == ' ';
    assert s[i + 3..][..|Tag|] == Tag;
    assert MatchAt(s, i);
  }

  /** A tag in a block comment is not found, so the header is added. */
  lemma BlockCommentNotFound()
    ensures AddSpdx("/* " + Tag + " MIT */") == (Header + "/* " + Tag + " MIT */", [SpdxFixMessage])
  {
    var m := " " + Tag + " MIT *";
    var s := "/*" + m + "/";
    assert s == "/* " + Tag + " MIT */";
    assert '/' !in m;
    forall i | 0 <= i <= |s|
      ensures !MatchAt(s, i)
    {
      if i + 2 <= |s| {
        if i <= 1 {
          assert s[1] == '*' && s[i..i + 2][1 - i] == s[1];
        } else {
          assert s[i] == m[i - 2] && s[i..i + 2][0] == s[i];
        }
      }
    }
    assert !HasSpdx(s);
    assert Header + s == Header + "/* " + Tag + " MIT */";
  }
}
