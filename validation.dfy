/**
 * `Validator`: whitespace sanitisation, and the two shallow format checks built
 * on it for contract code and Ethereum addresses.
 */
module Validation {
  import opened PyString

  // `_sanitize_string_input` is `str.strip`, modelled by `Strip`.

  /** `validate_contract_code`: the code holds something other than whitespace. */
  function ValidateContractCode(code: string): (ok: bool)
    ensures ok <==> exists k :: 0 <= k < |code| && !IsSpace(code[k])
  {
    StripEmptyIff(code);
    Strip(code) != ""
  }

  /** `validate_address`: after sanitising, 42 characters starting with "0x"; the other 40
      characters are not checked at all. */
  function ValidateAddress(address: string): (ok: bool)
    ensures ok <==> |Strip(address)| == 42 && Strip(address)[0] == '0' && Strip(address)[1] == 'x'
  {
    var s := Strip(address);
    s != "" && |s| == 42 && StartsWith(s, "0x")
  }

  /** Sanitising is idempotent, keeps an unpadded string (interior newlines included), and
      removes exactly the whitespace padding around one. */
  lemma SanitizeSpec(p: string, w: string, q: string)
    requires forall k :: 0 <= k < |p| ==> IsSpace(p[k])
    requires forall k :: 0 <= k < |q| ==> IsSpace(q[k])
    requires w == [] || (!IsSpace(w[0]) && !IsSpace(w[|w| - 1]))
    ensures Strip(p + w + q) == w
    ensures Strip(w) == w
    ensures Strip(Strip(p + w + q)) == Strip(p + w + q)
  {
    StripPadding(p, w, q);
    StripUnpadded(w);
  }

  /** Padding never changes either verdict. */
  lemma PaddingIgnored(p: string, s: string, q: string)
    requires forall k :: 0 <= k < |p| ==> IsSpace(p[k])
    requires forall k :: 0 <= k < |q| ==> IsSpace(q[k])
    ensures ValidateContractCode(p + s + q) == ValidateContractCode(s)
    ensures ValidateAddress(p + s + q) == ValidateAddress(s)
  {
    StripAround(p, s, q);
  }

  /** Any 40 characters after "0x" are accepted, hexadecimal or not. */
  lemma NoHexCheck(w: string)
    requires |w| == 40 && !IsSpace(w[39])
    ensures ValidateAddress("0x" + w)
  {
    var a := "0x" + w;
    assert Strip(a) == a by {
      assert a[0] == '0' && a[|a| - 1] == w[39];
      StripUnpadded(a);
    }
    assert |a| == 42 && a[0] == '0' && a[1] == 'x';
  }

  lemma SanitizePaddedExample()
    ensures Strip("  hello world  ") == "hello world"
  {
    assert "  hello world  " == "  " + "hello world" + "  ";
    StripPadding("  ", "hello world", "  ");
  }

  lemma SanitizeInteriorExample()
    ensures Strip("hello\nworld") == "hello\nworld"
  {
    StripUnpadded("hello\nworld");
  }

  lemma SanitizeBlankExample()
    ensures Strip("  ") == "" && Strip("") == ""
  {
    StripEmptyIff("  ");
  }

  lemma ContractCodeExamples()
    ensures ValidateContractCode("  some_code  ")
    ensures ValidateContractCode("valid_code")
  {
    assert !IsSpace("  some_code  "[2]);
    assert !IsSpace("valid_code"[0]);
  }

  lemma BlankContractCode()
    ensures !ValidateContractCode("  ") && !ValidateContractCode("")
  {
  }

  /** The well-formed address of the unit tests. */
  const TestAddress: string := "0x" + "1234567890123456789012345678901234567890"

  lemma AddressExamples()
    ensures ValidateAddress(TestAddress)
    ensures ValidateAddress("  " + TestAddress + "  ")
  {
    NoHexCheck("1234567890123456789012345678901234567890");
    PaddingIgnored("  ", TestAddress, "  ");
  }

  /** Blank input, a short address and one without the "0x" prefix are rejected. */
  lemma BlankAddress()
    ensures !ValidateAddress("  ") && !ValidateAddress("")
  {
    StripEmptyIff("  ");
  }

  lemma ShortAddress()
    ensures !ValidateAddress("0x123")
  {
    StripUnpadded("0x123");
  }

  lemma AlmostLongEnoughAddress()
    ensures !ValidateAddress("0xabcdef1234567890abcdef1234567890abcde")
  {
    StripUnpadded("0xabcdef1234567890abcdef1234567890abcde");
  }

  lemma UnprefixedAddress()
    ensures !ValidateAddress("abcdef1234567890abcdef1234567890abcdef")
  {
    StripUnpadded("abcdef1234567890abcdef1234567890abcdef");
  }
}
