/**
 * `RequestMetadata`: the request id and the two client headers a request
 * carries, and the client address read off `X-Forwarded-For`.
 */
module Dependencies {
  import opened Wrappers
  import opened PyString

  datatype RequestMetadata = RequestMetadata(
    requestId: Option<string>,
    userAgent: Option<string>,
    xForwardedFor: Option<string>)
  {
    /** The `client_ip` property: the first hop of a non-empty `X-Forwarded-For`, stripped. */
    function ClientIp(): Option<string> {
      match xForwardedFor
      case Some(h) => if h == "" then None else Some(Strip(Split(h, ',')[0]))
      case None => None
    }
  }

  /** `get_request_metadata`: the headers as received, with a missing request id replaced
      by `freshId` (a newly generated UUID in the source). */
  function GetRequestMetadata(requestId: Option<string>, userAgent: Option<string>,
                              xForwardedFor: Option<string>, freshId: string): (m: RequestMetadata)
    ensures m.requestId.Some?
    ensures requestId.Some? ==> m.requestId == requestId
    ensures m.userAgent == userAgent && m.xForwardedFor == xForwardedFor
  {
    var id := if requestId.None? then freshId else requestId.value;
    RequestMetadata(Some(id), userAgent, xForwardedFor)
  }

  /** A missing or empty header gives no client address, and any other header gives one. */
  lemma NoHeaderNoIp(m: RequestMetadata)
    ensures m.ClientIp().None? <==> (m.xForwardedFor.None? || m.xForwardedFor == Some(""))
  {
  }

  /** The client address is the stripped text before the header's first comma: everything
      up to the first comma, or the whole header when it has none. */
  lemma ClientIpIsFirstHop(m: RequestMetadata)
    requires m.xForwardedFor.Some? && m.xForwardedFor.value != ""
    ensures var h := m.xForwardedFor.value;
            exists n :: 0 <= n <= |h| && ',' !in h[..n] && (n == |h| || h[n] == ',')
                        && m.ClientIp() == Some(Strip(h[..n]))
  {
    var h := m.xForwardedFor.value;
    var first := Split(h, ',')[0];
    SplitFirstPiece(h, ',');
    assert h[..|first|] == first;
  }

  /** A character of a stripped string is a character of the string. */
  lemma StripKeeps(s: string, c: char)
    requires c in Strip(s)
    ensures c in s
  {
    var l := LStrip(s);
    var r := RStrip(l);
    var k :| 0 <= k < |r| && r[k] == c;
    assert l[k] == c;
    assert s[|s| - |l| + k] == c;
  }

  /** The client address never holds a comma. */
  lemma ClientIpHasNoComma(m: RequestMetadata)
    requires m.ClientIp().Some?
    ensures ',' !in m.ClientIp().value
  {
    var h := m.xForwardedFor.value;
    if ',' in m.ClientIp().value {
      StripKeeps(Split(h, ',')[0], ',');
    }
  }

  /** With one hop only, the address is the stripped header. */
  lemma SingleHop(m: RequestMetadata)
    requires m.xForwardedFor.Some? && m.xForwardedFor.value != ""
    requires ',' !in m.xForwardedFor.value
    ensures m.ClientIp() == Some(Strip(m.xForwardedFor.value))
  {
    SplitWithoutSeparator(m.xForwardedFor.value, ',');
  }

  /** A first hop without padding is returned as it is, whatever follows the comma. */
  lemma FirstOfTwoHops(m: RequestMetadata, first: string, rest: string)
    requires ',' !in first && first != "" && !IsSpace(first[0]) && !IsSpace(first[|first| - 1])
    requires m.xForwardedFor == Some(first + [','] + rest)
    ensures m.ClientIp() == Some(first)
  {
    SplitConcat(first, rest, ',');
    SplitWithoutSeparator(first, ',');
    StripUnpadded(first);
  }

  /** The unit tests' request: the address is the first of the two hops. */
  lemma ForwardedExample()
    ensures RequestMetadata(Some("test-request-123"), Some("test-client/1.0"),
                            Some("192.168.1.1, 10.0.0.1")).ClientIp() == Some("192.168.1.1")
  {
    var m := RequestMetadata(Some("test-request-123"), Some("test-client/1.0"),
                             Some("192.168.1.1, 10.0.0.1"));
    assert "192.168.1.1, 10.0.0.1" == "192.168.1.1" + [','] + " 10.0.0.1";
    FirstOfTwoHops(m, "192.168.1.1", " 10.0.0.1");
  }

  /** The unit tests' request without headers has no client address. */
  lemma NoHeadersExample()
    ensures RequestMetadata(None, Some("testclient"), None).ClientIp() == None
  {
  }
}
