/** What the server code reads off an HTTP response from the upstream workflow service. */
module Http {
  import opened Text

  /** `res.ok`: a status in the 2xx range. */
  predicate IsOk(status: nat) {
    200 <= status <= 299
  }

  const UPSTREAM_ERROR_PREFIX := "Dify API error ("

  /** `Dify API error (<status>): <first limit characters of the body text>`. */
  function UpstreamError(status: nat, text: string, limit: nat): (e: string)
    ensures StartsWith(e, UPSTREAM_ERROR_PREFIX)
    ensures |e| <= |UPSTREAM_ERROR_PREFIX| + |NatToString(status)| + 3 + limit
    ensures |text| <= limit ==> |text| <= |e| && e[|e| - |text|..] == text
    ensures |text| > limit ==> limit <= |e| && e[|e| - limit..] == text[..limit]
  {
    var lead := UPSTREAM_ERROR_PREFIX + NatToString(status) + "): ";
    var e := lead + Take(text, limit);
    assert e[..|UPSTREAM_ERROR_PREFIX|] == UPSTREAM_ERROR_PREFIX;
    e
  }
}
