/**
 The optional bearer-token gate: when an API key is configured, the
 Authorization header must be exactly `"Bearer " + key`; an empty key turns
 the gate off.
 */
module Auth {

  /** The scheme prefix the header must carry. */
  const Scheme: string := "Bearer "

  /** The credential the handler compares the header against. */
  function Expected(apiKey: string): (h: string)
    ensures |h| == |Scheme| + |apiKey| && h[..|Scheme|] == Scheme && h[|Scheme|..] == apiKey
  {
    Scheme + apiKey
  }

  /** Whether a request with this Authorization header (empty when absent)
      passes the gate. */
  predicate Authorized(apiKey: string, header: string)
  {
    apiKey == "" || header == Expected(apiKey)
  }

  /** With a key configured, the gate reads the header as a scheme and a
      value: it passes iff the scheme is `"Bearer "` and the value is the key. */
  lemma {:induction false} AuthorizedIff(apiKey: string, header: string)
    requires apiKey != ""
    ensures Authorized(apiKey, header) <==>
              (|header| >= |Scheme| && header[..|Scheme|] == Scheme && header[|Scheme|..] == apiKey)
  {
    if |header| >= |Scheme| && header[..|Scheme|] == Scheme && header[|Scheme|..] == apiKey {
      assert header == header[..|Scheme|] + header[|Scheme|..];
    }
  }

  /** With a key configured, an absent header, the bare key without its
      scheme, and a bearer token of any other value are all refused. */
  lemma Refusals(apiKey: string, other: string)
    requires apiKey != "" && other != apiKey
    ensures !Authorized(apiKey, "")
    ensures !Authorized(apiKey, apiKey)
    ensures !Authorized(apiKey, Scheme + other)
  {
    AuthorizedIff(apiKey, Scheme + other);
    assert (Scheme + other)[..|Scheme|] == Scheme;
    assert (Scheme + other)[|Scheme|..] == other;
  }
}
