/** Endpoint defaulting and proxy-protocol selection, as done at the top of `run`
    in service/service.go: an empty endpoint becomes the default one, then a fixed,
    case-sensitive chain of prefix checks picks the proxy. */
module Endpoints {

  /** The proxy protocol the service puts in front of its backend. */
  datatype ProxyTag = Grpc | Http | Mucp

  /** The proxy package's default endpoint; its value is the one the
      endpoint flag's usage text documents. */
  const DefaultEndpoint: string := "localhost:9090"

  /** Go's `strings.HasPrefix`: the first |p| characters of `s` are `p`. */
  predicate HasPrefix(s: string, p: string)
    ensures HasPrefix(s, p) <==> |p| <= |s| && forall i :: 0 <= i < |p| ==> s[i] == p[i]
  {
    |p| <= |s| && s[..|p|] == p
  }

  /** Independent reading of "s begins with p": s is p followed by some rest. */
  ghost predicate StartsWith(s: string, p: string) {
    exists rest :: s == p + rest
  }

  /** The endpoint `run` works with: the given one, or the default when it is empty. */
  function Normalize(endpoint: string): (e: string)
    ensures e != []
    ensures endpoint != [] ==> e == endpoint
    ensures endpoint == [] ==> e == DefaultEndpoint
  {
    if |endpoint| == 0 then DefaultEndpoint else endpoint
  }

  /** The `switch` of `run`: "grpc" is tested first, then "http", else mucp.
      Each tag is chosen exactly when its own test passes. */
  function Classify(endpoint: string): (t: ProxyTag)
    ensures t == Grpc <==> HasPrefix(endpoint, "grpc")
    ensures t == Http <==> HasPrefix(endpoint, "http")
    ensures t == Mucp <==> !HasPrefix(endpoint, "grpc") && !HasPrefix(endpoint, "http")
  {
    SchemePrefixesExclusive(endpoint);
    if HasPrefix(endpoint, "grpc") then Grpc
    else if HasPrefix(endpoint, "http") then Http
    else Mucp
  }

  /** The same chain with its two tests swapped; used to show the order of the
      tests cannot change the outcome. */
  function ClassifyHttpFirst(endpoint: string): ProxyTag {
    if HasPrefix(endpoint, "http") then Http
    else if HasPrefix(endpoint, "grpc") then Grpc
    else Mucp
  }

  lemma {:induction false} HasPrefixIsStartsWith(s: string, p: string)
    ensures HasPrefix(s, p) <==> StartsWith(s, p)
  {
    if HasPrefix(s, p) {
      assert s == p + s[|p|..];
    }
    if StartsWith(s, p) {
      var rest :| s == p + rest;
      assert s[..|p|] == p;
    }
  }

  /** No endpoint starts with both "grpc" and "http". */
  lemma {:induction false} SchemePrefixesExclusive(s: string)
    ensures HasPrefix(s, "grpc") ==> !HasPrefix(s, "http")
  {
    if HasPrefix(s, "grpc") {
      assert s[0] == "grpc"[0];
    }
  }

  /** The three outcomes of the switch, stated against StartsWith: each tag is
      chosen exactly for its own prefix, and mucp for everything else. */
  lemma {:induction false} ClassifyByScheme(endpoint: string)
    ensures Classify(endpoint) == Grpc <==> StartsWith(endpoint, "grpc")
    ensures Classify(endpoint) == Http <==> StartsWith(endpoint, "http")
    ensures Classify(endpoint) == Mucp <==>
              !StartsWith(endpoint, "grpc") && !StartsWith(endpoint, "http")
  {
    HasPrefixIsStartsWith(endpoint, "grpc");
    HasPrefixIsStartsWith(endpoint, "http");
    SchemePrefixesExclusive(endpoint);
  }

  /** Whatever follows the scheme token, "grpc..." selects gRPC and "http..." HTTP. */
  lemma {:induction false} SchemeSelectsProxy(rest: string)
    ensures Classify("grpc" + rest) == Grpc
    ensures Classify("http" + rest) == Http
  {
    ClassifyByScheme("grpc" + rest);
    ClassifyByScheme("http" + rest);
  }

  /** Because the two prefixes exclude each other, testing "http" first gives
      the same tag for every endpoint. */
  lemma {:induction false} ClassifyOrderIrrelevant(endpoint: string)
    ensures ClassifyHttpFirst(endpoint) == Classify(endpoint)
  {
    SchemePrefixesExclusive(endpoint);
  }

  /** An empty endpoint falls back to the default, which selects mucp. */
  lemma {:induction false} EmptyEndpointSelectsMucp()
    ensures Normalize("") == DefaultEndpoint
    ensures Classify(Normalize("")) == Mucp
  {
    assert DefaultEndpoint[0] == 'l';
    assert DefaultEndpoint[..4][0] == 'l';
  }

  /** Examples: the scheme token decides, case-sensitively. */
  lemma {:induction false} ClassifyExamples()
    ensures Classify("grpcs://x:1") == Grpc
    ensures Classify("https://x:1") == Http
    ensures Classify("x:1") == Mucp
    ensures Classify("GRPC://x:1") == Mucp
  {
    assert "grpcs://x:1"[..4] == "grpc";
    assert "https://x:1"[..4] == "http";
    assert "GRPC://x:1"[0] == 'G';
  }
}
