/** Properties of the redirect policy: dot-anchored domain matching, what the
    request rewrite changes and keeps, and how it behaves on its own output. */
module RedirectLaws {
  import opened Strings
  import opened Urls
  import opened MhuoProxy

  /** `hostname` is a proper subdomain of `domain`: it ends with `domain`
      and the character right before that ending is a dot. */
  ghost predicate IsSubdomainOf(hostname: string, domain: string)
  {
    |domain| < |hostname| && hostname[|hostname| - |domain| - 1] == '.' &&
    hostname[|hostname| - |domain|..] == domain
  }

  /** The intercepted domains without their leading dot. */
  function BareDomain(i: nat): (d: string)
    requires i < |RedirectDomains|
    ensures RedirectDomains[i] == "." + d
  {
    RedirectDomains[i][1..]
  }

  /** Ending with a dot-prefixed suffix is being a proper subdomain of the bare name. */
  lemma DottedSuffixIsSubdomain(hostname: string, domain: string)
    ensures EndsWith(hostname, "." + domain) <==> IsSubdomainOf(hostname, domain)
  {
    var d, n := "." + domain, |hostname|;
    if EndsWith(hostname, d) {
      assert hostname[n - |d|..][0] == d[0];
      assert hostname[n - |domain|..] == hostname[n - |d|..][1..];
    }
    if IsSubdomainOf(hostname, domain) {
      assert hostname[n - |d|..] == [hostname[n - |d|]] + hostname[n - |domain|..];
    }
  }

  /** Interception is exactly "proper subdomain of one of the four domains". */
  lemma InterceptedIffSubdomain(hostname: string)
    ensures ShouldRedirect(hostname) <==>
            exists i :: 0 <= i < |RedirectDomains| && IsSubdomainOf(hostname, BareDomain(i))
  {
    forall i | 0 <= i < |RedirectDomains|
      ensures EndsWith(hostname, RedirectDomains[i]) <==> IsSubdomainOf(hostname, BareDomain(i))
    {
      DottedSuffixIsSubdomain(hostname, BareDomain(i));
    }
  }

  /** Any name under an intercepted domain is intercepted ("x.bhsr.com"). */
  lemma {:induction false} SubdomainIntercepted(name: string, i: nat)
    requires i < |RedirectDomains|
    ensures ShouldRedirect(name + RedirectDomains[i])
  {
    EndsWithConcat(name, RedirectDomains[i]);
  }

  /** A host is intercepted only if it has a dot exactly where one of the
      suffixes would start. */
  lemma NoDotAtSuffixStart(hostname: string)
    requires forall i :: 0 <= i < |RedirectDomains| && |RedirectDomains[i]| <= |hostname| ==>
               hostname[|hostname| - |RedirectDomains[i]|] != '.'
    ensures !ShouldRedirect(hostname)
  {
    forall i | 0 <= i < |RedirectDomains| ensures !EndsWith(hostname, RedirectDomains[i]) {
      var d := RedirectDomains[i];
      if |d| <= |hostname| {
        assert hostname[|hostname| - |d|..][0] == hostname[|hostname| - |d|];
        assert d[0] == '.';
      }
    }
  }

  /** A host name without any dot is never intercepted. */
  lemma DotlessHostNotIntercepted(hostname: string)
    requires forall k :: 0 <= k < |hostname| ==> hostname[k] != '.'
    ensures !ShouldRedirect(hostname)
  {
    NoDotAtSuffixStart(hostname);
  }

  /** The leading dot keeps the bare domain out: "bhsr.com" is not intercepted. */
  lemma BareBhsrNotIntercepted()
    ensures !ShouldRedirect("bhsr.com")
  {
    NoDotAtSuffixStart("bhsr.com");
  }

  /** "mihoyo.com" is not intercepted. */
  lemma BareMihoyoNotIntercepted()
    ensures !ShouldRedirect("mihoyo.com")
  {
    NoDotAtSuffixStart("mihoyo.com");
  }

  /** A name that merely ends with the bare domain is not intercepted: "notbhsr.com". */
  lemma LookAlikeNotIntercepted()
    ensures !ShouldRedirect("notbhsr.com")
  {
    NoDotAtSuffixStart("notbhsr.com");
  }

  /** The two triggers of the request rule, stated on the match definitions. */
  lemma RewriteTriggers(url: Url, targetHost: string, targetPort: int)
    ensures Decide(url, targetHost, targetPort).Redirect? <==>
            (exists i :: 0 <= i < |RedirectDomains| && EndsWith(url.host, RedirectDomains[i])) ||
            (url.host == targetHost && exists k :: OccursAt(url.path, QueryGatewayRequestString, k))
  {
  }

  /** A request to a host that is neither intercepted nor the target host is
      forwarded unchanged, whatever its path. */
  lemma OtherHostsPassThrough(url: Url, targetHost: string, targetPort: int)
    requires !ShouldRedirect(url.host) && url.host != targetHost
    ensures Decide(url, targetHost, targetPort) == PassThrough
    ensures Forward(url, targetHost, targetPort) == url
  {
  }

  /** A rewrite replaces scheme, host and port with the target's and keeps the
      path, query and fragment. */
  lemma RedirectKeepsResource(url: Url, targetHost: string, targetPort: int)
    requires Decide(url, targetHost, targetPort).Redirect?
    ensures var v := Decide(url, targetHost, targetPort).url;
            v.scheme == "http" && v.host == targetHost && v.port == targetPort &&
            v.SameResource(url)
  {
  }

  /** Two requests are redirected to the same URL exactly when they ask for the
      same resource: the rewritten URL depends on path, query and fragment only. */
  lemma RedirectedUrlDeterminedByResource(u1: Url, u2: Url, targetHost: string, targetPort: int)
    ensures RedirectedUrl(u1, targetHost, targetPort) == RedirectedUrl(u2, targetHost, targetPort)
            <==> u1.SameResource(u2)
  {
  }

  /** Forwarding is idempotent: a second pass of the request hook over its own
      output changes nothing more. */
  lemma {:induction false} ForwardIdempotent(url: Url, targetHost: string, targetPort: int)
    ensures var once := Forward(url, targetHost, targetPort);
            Forward(once, targetHost, targetPort) == once
  {
    var once := Forward(url, targetHost, targetPort);
    if Decide(url, targetHost, targetPort).Redirect? {
      assert once == RedirectedUrl(url, targetHost, targetPort);
      assert RedirectedUrl(once, targetHost, targetPort) == once;
    }
  }

  /** A rewritten gateway lookup is itself rewritten again (to the same URL): the
      second pass decides Redirect, not PassThrough. */
  lemma {:induction false} GatewayLookupRewrittenAgain(url: Url, targetHost: string, targetPort: int)
    requires Decide(url, targetHost, targetPort).Redirect?
    requires Contains(url.path, QueryGatewayRequestString)
    ensures var once := Forward(url, targetHost, targetPort);
            Decide(once, targetHost, targetPort) == Redirect(once)
  {
    var once := Forward(url, targetHost, targetPort);
    assert once == RedirectedUrl(url, targetHost, targetPort);
    assert once.host == targetHost && once.path == url.path;
    assert RedirectedUrl(once, targetHost, targetPort) == once;
  }

  /** When the target host is itself intercepted, every rewritten URL is rewritten
      again on a second pass (to itself), whatever its path. */
  lemma {:induction false} InterceptedTargetRewrittenAgain(url: Url, targetHost: string, targetPort: int)
    requires ShouldRedirect(targetHost)
    requires Decide(url, targetHost, targetPort).Redirect?
    ensures var once := Forward(url, targetHost, targetPort);
            Decide(once, targetHost, targetPort) == Redirect(once)
  {
    var once := Forward(url, targetHost, targetPort);
    assert once == RedirectedUrl(url, targetHost, targetPort);
    assert RedirectedUrl(once, targetHost, targetPort) == once;
  }

  /** An intercepted request is rewritten to the local target, keeping path and query. */
  lemma InterceptedLoginExample()
    ensures Decide(Url("https", "api.bhsr.com", 443, "/v1/login", "?x=1", ""), "127.0.0.1", 8888)
            == Redirect(Url("http", "127.0.0.1", 8888, "/v1/login", "?x=1", ""))
  {
    assert "api.bhsr.com"[3..] == RedirectDomains[0];
  }

  /** On the target host only gateway lookups are rewritten. */
  lemma GatewayLookupExample()
    ensures Decide(Url("https", "127.0.0.1", 443, "/query_gateway/list", "", ""), "127.0.0.1", 8888)
            == Redirect(Url("http", "127.0.0.1", 8888, "/query_gateway/list", "", ""))
    ensures Decide(Url("https", "127.0.0.1", 443, "/other/list", "", ""), "127.0.0.1", 8888)
            == PassThrough
  {
    NoDotAtSuffixStart("127.0.0.1");
    assert OccursAt("/query_gateway/list", QueryGatewayRequestString, 1);
  }
}
