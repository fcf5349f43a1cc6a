/** The interception and redirect policy of the proxy service: which hosts have
    their TLS tunnel decrypted, which requests are sent to the local redirect
    target, and which upstream certificates are trusted. */
module MhuoProxy {
  import opened Strings
  import opened Urls

  /** Marker a request path must contain for the gateway-lookup rule. */
  const QueryGatewayRequestString: string := "query_gateway"

  /** Intercepted domain suffixes; the leading dot is part of each suffix. */
  const RedirectDomains: seq<string> := [".bhsr.com", ".starrails.com", ".hoyoverse.com", ".mihoyo.com"]

  /** Scheme of the local redirect target (`new Uri("http://host:port/")`). */
  const RedirectScheme: string := "http"

  /** Whether `hostname` belongs to an intercepted domain. */
  function ShouldRedirect(hostname: string): (r: bool)
    ensures r <==> exists i :: 0 <= i < |RedirectDomains| && EndsWith(hostname, RedirectDomains[i])
  {
    EndsWithAny(hostname, RedirectDomains)
  }

  /** Outcome of the request hook: leave the request alone, or point it at a new URL. */
  datatype RewriteDecision = PassThrough | Redirect(url: Url)
  {
    /** The URL the request is forwarded to once the decision is applied to `original`. */
    function Apply(original: Url): Url
    {
      match this
      case PassThrough => original
      case Redirect(u) => u
    }
  }

  /** `url` with its scheme, host and port replaced by those of the redirect target. */
  function RedirectedUrl(url: Url, targetHost: string, targetPort: int): (r: Url)
    ensures r.scheme == RedirectScheme && r.host == targetHost && r.port == targetPort
    ensures r.SameResource(url)
  {
    url.(scheme := RedirectScheme, host := targetHost, port := targetPort)
  }

  /** Whether a request for `url` is rewritten: its host is intercepted, or it is the
      redirect target's own host and its path contains the gateway marker. */
  predicate ShouldRewrite(url: Url, targetHost: string)
    ensures ShouldRewrite(url, targetHost) <==>
            (exists i :: 0 <= i < |RedirectDomains| && EndsWith(url.host, RedirectDomains[i])) ||
            (url.host == targetHost && exists k :: OccursAt(url.path, QueryGatewayRequestString, k))
  {
    ShouldRedirect(url.host) || (url.host == targetHost && Contains(url.path, QueryGatewayRequestString))
  }

  /** The decision of the request hook for a request to `url`. */
  function Decide(url: Url, targetHost: string, targetPort: int): (d: RewriteDecision)
    ensures d.Redirect? <==> ShouldRewrite(url, targetHost)
    ensures d.Redirect? ==> d.url.scheme == RedirectScheme && d.url.host == targetHost &&
                            d.url.port == targetPort && d.url.SameResource(url)
  {
    if ShouldRewrite(url, targetHost) then Redirect(RedirectedUrl(url, targetHost, targetPort))
    else PassThrough
  }

  /** The URL a request for `url` is forwarded to. */
  function Forward(url: Url, targetHost: string, targetPort: int): (r: Url)
    ensures r.SameResource(url)
    ensures !ShouldRewrite(url, targetHost) ==> r == url
    ensures ShouldRewrite(url, targetHost) ==>
              r.scheme == RedirectScheme && r.host == targetHost && r.port == targetPort
  {
    Decide(url, targetHost, targetPort).Apply(url)
  }

  /** The policy violations `SslPolicyErrors` can report for an upstream certificate;
      `SslPolicyErrors.None` is the empty set. */
  datatype SslPolicyError =
    | RemoteCertificateNotAvailable
    | RemoteCertificateNameMismatch
    | RemoteCertificateChainErrors

  /** The `IsValid` flag after the certificate hook, given the errors found and the
      flag's prior value: the hook only ever grants trust, and only without errors. */
  function CertificateVerdict(errors: set<SslPolicyError>, wasValid: bool): (valid: bool)
    ensures errors == {} ==> valid
    ensures errors != {} ==> valid == wasValid
    ensures wasValid ==> valid
  {
    if errors == {} then true else wasValid
  }

  /** Arguments of the engine's tunnel-connect hook (a CONNECT request). */
  class TunnelConnectSessionEventArgs {
    var RequestUri: Url
    var DecryptSsl: bool

    constructor (requestUri: Url, decryptSsl: bool)
      ensures RequestUri == requestUri && DecryptSsl == decryptSsl
    {
      RequestUri := requestUri;
      DecryptSsl := decryptSsl;
    }
  }

  /** Arguments of the engine's upstream certificate validation callback. */
  class CertificateValidationEventArgs {
    var SslPolicyErrors: set<SslPolicyError>
    var IsValid: bool

    constructor (errors: set<SslPolicyError>, isValid: bool)
      ensures SslPolicyErrors == errors && IsValid == isValid
    {
      SslPolicyErrors := errors;
      IsValid := isValid;
    }
  }

  /** Arguments of the engine's before-request hook; `Url` is the request's target
      (the request's `RequestUri` is derived from it). */
  class SessionEventArgs {
    var Url: Url

    constructor (url: Url)
      ensures Url == url
    {
      Url := url;
    }
  }

  /** The proxy service: the redirect target it was configured with and the three
      hooks the proxy engine calls. */
  class ProxyService {
    const targetRedirectHost: string
    const targetRedirectPort: int

    constructor (targetHost: string, targetPort: int)
      requires 0 <= targetPort <= 65535
      ensures targetRedirectHost == targetHost && targetRedirectPort == targetPort
    {
      targetRedirectHost := targetHost;
      targetRedirectPort := targetPort;
    }

    /** Decrypts the tunnel exactly when its host is intercepted. */
    static method BeforeTunnelConnectRequest(args: TunnelConnectSessionEventArgs)
      modifies args`DecryptSsl
      ensures args.DecryptSsl == ShouldRedirect(args.RequestUri.host)
      ensures args.RequestUri == old(args.RequestUri)
    {
      var hostname := args.RequestUri.host;
      args.DecryptSsl := ShouldRedirect(hostname);
    }

    /** Trusts the upstream certificate when no policy error was found; otherwise
        leaves the engine's verdict as it was. */
    static method OnCertValidation(args: CertificateValidationEventArgs)
      modifies args`IsValid
      ensures args.IsValid == CertificateVerdict(args.SslPolicyErrors, old(args.IsValid))
      ensures args.SslPolicyErrors == old(args.SslPolicyErrors)
    {
      if args.SslPolicyErrors == {} {
        args.IsValid := true;
      }
    }

    /** Points an intercepted request, or a gateway lookup to the target host itself,
        at the redirect target; every other request is left exactly as it was. */
    method BeforeRequest(args: SessionEventArgs)
      modifies args`Url
      ensures args.Url == Forward(old(args.Url), targetRedirectHost, targetRedirectPort)
      ensures !ShouldRewrite(old(args.Url), targetRedirectHost) ==> args.Url == old(args.Url)
      ensures ShouldRewrite(old(args.Url), targetRedirectHost) ==>
                args.Url.scheme == RedirectScheme && args.Url.host == targetRedirectHost &&
                args.Url.port == targetRedirectPort && args.Url.SameResource(old(args.Url))
    {
      if !ShouldRewrite(args.Url, targetRedirectHost) {
        return;
      }
      args.Url := RedirectedUrl(args.Url, targetRedirectHost, targetRedirectPort);
    }
  }
}
