# MhuoProxy redirect policy, modelled in Dafny

MhuoProxy is a local forward proxy. It registers itself as the system HTTP/HTTPS proxy.
It decrypts and redirects traffic for four game-service domains to a local gateway
(`127.0.0.1:8888` in `Program.cs`). All other traffic passes through untouched.
The proxy engine (Titanium.Web.Proxy) calls three hooks of `ProxyService`:

- **tunnel connect**: sets the tunnel's `DecryptSsl` flag to whether the host is intercepted;
- **certificate validation**: sets `IsValid` to true when the upstream certificate has no policy errors, and otherwise leaves it alone;
- **before request**: rewrites a request's URL to the redirect target. This happens for an intercepted host, or for a request to the target host itself whose path contains `query_gateway`. Only the scheme, host and port change.

Files:

- `strings.dfy` (module `Strings`): ordinal suffix and substring tests. `EndsWith` is the character suffix test. `Contains` and `EndsWithAny` are recursive, and each is proved equal to an existential definition.
- `urls.dfy` (module `Urls`): a URL as a record of already-parsed components.
- `proxy_service.dfy` (module `MhuoProxy`): the constants, the pure decisions (`ShouldRedirect`, `ShouldRewrite`, `Decide`, `Forward`, `CertificateVerdict`), the hook argument objects as classes whose fields the hooks update, and the `ProxyService` class with its redirect target and the three hooks.
- `redirect_laws.dfy` (module `RedirectLaws`): lemmas about the policy. They cover dot-anchored matching, what a rewrite keeps, idempotence, and worked examples.

Points about the code worth knowing:

- The gateway-marker rule compares the request host with `_targetRedirectHost` itself (ProxyService.cs:116). There is no separate gateway host.
- The host tested is `RequestUri.Host` (ProxyService.cs:81, 113). `System.Uri` lower-cases DNS host names, so a request to "API.BHSR.COM" reaches `ShouldRedirect` as "api.bhsr.com". `Url.host` stands for that canonical lower-case host. The suffix test itself is `string.EndsWith`, which folds no case. The model's test is case-sensitive, so it is exact only for such canonical hosts.
- Line 116 compares that lower-cased host with the configured `_targetRedirectHost` string as given, with no normalisation.
- A second pass of the request hook over a rewritten URL can decide to rewrite again, to the same URL. This happens for a `query_gateway` path (`RedirectLaws.GatewayLookupRewrittenAgain`). It also happens whenever the target host is itself intercepted (`RedirectLaws.InterceptedTargetRewrittenAgain`). In every case forwarding is idempotent (`RedirectLaws.ForwardIdempotent`).

## Model

| member | source | states |
|---|---|---|
| `MhuoProxy.ShouldRedirect` | ProxyService.cs:147-150 | true exactly when the host name ends with one of ".bhsr.com", ".starrails.com", ".hoyoverse.com", ".mihoyo.com" |
| `Strings.EndsWithAny` | ProxyService.cs:149 | `Any(hostname.EndsWith)` over a list is true exactly when some element of the list is a suffix of the string |
| `Strings.Contains` | ProxyService.cs:117 | the substring test is true exactly when the marker occurs at some position of the path |
| `RedirectLaws.InterceptedIffSubdomain` | ProxyService.cs:17-23 | a host is intercepted exactly when it is a proper subdomain of one of the four domains: it ends with the bare domain and has a dot right before it |
| `RedirectLaws.SubdomainIntercepted` | ProxyService.cs:147-150 | every name of the form x + ".bhsr.com" (and likewise for the other three suffixes) is intercepted |
| `RedirectLaws.DotlessHostNotIntercepted` | ProxyService.cs:17-23 | a host name without a dot is never intercepted, because every suffix starts with a dot |
| `RedirectLaws.NoDotAtSuffixStart` | ProxyService.cs:17-23 | a host with no dot at any position where one of the four suffixes would start is not intercepted |
| `RedirectLaws.BareBhsrNotIntercepted` | ProxyService.cs:19 | the bare domain "bhsr.com" is not intercepted, because the dot belongs to the suffix |
| `RedirectLaws.BareMihoyoNotIntercepted` | ProxyService.cs:22 | the bare domain "mihoyo.com" is not intercepted |
| `RedirectLaws.LookAlikeNotIntercepted` | ProxyService.cs:19 | "notbhsr.com", which ends with "bhsr.com" but not with ".bhsr.com", is not intercepted |
| `RedirectLaws.DottedSuffixIsSubdomain` | ProxyService.cs:149 | ending with "." + d is the same as being a proper subdomain of d |
| `Strings.EndsWith` | ProxyService.cs:149 | true exactly when the string is some prefix followed by the suffix; properties used by `RedirectLaws.DottedSuffixIsSubdomain` and `RedirectLaws.SubdomainIntercepted` |
| `MhuoProxy.ShouldRewrite` | ProxyService.cs:115-119 | true exactly when the host ends with one of the four suffixes, or the host equals the target host and the marker occurs in the path; see `RedirectLaws.RewriteTriggers`, `RedirectLaws.OtherHostsPassThrough` |
| `MhuoProxy.RedirectedUrl` | ProxyService.cs:124-132 | the result has scheme "http", the target host and port, and the original path, query and fragment; see `RedirectLaws.RedirectedUrlDeterminedByResource` |
| `MhuoProxy.Decide` | ProxyService.cs:115-132 | redirects exactly when the rewrite condition holds, and then to an http URL at the target host and port with the same resource; see `RedirectLaws.RedirectKeepsResource` |
| `MhuoProxy.Forward` | ProxyService.cs:111-135 | the forwarded URL always keeps path, query and fragment; without a trigger it is the request URL itself, with one it has scheme "http" and the target host and port; see `RedirectLaws.ForwardIdempotent` |
| `RedirectLaws.RewriteTriggers` | ProxyService.cs:115-119 | a request is rewritten exactly when its host has an intercepted suffix, or its host equals the target host and its path contains "query_gateway" |
| `RedirectLaws.OtherHostsPassThrough` | ProxyService.cs:115-122 | a request to a host that is not intercepted and is not the target host is forwarded unchanged, even if its path contains "query_gateway" |
| `RedirectLaws.RedirectKeepsResource` | ProxyService.cs:124-132 | a rewritten URL has scheme "http", the target host and the target port, and the original path, query and fragment |
| `RedirectLaws.RedirectedUrlDeterminedByResource` | ProxyService.cs:127-132 | two URLs are rewritten to the same URL exactly when their path, query and fragment agree |
| `RedirectLaws.ForwardIdempotent` | ProxyService.cs:124-135 | forwarding an already forwarded URL yields it unchanged |
| `RedirectLaws.GatewayLookupRewrittenAgain` | ProxyService.cs:115-132 | a rewritten gateway lookup is rewritten again on a second pass, to itself |
| `RedirectLaws.InterceptedTargetRewrittenAgain` | ProxyService.cs:115-132 | when the target host is itself intercepted, every rewritten URL is rewritten again on a second pass, to itself |
| `RedirectLaws.InterceptedLoginExample` | ProxyService.cs:111-138 | https://api.bhsr.com:443/v1/login?x=1 with target 127.0.0.1:8888 becomes http://127.0.0.1:8888/v1/login?x=1 |
| `RedirectLaws.GatewayLookupExample` | ProxyService.cs:115-135 | on the target host 127.0.0.1, /query_gateway/list is rewritten to the target and /other/list is passed through |
| `MhuoProxy.CertificateVerdict` | ProxyService.cs:98-99 | with no policy errors the certificate is trusted; with errors the prior verdict is kept; trust is never withdrawn |
| `MhuoProxy.ProxyService.constructor` | ProxyService.cs:42-43 | the service keeps the given redirect host and port |
| `MhuoProxy.ProxyService.BeforeTunnelConnectRequest` | ProxyService.cs:79-88 | afterwards `DecryptSsl` equals whether the tunnel's host is intercepted; no other field changes |
| `MhuoProxy.ProxyService.OnCertValidation` | ProxyService.cs:95-102 | afterwards `IsValid` is true if there are no policy errors, and otherwise keeps its prior value; no other field changes |
| `MhuoProxy.ProxyService.BeforeRequest` | ProxyService.cs:111-138 | the request's URL becomes the forwarded URL. Without a trigger it is exactly the old URL. With a trigger it has scheme "http" and the target host and port, and keeps path, query and fragment. Nothing else changes |

## Left out

- Engine setup: creating the Titanium `ProxyServer`, ensuring the root certificate, registering the hooks, and adding and starting the endpoint on port 8080 (ProxyService.cs:36-40, 45-57). This is library and transport code.
- System proxy registration and `Shutdown` (ProxyService.cs:59-61, 67-72). These are OS side effects through the library. `Shutdown` has no run-state flag of its own to model.
- URL text: `Uri`/`UriBuilder` parsing and `ToString` (ProxyService.cs:125-132) are not modelled. That covers default-port elision, host lowercasing and escaping. A URL is an already-parsed component record, and the target host is used as given.
- `MhuoProxy.ProxyService.constructor`: requires the target port to be in 0..65535. The source does not check the port or the host. `new Uri($"http://{host}:{port}/")` at line 125 throws on every rewrite for an out-of-range port and for a host it rejects, such as "" or an unbracketed "::1". A host such as "a/b" is silently parsed as host "a" on port 80. The model does not capture either failure. For any host it rewrites to the configured string as given.
- `MhuoProxy.ShouldRedirect`: `string.EndsWith(string)` is culture-sensitive in .NET. The model uses an exact, case-sensitive character suffix test on the canonical lower-case host. Upper-case host input is not modelled, because `System.Uri` lower-cases it before the hook sees it.
- The async `Task` plumbing and the `Console.WriteLine` log line (ProxyService.cs:87, 134).
- `Program.cs`: `Main`, `Thread.Sleep(-1)` and the exit and cancel handlers are process lifecycle and I/O.
- Concurrency: the engine calls the hooks concurrently for different connections. Each hook reads only immutable configuration and writes only its own argument object, so the model treats each call on its own.
