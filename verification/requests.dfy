/** The inbound HTTP request as the pipeline reads it, and the URL pieces
    derived from it (request-context.service.ts; the same base-URL and
    self-URL rules are repeated inline in both interceptors, the link
    builders and the error filter). */
module Requests {
  import opened Wrappers
  import opened Text

  /** `request.protocol`, `request.get('host')`, `request.path`,
      `request.url` and `request.originalUrl`; Express always sets `url`. */
  datatype Request = Request(
    protocol: Option<string>,
    host: Option<string>,
    path: Option<string>,
    url: string,
    originalUrl: Option<string>)

  /** An optional string is truthy when present and non-empty. */
  predicate Given(o: Option<string>) {
    o.Some? && o.value != ""
  }

  /** `o || d` on an optional string. */
  function OrDefault(o: Option<string>, d: string): string {
    if Given(o) then o.value else d
  }

  function Protocol(req: Request): string {
    OrDefault(req.protocol, "http")
  }

  function Host(req: Request): string {
    OrDefault(req.host, "localhost:3000")
  }

  /** `${protocol}://${host}`: a URL that starts with a non-empty scheme
      and `://` and ends with a non-empty host, whatever the request gives. */
  function BaseUrl(req: Request): (r: string)
    ensures Protocol(req) != "" && Host(req) != ""
    ensures Protocol(req) + "://" <= r && EndsWith(r, Host(req))
  {
    var r := Protocol(req) + "://" + Host(req);
    assert r[..|Protocol(req)| + 3] == Protocol(req) + "://";
    assert r[|r| - |Host(req)|..] == Host(req);
    r
  }

  /** `request.originalUrl || request.url`. */
  function RequestUrl(req: Request): string {
    OrDefault(req.originalUrl, req.url)
  }

  /** `getCurrentPath`: the request URL with its query string removed. */
  function CurrentPath(req: Request): (r: string)
    ensures '?' !in r && r <= RequestUrl(req)
  {
    BeforeFirstIsPrefixUpToSeparator(RequestUrl(req), '?');
    BeforeFirst(RequestUrl(req), '?')
  }

  /** `getFullBaseUrl`: the base URL followed by the current path, with no
      query string when the scheme and host hold no `?`. */
  function FullBaseUrl(req: Request): (r: string)
    ensures BaseUrl(req) <= r
    ensures '?' !in Protocol(req) && '?' !in Host(req) ==> '?' !in r
  {
    var r := BaseUrl(req) + CurrentPath(req);
    assert r[..|BaseUrl(req)|] == BaseUrl(req);
    r
  }

  /** The absolute URL of the request, query included (`getSelfLink`). */
  function SelfUrl(req: Request): string {
    BaseUrl(req) + RequestUrl(req)
  }

  predicate EndsWith(s: string, suffix: string) {
    |suffix| <= |s| && s[|s| - |suffix|..] == suffix
  }

  /** The base URL falls back to `http` and `localhost:3000` exactly when the
      request gives no protocol or no host, and reads back to its scheme. */
  lemma BaseUrlFallbacks(req: Request)
    ensures !Given(req.protocol) ==> "http://" <= BaseUrl(req)
    ensures Given(req.protocol) ==> req.protocol.value + "://" <= BaseUrl(req)
    ensures !Given(req.host) ==> EndsWith(BaseUrl(req), "localhost:3000")
    ensures Given(req.host) ==> EndsWith(BaseUrl(req), req.host.value)
    ensures ':' !in Protocol(req) ==> BeforeFirst(BaseUrl(req), ':') == Protocol(req)
  {
    var p := Protocol(req);
    var b := BaseUrl(req);
    assert b == p + ("://" + Host(req));
    assert b[..|p| + 3] == p + "://";
    assert b[|b| - |Host(req)|..] == Host(req);
    if ':' !in p {
      BeforeFirstOfConcat(p, "://" + Host(req), ':');
      assert BeforeFirst("://" + Host(req), ':') == "";
    }
  }

  /** The current path holds no `?`, is a prefix of the request URL that
      stops at its first `?`, and stripping it again changes nothing. */
  lemma CurrentPathStripsQuery(req: Request)
    ensures '?' !in CurrentPath(req)
    ensures CurrentPath(req) <= RequestUrl(req)
    ensures |CurrentPath(req)| < |RequestUrl(req)| ==> RequestUrl(req)[|CurrentPath(req)|] == '?'
    ensures BeforeFirst(CurrentPath(req), '?') == CurrentPath(req)
  {
    BeforeFirstIsPrefixUpToSeparator(RequestUrl(req), '?');
    BeforeFirstIdempotent(RequestUrl(req), '?');
  }

  /** `originalUrl` wins over `url` whenever it is non-empty. */
  lemma CurrentPathPrefersOriginalUrl(req: Request, otherUrl: string)
    ensures Given(req.originalUrl) ==> CurrentPath(req.(url := otherUrl)) == CurrentPath(req)
    ensures Given(req.originalUrl) ==> SelfUrl(req.(url := otherUrl)) == SelfUrl(req)
    ensures !Given(req.originalUrl) ==> CurrentPath(req) == BeforeFirst(req.url, '?')
  {
  }

  /** `getFullBaseUrl` is the absolute request URL without its query string
      (when protocol and host hold no `?`). */
  lemma FullBaseUrlIsSelfUrlWithoutQuery(req: Request)
    requires '?' !in Protocol(req) && '?' !in Host(req)
    ensures FullBaseUrl(req) == BeforeFirst(SelfUrl(req), '?')
    ensures '?' !in FullBaseUrl(req)
  {
    assert '?' !in BaseUrl(req);
    BeforeFirstOfConcat(BaseUrl(req), RequestUrl(req), '?');
    CurrentPathStripsQuery(req);
  }
}
