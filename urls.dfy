/** An absolute URL, already split into the components `System.Uri` exposes. */
module Urls {

  /** `host` is the canonical `Uri.Host`, which `System.Uri` lower-cases for
      DNS names; `path` is the absolute path (`Uri.AbsolutePath`), `query`
      includes its leading `?` and `fragment` its leading `#` when present. */
  datatype Url = Url(
    scheme: string,
    host: string,
    port: int,
    path: string,
    query: string,
    fragment: string)
  {
    /** The same resource (path, query and fragment) as `other`, whatever the authority. */
    predicate SameResource(other: Url)
    {
      path == other.path && query == other.query && fragment == other.fragment
    }
  }
}
