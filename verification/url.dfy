/**
 * The two ways the handlers read request parameters: `r.URL.Query().Get(key)`
 * (net/url, already percent- and `+`-decoded) and `chi.URLParam(r, key)`.
 */
module Url {

  /** `url.Values`: each query key with its values in order. */
  type Values = map<string, seq<string>>

  /** `Values.Get`: the first value of `key`, or "" when it has none. */
  function Get(v: Values, key: string): string
  {
    if key in v && |v[key]| > 0 then v[key][0] else ""
  }

  /** The route parameters chi matched for a request. */
  type RouteParams = map<string, string>

  /** `chi.URLParam`: the matched value of `key`, or "" when the route has no such parameter. */
  function URLParam(params: RouteParams, key: string): string
  {
    if key in params then params[key] else ""
  }
}
