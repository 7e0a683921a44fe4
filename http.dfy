/**
 * The slice of Go's `net/http` request that the middleware reads: method,
 * protocol major version, the parsed target URL (host, path, raw query) and the
 * header map. The request is a value: the middleware itself never changes it, it
 * only hands it on (with an identity attached, see module ApiKey).
 */
module Http {

  /** The fields of `url.URL` the URI normaliser looks at. */
  datatype URL = URL(host: string, path: string, rawQuery: string)

  datatype Request = Request(
    httpMethod: string,
    protoMajor: int,
    url: URL,
    header: map<string, seq<string>>
  )

  /**
   * `req.Header[name]`: a direct map index, so no key canonicalisation; a missing
   * key reads as Go's nil slice, which has length 0.
   */
  function HeaderValues(req: Request, name: string): (values: seq<string>)
    ensures |values| > 0 ==> name in req.header
    ensures name in req.header ==> values == req.header[name]
  {
    if name in req.header then req.header[name] else []
  }
}
