/** The parts of `http.Request` and `http.Response` the proxy edits in place. */
module Messages {
  import opened Headers

  /** The outbound request the Director rewrites. */
  class Request {
    var verb: string          // Method
    var path: string          // URL.Path
    var scheme: string        // URL.Scheme
    var urlHost: string       // URL.Host: where the transport dials
    var rawQuery: string      // URL.RawQuery
    var host: string          // Host: what the request names as its host
    var requestUri: string    // RequestURI
    var proto: string
    var protoMajor: int
    var protoMinor: int
    var header: Header

    constructor (verb: string, path: string, rawQuery: string, header: Header)
      ensures this.verb == verb && this.path == path && this.rawQuery == rawQuery && this.header == header
    {
      this.verb := verb;
      this.path := path;
      this.rawQuery := rawQuery;
      this.header := header;
    }
  }

  /** The upstream's response before it is copied back to the caller. */
  class UpstreamResponse {
    var header: Header

    constructor (header: Header)
      ensures this.header == header
    {
      this.header := header;
    }
  }
}
