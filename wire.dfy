/** Values exchanged with the Transmission daemon: the JSON request and
    response envelopes (after encoding and decoding, which are abstracted
    away), the HTTP request the client builds, what the transport hands back,
    and the errors a call can end in. */
module Wire {

  /** Go's int64, the type of torrent identifiers. */
  type Int64 = x: int | -0x8000_0000_0000_0000 <= x < 0x8000_0000_0000_0000

  datatype Option<T> = None | Some(value: T)

  /** The header that carries the daemon's CSRF session token. */
  const SessionHeader: string := "X-Transmission-Session-Id"

  /** The only `result` value of a response envelope that is not an error. */
  const SuccessResult: string := "success"

  /** Every request envelope the client sends carries tag 1. */
  const RequestTag: int := 1

  /** A torrent snapshot: its identifier, and every other decoded field
      folded into an opaque payload. */
  datatype Torrent = Torrent(id: Int64, payload: string)

  /** The `arguments` object of a request envelope: the field list of a
      `torrent-get` (its names are not modelled), or the identifier list of a
      lifecycle call. */
  datatype Arguments = TorrentGet | TorrentIds(ids: seq<Int64>)

  /** A request envelope `{method, tag, arguments}`. */
  datatype Request = Request(rpcMethod: string, tag: int, arguments: Arguments)

  /** A decoded response envelope `{result, tag, arguments}`; the torrent
      list is empty for calls whose response has no such argument. */
  datatype Envelope = Envelope(result: string, tag: int, torrents: seq<Torrent>)

  /** What reading and decoding a response body yields. */
  datatype Body =
    | Unreadable(reason: string)     // reading the body failed
    | Undecodable(reason: string)    // the body is not a JSON envelope
    | Decodes(envelope: Envelope)

  /** An HTTP response: its status code, the values of the session header
      (None when the header is absent) and its body. */
  datatype HttpResponse = HttpResponse(status: int, sessionIds: Option<seq<string>>, body: Body)

  /** One use of the HTTP client: a transport error, or a response. */
  datatype Exchange = Failed(reason: string) | Replied(response: HttpResponse)

  datatype Credentials = Credentials(username: string, password: string)

  /** The POST the client sends: target URL, the values of the session
      header, the basic-authentication credentials if any, and the envelope
      that is its JSON body. */
  datatype HttpRequest = HttpRequest(url: string, sessionHeader: seq<string>, auth: Option<Credentials>, body: Request)

  /** How a call can fail. */
  datatype Error =
    | RequestRejected(url: string)   // http.NewRequest refused the URL
    | TransportFailed(reason: string) // the HTTP client reported an error
    | MissingSessionHeader           // a 409 without the session header
    | AmbiguousSessionHeader         // a 409 whose session header has not exactly one value
    | BodyUnreadable(reason: string)
    | DecodeFailed(reason: string)
    | DaemonError(result: string)    // the envelope's result was not "success"
  {
    /** The error's text. A daemon error is the result string verbatim. */
    function Message(): (m: string)
      ensures DaemonError? ==> m == result
      ensures MissingSessionHeader? ==> m == "409 response without " + SessionHeader
      ensures AmbiguousSessionHeader? ==> m == "409 with " + SessionHeader + ", but value is empty"
    {
      match this
      case RequestRejected(url) => "cannot build a request for " + url
      case TransportFailed(reason) => reason
      case MissingSessionHeader => "409 response without " + SessionHeader
      case AmbiguousSessionHeader => "409 with " + SessionHeader + ", but value is empty"
      case BodyUnreadable(reason) => reason
      case DecodeFailed(reason) => reason
      case DaemonError(result) => result
    }
  }

  datatype Result<T> = Ok(value: T) | Err(error: Error)

  /** The Go `error` return of the lifecycle calls: nil, or an error. */
  datatype Outcome = Pass | Fail(error: Error)
}
