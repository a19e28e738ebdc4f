# Transmission RPC client: a Dafny model

This project models `transmission_go_api`, a Go client for the JSON RPC
interface of the Transmission BitTorrent daemon. The model covers five parts:

- **Address normalisation** (`New`): `http://` is added when the address
  does not start with `http`, and `/transmission/rpc` is added when the
  address does not end with it.
- **The session handshake** (`postRequest`, `doRPC`): the CSRF protection of
  section 2.3.1 of Transmission's `rpc-spec.txt`. Every POST carries the
  current `X-Transmission-Session-Id`. A 409 reply that carries exactly one
  token makes the client store that token and retry once.
- **Basic authentication**, attached when both credentials are non-empty.
- **The lifecycle dispatcher** (`torrentRequests`) and its twelve wrappers,
  plus the listing call's result check (`ListAll`).
- **The identifier projection** (`torrentsToIds`).

Modules:

- `Wire` (wire.dfy): the envelopes, the HTTP request and response as
  values, and the errors.
- `Address` (address.dfy): the address rewrite.
- `Protocol` (protocol.dfy): each operation as a function of values. These
  functions carry the properties.
- `Client` (client.dfy): the `Transmission` object, whose only mutable field
  is `sessionId`, and the `Transport` it posts through. Each method's
  postcondition equates its result and the new state of both objects with
  the matching `Protocol` function applied to the old state. Everything
  proved about `Protocol` therefore holds of the objects.
- `GoFormat` (goformat.dfy): Go's `fmt.Errorf` with no operands. It is
  needed for a finding.
- `Scenarios` (scenarios.dfy): concrete runs against scripted daemons.

The network is a scripted oracle. A `Transport` holds three things:

- the exchanges that answer the coming posts, in order. Each exchange is a
  transport failure, or a status, the session header's values (absent, or a
  list) and a body.
- a ghost log of every request posted: URL, session header values,
  credentials and envelope.
- `acceptsUrl`, which stands for whether Go's HTTP library can build a
  request for a URL.

A post made after the script has run out is a transport failure. JSON
encoding and decoding are abstracted. A body is unreadable, undecodable, or
decodes to an envelope (result string, tag, torrents).

One quirk of `New` came out of the proof (`Address.SchemeKeepsSuffix`). The
suffix test runs after `http://` has been added, so the address
`transmission/rpc` becomes `http://transmission/rpc`: the slash of the
scheme completes the path, and no path is appended. `Address.Normalize`
states the rewrite with this case included.

## Model

| member | source | states |
|---|---|---|
| `Address.Normalize` | transmission_go_api.go:37-43 | The result starts with `http` and ends with `/transmission/rpc`. It is the address with `http://` put in front exactly when the address lacks the `http` prefix, and the path appended exactly when the address neither ends with it nor is `transmission/rpc`. It equals the input if and only if the input already has both. |
| `Address.SchemeKeepsSuffix` | transmission_go_api.go:38-42 | Adding `http://` makes the path suffix appear only for the address `transmission/rpc`. Otherwise the suffix test on the rewritten address agrees with the test on the raw one. |
| `Address.NormalizeIdempotent` | transmission_go_api.go:38-43 | Normalising twice gives the same address as normalising once. |
| `Address.NormalizeBareHost` | transmission_go_api.go:38-43 | `localhost:9091` becomes `http://localhost:9091/transmission/rpc`. |
| `Address.NormalizeFullUrl` | transmission_go_api.go:38-43 | `https://host/transmission/rpc` is left unchanged. |
| `Address.NormalizePathOnly` | transmission_go_api.go:38-43 | `transmission/rpc` becomes `http://transmission/rpc`, with no second path. |
| `Client.Transmission.constructor` | transmission_go_api.go:37-50 | A new client has the normalised address, the username and password exactly as given, and an empty session token. |
| `Protocol.BuildRequest` | transmission_go_api.go:159-167 | A post goes to the client's address and carries the envelope. Its session header has exactly one value, the current token. Basic authentication with the client's credentials is attached if and only if both are non-empty. |
| `Protocol.Deliver` | transmission_go_api.go:169 | The transport logs the request and answers it with the next scripted exchange. If the script is exhausted, the answer is a failure. |
| `Protocol.Post` | transmission_go_api.go:152-174 | A URL the HTTP library refuses gives an error, and nothing is sent and nothing is consumed. Otherwise exactly one request, the one `BuildRequest` makes, is logged, and one exchange is consumed. The result is that exchange's response, or its transport error. |
| `Protocol.PostAsWritten` | transmission_go_api.go:160-164 | As written, the post panics if and only if the library refuses the URL, because the header is stored on the nil request before the error is checked. |
| `Protocol.Decode` | transmission_go_api.go:201-209 | Reading and decoding succeed exactly when the body is an envelope, and then they yield that envelope. |
| `Protocol.Rpc` | transmission_go_api.go:176-210 | One RPC appends at most two requests to the log. It appends none when the library refuses the URL; that error is returned and nothing changes. Otherwise it appends one or two, and consumes one scripted exchange per post while the script lasts. Only the session token can change. A second post happens if and only if the first reply is a 409 with exactly one token. In that case the token is stored and the retry carries it. The retry's outcome is passed on as it is: its transport failure, or the decode of its reply's body, so a second 409 is decoded and not retried. A missing header, a header without exactly one value, and a transport failure each end the call after one post, with the token unchanged. A non-409 reply is decoded as it is. A successful result is the decoded body of the last reply. |
| `Protocol.TorrentRequests` | transmission_go_api.go:342-364 | With no identifiers, the call succeeds and sends nothing and changes nothing. Otherwise it performs one RPC carrying exactly the method and identifiers. It succeeds if and only if the RPC succeeds with result `"success"`. Any other result becomes the error, with that string as its text. An RPC error is passed on. |
| `Protocol.ListAll` | transmission_go_api.go:317-325 | The listing call performs one `torrent-get` RPC. It succeeds if and only if the result is `"success"`, and then returns the daemon's torrents in the daemon's order. Otherwise it fails with the result string or the RPC's error. |
| `Protocol.Renews` | transmission_go_api.go:186-194 | By definition, the retry condition: the reply is a 409 whose session header is present with exactly one value. |
| `Protocol.LifecycleRequest` | transmission_go_api.go:346-354 | By definition, the envelope of a lifecycle call: the given method, tag 1, and the identifiers as the only argument. |
| `Protocol.Ids` | transmission_go_api.go:366-372 | By definition, the torrents' identifiers in the torrents' order; `Protocol.IdsAt` states its length and elements. |
| `Protocol.IdsAt` | transmission_go_api.go:366-372 | The identifier projection has the same length as the torrent list, and its i-th element is the i-th torrent's id. |
| `Wire.Error.Message` | transmission_go_api.go:187-193 | A daemon error's text is the result string verbatim. A 409 without the header reads `409 response without X-Transmission-Session-Id`, and a 409 whose header has not exactly one value reads `409 with X-Transmission-Session-Id, but value is empty`. |
| `Client.Transport.Do` | transmission_go_api.go:169 | The oracle's state after a post is what `Protocol.Deliver` says, and so is the exchange it returns. |
| `Client.Transmission.PostRequest` | transmission_go_api.go:152-174 | Its result and the transport's new state are exactly `Protocol.Post` of the old state. |
| `Client.Transmission.DoRpc` | transmission_go_api.go:176-210 | Its result, the client's new token and the transport's new state are exactly `Protocol.Rpc` of the old states. |
| `Client.Transmission.ListAll` | transmission_go_api.go:232-326 | Its result and the new states are exactly `Protocol.ListAll` of the old states. |
| `Client.Transmission.TorrentRequests` | transmission_go_api.go:342-364 | Its result and the new states are exactly `Protocol.TorrentRequests` of the old states. |
| `Client.Transmission.Start` | transmission_go_api.go:380-382 | Behaves as `Protocol.TorrentRequests` with method `torrent-start`. |
| `Client.Transmission.StartNow` | transmission_go_api.go:388-390 | Behaves as `Protocol.TorrentRequests` with method `torrent-start-now`. |
| `Client.Transmission.Stop` | transmission_go_api.go:396-398 | Behaves as `Protocol.TorrentRequests` with method `torrent-stop`. |
| `Client.Transmission.Verify` | transmission_go_api.go:404-406 | Behaves as `Protocol.TorrentRequests` with method `torrent-verify`. |
| `Client.Transmission.Reannounce` | transmission_go_api.go:412-414 | Behaves as `Protocol.TorrentRequests` with method `torrent-reannounce`. |
| `Client.Transmission.Remove` | transmission_go_api.go:420-423 | Behaves as `Protocol.TorrentRequests` with method `torrent-remove`. |
| `Client.Transmission.StartTorrents` | transmission_go_api.go:376-378 | Behaves as `Start` on the torrents' identifiers, in order. |
| `Client.Transmission.StartNowTorrents` | transmission_go_api.go:384-386 | Behaves as `StartNow` on the torrents' identifiers, in order. |
| `Client.Transmission.StopTorrents` | transmission_go_api.go:392-394 | Behaves as `Stop` on the torrents' identifiers, in order. |
| `Client.Transmission.VerifyTorrents` | transmission_go_api.go:400-402 | Behaves as `Verify` on the torrents' identifiers, in order. |
| `Client.Transmission.ReannounceTorrents` | transmission_go_api.go:408-410 | Behaves as `Reannounce` on the torrents' identifiers, in order. |
| `Client.Transmission.RemoveTorrents` | transmission_go_api.go:416-418 | Behaves as `Remove` on the torrents' identifiers, in order. |
| `Client.TorrentsToIds` | transmission_go_api.go:366-372 | The loop returns a list as long as the input, whose i-th element is the i-th torrent's id. |
| `GoFormat.ErrorfNoArgs` | transmission_go_api.go:323 | By definition, the text of Go's `fmt.Errorf` given the daemon's result as the format and no operands: literal text is copied, `%%` prints `%`, a trailing `%` prints `%!(NOVERB)`, and any other verb prints `%!<verb>(MISSING)`. Directives with a width, a precision or an argument index give `None`. |
| `GoFormat.ErrorfLiteralPrefix` | transmission_go_api.go:323 | `fmt.Errorf` copies the text before the first `%` unchanged. |
| `GoFormat.ErrorfVerbatim` | transmission_go_api.go:361 | A result string without `%` becomes an error whose text is that string, so the source and the corrected model agree on such strings. |
| `GoFormat.ErrorfMissingVerb` | transmission_go_api.go:361 | As written, the result `50% done` becomes the error text `50%!d(MISSING)one`. |
| `GoFormat.ErrorfNoVerb` | transmission_go_api.go:323 | As written, the result `100%` becomes the error text `100%!(NOVERB)`. |
| `Scenarios.HandshakeThenSuccess` | transmission_go_api.go:186-195 | A new client's first call gets a 409 carrying `abc123`. The first post carries an empty token and the second carries `abc123`. The client keeps the token, and the call succeeds. |
| `Scenarios.SecondConflictNotRetried` | transmission_go_api.go:195-209 | A second 409 is not retried. Its body is decoded and fails, after exactly two posts. |
| `Scenarios.ConflictWithoutToken` | transmission_go_api.go:187-190 | A 409 without the header fails after one post, and the token stays empty. |
| `Scenarios.DaemonErrorVerbatim` | transmission_go_api.go:360-361 | The result `duplicate torrent` becomes an error whose text is exactly `duplicate torrent`. |
| `Scenarios.ListingInDaemonOrder` | transmission_go_api.go:322-325 | The listing returns torrents 1 and 2 in the order the daemon sent them. |
| `Scenarios.EmptyIdsSendNothing` | transmission_go_api.go:343-345 | An empty identifier list succeeds and leaves the transport untouched. |
| `Scenarios.RefusedUrlPanics` | transmission_go_api.go:160-164 | For the address `my host`, whose URL has a space that the parser refuses, the post as written panics. The corrected post returns an error and sends nothing. |

## Left out

- Real HTTP: `http.Client`, `http.NewRequest` and `cli.Do` are replaced by the scripted `Transport`. URL parsing is the oracle's `acceptsUrl`. The text of the library's errors is an opaque string.
- Reading the body with `ioutil.ReadAll`, and JSON encoding and decoding: a body is modelled as already unreadable, undecodable or decoded. `json.Marshal` of the request envelopes is not modelled, since these types always encode. The response tag is carried but never inspected, as in the source.
- The Torrent, File, FileStats and Peer records: a torrent is its identifier plus an opaque payload. The field-name list requested by `ListAll` (transmission_go_api.go:239-314) is not modelled, since it is a fixed list of the daemon's schema.
- Protocol.ListAll: a `"success"` envelope without `arguments` makes the source dereference a nil pointer. In the model every decoded envelope carries a torrent list, possibly empty, because the daemon's protocol always sends `arguments`.
- Protocol.Decode: decoding is abstract, and three nil cases of the source are not modelled. (a) The response types embed a pointer to `responseBase` that starts nil (transmission_go_api.go:227-230, 317, 338-340, 355). A body that decodes without `result` or `tag`, such as `{}`, leaves it nil, and reading `resp.Result` at lines 322 and 360 then panics; the model reads such a body as an envelope with a result string. (b) Whether `encoding/json` can fill that embedded pointer to an unexported type depends on the Go version; where it cannot, every body carrying `result` or `tag` is a decode error and the success paths of `TorrentRequests` and `ListAll` are unreachable. The model assumes a decoder that fills it. (c) A `null` element of the torrent list makes `torrentsToIds` dereference nil at line 369; the model's torrents cannot be nil.
- Wire.Error.Message: the texts of transport, decode and URL errors are not Go's, which come from libraries outside this model. Only the daemon-error text and the two handshake texts are stated.
- Logging (`log.Printf`, `glog`) and the `TR_STATUS_*` constants: they have no effect on behaviour.
- The command-line tool tools/transmission_cli.go: it is flag parsing and printing around a single client call.
- Concurrency: the client is used from one thread, and the unguarded token update is not modelled.
- New's always-nil error result: the constructor cannot fail, as in the source.
- `cli.Do` returning a response together with an error: doRPC looks only at the error in that case, and so does the model.

## Findings

| source | as written | input that shows it | evidently intended | confidence | as-written member | corrected member |
|---|---|---|---|---|---|---|
| transmission_go_api.go:160-164 | The session header is stored on the result of `http.NewRequest` before that call's error is checked. A URL the library refuses leaves the request nil, so the assignment panics. | `New("my host", "", "")`, then any call: the URL `http://my host/transmission/rpc` has a space in the host | Return the library's error, as the next line tries to | high (not executed) | `Protocol.PostAsWritten`, `Scenarios.RefusedUrlPanics` | `Protocol.Post` |
| transmission_go_api.go:323, transmission_go_api.go:361 | The daemon's result string is passed to `fmt.Errorf` as the format. Any `%` in it is read as a directive. | result `50% done` gives the error text `50%!d(MISSING)one`; result `100%` gives `100%!(NOVERB)` | An error whose text is the result string verbatim | high (not executed) | `GoFormat.ErrorfNoArgs`, `GoFormat.ErrorfMissingVerb`, `GoFormat.ErrorfNoVerb` | `Wire.Error.Message` (daemon errors), used by `Protocol.TorrentRequests` and `Protocol.ListAll` |

The corrected members are the ones the rest of the model uses.
`GoFormat.ErrorfNoArgs` models only directives made of flags and a verb.
A directive with a width, a precision or an argument index gives `None`.
