/** The client's protocol as functions of values: how a POST is built and
    delivered, the session handshake with its single retry, the lifecycle
    dispatcher and the listing call. The client's object and the transport
    (module Client) are proved to behave exactly as these functions say. */
module Protocol {
  import opened Wire

  /** The client's state: daemon address, credentials, session token. */
  datatype Session = Session(address: string, username: string, password: string, sessionId: string)

  /** The transport's state: the exchanges still scripted for the coming
      posts, in order, and every request posted so far. */
  datatype Line = Line(script: seq<Exchange>, sent: seq<HttpRequest>)

  /** The transport failure of a post made after the script has run out. */
  const NoReply: string := "no reply"

  /** The 409 status by which the daemon asks for a fresh session token. */
  const Conflict: int := 409

  /** The POST for one envelope: to the client's address, with the current
      token as the only value of the session header (empty before the first
      handshake), and with basic authentication if and only if both the
      username and the password are non-empty. */
  function BuildRequest(s: Session, req: Request): (h: HttpRequest)
    ensures h.url == s.address && h.body == req
    ensures h.sessionHeader == [s.sessionId]
    ensures h.auth.Some? <==> s.username != "" && s.password != ""
    ensures h.auth.Some? ==> h.auth.value == Credentials(s.username, s.password)
  {
    var auth := if s.username != "" && s.password != "" then Some(Credentials(s.username, s.password)) else None;
    HttpRequest(s.address, [s.sessionId], auth, req)
  }

  /** The scripted transport: a post is logged and answered by the next
      scripted exchange, or fails once the script is used up. */
  function Deliver(l: Line, h: HttpRequest): (r: (Exchange, Line))
    ensures r.1.sent == l.sent + [h]
    ensures l.script != [] ==> r.0 == l.script[0] && r.1.script == l.script[1..]
    ensures l.script == [] ==> r.0 == Failed(NoReply) && r.1.script == []
  {
    if l.script == [] then (Failed(NoReply), Line([], l.sent + [h]))
    else (l.script[0], Line(l.script[1..], l.sent + [h]))
  }

  /** The script after k posts. */
  function Drop(script: seq<Exchange>, k: nat): seq<Exchange> {
    if k <= |script| then script[k..] else []
  }

  datatype Posted = Posted(reply: Result<HttpResponse>, line: Line)

  /** One post. `acceptsUrl` says which URLs the HTTP library can build a
      request for; a refused URL is an error and nothing is sent. */
  function Post(acceptsUrl: string -> bool, s: Session, l: Line, req: Request): (p: Posted)
    ensures !acceptsUrl(s.address) ==> p == Posted(Err(RequestRejected(s.address)), l)
    ensures acceptsUrl(s.address) ==>
              p.line == Line(Drop(l.script, 1), l.sent + [BuildRequest(s, req)])
    ensures p.reply.Ok? <==> acceptsUrl(s.address) && l.script != [] && l.script[0].Replied?
    ensures p.reply.Ok? ==> p.reply.value == l.script[0].response
    ensures acceptsUrl(s.address) && l.script != [] && l.script[0].Failed? ==>
              p.reply == Err(TransportFailed(l.script[0].reason))
    ensures acceptsUrl(s.address) && l.script == [] ==> p.reply == Err(TransportFailed(NoReply))
  {
    if !acceptsUrl(s.address) then Posted(Err(RequestRejected(s.address)), l)
    else
      var (e, l') := Deliver(l, BuildRequest(s, req));
      match e
      case Failed(reason) => Posted(Err(TransportFailed(reason)), l')
      case Replied(resp) => Posted(Ok(resp), l')
  }

  /** What the post looks like as the source writes it: the session header
      is stored on the request before the library's error is looked at, so a
      refused URL dereferences a nil request and panics. */
  datatype Crashable<T> = Returned(value: T) | Panicked(reason: string)

  function PostAsWritten(acceptsUrl: string -> bool, s: Session, l: Line, req: Request): (p: Crashable<Posted>)
    ensures p.Panicked? <==> !acceptsUrl(s.address)
  {
    if !acceptsUrl(s.address) then Panicked("nil pointer dereference")
    else Returned(Post(acceptsUrl, s, l, req))
  }

  /** Reading and decoding a response body. */
  function Decode(b: Body): (r: Result<Envelope>)
    ensures r.Ok? <==> b.Decodes?
    ensures r.Ok? ==> r.value == b.envelope
  {
    match b
    case Unreadable(reason) => Err(BodyUnreadable(reason))
    case Undecodable(reason) => Err(DecodeFailed(reason))
    case Decodes(env) => Ok(env)
  }

  /** The exchange answers a post with a 409 that carries exactly one
      session token: the only case in which the call is retried. */
  predicate Renews(e: Exchange) {
    e.Replied? && e.response.status == Conflict
    && e.response.sessionIds.Some? && |e.response.sessionIds.value| == 1
  }

  function RenewedId(e: Exchange): string
    requires Renews(e)
  {
    e.response.sessionIds.value[0]
  }

  datatype RpcRun = RpcRun(result: Result<Envelope>, session: Session, line: Line)

  /** One RPC with the session handshake. */
  function Rpc(acceptsUrl: string -> bool, s: Session, l: Line, req: Request): (run: RpcRun)
    // only the session token can change
    ensures run.session == s.(sessionId := run.session.sessionId)
    // one or two posts, appended to the log and answered from the script
    ensures |l.sent| <= |run.line.sent| <= |l.sent| + 2
    ensures run.line.sent[..|l.sent|] == l.sent
    ensures run.line.script == Drop(l.script, |run.line.sent| - |l.sent|)
    // nothing is sent when the URL is refused; otherwise the first post
    // carries the token the client had
    ensures !acceptsUrl(s.address) ==> run == RpcRun(Err(RequestRejected(s.address)), s, l)
    ensures acceptsUrl(s.address) ==>
              |run.line.sent| > |l.sent| && run.line.sent[|l.sent|] == BuildRequest(s, req)
    // a second post is made exactly when the first reply renews the token
    ensures |run.line.sent| == |l.sent| + 2 <==> acceptsUrl(s.address) && l.script != [] && Renews(l.script[0])
    // then the token is stored, and the retry carries it
    ensures |run.line.sent| == |l.sent| + 2 ==>
              run.session.sessionId == RenewedId(l.script[0])
              && run.line.sent[|l.sent| + 1] == BuildRequest(run.session, req)
    ensures |run.line.sent| < |l.sent| + 2 ==> run.session == s
    // the failures that stop the call after one post
    ensures acceptsUrl(s.address) && (l.script == [] || l.script[0].Failed?) ==>
              run.result == Err(TransportFailed(if l.script == [] then NoReply else l.script[0].reason))
    ensures acceptsUrl(s.address) && l.script != [] && l.script[0].Replied?
            && l.script[0].response.status == Conflict ==>
              (l.script[0].response.sessionIds.None? ==> run.result == Err(MissingSessionHeader))
              && (l.script[0].response.sessionIds.Some? && |l.script[0].response.sessionIds.value| != 1 ==>
                    run.result == Err(AmbiguousSessionHeader))
    // a reply other than 409 is decoded as it is
    ensures acceptsUrl(s.address) && l.script != [] && l.script[0].Replied?
            && l.script[0].response.status != Conflict ==>
              run.result == Decode(l.script[0].response.body)
    // the retry's outcome is passed on as it is: its transport failure, or
    // the decoded body of its reply, whatever its status (a second 409 is
    // not retried)
    ensures |run.line.sent| == |l.sent| + 2 ==>
              run.result == (if |l.script| < 2 then Err(TransportFailed(NoReply))
                             else if l.script[1].Failed? then Err(TransportFailed(l.script[1].reason))
                             else Decode(l.script[1].response.body))
    // the envelope of a successful call is the body of the last reply
    ensures run.result.Ok? ==>
              var k := |run.line.sent| - |l.sent|;
              k <= |l.script| && l.script[k - 1].Replied?
              && l.script[k - 1].response.body == Decodes(run.result.value)
  {
    var first := Post(acceptsUrl, s, l, req);
    match first.reply
    case Err(e) => RpcRun(Err(e), s, first.line)
    case Ok(resp) =>
      if resp.status != Conflict then RpcRun(Decode(resp.body), s, first.line)
      else
        match resp.sessionIds
        case None => RpcRun(Err(MissingSessionHeader), s, first.line)
        case Some(ids) =>
          if |ids| != 1 then RpcRun(Err(AmbiguousSessionHeader), s, first.line)
          else
            var renewed := s.(sessionId := ids[0]);
            var second := Post(acceptsUrl, renewed, first.line, req);
            assert Drop(first.line.script, 1) == Drop(l.script, 2);
            match second.reply
            case Err(e) => RpcRun(Err(e), renewed, second.line)
            case Ok(resp2) => RpcRun(Decode(resp2.body), renewed, second.line)
  }

  datatype CallRun<T> = CallRun(outcome: T, session: Session, line: Line)

  /** The envelope of a lifecycle call. */
  function LifecycleRequest(rpcMethod: string, ids: seq<Int64>): Request {
    Request(rpcMethod, RequestTag, TorrentIds(ids))
  }

  /** A lifecycle call (start, stop, ...) on the given torrents. */
  function TorrentRequests(acceptsUrl: string -> bool, s: Session, l: Line, rpcMethod: string, ids: seq<Int64>)
    : (run: CallRun<Outcome>)
    // no identifiers: success, and no request at all
    ensures ids == [] ==> run == CallRun(Pass, s, l)
    // otherwise one RPC of the method with exactly these identifiers
    ensures ids != [] ==>
              run.session == Rpc(acceptsUrl, s, l, LifecycleRequest(rpcMethod, ids)).session
              && run.line == Rpc(acceptsUrl, s, l, LifecycleRequest(rpcMethod, ids)).line
    ensures ids != [] && acceptsUrl(s.address) ==>
              run.line.sent[|l.sent|].body == LifecycleRequest(rpcMethod, ids)
    // success exactly when the daemon's result is "success"
    ensures ids != [] ==>
              (run.outcome == Pass <==>
                 Rpc(acceptsUrl, s, l, LifecycleRequest(rpcMethod, ids)).result.Ok?
                 && Rpc(acceptsUrl, s, l, LifecycleRequest(rpcMethod, ids)).result.value.result == SuccessResult)
    // any other result is the error, verbatim; a failed RPC is passed on
    ensures ids != [] && Rpc(acceptsUrl, s, l, LifecycleRequest(rpcMethod, ids)).result.Ok? && run.outcome.Fail? ==>
              run.outcome.error == DaemonError(Rpc(acceptsUrl, s, l, LifecycleRequest(rpcMethod, ids)).result.value.result)
              && run.outcome.error.Message() == Rpc(acceptsUrl, s, l, LifecycleRequest(rpcMethod, ids)).result.value.result
    ensures ids != [] && Rpc(acceptsUrl, s, l, LifecycleRequest(rpcMethod, ids)).result.Err? ==>
              run.outcome == Fail(Rpc(acceptsUrl, s, l, LifecycleRequest(rpcMethod, ids)).result.error)
  {
    if |ids| == 0 then CallRun(Pass, s, l)
    else
      var rpc := Rpc(acceptsUrl, s, l, LifecycleRequest(rpcMethod, ids));
      match rpc.result
      case Err(e) => CallRun(Fail(e), rpc.session, rpc.line)
      case Ok(env) =>
        if env.result != SuccessResult then CallRun(Fail(DaemonError(env.result)), rpc.session, rpc.line)
        else CallRun(Pass, rpc.session, rpc.line)
  }

  /** The envelope of the listing call. */
  const ListRequest: Request := Request("torrent-get", RequestTag, TorrentGet)

  /** The listing call: the daemon's torrents in the order it sent them. */
  function ListAll(acceptsUrl: string -> bool, s: Session, l: Line): (run: CallRun<Result<seq<Torrent>>>)
    ensures run.session == Rpc(acceptsUrl, s, l, ListRequest).session
    ensures run.line == Rpc(acceptsUrl, s, l, ListRequest).line
    ensures run.outcome.Ok? <==>
              Rpc(acceptsUrl, s, l, ListRequest).result.Ok?
              && Rpc(acceptsUrl, s, l, ListRequest).result.value.result == SuccessResult
    ensures run.outcome.Ok? ==> run.outcome.value == Rpc(acceptsUrl, s, l, ListRequest).result.value.torrents
    ensures Rpc(acceptsUrl, s, l, ListRequest).result.Ok? && run.outcome.Err? ==>
              run.outcome.error == DaemonError(Rpc(acceptsUrl, s, l, ListRequest).result.value.result)
    ensures Rpc(acceptsUrl, s, l, ListRequest).result.Err? ==>
              run.outcome == Err(Rpc(acceptsUrl, s, l, ListRequest).result.error)
  {
    var rpc := Rpc(acceptsUrl, s, l, ListRequest);
    match rpc.result
    case Err(e) => CallRun(Err(e), rpc.session, rpc.line)
    case Ok(env) =>
      if env.result != SuccessResult then CallRun(Err(DaemonError(env.result)), rpc.session, rpc.line)
      else CallRun(Ok(env.torrents), rpc.session, rpc.line)
  }

  /** The identifiers of some torrents, in their order. */
  function Ids(torrents: seq<Torrent>): seq<Int64> {
    if torrents == [] then [] else [torrents[0].id] + Ids(torrents[1..])
  }

  lemma {:induction false} IdsAt(torrents: seq<Torrent>)
    ensures |Ids(torrents)| == |torrents|
    ensures forall i :: 0 <= i < |torrents| ==> Ids(torrents)[i] == torrents[i].id
  {
    if torrents != [] {
      IdsAt(torrents[1..]);
      forall i | 0 <= i < |torrents| ensures Ids(torrents)[i] == torrents[i].id {
        if i > 0 {
          assert Ids(torrents)[i] == Ids(torrents[1..])[i - 1];
        }
      }
    }
  }
}
