/** The client object and the HTTP transport it posts through. The
    Transmission object keeps the daemon address, the credentials and the
    session token; the token is its only field that changes. Every method is
    proved to do exactly what the matching function of module Protocol says,
    so the properties proved there hold of the objects. */
module Client {
  import opened Wire
  import opened Protocol
  import Address

  /** The HTTP layer as a scripted oracle. `acceptsUrl` says which URLs a
      request can be built for; `script` holds the exchanges that answer the
      coming posts; `sent` logs every request posted. */
  class Transport {
    const acceptsUrl: string -> bool
    var script: seq<Exchange>
    ghost var sent: seq<HttpRequest>

    constructor (acceptsUrl: string -> bool, script: seq<Exchange>)
      ensures this.acceptsUrl == acceptsUrl
      ensures State() == Line(script, [])
    {
      this.acceptsUrl := acceptsUrl;
      this.script := script;
      sent := [];
    }

    ghost function State(): Line
      reads this
    {
      Line(script, sent)
    }

    /** Sends one request and returns the next scripted exchange. */
    method Do(h: HttpRequest) returns (e: Exchange)
      modifies this
      ensures (e, State()) == Deliver(old(State()), h)
    {
      if script == [] {
        e := Failed(NoReply);
      } else {
        e := script[0];
        script := script[1..];
      }
      sent := sent + [h];
    }
  }

  /** A client of one daemon. */
  class Transmission {
    const address: string
    const username: string
    const password: string
    var sessionId: string

    /** A client for the given address, normalised, with the credentials as
        given and no session token yet. */
    constructor (address: string, username: string, password: string)
      ensures State() == Session(Address.Normalize(address), username, password, "")
    {
      this.address := Address.Normalize(address);
      this.username := username;
      this.password := password;
      sessionId := "";
    }

    function State(): Session
      reads this
    {
      Session(address, username, password, sessionId)
    }

    /** Builds the POST for an envelope and hands it to the transport. */
    method PostRequest(net: Transport, req: Request) returns (r: Result<HttpResponse>)
      modifies net
      ensures Posted(r, net.State()) == Post(net.acceptsUrl, State(), old(net.State()), req)
    {
      if !net.acceptsUrl(address) {
        return Err(RequestRejected(address));
      }
      var h := HttpRequest(address, [sessionId], None, req);
      if username != "" && password != "" {
        h := h.(auth := Some(Credentials(username, password)));
      }
      var e := net.Do(h);
      match e
      case Failed(reason) => r := Err(TransportFailed(reason));
      case Replied(resp) => r := Ok(resp);
    }

    /** One RPC: posts the envelope, and on a 409 that carries exactly one
        session token stores the token and posts once more. */
    method DoRpc(net: Transport, req: Request) returns (r: Result<Envelope>)
      modifies this, net
      ensures RpcRun(r, State(), net.State()) == Rpc(net.acceptsUrl, old(State()), old(net.State()), req)
    {
      var reply := PostRequest(net, req);
      if reply.Err? {
        return Err(reply.error);
      }
      var resp := reply.value;
      if resp.status == Conflict {
        if resp.sessionIds.None? {
          return Err(MissingSessionHeader);
        }
        var ids := resp.sessionIds.value;
        if |ids| != 1 {
          return Err(AmbiguousSessionHeader);
        }
        sessionId := ids[0];
        reply := PostRequest(net, req);
        if reply.Err? {
          return Err(reply.error);
        }
        resp := reply.value;
      }
      match resp.body
      case Unreadable(reason) => r := Err(BodyUnreadable(reason));
      case Undecodable(reason) => r := Err(DecodeFailed(reason));
      case Decodes(env) => r := Ok(env);
    }

    /** Lists every torrent, in the daemon's order. */
    method ListAll(net: Transport) returns (r: Result<seq<Torrent>>)
      modifies this, net
      ensures CallRun(r, State(), net.State()) == Protocol.ListAll(net.acceptsUrl, old(State()), old(net.State()))
    {
      var resp := DoRpc(net, ListRequest);
      if resp.Err? {
        return Err(resp.error);
      }
      if resp.value.result != SuccessResult {
        return Err(DaemonError(resp.value.result));
      }
      r := Ok(resp.value.torrents);
    }

    /** A lifecycle call; no request at all for an empty identifier list. */
    method TorrentRequests(net: Transport, rpcMethod: string, ids: seq<Int64>) returns (r: Outcome)
      modifies this, net
      ensures CallRun(r, State(), net.State())
              == Protocol.TorrentRequests(net.acceptsUrl, old(State()), old(net.State()), rpcMethod, ids)
    {
      if |ids| == 0 {
        return Pass;
      }
      var resp := DoRpc(net, LifecycleRequest(rpcMethod, ids));
      if resp.Err? {
        return Fail(resp.error);
      }
      if resp.value.result != SuccessResult {
        return Fail(DaemonError(resp.value.result));
      }
      r := Pass;
    }

    method Start(net: Transport, ids: seq<Int64>) returns (r: Outcome)
      modifies this, net
      ensures CallRun(r, State(), net.State())
              == Protocol.TorrentRequests(net.acceptsUrl, old(State()), old(net.State()), "torrent-start", ids)
    {
      r := TorrentRequests(net, "torrent-start", ids);
    }

    method StartNow(net: Transport, ids: seq<Int64>) returns (r: Outcome)
      modifies this, net
      ensures CallRun(r, State(), net.State())
              == Protocol.TorrentRequests(net.acceptsUrl, old(State()), old(net.State()), "torrent-start-now", ids)
    {
      r := TorrentRequests(net, "torrent-start-now", ids);
    }

    method Stop(net: Transport, ids: seq<Int64>) returns (r: Outcome)
      modifies this, net
      ensures CallRun(r, State(), net.State())
              == Protocol.TorrentRequests(net.acceptsUrl, old(State()), old(net.State()), "torrent-stop", ids)
    {
      r := TorrentRequests(net, "torrent-stop", ids);
    }

    method Verify(net: Transport, ids: seq<Int64>) returns (r: Outcome)
      modifies this, net
      ensures CallRun(r, State(), net.State())
              == Protocol.TorrentRequests(net.acceptsUrl, old(State()), old(net.State()), "torrent-verify", ids)
    {
      r := TorrentRequests(net, "torrent-verify", ids);
    }

    method Reannounce(net: Transport, ids: seq<Int64>) returns (r: Outcome)
      modifies this, net
      ensures CallRun(r, State(), net.State())
              == Protocol.TorrentRequests(net.acceptsUrl, old(State()), old(net.State()), "torrent-reannounce", ids)
    {
      r := TorrentRequests(net, "torrent-reannounce", ids);
    }

    /** Removes torrents, keeping their downloaded data. */
    method Remove(net: Transport, ids: seq<Int64>) returns (r: Outcome)
      modifies this, net
      ensures CallRun(r, State(), net.State())
              == Protocol.TorrentRequests(net.acceptsUrl, old(State()), old(net.State()), "torrent-remove", ids)
    {
      r := TorrentRequests(net, "torrent-remove", ids);
    }

    method StartTorrents(net: Transport, torrents: seq<Torrent>) returns (r: Outcome)
      modifies this, net
      ensures CallRun(r, State(), net.State())
              == Protocol.TorrentRequests(net.acceptsUrl, old(State()), old(net.State()), "torrent-start", Ids(torrents))
    {
      var ids := TorrentsToIds(torrents);
      r := Start(net, ids);
    }

    method StartNowTorrents(net: Transport, torrents: seq<Torrent>) returns (r: Outcome)
      modifies this, net
      ensures CallRun(r, State(), net.State())
              == Protocol.TorrentRequests(net.acceptsUrl, old(State()), old(net.State()), "torrent-start-now", Ids(torrents))
    {
      var ids := TorrentsToIds(torrents);
      r := StartNow(net, ids);
    }

    method StopTorrents(net: Transport, torrents: seq<Torrent>) returns (r: Outcome)
      modifies this, net
      ensures CallRun(r, State(), net.State())
              == Protocol.TorrentRequests(net.acceptsUrl, old(State()), old(net.State()), "torrent-stop", Ids(torrents))
    {
      var ids := TorrentsToIds(torrents);
      r := Stop(net, ids);
    }

    method VerifyTorrents(net: Transport, torrents: seq<Torrent>) returns (r: Outcome)
      modifies this, net
      ensures CallRun(r, State(), net.State())
              == Protocol.TorrentRequests(net.acceptsUrl, old(State()), old(net.State()), "torrent-verify", Ids(torrents))
    {
      var ids := TorrentsToIds(torrents);
      r := Verify(net, ids);
    }

    method ReannounceTorrents(net: Transport, torrents: seq<Torrent>) returns (r: Outcome)
      modifies this, net
      ensures CallRun(r, State(), net.State())
              == Protocol.TorrentRequests(net.acceptsUrl, old(State()), old(net.State()), "torrent-reannounce", Ids(torrents))
    {
      var ids := TorrentsToIds(torrents);
      r := Reannounce(net, ids);
    }

    method RemoveTorrents(net: Transport, torrents: seq<Torrent>) returns (r: Outcome)
      modifies this, net
      ensures CallRun(r, State(), net.State())
              == Protocol.TorrentRequests(net.acceptsUrl, old(State()), old(net.State()), "torrent-remove", Ids(torrents))
    {
      var ids := TorrentsToIds(torrents);
      r := Remove(net, ids);
    }
  }

  /** The identifiers of some torrents, in the same order. */
  method TorrentsToIds(torrents: seq<Torrent>) returns (ids: seq<Int64>)
    ensures |ids| == |torrents|
    ensures forall i :: 0 <= i < |torrents| ==> ids[i] == torrents[i].id
    ensures ids == Ids(torrents)
  {
    ids := [];
    for i := 0 to |torrents|
      invariant |ids| == i
      invariant forall j :: 0 <= j < i ==> ids[j] == torrents[j].id
    {
      ids := ids + [torrents[i].id];
    }
    IdsAt(torrents);
  }
}
