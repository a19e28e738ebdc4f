/** Concrete runs of the protocol against scripted daemons. */
module Scenarios {
  import opened Wire
  import opened Protocol
  import Address

  /** A client as a new one is: normalised address, no credentials, no token. */
  function NewSession(address: string): Session {
    Session(Address.Normalize(address), "", "", "")
  }

  function Reply(status: int, sessionIds: Option<seq<string>>, body: Body): Exchange {
    Replied(HttpResponse(status, sessionIds, body))
  }

  const ConflictPage: Body := Undecodable("409: Conflict")
  const Done: Body := Decodes(Envelope(SuccessResult, RequestTag, []))

  /** The first call of a new client: the daemon answers 409 with token
      "abc123", the client stores it and the retry, carrying it, succeeds. */
  lemma HandshakeThenSuccess()
    ensures var run := TorrentRequests(_ => true, NewSession("localhost:9091"),
                                       Line([Reply(409, Some(["abc123"]), ConflictPage), Reply(200, None, Done)], []),
                                       "torrent-start", [1]);
            && run.outcome == Pass
            && run.session.sessionId == "abc123"
            && |run.line.sent| == 2
            && run.line.sent[0].sessionHeader == [""]
            && run.line.sent[1].sessionHeader == ["abc123"]
            && run.line.sent[1].auth.None?
  {
  }

  /** A second 409 is not retried: its body is decoded, and fails. */
  lemma SecondConflictNotRetried()
    ensures var run := TorrentRequests(_ => true, NewSession("localhost:9091"),
                                       Line([Reply(409, Some(["a"]), ConflictPage),
                                             Reply(409, Some(["b"]), ConflictPage), Reply(200, None, Done)], []),
                                       "torrent-stop", [1]);
            && run.outcome == Fail(DecodeFailed("409: Conflict"))
            && run.session.sessionId == "a"
            && |run.line.sent| == 2
            && run.line.script == [Reply(200, None, Done)]
  {
  }

  /** A 409 without the session header ends the call after one post. */
  lemma ConflictWithoutToken()
    ensures var run := TorrentRequests(_ => true, NewSession("localhost:9091"),
                                       Line([Reply(409, None, ConflictPage), Reply(200, None, Done)], []),
                                       "torrent-verify", [7]);
            && run.outcome == Fail(MissingSessionHeader)
            && run.session.sessionId == ""
            && |run.line.sent| == 1
  {
  }

  /** The daemon's result string is the error text, exactly. */
  lemma DaemonErrorVerbatim()
    ensures var run := TorrentRequests(_ => true, NewSession("localhost:9091"),
                                       Line([Reply(200, None, Decodes(Envelope("duplicate torrent", 1, [])))], []),
                                       "torrent-reannounce", [3]);
            && run.outcome.Fail?
            && run.outcome.error.Message() == "duplicate torrent"
  {
  }

  /** The listing is returned in the daemon's order. */
  lemma ListingInDaemonOrder()
    ensures var ts := [Torrent(1, "a"), Torrent(2, "b")];
            var run := ListAll(_ => true, NewSession("localhost:9091"),
                               Line([Reply(200, None, Decodes(Envelope(SuccessResult, 1, ts)))], []));
            run.outcome == Ok(ts)
  {
  }

  /** An empty identifier list sends nothing, even to a daemon that would
      fail every request. */
  lemma EmptyIdsSendNothing()
    ensures var l := Line([Failed("connection refused")], []);
            TorrentRequests(_ => true, NewSession("localhost:9091"), l, "torrent-remove", [])
              == CallRun(Pass, NewSession("localhost:9091"), l)
  {
  }

  /** An address with a space in the host, which Go's URL parser refuses:
      as written the post panics, while the corrected post reports the
      error and sends nothing. */
  lemma RefusedUrlPanics()
    ensures var s := NewSession("my host");
            var l := Line([Reply(200, None, Done)], []);
            && PostAsWritten(u => ' ' !in u, s, l, ListRequest).Panicked?
            && Post(u => ' ' !in u, s, l, ListRequest) == Posted(Err(RequestRejected(s.address)), l)
  {
    var a := Address.Normalize("my host");
    assert a == Address.DefaultScheme + "my host" + Address.RpcPath by {
      assert !Address.HasPrefix("my host", Address.SchemePrefix) by { assert "my host"[..4][0] == 'm'; }
      assert !Address.HasSuffix("my host", Address.RpcPath) && "my host" != Address.RpcPath[1..];
    }
    assert a[9] == ' ';
  }
}
