/**
 * Concrete request sequences through `Server` (the proxy as written) and
 * `SnapshotServer` (as evidently intended), and the property the cache is
 * for: a request repeated within the timeout gets the first answer again
 * without the backend being asked.
 */
module ProxyFindings {
  import opened Wrappers
  import opened Http
  import opened ProxyCache
  import opened ProxyServer

  /** `GET`, `POST`, `/`, the backend address `http://localhost:8080`, and the bodies `hi`, `x` and `ok`. */
  const Get: Bytes := [71, 69, 84]
  const Post: Bytes := [80, 79, 83, 84]
  const Root: Bytes := [47]
  const Backend: Bytes := [104, 116, 116, 112, 58, 47, 47, 108, 111, 99, 97, 108, 104, 111, 115, 116,
                            58, 56, 48, 56, 48]
  const Hi: Bytes := [104, 105]
  const X: Bytes := [120]
  const OkBody: Bytes := [111, 107]

  /** A configuration with a cache timeout of 10 time units. */
  const Conf: Config := Config("proxy", "8081", Backend, 10)

  /**
   * As written: a new server, and one request to `/` with method `verb` and
   * body `body` at time 0 that the backend answers with `status` and
   * `answer`. The client gets the answer; the cache holds it under the
   * fingerprint with no body, and its body stream has been read to the end.
   */
  method FirstRequest(verb: Bytes, body: Bytes, status: int, answer: Bytes) returns (s: Server, w: ResponseWriter)
    ensures fresh(s.cache) && fresh(s.client)
    ensures s.cnf == Conf && s.cache.timeout == 10
    ensures w.status == Some(status) && w.body == answer
    ensures s.client.sent == [Sent(verb, Backend, [], body)]
    ensures s.cache.contents.Keys == {Fingerprint(verb, Root, [], [])}
    ensures s.cache.contents[Fingerprint(verb, Root, [], [])].Timestamp == 0
    ensures s.cache.contents[Fingerprint(verb, Root, [], [])].response.StatusCode == status
    ensures s.cache.contents[Fingerprint(verb, Root, [], [])].response.Body.unread == []
    ensures !s.cache.contents[Fingerprint(verb, Root, [], [])].response.Body.failing
    ensures fresh(s.cache.contents[Fingerprint(verb, Root, [], [])].response.Body)
  {
    s := new Server.New(Conf);
    var b := new Stream(body, false);
    var r := new Request(verb, Root, [], b);
    w := new ResponseWriter();
    s.ServeHTTP(w, r, 0, 0, Answers(status, [], answer, false));
  }

  /**
   * As written: the same `GET /` twice, 1 unit apart. The first is forwarded
   * and relayed with body `hi`; the second is a cache hit, but the cached
   * response's body stream was drained by the first relay, so the client
   * gets status 200 and an empty body.
   */
  method DrainedBodyReplayed() returns (first: ResponseWriter, second: ResponseWriter)
    ensures first.status == Some(200) && first.body == Hi
    ensures second.status == Some(200) && second.body == []
  {
    var s;
    s, first := FirstRequest(Get, [], 200, Hi);
    var b2 := new Stream([], false);
    var r2 := new Request(Get, Root, [], b2);
    second := new ResponseWriter();
    s.ServeHTTP(second, r2, 1, 1, Unreachable);
  }

  /**
   * As written: `POST /` with body `x` twice, both answered by the backend
   * with status 201. Both reach the backend, and the one entry left in the
   * cache sits under the fingerprint of `POST /` with no body.
   */
  method PostedTwice() returns (s: Server)
    ensures fresh(s.cache) && fresh(s.client)
    ensures s.cnf == Conf && s.cache.timeout == 10
    ensures s.client.sent == [Sent(Post, Backend, [], X), Sent(Post, Backend, [], X)]
    ensures s.cache.contents.Keys == {Fingerprint(Post, Root, [], [])}
    ensures s.cache.contents[Fingerprint(Post, Root, [], [])].Timestamp == 1
    ensures s.cache.contents[Fingerprint(Post, Root, [], [])].response.StatusCode == 201
    ensures !s.cache.contents[Fingerprint(Post, Root, [], [])].response.Body.failing
    ensures fresh(s.cache.contents[Fingerprint(Post, Root, [], [])].response.Body)
  {
    var w1;
    s, w1 := FirstRequest(Post, X, 201, OkBody);
    var b2 := new Stream(X, false);
    var r2 := new Request(Post, Root, [], b2);
    var w2 := new ResponseWriter();
    assert Fingerprint(Post, Root, [], X) != Fingerprint(Post, Root, [], []);
    s.ServeHTTP(w2, r2, 1, 1, Answers(201, [], OkBody, false));
  }

  /**
   * As written: after `PostedTwice`, a `POST /` with no body is answered
   * from the entry the `x` requests left (status 201) without reaching the
   * backend, which saw only the two `x` requests.
   */
  method BodyLeftOutOfKey() returns (sent: seq<Sent>, third: ResponseWriter)
    ensures sent == [Sent(Post, Backend, [], X), Sent(Post, Backend, [], X)]
    ensures third.status == Some(201)
  {
    var s := PostedTwice();
    var b3 := new Stream([], false);
    var r3 := new Request(Post, Root, [], b3);
    third := new ResponseWriter();
    s.ServeHTTP(third, r3, 2, 2, Unreachable);
    sent := s.client.sent;
  }

  /** Corrected: the same two `GET /` requests; the second replays body `hi`. */
  method SnapshotReplayed() returns (first: ResponseWriter, second: ResponseWriter)
    ensures first.status == Some(200) && first.body == Hi
    ensures second.status == Some(200) && second.body == Hi
  {
    var s := new SnapshotServer.New(Conf);
    var b1 := new Stream([], false);
    var r1 := new Request(Get, Root, [], b1);
    first := new ResponseWriter();
    s.ServeHTTP(first, r1, 0, 0, Answers(200, [], Hi, false));

    var b2 := new Stream([], false);
    var r2 := new Request(Get, Root, [], b2);
    second := new ResponseWriter();
    s.ServeHTTP(second, r2, 1, 1, Unreachable);
  }

  /**
   * Corrected: `POST /` with body `x` twice. The first is answered by the
   * backend with 201 and `ok`; the second is a hit and gets the same answer.
   */
  method SnapshotPostedTwice() returns (s: SnapshotServer, second: ResponseWriter)
    ensures fresh(s.cache) && fresh(s.client)
    ensures s.cnf == Conf && s.cache.timeout == 10
    ensures s.client.sent == [Sent(Post, Backend, [], X)]
    ensures s.cache.contents == map[Fingerprint(Post, Root, [], X) := Entry(0, Snapshot(201, [], OkBody))]
    ensures second.status == Some(201) && second.body == OkBody
  {
    s := new SnapshotServer.New(Conf);
    var b1 := new Stream(X, false);
    var r1 := new Request(Post, Root, [], b1);
    var w1 := new ResponseWriter();
    s.ServeHTTP(w1, r1, 0, 0, Answers(201, [], OkBody, false));

    var b2 := new Stream(X, false);
    var r2 := new Request(Post, Root, [], b2);
    second := new ResponseWriter();
    s.ServeHTTP(second, r2, 1, 1, Unreachable);
  }

  /**
   * Corrected: after `SnapshotPostedTwice`, the bodiless `POST /` is a
   * different request and goes to the backend, which is unreachable, so its
   * client gets 502.
   */
  method SnapshotKeysOnBody() returns (sent: seq<Sent>, second: ResponseWriter, third: ResponseWriter)
    ensures sent == [Sent(Post, Backend, [], X), Sent(Post, Backend, [], [])]
    ensures second.status == Some(201) && second.body == OkBody
    ensures third.status == Some(StatusBadGateway) && third.header == [] && third.body == []
  {
    var s;
    s, second := SnapshotPostedTwice();
    var b3 := new Stream([], false);
    var r3 := new Request(Post, Root, [], b3);
    third := new ResponseWriter();
    assert Fingerprint(Post, Root, [], []) != Fingerprint(Post, Root, [], X);
    s.ServeHTTP(third, r3, 2, 2, Unreachable);
    sent := s.client.sent;
  }

  /**
   * Corrected, for every server state: a request that misses and is answered
   * by the backend, followed within the timeout by a request with the same
   * method, URI, header and body, gives the second client exactly what the
   * first got, and only the first request reaches the backend. The window
   * runs from `stored1`, the moment the first answer was stored.
   */
  method RepeatWithinTimeout(s: SnapshotServer, r1: Request, w1: ResponseWriter, r2: Request, w2: ResponseWriter,
                             t1: int, stored1: int, t2: int, stored2: int,
                             upstream1: Upstream, upstream2: Upstream)
    requires w1.Untouched() && w2.Untouched() && w1 != w2
    requires r1.Body != r2.Body && !r1.Body.failing && !r2.Body.failing
    requires r1.Method == r2.Method && r1.RequestURI == r2.RequestURI && r1.Header == r2.Header
    requires r1.Body.unread == r2.Body.unread
    requires Lookup(s.cache.contents, Fingerprint(r1.Method, r1.RequestURI, r1.Header, r1.Body.unread), t1, s.cache.timeout).Err?
    requires upstream1.Answers? && !upstream1.broken && t2 - stored1 < s.cache.timeout
    modifies s.cache`contents, s.client, r1, r1.Body, r2, r2.Body, w1, w2
    ensures w1.header == Pairs(upstream1.header) && w1.status == Some(upstream1.status) && w1.body == upstream1.body
    ensures w2.header == w1.header && w2.status == w1.status && w2.body == w1.body
    ensures s.client.sent == old(s.client.sent) + [Sent(r1.Method, s.cnf.SERVER_ADDRESS, r1.Header, old(r1.Body.unread))]
  {
    s.ServeHTTP(w1, r1, t1, stored1, upstream1);
    s.ServeHTTP(w2, r2, t2, stored2, upstream2);
  }

  /**
   * As written: a new server, and `GET /` at time 0 while the backend is
   * unreachable. The forward fails and the handler writes nothing, so the
   * client receives 200 with an empty body.
   */
  method UnreachableReportedOk() returns (sent: seq<Sent>, w: ResponseWriter)
    ensures sent == [Sent(Get, Backend, [], [])]
    ensures w.Delivered() == StatusOK && w.header == [] && w.body == []
  {
    var s := new Server.New(Conf);
    var b := new Stream([], false);
    var r := new Request(Get, Root, [], b);
    w := new ResponseWriter();
    s.ServeHTTP(w, r, 0, 0, Unreachable);
    sent := s.client.sent;
  }

  /**
   * As written: `GET /` at time 0 is answered with a body that breaks. The
   * answer is cached before its body is read, so the first client receives
   * 200 with an empty body, and at time 1 a second `GET /` is a hit on that
   * broken entry: it too receives 200 with an empty body, and the backend,
   * which would now answer `hi`, is not asked again.
   */
  method BrokenBodyCached() returns (sent: seq<Sent>, first: ResponseWriter, second: ResponseWriter)
    ensures sent == [Sent(Get, Backend, [], [])]
    ensures first.Delivered() == StatusOK && first.header == [] && first.body == []
    ensures second.Delivered() == StatusOK && second.header == [] && second.body == []
  {
    var s := new Server.New(Conf);
    var b1 := new Stream([], false);
    var r1 := new Request(Get, Root, [], b1);
    first := new ResponseWriter();
    s.ServeHTTP(first, r1, 0, 0, Answers(200, [], Hi, true));

    var b2 := new Stream([], false);
    var r2 := new Request(Get, Root, [], b2);
    second := new ResponseWriter();
    s.ServeHTTP(second, r2, 1, 1, Answers(200, [], Hi, false));
    sent := s.client.sent;
  }

  /** Corrected: the same `GET /` to an unreachable backend; the client receives 502. */
  method SnapshotUnreachableIs502() returns (sent: seq<Sent>, w: ResponseWriter)
    ensures sent == [Sent(Get, Backend, [], [])]
    ensures w.Delivered() == StatusBadGateway && w.header == [] && w.body == []
  {
    var s := new SnapshotServer.New(Conf);
    var b := new Stream([], false);
    var r := new Request(Get, Root, [], b);
    w := new ResponseWriter();
    s.ServeHTTP(w, r, 0, 0, Unreachable);
    sent := s.client.sent;
  }

  /**
   * Corrected: the broken answer at time 0 is reported as 502 and not
   * cached, so the `GET /` at time 1 reaches the backend and relays `hi`.
   */
  method SnapshotBrokenNotCached() returns (sent: seq<Sent>, first: ResponseWriter, second: ResponseWriter)
    ensures sent == [Sent(Get, Backend, [], []), Sent(Get, Backend, [], [])]
    ensures first.Delivered() == StatusBadGateway && first.header == [] && first.body == []
    ensures second.Delivered() == StatusOK && second.body == Hi
  {
    var s := new SnapshotServer.New(Conf);
    var b1 := new Stream([], false);
    var r1 := new Request(Get, Root, [], b1);
    first := new ResponseWriter();
    s.ServeHTTP(first, r1, 0, 0, Answers(200, [], Hi, true));

    var b2 := new Stream([], false);
    var r2 := new Request(Get, Root, [], b2);
    second := new ResponseWriter();
    s.ServeHTTP(second, r2, 1, 1, Answers(200, [], Hi, false));
    sent := s.client.sent;
  }
}
