/**
 * The caching proxy (proxy/server.go): each request is looked up in the
 * cache; a hit replays the cached response, a miss or a stale entry is
 * forwarded to the backend, cached and relayed, and any other lookup error
 * is answered with 502. The backend is an `Upstream` value, and the two
 * clock readings a request involves (the lookup's and the upsert's) are the
 * integers `now` and `stored`.
 */
module ProxyServer {
  import opened Wrappers
  import opened Http
  import opened ProxyCache

  /** The server's configuration; `CACHE_TIMEOUT` is in the same unit as `now`. */
  datatype Config = Config(NAME: string, PORT: string, SERVER_ADDRESS: Bytes, CACHE_TIMEOUT: int)

  /** `Server`: its configuration, its HTTP client and its cache of responses. */
  class Server {
    const cnf: Config
    const client: Client
    const cache: Cache<Response>

    /** `New(cnf)`: an empty cache with the configured timeout, and a client that has sent nothing. */
    constructor New(cnf: Config)
      ensures this.cnf == cnf
      ensures fresh(client) && client.sent == []
      ensures fresh(cache) && cache.contents == map[] && cache.timeout == cnf.CACHE_TIMEOUT
    {
      this.cnf := cnf;
      client := new Client();
      cache := new Cache<Response>.NewCache(cnf.CACHE_TIMEOUT);
    }

    /** The body streams of the cached responses. */
    ghost function CachedBodies(): set<Stream>
      reads this, cache
    {
      set k | k in cache.contents :: cache.contents[k].response.Body
    }

    /**
     * The miss path of `ServeHTTP`: build the forward request (or give up),
     * send it with the inbound method, header and body stream, cache the
     * answer as it was received at time `stored`, then copy its status, header
     * values and body to the client. Every failure is only logged and the
     * handler returns having written nothing, so net/http answers the client
     * with 200 and an empty body. An answer whose body breaks is cached all
     * the same, before its body is read.
     */
    method Forward(w: ResponseWriter, r: Request, stored: int, upstream: Upstream)
      requires w.Untouched()
      requires !r.Body.failing
      modifies w, r, r.Body, cache`contents, client
      ensures upstream.BadRequest? ==>
        && w.Untouched() && client.sent == old(client.sent) && cache.contents == old(cache.contents)
        && r.Body == old(r.Body) && r.Body.unread == old(r.Body.unread)
      ensures !upstream.BadRequest? ==>
        client.sent == old(client.sent) + [Sent(r.Method, cnf.SERVER_ADDRESS, r.Header, old(r.Body.unread))]
      ensures upstream.Unreachable? ==> w.Untouched() && cache.contents == old(cache.contents)
      ensures upstream.Answers? ==>
        var k := Fingerprint(r.Method, r.RequestURI, r.Header, []);
        && k in cache.contents
        && cache.contents == old(cache.contents)[k := cache.contents[k]]
        && cache.contents[k].Timestamp == stored
        && cache.contents[k].response.StatusCode == upstream.status
        && cache.contents[k].response.Header == upstream.header
        && fresh(cache.contents[k].response.Body)
        && cache.contents[k].response.Body.failing == upstream.broken
        && cache.contents[k].response.Body.unread == (if upstream.broken then upstream.body else [])
      ensures upstream.Answers? && upstream.broken ==> w.Untouched()
      ensures upstream.Answers? && !upstream.broken ==>
        w.header == Pairs(upstream.header) && w.status == Some(upstream.status) && w.body == upstream.body
    {
      if upstream.BadRequest? {
        return;
      }
      var fwdBody := r.Body;
      var resp := client.Do(r.Method, cnf.SERVER_ADDRESS, r.Header, fwdBody, upstream);
      if resp.None? {
        return;
      }
      var err := cache.Upsert(r, resp.value, stored);
      if err.Some? {
        return;
      }
      var body, ok := resp.value.Body.ReadAll();
      if !ok {
        return;
      }
      AddHeaders(w, resp.value.Header);
      w.WriteHeader(resp.value.StatusCode);
      w.Write(body);
    }

    /**
     * The hit path of `ServeHTTP`: read the cached body, then send the cached
     * status, header values and body. A cached body that cannot be read is
     * only logged, and the client gets net/http's default 200 with no body.
     */
    method Replay(w: ResponseWriter, cached: Entry<Response>)
      requires w.Untouched()
      modifies w, cached.response.Body
      ensures cached.response.Body.failing ==> w.Untouched() && cached.response.Body.unread == old(cached.response.Body.unread)
      ensures !cached.response.Body.failing ==>
        && w.header == Pairs(cached.response.Header)
        && w.status == Some(cached.response.StatusCode)
        && w.body == old(cached.response.Body.unread)
        && cached.response.Body.unread == []
    {
      var body, ok := cached.response.Body.ReadAll();
      if !ok {
        return;
      }
      AddHeaders(w, cached.response.Header);
      w.WriteHeader(cached.response.StatusCode);
      w.Write(body);
    }

    /**
     * `ServeHTTP(w, r)`, with the clock read at `now` by the lookup and at
     * `stored` by the upsert. A request whose body cannot be read gets 502.
     * Otherwise its fingerprint is looked up: a fresh entry is replayed
     * without contacting the backend, and no cached body but the replayed
     * one is read; a missing or stale one is forwarded. On the forward path
     * the inbound body stream is the one the client sends, so the upsert
     * that follows fingerprints an empty body. Whenever the handler writes
     * nothing, the client receives 200 with an empty body.
     */
    method ServeHTTP(w: ResponseWriter, r: Request, now: int, stored: int, upstream: Upstream)
      requires w.Untouched()
      requires r.Body !in CachedBodies()
      modifies w, r, r.Body, cache`contents, client, CachedBodies()
      ensures old(r.Body.failing) ==>
        && w.status == Some(StatusBadGateway) && w.header == [] && w.body == []
        && client.sent == old(client.sent) && cache.contents == old(cache.contents)
      ensures !old(r.Body.failing) ==>
        var look := Lookup(old(cache.contents), Fingerprint(r.Method, r.RequestURI, r.Header, old(r.Body.unread)),
                           now, cache.timeout);
        look.Ok? ==>
          var cached := look.value.response;
          && client.sent == old(client.sent) && cache.contents == old(cache.contents)
          && (cached.Body.failing ==> w.Untouched() && w.Delivered() == StatusOK)
          && (!cached.Body.failing ==>
                && w.header == Pairs(cached.Header) && w.status == Some(cached.StatusCode)
                && w.body == old(cached.Body.unread) && cached.Body.unread == [])
      ensures !old(r.Body.failing) ==>
        var look := Lookup(old(cache.contents), Fingerprint(r.Method, r.RequestURI, r.Header, old(r.Body.unread)),
                           now, cache.timeout);
        forall b :: b in old(CachedBodies()) && !(look.Ok? && b == look.value.response.Body) ==>
          b.unread == old(b.unread)
      ensures !old(r.Body.failing) ==>
        var look := Lookup(old(cache.contents), Fingerprint(r.Method, r.RequestURI, r.Header, old(r.Body.unread)),
                           now, cache.timeout);
        look.Err? ==>
          && (upstream.BadRequest? ==>
                && w.Untouched() && w.Delivered() == StatusOK
                && client.sent == old(client.sent) && cache.contents == old(cache.contents))
          && (!upstream.BadRequest? ==>
                client.sent == old(client.sent) + [Sent(r.Method, cnf.SERVER_ADDRESS, r.Header, old(r.Body.unread))])
          && (upstream.Unreachable? ==>
                w.Untouched() && w.Delivered() == StatusOK && cache.contents == old(cache.contents))
          && (upstream.Answers? ==>
                var k := Fingerprint(r.Method, r.RequestURI, r.Header, []);
                && k in cache.contents
                && cache.contents == old(cache.contents)[k := cache.contents[k]]
                && cache.contents[k].Timestamp == stored
                && cache.contents[k].response.StatusCode == upstream.status
                && cache.contents[k].response.Header == upstream.header
                && fresh(cache.contents[k].response.Body)
                && cache.contents[k].response.Body.failing == upstream.broken
                && cache.contents[k].response.Body.unread == (if upstream.broken then upstream.body else []))
          && (upstream.Answers? && upstream.broken ==> w.Untouched() && w.Delivered() == StatusOK)
          && (upstream.Answers? && !upstream.broken ==>
                w.header == Pairs(upstream.header) && w.status == Some(upstream.status) && w.body == upstream.body)
    {
      var cachedResp := cache.Fetch(r, now);
      if cachedResp == Err(ErrNotFound) || cachedResp == Err(ErrStaleCachedState) {
        Forward(w, r, stored, upstream);
        return;
      } else if cachedResp.Err? {
        w.WriteHeader(StatusBadGateway);
        return;
      }
      Replay(w, cachedResp.value);
    }
  }

  /** A response as bytes: status, header and the whole body, read once. */
  datatype Snapshot = Snapshot(StatusCode: int, Header: Header, Body: Bytes)

  /** Sends a snapshot to a client that has been sent nothing yet: its header values, its status, then its body. */
  method Send(w: ResponseWriter, snap: Snapshot)
    requires w.Untouched()
    modifies w
    ensures w.header == Pairs(snap.Header) && w.status == Some(snap.StatusCode) && w.body == snap.Body
  {
    AddHeaders(w, snap.Header);
    w.WriteHeader(snap.StatusCode);
    w.Write(snap.Body);
  }

  /**
   * `Server` as evidently intended: the backend gets its own copy of the
   * inbound body, so the request keeps its bytes for the upsert; the cache
   * holds the backend's answer as bytes read once, so every hit replays the
   * same body; and a backend that gives no readable answer is reported to
   * the client as 502 rather than as an empty success.
   */
  class SnapshotServer {
    const cnf: Config
    const client: Client
    const cache: Cache<Snapshot>

    constructor New(cnf: Config)
      ensures this.cnf == cnf
      ensures fresh(client) && client.sent == []
      ensures fresh(cache) && cache.contents == map[] && cache.timeout == cnf.CACHE_TIMEOUT
    {
      this.cnf := cnf;
      client := new Client();
      cache := new Cache<Snapshot>.NewCache(cnf.CACHE_TIMEOUT);
    }

    /**
     * A fresh entry for the request's fingerprint (looked up at `now`) is
     * replayed; a missing or stale one is forwarded with the request's own
     * body, and an answer whose body can be read is stored under that same
     * fingerprint at time `stored` and sent on. When no answer can be
     * obtained the client gets 502. The request keeps its body bytes
     * throughout.
     */
    method ServeHTTP(w: ResponseWriter, r: Request, now: int, stored: int, upstream: Upstream)
      requires w.Untouched()
      modifies w, r, r.Body, cache`contents, client
      ensures old(r.Body.failing) ==>
        && w.status == Some(StatusBadGateway) && w.header == [] && w.body == []
        && client.sent == old(client.sent) && cache.contents == old(cache.contents)
      ensures !old(r.Body.failing) ==> r.Body.unread == old(r.Body.unread) && !r.Body.failing
      ensures !old(r.Body.failing) ==>
        var k := Fingerprint(r.Method, r.RequestURI, r.Header, old(r.Body.unread));
        var look := Lookup(old(cache.contents), k, now, cache.timeout);
        && (look.Ok? ==>
              && client.sent == old(client.sent) && cache.contents == old(cache.contents)
              && w.header == Pairs(look.value.response.Header) && w.status == Some(look.value.response.StatusCode)
              && w.body == look.value.response.Body)
        && (look.Err? && upstream.BadRequest? ==> client.sent == old(client.sent))
        && (look.Err? && !upstream.BadRequest? ==>
              client.sent == old(client.sent) + [Sent(r.Method, cnf.SERVER_ADDRESS, r.Header, old(r.Body.unread))])
        && (look.Err? && !(upstream.Answers? && !upstream.broken) ==>
              && w.status == Some(StatusBadGateway) && w.header == [] && w.body == []
              && cache.contents == old(cache.contents))
        && (look.Err? && upstream.Answers? && !upstream.broken ==>
              && cache.contents == old(cache.contents)[k := Entry(stored, Snapshot(upstream.status, upstream.header, upstream.body))]
              && w.header == Pairs(upstream.header) && w.status == Some(upstream.status) && w.body == upstream.body)
    {
      var cached := cache.Fetch(r, now);
      if cached == Err(ErrNotFound) || cached == Err(ErrStaleCachedState) {
        if upstream.BadRequest? {
          w.WriteHeader(StatusBadGateway);
          return;
        }
        var inbound, readOk := r.Body.ReadAll();
        if !readOk {
          return;
        }
        r.Body := new Stream(inbound, false);
        var fwdBody := new Stream(inbound, false);
        var resp := client.Do(r.Method, cnf.SERVER_ADDRESS, r.Header, fwdBody, upstream);
        if resp.None? {
          w.WriteHeader(StatusBadGateway);
          return;
        }
        var body, ok := resp.value.Body.ReadAll();
        if !ok {
          w.WriteHeader(StatusBadGateway);
          return;
        }
        var snap := Snapshot(resp.value.StatusCode, resp.value.Header, body);
        var err := cache.Upsert(r, snap, stored);
        if err.Some? {
          return;
        }
        Send(w, snap);
      } else if cached.Err? {
        w.WriteHeader(StatusBadGateway);
      } else {
        Send(w, cached.value.response);
      }
    }
  }
}
