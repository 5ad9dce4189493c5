/**
 * The proxy's response cache (proxy/cache.go): a map from a request's content
 * fingerprint to the response cached for it and the time it was cached, with
 * one timeout for every entry. Time is an integer `now` supplied by the caller.
 */
module ProxyCache {
  import opened Wrappers
  import opened GoStrings
  import opened Http

  /** The errors `Fetch` and `Upsert` report: not cached, cached but stale, or the request body could not be read. */
  datatype Failure = ErrNotFound | ErrStaleCachedState | ErrBodyRead

  /** The strings one after another. */
  function Concat(strs: seq<Bytes>): Bytes
  {
    if strs == [] then [] else Concat(strs[..|strs| - 1]) + strs[|strs| - 1]
  }

  /** The sum of the lengths of the strings. */
  function TotalLength(strs: seq<Bytes>): nat
  {
    if strs == [] then 0 else TotalLength(strs[..|strs| - 1]) + |strs[|strs| - 1]|
  }

  /** Each header name followed by its values, in iteration order. */
  function HeaderBytes(h: Header): Bytes
  {
    if h == [] then [] else HeaderBytes(h[..|h| - 1]) + h[|h| - 1].0 + Concat(h[|h| - 1].1)
  }

  /** The cache key of a request: method, request URI, header names and values, then the body. */
  function Fingerprint(verb: Bytes, uri: Bytes, h: Header, body: Bytes): Bytes
  {
    verb + uri + HeaderBytes(h) + body
  }

  /** Appending the strings to a builder one by one leaves their concatenation behind and reports the sum of their lengths. */
  method WriteStrings(builder: Builder<byte>, strs: seq<Bytes>) returns (totalWritten: nat)
    modifies builder
    ensures builder.buf == old(builder.buf) + Concat(strs)
    ensures totalWritten == TotalLength(strs)
  {
    totalWritten := 0;
    for i := 0 to |strs|
      invariant builder.buf == old(builder.buf) + Concat(strs[..i])
      invariant totalWritten == TotalLength(strs[..i])
    {
      var written := builder.WriteString(strs[i]);
      totalWritten := totalWritten + written;
      assert strs[..i + 1][..i] == strs[..i];
    }
    assert strs[..|strs|] == strs;
  }

  /** The sum of the lengths is the length of the concatenation. */
  lemma {:induction false} TotalLengthIsLength(strs: seq<Bytes>)
    ensures TotalLength(strs) == |Concat(strs)|
  {
    if strs != [] {
      TotalLengthIsLength(strs[..|strs| - 1]);
    }
  }

  /**
   * `key(r)`: the fingerprint of `r`, reading its body to the end and giving
   * the request a new body holding the same bytes. When the body cannot be
   * read, the error comes back and the request keeps its body.
   */
  method Key(r: Request) returns (k: Result<Bytes, Failure>)
    modifies r, r.Body
    ensures old(r.Body.failing) ==> k == Err(ErrBodyRead) && r.Body == old(r.Body) && r.Body.unread == old(r.Body.unread)
    ensures !old(r.Body.failing) ==>
      && k == Ok(Fingerprint(r.Method, r.RequestURI, r.Header, old(r.Body.unread)))
      && fresh(r.Body) && r.Body.unread == old(r.Body.unread) && !r.Body.failing
      && old(r.Body).unread == []
  {
    ghost var body := r.Body;
    var key := new Builder<byte>();
    var _ := WriteStrings(key, [r.Method, r.RequestURI]);
    assert [r.Method, r.RequestURI][..1] == [r.Method];
    assert Concat([r.Method]) == [] + r.Method;
    assert [] + r.Method == r.Method;

    for i := 0 to |r.Header|
      invariant key.buf == r.Method + r.RequestURI + HeaderBytes(r.Header[..i])
      invariant r.Body == body && body.unread == old(body.unread)
    {
      var (name, values) := r.Header[i];
      var _ := key.WriteString(name);
      ghost var named := key.buf;
      for j := 0 to |values|
        invariant key.buf == named + Concat(values[..j])
        invariant r.Body == body && body.unread == old(body.unread)
      {
        var _ := key.WriteString(values[j]);
        assert values[..j + 1][..j] == values[..j];
      }
      assert values[..|values|] == values;
      assert r.Header[..i + 1][..i] == r.Header[..i];
    }
    assert r.Header[..|r.Header|] == r.Header;

    var buf, ok := r.Body.ReadAll();
    if !ok {
      return Err(ErrBodyRead);
    }
    r.Body := new Stream(buf, false);
    var _ := key.WriteString(buf);
    return Ok(key.String());
  }

  /** A cached response and the time it was cached. */
  datatype Entry<R> = Entry(Timestamp: int, response: R)

  /**
   * What a lookup of `k` at time `now` finds: not-found, stale once `timeout`
   * has elapsed since the entry was cached, or the entry itself.
   */
  function Lookup<R>(contents: map<Bytes, Entry<R>>, k: Bytes, now: int, timeout: int): Result<Entry<R>, Failure>
  {
    if k !in contents then Err(ErrNotFound)
    else if now - contents[k].Timestamp >= timeout then Err(ErrStaleCachedState)
    else Ok(contents[k])
  }

  /** The freshness boundary: an entry is served while strictly less than `timeout` has elapsed, and is stale from then on. */
  lemma LookupCases<R>(contents: map<Bytes, Entry<R>>, k: Bytes, now: int, timeout: int)
    ensures Lookup(contents, k, now, timeout) == Err(ErrNotFound) <==> k !in contents
    ensures Lookup(contents, k, now, timeout) == Err(ErrStaleCachedState)
      <==> k in contents && now - contents[k].Timestamp >= timeout
    ensures Lookup(contents, k, now, timeout).Ok?
      <==> k in contents && now - contents[k].Timestamp < timeout
    ensures Lookup(contents, k, now, timeout).Ok? ==> Lookup(contents, k, now, timeout).value == contents[k]
  {
  }

  /** An entry just stored under `k` is found under `k` until the timeout; every other key finds what it found before. */
  lemma LookupAfterStore<R>(contents: map<Bytes, Entry<R>>, k: Bytes, e: Entry<R>, k2: Bytes, now: int, timeout: int)
    ensures now - e.Timestamp < timeout ==> Lookup(contents[k := e], k, now, timeout) == Ok(e)
    ensures now - e.Timestamp >= timeout ==> Lookup(contents[k := e], k, now, timeout) == Err(ErrStaleCachedState)
    ensures k2 != k ==> Lookup(contents[k := e], k2, now, timeout) == Lookup(contents, k2, now, timeout)
  {
  }

  /** The fingerprint is plain concatenation, so different requests can share one: `/a` with body `b` and `/ab` with no body. */
  lemma FingerprintCollides(verb: Bytes)
    ensures Fingerprint(verb, [47, 97], [], [98]) == Fingerprint(verb, [47, 97, 98], [], [])
  {
  }

  /** `cache`: the entries by fingerprint and the one timeout they share. */
  class Cache<R> {
    var contents: map<Bytes, Entry<R>>
    const timeout: int

    /** `NewCache(timeout)`: an empty cache. */
    constructor NewCache(timeout: int)
      ensures contents == map[] && this.timeout == timeout
    {
      contents := map[];
      this.timeout := timeout;
    }

    /**
     * `Fetch(r)`: looks up the fingerprint of `r` at time `now`; a request
     * whose body cannot be read fails with that error instead. The cache
     * itself is never changed.
     */
    method Fetch(r: Request, now: int) returns (res: Result<Entry<R>, Failure>)
      modifies r, r.Body
      ensures old(r.Body.failing) ==> res == Err(ErrBodyRead) && r.Body == old(r.Body) && r.Body.unread == old(r.Body.unread)
      ensures !old(r.Body.failing) ==>
        && res == Lookup(contents, Fingerprint(r.Method, r.RequestURI, r.Header, old(r.Body.unread)), now, timeout)
        && fresh(r.Body) && r.Body.unread == old(r.Body.unread) && !r.Body.failing
        && old(r.Body).unread == []
    {
      var reqKey := Key(r);
      if reqKey.Err? {
        return Err(reqKey.error);
      }
      var k := reqKey.value;
      if k !in contents {
        return Err(ErrNotFound);
      }
      var cachedResp := contents[k];
      if now - cachedResp.Timestamp >= timeout {
        return Err(ErrStaleCachedState);
      }
      return Ok(cachedResp);
    }

    /**
     * `Upsert(req, resp)`: stores `resp` with time `now` under the fingerprint
     * of `req`, replacing whatever was there and leaving every other key alone.
     * A request whose body cannot be read leaves the cache as it was.
     */
    method Upsert(req: Request, resp: R, now: int) returns (err: Option<Failure>)
      modifies this`contents, req, req.Body
      ensures old(req.Body.failing) ==>
        err == Some(ErrBodyRead) && contents == old(contents)
        && req.Body == old(req.Body) && req.Body.unread == old(req.Body.unread)
      ensures !old(req.Body.failing) ==>
        && err == None
        && contents == old(contents)[Fingerprint(req.Method, req.RequestURI, req.Header, old(req.Body.unread)) := Entry(now, resp)]
        && fresh(req.Body) && req.Body.unread == old(req.Body.unread) && !req.Body.failing
        && old(req.Body).unread == []
    {
      var reqKey := Key(req);
      if reqKey.Err? {
        return Some(reqKey.error);
      }
      contents := contents[reqKey.value := Entry(now, resp)];
      return None;
    }
  }

  /**
   * `Upsert` followed by `Fetch` of the same request: until the timeout has
   * elapsed since `stored`, the fetch finds exactly the response just stored;
   * from then on it reports the entry stale. The request keeps its body bytes.
   */
  method UpsertThenFetch<R>(c: Cache<R>, r: Request, resp: R, stored: int, now: int)
    returns (res: Result<Entry<R>, Failure>)
    requires !r.Body.failing
    modifies c`contents, r, r.Body
    ensures now - stored < c.timeout ==> res == Ok(Entry(stored, resp))
    ensures now - stored >= c.timeout ==> res == Err(ErrStaleCachedState)
    ensures r.Body.unread == old(r.Body.unread) && !r.Body.failing
  {
    var _ := c.Upsert(r, resp, stored);
    res := c.Fetch(r, now);
  }
}
