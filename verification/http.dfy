/**
 * The parts of Go's `net/http` and `io` that the proxy relies on. Go strings
 * and bodies are both byte sequences here. A body is a stream object that
 * reading drains, so two holders of the same stream see each other's reads.
 * The network is an explicit `Upstream` value standing for what the backend
 * does with a forwarded request.
 */
module Http {
  import opened Wrappers

  newtype byte = x: int | 0 <= x < 256

  type Bytes = seq<byte>

  /** `http.Header`, in the order one `range` over the map visits it: each name with its values. */
  type Header = seq<(Bytes, seq<Bytes>)>

  /** `http.StatusBadGateway`. */
  const StatusBadGateway: int := 502

  /** The status `Write` sends when no status was written first (`http.StatusOK`). */
  const StatusOK: int := 200

  /** Every (name, value) pair of a header, names in order and each name's values in order. */
  function Pairs(h: Header): (ps: seq<(Bytes, Bytes)>)
    ensures |ps| == ValueCount(h)
  {
    if h == [] then []
    else Pairs(h[..|h| - 1]) + NamePairs(h[|h| - 1].0, h[|h| - 1].1)
  }

  /** The pairs one header name contributes, one per value. */
  function NamePairs(name: Bytes, values: seq<Bytes>): (ps: seq<(Bytes, Bytes)>)
    ensures |ps| == |values|
    ensures forall i :: 0 <= i < |values| ==> ps[i] == (name, values[i])
  {
    if values == [] then [] else NamePairs(name, values[..|values| - 1]) + [(name, values[|values| - 1])]
  }

  /** How many values a header holds over all its names. */
  function ValueCount(h: Header): nat
  {
    if h == [] then 0 else ValueCount(h[..|h| - 1]) + |h[|h| - 1].1|
  }

  /**
   * A body: the bytes not read yet, and whether reading it fails (a broken
   * connection). `io.ReadAll` either returns everything and leaves the stream
   * empty, or fails and leaves it as it was.
   */
  class Stream {
    var unread: Bytes
    const failing: bool

    constructor (data: Bytes, failing: bool)
      ensures unread == data && this.failing == failing
    {
      unread := data;
      this.failing := failing;
    }

    /** `io.ReadAll(s)`: all remaining bytes, or a failure when the stream is broken. */
    method ReadAll() returns (data: Bytes, ok: bool)
      modifies this
      ensures ok == !failing
      ensures ok ==> data == old(unread) && unread == []
      ensures !ok ==> data == [] && unread == old(unread)
    {
      if failing {
        return [], false;
      }
      data := unread;
      unread := [];
      ok := true;
    }
  }

  /** An inbound `*http.Request`: the fields the proxy reads, and the body it may replace. */
  class Request {
    const Method: Bytes
    const RequestURI: Bytes
    const Header: Header
    var Body: Stream

    constructor (verb: Bytes, uri: Bytes, header: Header, body: Stream)
      ensures Method == verb && RequestURI == uri && Header == header && Body == body
    {
      Method := verb;
      RequestURI := uri;
      Header := header;
      Body := body;
    }
  }

  /** An `http.Response` value: status, header and a body stream (copies share the stream). */
  datatype Response = Response(StatusCode: int, Header: Header, Body: Stream)

  /**
   * What the backend does with a forwarded request: `http.NewRequest` rejects
   * it, the connection fails, or the backend answers with a status, a header
   * and a body, whose stream may break before it can be read (`broken`).
   */
  datatype Upstream =
    | BadRequest
    | Unreachable
    | Answers(status: int, header: Header, body: Bytes, broken: bool)

  /** A request the client tried to send to the backend: method, URL, header and the body bytes read for it. */
  datatype Sent = Sent(Method: Bytes, URL: Bytes, Header: Header, Body: Bytes)

  /**
   * `http.Client`: `Do` reads the request's body stream to the end and
   * returns the backend's answer as a response with a new body stream.
   * `sent` records every request the client attempted, whether or not the
   * backend could be reached.
   */
  class Client {
    var sent: seq<Sent>

    constructor ()
      ensures sent == []
    {
      sent := [];
    }

    method Do(verb: Bytes, url: Bytes, header: Header, body: Stream, upstream: Upstream)
      returns (resp: Option<Response>)
      requires !upstream.BadRequest?
      modifies this, body
      ensures body.failing ==> resp == None && sent == old(sent) && body.unread == old(body.unread)
      ensures !body.failing ==> body.unread == [] && sent == old(sent) + [Sent(verb, url, header, old(body.unread))]
      ensures !body.failing && upstream.Unreachable? ==> resp == None
      ensures !body.failing && upstream.Answers? ==>
        && resp.Some?
        && resp.value.StatusCode == upstream.status && resp.value.Header == upstream.header
        && fresh(resp.value.Body) && resp.value.Body.unread == upstream.body
        && resp.value.Body.failing == upstream.broken
    {
      var data, ok := body.ReadAll();
      if !ok {
        return None;
      }
      sent := sent + [Sent(verb, url, header, data)];
      match upstream
      case Unreachable =>
        resp := None;
      case Answers(status, h, b, broken) =>
        var s := new Stream(b, broken);
        resp := Some(Response(status, h, s));
    }
  }

  /**
   * `http.ResponseWriter` as the client sees it: the header pairs added, the
   * status sent (the first `WriteHeader` wins; `Write` sends 200 when none was
   * sent) and the body bytes written.
   */
  class ResponseWriter {
    var header: seq<(Bytes, Bytes)>
    var status: Option<int>
    var body: Bytes

    constructor ()
      ensures header == [] && status == None && body == []
    {
      header := [];
      status := None;
      body := [];
    }

    /** `w.Header().Add(name, value)`. */
    method AddHeader(name: Bytes, value: Bytes)
      modifies this
      ensures header == old(header) + [(name, value)]
      ensures status == old(status) && body == old(body)
    {
      header := header + [(name, value)];
    }

    /** `w.WriteHeader(code)`: only the first status counts. */
    method WriteHeader(code: int)
      modifies this
      ensures status == if old(status).None? then Some(code) else old(status)
      ensures header == old(header) && body == old(body)
    {
      if status.None? {
        status := Some(code);
      }
    }

    /** `w.Write(data)`: sends 200 first when no status was sent, then appends the bytes. */
    method Write(data: Bytes)
      modifies this
      ensures status == if old(status).None? then Some(StatusOK) else old(status)
      ensures body == old(body) + data
      ensures header == old(header)
    {
      if status.None? {
        status := Some(StatusOK);
      }
      body := body + data;
    }

    /** Nothing has been sent yet. */
    predicate Untouched()
      reads this
    {
      header == [] && status == None && body == []
    }

    /**
     * The status the client receives once the handler has returned: the one
     * written, or 200, which net/http sends for a handler that wrote none.
     */
    function Delivered(): int
      reads this
    {
      if status.Some? then status.value else StatusOK
    }
  }

  /** The two loops that copy a header onto the writer: every value of every name, in order. */
  method AddHeaders(w: ResponseWriter, h: Header)
    modifies w
    ensures w.header == old(w.header) + Pairs(h)
    ensures w.status == old(w.status) && w.body == old(w.body)
  {
    for i := 0 to |h|
      invariant w.header == old(w.header) + Pairs(h[..i])
      invariant w.status == old(w.status) && w.body == old(w.body)
    {
      var (name, values) := h[i];
      ghost var before := w.header;
      for j := 0 to |values|
        invariant w.header == before + NamePairs(name, values[..j])
        invariant w.status == old(w.status) && w.body == old(w.body)
      {
        w.AddHeader(name, values[j]);
        assert values[..j + 1][..j] == values[..j];
      }
      assert values[..|values|] == values;
      assert h[..i + 1][..i] == h[..i];
    }
    assert h[..|h|] == h;
  }
}
