/** An endpoint's response recipe and how it renders it (endpoint.go).

    The http.ResponseWriter is modelled as a log of the three kinds of write
    the endpoint performs on it. What a client finally observes is decided by
    net/http, not by this repository; the functions under "Client view" state
    that behaviour as an assumption about net/http.
 */
module Endpoints {

  /** The value of an endpoint's four fields. `path` is the pattern as
      registered; `status` 0 means "not set"; `body` holds the bytes of the
      string given to WithBody (one char per byte). */
  datatype Recipe = Recipe(path: string, status: int, contentType: string, body: string)

  /** One call the endpoint makes on the http.ResponseWriter. */
  datatype Write =
    | HeaderSet(contentType: string)  // w.Header().Set("Content-Type", contentType)
    | StatusWritten(code: int)        // w.WriteHeader(code)
    | BodyWritten(data: string)       // w.Write(data)

  /** The position of a write in the fixed rendering order. */
  function Stage(w: Write): nat
  {
    match w
    case HeaderSet(_) => 0
    case StatusWritten(_) => 1
    case BodyWritten(_) => 2
  }

  /** The writes an endpoint with recipe `r` performs when it serves a request. */
  function Render(r: Recipe): (log: seq<Write>)
    // the Content-Type header is set exactly when the content type is non-empty
    ensures HeaderSet(r.contentType) in log <==> r.contentType != ""
    // a status is written exactly when it is positive
    ensures StatusWritten(r.status) in log <==> r.status > 0
    // a body is written exactly when it is non-empty
    ensures BodyWritten(r.body) in log <==> r.body != ""
    // every write carries the recipe's own value, verbatim
    ensures forall k :: 0 <= k < |log| ==>
      log[k] == HeaderSet(r.contentType) || log[k] == StatusWritten(r.status) || log[k] == BodyWritten(r.body)
    // header, then status, then body; none of them twice
    ensures forall j, k :: 0 <= j < k < |log| ==> Stage(log[j]) < Stage(log[k])
  {
    HeaderStep(r) + StatusStep(r) + BodyStep(r)
  }

  /** The header write: present only for a non-empty content type. */
  function HeaderStep(r: Recipe): seq<Write>
  {
    if |r.contentType| > 0 then [HeaderSet(r.contentType)] else []
  }

  /** The status write: present only for a positive status. */
  function StatusStep(r: Recipe): seq<Write>
  {
    if r.status > 0 then [StatusWritten(r.status)] else []
  }

  /** The body write: present only for a non-empty body. */
  function BodyStep(r: Recipe): seq<Write>
  {
    if |r.body| > 0 then [BodyWritten(r.body)] else []
  }

  // ---------------------------------------------------------------------
  // Client view. ASSUMPTION about net/http (its server as of Go 1.19), not
  // code of this repository:
  // - WriteHeader with an informational code (100-199 other than 101) sends
  //   an interim response and fixes nothing;
  // - any other WriteHeader, or the first Write (an implicit 200), commits
  //   the response: it fixes the status and sends the header values in force
  //   at that moment; later WriteHeader calls and header changes are ignored;
  //   a handler that commits nothing gets 200 with its final headers;
  // - Write delivers its bytes only when the committed status allows a body,
  //   that is, not for 1xx, 204 or 304.
  // (net/http may also sniff a Content-Type when none is set; that is not
  // modelled.)
  // ---------------------------------------------------------------------

  /** A WriteHeader code that only sends an interim response. */
  predicate Informational(code: int)
  {
    100 <= code <= 199 && code != 101
  }

  /** A final status whose response may carry a body. */
  predicate BodyAllowed(code: int)
  {
    !(100 <= code <= 199) && code != 204 && code != 304
  }

  /** The status code a client receives for the writes in `log`. */
  function ClientStatus(log: seq<Write>): int
  {
    if |log| == 0 then 200
    else match log[0]
      case HeaderSet(_) => ClientStatus(log[1..])
      case StatusWritten(c) => if Informational(c) then ClientStatus(log[1..]) else c
      case BodyWritten(_) => 200
  }

  /** The bytes handed to Write, in order. */
  function Written(log: seq<Write>): string
  {
    if |log| == 0 then ""
    else (if log[0].BodyWritten? then log[0].data else "") + Written(log[1..])
  }

  /** The body a client receives for the writes in `log`. */
  function ClientBody(log: seq<Write>): string
  {
    if BodyAllowed(ClientStatus(log)) then Written(log) else ""
  }

  /** The Content-Type value in force when `log` commits the response, given
      the value `current` before it. */
  function HeaderAtCommit(log: seq<Write>, current: string): string
  {
    if |log| == 0 then current
    else match log[0]
      case HeaderSet(t) => HeaderAtCommit(log[1..], t)
      case StatusWritten(c) => if Informational(c) then HeaderAtCommit(log[1..], current) else current
      case BodyWritten(_) => current
  }

  /** The Content-Type header value a client reads for the writes in `log`. */
  function ClientContentType(log: seq<Write>): string
  {
    HeaderAtCommit(log, "")
  }

  /** Header writes and interim responses leave the status to the writes
      after them. */
  lemma {:induction false} ClientStatusSkips(a: seq<Write>, b: seq<Write>)
    requires forall k :: 0 <= k < |a| ==> a[k].HeaderSet? || (a[k].StatusWritten? && Informational(a[k].code))
    ensures ClientStatus(a + b) == ClientStatus(b)
    decreases |a|
  {
    if |a| > 0 {
      assert (a + b)[1..] == a[1..] + b;
      ClientStatusSkips(a[1..], b);
    } else {
      assert a + b == b;
    }
  }

  /** The bytes of consecutive writes are the concatenation of their bytes. */
  lemma {:induction false} WrittenConcat(a: seq<Write>, b: seq<Write>)
    ensures Written(a + b) == Written(a) + Written(b)
    decreases |a|
  {
    if |a| > 0 {
      assert (a + b)[1..] == a[1..] + b;
      WrittenConcat(a[1..], b);
    } else {
      assert a + b == b;
    }
  }

  /** Writes that set no header keep the Content-Type in force. */
  lemma {:induction false} HeaderKept(log: seq<Write>, current: string)
    requires forall k :: 0 <= k < |log| ==> !log[k].HeaderSet?
    ensures HeaderAtCommit(log, current) == current
    decreases |log|
  {
    if |log| > 0 {
      HeaderKept(log[1..], current);
    }
  }

  /** Once a final status is written, later header changes do not reach the
      client: it reads the value set before. */
  lemma {:induction false} HeaderAfterCommitIgnored(a: seq<Write>, code: int, b: seq<Write>, current: string)
    requires forall k :: 0 <= k < |a| ==> a[k].HeaderSet?
    requires !Informational(code)
    ensures HeaderAtCommit(a + [StatusWritten(code)] + b, current) == HeaderAtCommit(a, current)
    decreases |a|
  {
    if |a| > 0 {
      assert (a + [StatusWritten(code)] + b)[1..] == a[1..] + [StatusWritten(code)] + b;
      HeaderAfterCommitIgnored(a[1..], code, b, a[0].contentType);
    } else {
      assert a + [StatusWritten(code)] + b == [StatusWritten(code)] + b;
    }
  }

  /** A client sees the endpoint's content type, or no header when it is empty. */
  lemma RenderedContentType(r: Recipe)
    ensures ClientContentType(Render(r)) == r.contentType
  {
    var h, s, b := HeaderStep(r), StatusStep(r), BodyStep(r);
    var rest: seq<Write> := s + b;
    assert forall k :: 0 <= k < |rest| ==> !rest[k].HeaderSet? by {
      assert |s| <= 1 && |b| <= 1;
      assert forall k :: 0 <= k < |s| ==> s[k] == StatusWritten(r.status);
      assert forall k :: 0 <= k < |b| ==> b[k] == BodyWritten(r.body);
    }
    HeaderKept(rest, r.contentType);
    if |h| > 0 {
      assert (h + rest)[1..] == rest;
    } else {
      assert h + rest == rest;
    }
    assert Render(r) == h + rest;
  }

  /** A client sees the endpoint's status when it is a positive final code,
      and the implicit 200 when it is unset, not positive, or informational. */
  lemma RenderedStatus(r: Recipe)
    ensures ClientStatus(Render(r)) == (if r.status > 0 && !Informational(r.status) then r.status else 200)
  {
    var h, s, b := HeaderStep(r), StatusStep(r), BodyStep(r);
    var rest: seq<Write> := s + b;
    assert ClientStatus(b) == 200;
    assert ClientStatus(rest) == (if r.status > 0 && !Informational(r.status) then r.status else 200) by {
      if |s| > 0 {
        assert rest[0] == StatusWritten(r.status);
        assert rest[1..] == b;
      } else {
        assert rest == b;
      }
    }
    ClientStatusSkips(h, rest);
    assert Render(r) == h + rest;
  }

  /** A client receives exactly the endpoint's body (an empty body when none
      is set), except under a final status that forbids a body: 101, 204 or
      304, where net/http refuses the Write. */
  lemma RenderedBody(r: Recipe)
    ensures ClientBody(Render(r)) == if r.status in {101, 204, 304} then "" else r.body
  {
    var h, s, b := HeaderStep(r), StatusStep(r), BodyStep(r);
    WrittenConcat(h + s, b);
    WrittenConcat(h, s);
    assert Written(h) == "" && Written(s) == "";
    if |b| > 0 {
      assert Written(b) == r.body + Written(b[1..]);
    }
    RenderedStatus(r);
  }

  /** The http.ResponseWriter the endpoint writes to, as the log of its writes. */
  class ResponseWriter {
    var events: seq<Write>

    constructor ()
      ensures events == []
    {
      events := [];
    }

    method SetContentType(t: string)
      modifies this
      ensures events == old(events) + [HeaderSet(t)]
    {
      events := events + [HeaderSet(t)];
    }

    method WriteHeader(code: int)
      modifies this
      ensures events == old(events) + [StatusWritten(code)]
    {
      events := events + [StatusWritten(code)];
    }

    method Write(data: string)
      modifies this
      ensures events == old(events) + [BodyWritten(data)]
    {
      events := events + [BodyWritten(data)];
    }
  }

  /** An endpoint added to a stub server; the setters change one field each
      and return the endpoint itself for chaining. */
  class Endpoint {
    var path: string
    var status: int
    var contentType: string
    var body: string

    /** The endpoint's current recipe. */
    function Value(): Recipe
      reads this
    {
      Recipe(path, status, contentType, body)
    }

    /** A fresh endpoint for pattern `path` with the given content type, no
        status and no body. */
    constructor (path: string, contentType: string)
      ensures Value() == Recipe(path, 0, contentType, "")
    {
      this.path := path;
      this.status := 0;
      this.contentType := contentType;
      this.body := "";
    }

    /** Sets the status; the last call wins. */
    method WithStatus(s: int) returns (e: Endpoint)
      modifies this
      ensures e == this
      ensures Value() == old(Value()).(status := s)
    {
      status := s;
      e := this;
    }

    /** Sets the content type, overriding the server default it was created with. */
    method WithContentType(t: string) returns (e: Endpoint)
      modifies this
      ensures e == this
      ensures Value() == old(Value()).(contentType := t)
    {
      contentType := t;
      e := this;
    }

    /** Sets the body to the bytes of `b`; the last call wins. */
    method WithBody(b: string) returns (e: Endpoint)
      modifies this
      ensures e == this
      ensures Value() == old(Value()).(body := b)
    {
      body := b;
      e := this;
    }

    /** Writes the recipe to `w`: header, status and body, each only when set.
        The endpoint itself is left unchanged. */
    method ServeHTTP(w: ResponseWriter)
      modifies w
      ensures w.events == old(w.events) + Render(Value())
    {
      if |contentType| > 0 {
        w.SetContentType(contentType);
      }
      if status > 0 {
        w.WriteHeader(status);
      }
      if |body| > 0 {
        w.Write(body);
      }
    }
  }
}
