/** The repository's test scenarios replayed against the model. A request to
    the server's bare URL has path "/". Statuses, bodies and content types
    are what a client sees under the net/http assumption of module Endpoints.
 */
module Scenarios {
  import opened Wrappers
  import opened Segments
  import opened Matching
  import opened Endpoints
  import opened Stub

  // Segments of concrete paths, and a request as a client makes it.

  /** The segments of every registered pattern, read off separator-free
      lists that join to the registered paths. */
  lemma PatternsAs(rs: seq<Recipe>, segs: seq<seq<string>>)
    requires |rs| == |segs|
    requires forall k :: 0 <= k < |segs| ==> |segs[k]| >= 1 && Join(segs[k], '/') == rs[k].path
    requires forall k, i :: 0 <= k < |segs| && 0 <= i < |segs[k]| ==> '/' !in segs[k][i]
    ensures Patterns(rs) == segs
  {
    forall k | 0 <= k < |segs|
      ensures Patterns(rs)[k] == segs[k]
    {
      SplitJoin(segs[k], '/');
    }
  }

  /** The selection for a request, given the segments of its path. */
  lemma SelectAs(rs: seq<Recipe>, requestPath: string, pc: seq<string>)
    requires |pc| >= 1 && forall i :: 0 <= i < |pc| ==> '/' !in pc[i]
    requires Join(pc, '/') == requestPath
    ensures Select(rs, requestPath) == FirstMatch(Patterns(rs), pc)
  {
    SplitJoin(pc, '/');
  }

  /** Registers `p` on `s` with an explicit status `code`, as in
      `s.Path(p).WithStatus(code)`. */
  method RegisterWithStatus(s: Server, p: string, code: int)
    modifies s
    ensures s.defaultContentType == old(s.defaultContentType)
    ensures s.Registry() == old(s.Registry()) + [Recipe(p, code, old(s.defaultContentType), "")]
  {
    var e := s.Path(p);
    ghost var prior := Recipes(old(s.endpoints));
    e := e.WithStatus(code);
    assert Recipes(old(s.endpoints)) == prior;
    assert s.endpoints == old(s.endpoints) + [e];
    assert s.Registry() == prior + [e.Value()];
  }

  /** Registers `p` on `s` with its own content type `t`, as in
      `s.Path(p).WithContentType(t)`. */
  method RegisterWithContentType(s: Server, p: string, t: string)
    modifies s
    ensures s.defaultContentType == old(s.defaultContentType)
    ensures s.Registry() == old(s.Registry()) + [Recipe(p, 0, t, "")]
  {
    var e := s.Path(p);
    ghost var prior := Recipes(old(s.endpoints));
    e := e.WithContentType(t);
    assert Recipes(old(s.endpoints)) == prior;
    assert s.endpoints == old(s.endpoints) + [e];
    assert s.Registry() == prior + [e.Value()];
  }

  /** Registers `p` on `s` with a body `b`, as in `s.Path(p).WithBody(b)`. */
  method RegisterWithBody(s: Server, p: string, b: string)
    modifies s
    ensures s.defaultContentType == old(s.defaultContentType)
    ensures s.Registry() == old(s.Registry()) + [Recipe(p, 0, old(s.defaultContentType), b)]
  {
    var e := s.Path(p);
    ghost var prior := Recipes(old(s.endpoints));
    e := e.WithBody(b);
    assert Recipes(old(s.endpoints)) == prior;
    assert s.endpoints == old(s.endpoints) + [e];
    assert s.Registry() == prior + [e.Value()];
  }

  /** Registers `p` on `s` with its own content type `t` and a body `b`, as
      in `s.Path(p).WithContentType(t).WithBody(b)`. */
  method RegisterWithContentTypeAndBody(s: Server, p: string, t: string, b: string)
    modifies s
    ensures s.defaultContentType == old(s.defaultContentType)
    ensures s.Registry() == old(s.Registry()) + [Recipe(p, 0, t, b)]
  {
    var e := s.Path(p);
    ghost var prior := Recipes(old(s.endpoints));
    e := e.WithContentType(t);
    e := e.WithBody(b);
    assert Recipes(old(s.endpoints)) == prior;
    assert s.endpoints == old(s.endpoints) + [e];
    assert s.Registry() == prior + [e.Value()];
  }

  /** What a client receives from `s` for a request to `requestPath`. */
  method Request(s: Server, requestPath: string) returns (contentType: string, status: int, body: string)
    ensures contentType == ClientContentType(Dispatch(s.Registry(), requestPath))
    ensures status == ClientStatus(Dispatch(s.Registry(), requestPath))
    ensures body == ClientBody(Dispatch(s.Registry(), requestPath))
    ensures s.Registry() == old(s.Registry())
  {
    var w := new ResponseWriter();
    s.ServeHTTP(w, requestPath);
    assert w.events == Dispatch(s.Registry(), requestPath);
    contentType := ClientContentType(w.events);
    status := ClientStatus(w.events);
    body := ClientBody(w.events);
  }

  // TestEndpointWithStatus, TestEndpointWithContentType, TestEndpointWithBody:
  // one endpoint on "/", requested at "/".

  /** A lone endpoint registered at "/" serves the request "/". */
  lemma ServeSingleRoot(r: Recipe)
    requires r.path == "/"
    ensures Dispatch([r], "/") == Render(r)
  {
  }

  /** An endpoint on "/" with status `code`, requested at "/": a positive
      final status is what the client receives; an unset, negative or
      informational one gives the implicit 200. */
  method StatusScenario(code: int) returns (status: int)
    ensures status == if code > 0 && !Informational(code) then code else 200
  {
    var s := new Server();
    RegisterWithStatus(s, "/", code);
    var r := Recipe("/", code, "", "");
    assert s.Registry() == [r];
    var _, st, _ := Request(s, "/");
    status := st;
    ServeSingleRoot(r);
    RenderedStatus(r);
  }

  /** An endpoint on "/" with content type `t`: the client reads back `t`
      (and no header at all when `t` is empty). */
  method ContentTypeScenario(t: string) returns (contentType: string)
    ensures contentType == t
  {
    var s := new Server();
    RegisterWithContentType(s, "/", t);
    var r := Recipe("/", 0, t, "");
    assert s.Registry() == [r];
    var ct, _, _ := Request(s, "/");
    contentType := ct;
    ServeSingleRoot(r);
    RenderedContentType(r);
  }

  /** An endpoint on "/" with body `b`: the client receives exactly `b`,
      so WithBody("") yields an empty body. */
  method BodyScenario(b: string) returns (body: string)
    ensures body == b
  {
    var s := new Server();
    RegisterWithBody(s, "/", b);
    var r := Recipe("/", 0, "", b);
    assert s.Registry() == [r];
    var _, _, bd := Request(s, "/");
    body := bd;
    ServeSingleRoot(r);
    RenderedBody(r);
  }

  // TestPathMatching: four endpoints and six requests.

  /** The registry of the path-matching test. */
  predicate PathMatchingRegistry(rs: seq<Recipe>)
  {
    && |rs| == 4
    && rs[0] == Recipe("/nocontent", 204, "", "")
    && rs[1] == Recipe("/err", 500, "", "")
    && rs[2] == Recipe("/user/*/name", 200, "", "")
    && rs[3] == Recipe("/user/*", 404, "", "")
  }

  /** The path-matching test's statuses, in registration order. */
  predicate PathMatchingCodes(rs: seq<Recipe>)
  {
    |rs| == 4 && rs[0].status == 204 && rs[1].status == 500 && rs[2].status == 200 && rs[3].status == 404
  }

  /** The pattern segments of the path-matching test. */
  function PathMatchingPatterns(): seq<seq<string>>
  {
    [["", "nocontent"], ["", "err"], ["", "user", "*", "name"], ["", "user", "*"]]
  }

  /** The patterns of the path-matching test's registry. */
  lemma PathMatchingRegistryPatterns(rs: seq<Recipe>)
    requires PathMatchingRegistry(rs)
    ensures Patterns(rs) == PathMatchingPatterns()
    ensures PathMatchingCodes(rs)
  {
    PatternsAs(rs, PathMatchingPatterns());
  }

  /** Which pattern serves a one-segment request "/<x>": the two literal
      patterns serve their own names, the longer user patterns never match,
      and any other segment, the empty one of "/" included, finds none. */
  lemma PathMatchingSingleSegment(rs: seq<Recipe>, x: string)
    requires Patterns(rs) == PathMatchingPatterns()
    requires '/' !in x
    ensures Select(rs, "/" + x) ==
      if x == "nocontent" then Some(0) else if x == "err" then Some(1) else None
  {
    var ps := PathMatchingPatterns();
    var pc := ["", x];
    assert Join(pc, '/') == "/" + x by {
      assert pc[1..] == [x];
      assert Join(pc, '/') == "" + ['/'] + x;
    }
    SelectAs(rs, "/" + x, pc);
    assert Matches(ps[0], pc) <==> x == "nocontent" by {
      assert ps[0] == ["", "nocontent"];
    }
    assert Matches(ps[1], pc) <==> x == "err" by {
      assert ps[1] == ["", "err"];
    }
    assert !Matches(ps[2], pc) && !Matches(ps[3], pc);
  }

  /** "/user/<id>" splits into three segments, for any id without '/'. */
  lemma UserSegments(id: string)
    requires '/' !in id
    ensures Split("/user/" + id, '/') == ["", "user", id]
  {
    var short := ["", "user", id];
    assert Join(short, '/') == "/user/" + id by {
      assert short[1..] == ["user", id] && short[1..][1..] == [id];
      assert Join(["user", id], '/') == "user" + ['/'] + Join([id], '/');
      assert Join(short, '/') == "" + ['/'] + ("user" + ['/'] + id);
      assert "" + ['/'] + "user" + ['/'] == "/user/";
    }
    SplitJoin(short, '/');
  }

  /** "/user/<id>/<leaf>" splits into four segments, for any id and leaf
      without '/'. */
  lemma UserLeafSegments(id: string, leaf: string)
    requires '/' !in id && '/' !in leaf
    ensures Split("/user/" + id + "/" + leaf, '/') == ["", "user", id, leaf]
  {
    var pc := ["", "user", id, leaf];
    assert Join(pc, '/') == "/user/" + id + "/" + leaf by {
      assert pc[1..] == ["user", id, leaf] && pc[1..][1..] == [id, leaf];
      assert pc[1..][1..][1..] == [leaf];
      assert Join([id, leaf], '/') == id + ['/'] + Join([leaf], '/');
      assert Join(["user", id, leaf], '/') == "user" + ['/'] + Join([id, leaf], '/');
      assert Join(pc, '/') == "" + ['/'] + ("user" + ['/'] + (id + ['/'] + leaf));
      assert "" + ['/'] + "user" + ['/'] == "/user/";
    }
    SplitJoin(pc, '/');
  }

  /** For any user id, the four-segment name pattern is skipped for the
      shorter "/user/<id>", which falls to the wildcard pattern after it. */
  lemma PathMatchingUser(rs: seq<Recipe>, id: string)
    requires Patterns(rs) == PathMatchingPatterns()
    requires '/' !in id
    ensures Select(rs, "/user/" + id) == Some(3)
  {
    var ps := PathMatchingPatterns();
    var pc := ["", "user", id];
    UserSegments(id);
    assert ps[0][1] != "user" && ps[1][1] != "user";
    assert !Matches(ps[0], pc) && !Matches(ps[1], pc) && !Matches(ps[2], pc);
    assert Matches(ps[3], pc);
  }

  /** For any user id, the name pattern, registered before the user wildcard pattern,
      serves "/user/<id>/name". */
  lemma PathMatchingUserName(rs: seq<Recipe>, id: string)
    requires Patterns(rs) == PathMatchingPatterns()
    requires '/' !in id
    ensures Select(rs, "/user/" + id + "/name") == Some(2)
  {
    var ps := PathMatchingPatterns();
    var pc := ["", "user", id, "name"];
    assert "/user/" + id + "/name" == "/user/" + id + "/" + "name";
    UserLeafSegments(id, "name");
    assert ps[0][1] != "user" && ps[1][1] != "user";
    assert !Matches(ps[0], pc) && !Matches(ps[1], pc) && Matches(ps[2], pc);
  }

  /** The statuses a client receives for "/", "/err" and "/nocontent". */
  lemma PathMatchingLiteralStatuses(rs: seq<Recipe>)
    requires Patterns(rs) == PathMatchingPatterns() && PathMatchingCodes(rs)
    ensures ClientStatus(Dispatch(rs, "/")) == 200
    ensures ClientStatus(Dispatch(rs, "/err")) == 500
    ensures ClientStatus(Dispatch(rs, "/nocontent")) == 204
  {
    PathMatchingSingleSegment(rs, "");
    PathMatchingSingleSegment(rs, "err");
    PathMatchingSingleSegment(rs, "nocontent");
    assert "/" + "" == "/" && "/" + "err" == "/err" && "/" + "nocontent" == "/nocontent";
    Served(rs, "/");
    Served(rs, "/err");
    Served(rs, "/nocontent");
  }

  /** The statuses a client receives for a user and for that user's name. */
  lemma PathMatchingUserStatuses(rs: seq<Recipe>, id: string)
    requires Patterns(rs) == PathMatchingPatterns() && PathMatchingCodes(rs)
    requires '/' !in id
    ensures ClientStatus(Dispatch(rs, "/user/" + id)) == 404
    ensures ClientStatus(Dispatch(rs, "/user/" + id + "/name")) == 200
  {
    assert ClientStatus(Dispatch(rs, "/user/" + id)) == 404 by {
      PathMatchingUser(rs, id);
      Served(rs, "/user/" + id);
    }
    PathMatchingUserName(rs, id);
    Served(rs, "/user/" + id + "/name");
  }

  /** The server of the path-matching test: four endpoints, the user-name
      pattern registered before the user wildcard pattern. */
  method PathMatchingServer() returns (s: Server)
    ensures PathMatchingRegistry(s.Registry())
  {
    s := new Server();
    assert s.Registry() == [];
    RegisterWithStatus(s, "/nocontent", 204);
    RegisterWithStatus(s, "/err", 500);
    ghost var literal := s.Registry();
    RegisterUserEndpoints(s);
    assert s.Registry() == literal + [Recipe("/user/*/name", 200, "", ""), Recipe("/user/*", 404, "", "")];
  }

  /** The test's two user patterns, the name pattern first. */
  method RegisterUserEndpoints(s: Server)
    requires s.defaultContentType == ""
    modifies s
    ensures s.defaultContentType == ""
    ensures s.Registry() == old(s.Registry()) + [Recipe("/user/*/name", 200, "", ""), Recipe("/user/*", 404, "", "")]
  {
    RegisterWithStatus(s, "/user/*/name", 200);
    RegisterWithStatus(s, "/user/*", 404);
  }

  /** The path-matching test's requests to "/", "/err" and "/nocontent". */
  method PathMatchingLiteralScenario() returns (statuses: seq<int>)
    ensures statuses == [200, 500, 204]
  {
    var s := PathMatchingServer();
    ghost var rs := s.Registry();
    var _, root, _ := Request(s, "/");
    var _, err, _ := Request(s, "/err");
    var _, noContent, _ := Request(s, "/nocontent");
    statuses := [root, err, noContent];
    PathMatchingRegistryPatterns(rs);
    PathMatchingLiteralStatuses(rs);
  }

  /** The path-matching test's requests for a user and for that user's name,
      for any user id ("1" and "hello" in the test). */
  method PathMatchingUserScenario(id: string) returns (statuses: seq<int>)
    requires '/' !in id
    ensures statuses == [404, 200]
  {
    var s := PathMatchingServer();
    ghost var rs := s.Registry();
    var _, user, _ := Request(s, "/user/" + id);
    var _, name, _ := Request(s, "/user/" + id + "/name");
    statuses := [user, name];
    PathMatchingRegistryPatterns(rs);
    PathMatchingUserStatuses(rs, id);
  }

  // The package example: a default content type, three endpoints, and a
  // request that only the shortest pattern matches.

  const JsonType: string := "application/json"
  const XmlType: string := "application/xml"
  const AliceJson: string := "{\"id\":\"a1\",\"name\":\"Alice\",\"gender\":\"f\"}"
  const AliceXml: string := "<user id=\"a1\"><name>Alice</name></user>"


  /** The segments of the package example's patterns. */
  function ExamplePatterns(): seq<seq<string>>
  {
    [["", "user", "*", "name"], ["", "user", "*", "xml"], ["", "user"]]
  }

  /** The package example's recipes, in registration order. */
  predicate ExampleRegistry(rs: seq<Recipe>)
  {
    && |rs| == 3
    && rs[0] == Recipe("/user/*/name", 204, JsonType, "")
    && rs[1] == Recipe("/user/*/xml", 0, XmlType, AliceXml)
    && rs[2] == Recipe("/user", 0, JsonType, AliceJson)
  }

  /** The segments of the package example's registered paths. */
  lemma ExampleRegistryPatterns(rs: seq<Recipe>)
    requires ExampleRegistry(rs)
    ensures Patterns(rs) == ExamplePatterns()
  {
    PatternsAs(rs, ExamplePatterns());
  }

  /** In the package example, "/user/<id>/<leaf>" is served by "/user"
      unless the leaf is one of the longer patterns' last segments. */
  lemma ExampleSelection(rs: seq<Recipe>, id: string, leaf: string)
    requires Patterns(rs) == ExamplePatterns()
    requires '/' !in id && '/' !in leaf
    requires leaf != "name" && leaf != "xml"
    ensures Select(rs, "/user/" + id + "/" + leaf) == Some(2)
  {
    var ps := ExamplePatterns();
    var pc := ["", "user", id, leaf];
    UserLeafSegments(id, leaf);
    assert ps[0][3] == "name" && ps[1][3] == "xml" && pc[3] == leaf;
    assert !Matches(ps[0], pc) && !Matches(ps[1], pc);
    assert Matches(ps[2], pc);
  }

  /** On the example's registry, a request for any other resource of a user
      receives the "/user" endpoint's response. */
  lemma ExampleResponse(rs: seq<Recipe>, id: string, leaf: string)
    requires ExampleRegistry(rs)
    requires '/' !in id && '/' !in leaf
    requires leaf != "name" && leaf != "xml"
    ensures ClientContentType(Dispatch(rs, "/user/" + id + "/" + leaf)) == JsonType
    ensures ClientStatus(Dispatch(rs, "/user/" + id + "/" + leaf)) == 200
    ensures ClientBody(Dispatch(rs, "/user/" + id + "/" + leaf)) == AliceJson
  {
    ExampleRegistryPatterns(rs);
    ExampleSelection(rs, id, leaf);
    Served(rs, "/user/" + id + "/" + leaf);
  }

  /** The server of the package example: JSON as the default content type,
      then a name pattern with status 204, an XML pattern with its own
      content type and body, and "/user" with a JSON body. The example also
      configures a GET override through WithMethod, which endpoint.go does
      not define; it is not part of this model. */
  method ExampleServer() returns (s: Server)
    ensures ExampleRegistry(s.Registry())
  {
    s := new Server();
    s := s.WithDefaultContentType(JsonType);
    RegisterWithStatus(s, "/user/*/name", 204);
    RegisterWithContentTypeAndBody(s, "/user/*/xml", XmlType, AliceXml);
    RegisterWithBody(s, "/user", AliceJson);
  }

  /** A request for any other resource of any user is served by the first
      matching prefix, "/user": the default JSON content type, the implicit
      200 and the user's JSON body ("/user/a1/meep" in the example). */
  method ExampleScenario(id: string, leaf: string) returns (contentType: string, status: int, body: string)
    requires '/' !in id && '/' !in leaf
    requires leaf != "name" && leaf != "xml"
    ensures contentType == JsonType && status == 200 && body == AliceJson
  {
    var s := ExampleServer();
    contentType, status, body := Request(s, "/user/" + id + "/" + leaf);
    ExampleResponse(s.Registry(), id, leaf);
  }
}
