/** The stub server (httpstub.go): an append-only, insertion-ordered list of
    endpoints, the content type new endpoints start with, and the dispatch
    of a request path to the first endpoint whose pattern matches it.
    Starting and stopping the listening socket is not modelled; a request is
    given by its URL path alone.
 */
module Stub {
  import opened Wrappers
  import opened Segments
  import opened Matching
  import opened Endpoints

  /** The segments of each recipe's pattern, in registration order. */
  function Patterns(rs: seq<Recipe>): (ps: seq<seq<string>>)
    ensures |ps| == |rs|
    ensures forall i :: 0 <= i < |rs| ==> ps[i] == Split(rs[i].path, '/')
  {
    if |rs| == 0 then [] else Patterns(rs[..|rs| - 1]) + [Split(rs[|rs| - 1].path, '/')]
  }

  /** Splitting the patterns loses nothing: every segment list is non-empty,
      free of '/', and rejoins to the registered path. */
  lemma PatternsRejoin(rs: seq<Recipe>)
    ensures forall i :: 0 <= i < |rs| ==> |Patterns(rs)[i]| >= 1 && Join(Patterns(rs)[i], '/') == rs[i].path
    ensures forall i, k :: 0 <= i < |rs| && 0 <= k < |Patterns(rs)[i]| ==> '/' !in Patterns(rs)[i][k]
  {
    forall i | 0 <= i < |rs|
      ensures Join(Patterns(rs)[i], '/') == rs[i].path
    {
      JoinSplit(rs[i].path, '/');
    }
  }

  /** The index of the recipe that serves `requestPath`, if any. */
  function Select(rs: seq<Recipe>, requestPath: string): (r: Option<nat>)
    ensures r.Some? ==> r.value < |rs|
  {
    FirstMatch(Patterns(rs), Split(requestPath, '/'))
  }

  /** The writes the server performs for a request to `requestPath`: those of
      the first endpoint whose pattern matches, or none at all. Every write
      comes from the rendering of one registered endpoint; which one is
      stated by DispatchFirstMatch. */
  function Dispatch(rs: seq<Recipe>, requestPath: string): (log: seq<Write>)
    ensures log != [] ==> exists i :: 0 <= i < |rs| && log == Render(rs[i])
  {
    match Select(rs, requestPath)
    case Some(i) => Render(rs[i])
    case None => []
  }

  /** The values of the endpoints `es`, in order. */
  function Recipes(es: seq<Endpoint>): (rs: seq<Recipe>)
    reads es
    ensures |rs| == |es|
    ensures forall i :: 0 <= i < |es| ==> rs[i] == es[i].Value()
  {
    if |es| == 0 then [] else Recipes(es[..|es| - 1]) + [es[|es| - 1].Value()]
  }

  /** Under the net/http assumption, the response a client receives: that of
      the selected endpoint's recipe (its status when a final one, its body
      unless that status forbids one), or 200 with an empty body and no
      Content-Type when no endpoint matches. */
  lemma Served(rs: seq<Recipe>, requestPath: string)
    ensures Select(rs, requestPath).None? ==>
      && ClientStatus(Dispatch(rs, requestPath)) == 200
      && ClientBody(Dispatch(rs, requestPath)) == ""
      && ClientContentType(Dispatch(rs, requestPath)) == ""
    ensures Select(rs, requestPath).Some? ==>
      var r := rs[Select(rs, requestPath).value];
      && ClientStatus(Dispatch(rs, requestPath)) == (if r.status > 0 && !Informational(r.status) then r.status else 200)
      && ClientBody(Dispatch(rs, requestPath)) == (if r.status in {101, 204, 304} then "" else r.body)
      && ClientContentType(Dispatch(rs, requestPath)) == r.contentType
  {
    match Select(rs, requestPath)
    case Some(i) =>
      RenderedStatus(rs[i]);
      RenderedBody(rs[i]);
      RenderedContentType(rs[i]);
    case None =>
  }

  /** An unmatched request gets no write at all; under the net/http
      assumption a client sees 200, an empty body and no Content-Type. */
  lemma UnmatchedRequest(rs: seq<Recipe>, requestPath: string)
    requires forall i :: 0 <= i < |rs| ==> !Matches(Split(rs[i].path, '/'), Split(requestPath, '/'))
    ensures Dispatch(rs, requestPath) == []
    ensures ClientStatus(Dispatch(rs, requestPath)) == 200
    ensures ClientBody(Dispatch(rs, requestPath)) == ""
    ensures ClientContentType(Dispatch(rs, requestPath)) == ""
  {
    var ps, pc := Patterns(rs), Split(requestPath, '/');
    assert forall j :: 0 <= j < |ps| ==> !Matches(ps[j], pc);
    assert Select(rs, requestPath).None?;
  }

  /** The first endpoint whose pattern matches is the one rendered. */
  lemma DispatchFirstMatch(rs: seq<Recipe>, requestPath: string, i: nat)
    requires i < |rs| && Matches(Split(rs[i].path, '/'), Split(requestPath, '/'))
    requires forall j :: 0 <= j < i ==> !Matches(Split(rs[j].path, '/'), Split(requestPath, '/'))
    ensures Select(rs, requestPath) == Some(i)
    ensures Dispatch(rs, requestPath) == Render(rs[i])
  {
    var ps, pc := Patterns(rs), Split(requestPath, '/');
    assert Matches(ps[i], pc);
    FirstMatchIsEarliest(ps, pc, i);
    var k := FirstMatch(ps, pc).value;
    assert k == i by {
      assert Matches(ps[k], pc) && ps[k] == Split(rs[k].path, '/');
    }
  }

  /** Registration order decides: when two endpoints both match, the earlier
      one's recipe is rendered. */
  lemma EarlierEndpointWins(rs: seq<Recipe>, requestPath: string, i: nat, j: nat)
    requires i < j < |rs|
    requires Matches(Split(rs[i].path, '/'), Split(requestPath, '/'))
    ensures Select(rs, requestPath) != Some(j)
    ensures Select(rs, requestPath).Some? && Select(rs, requestPath).value <= i
  {
    FirstMatchIsEarliest(Patterns(rs), Split(requestPath, '/'), i);
  }

  /** Registering an endpoint never changes how a request that already had
      a match is served. */
  lemma RegisterKeepsEarlierMatches(rs: seq<Recipe>, r: Recipe, requestPath: string)
    requires Select(rs, requestPath).Some?
    ensures Select(rs + [r], requestPath) == Select(rs, requestPath)
    ensures Dispatch(rs + [r], requestPath) == Dispatch(rs, requestPath)
  {
    assert Patterns(rs + [r]) == Patterns(rs) + [Split(r.path, '/')];
    FirstMatchAppend(Patterns(rs), Split(r.path, '/'), Split(requestPath, '/'));
  }

  /** A configurable stub server. */
  class Server {
    var endpoints: seq<Endpoint>
    var defaultContentType: string

    /** The recipes of the registered endpoints, in registration order. */
    function Registry(): seq<Recipe>
      reads this, endpoints
    {
      Recipes(endpoints)
    }

    /** A server with no endpoints and no default content type. */
    constructor ()
      ensures endpoints == [] && defaultContentType == ""
    {
      endpoints := [];
      defaultContentType := "";
    }

    /** Registers pattern `p` as a new, last endpoint that starts with the
        current default content type, and returns it for configuration. */
    method Path(p: string) returns (e: Endpoint)
      modifies this
      ensures fresh(e)
      ensures endpoints == old(endpoints) + [e]
      ensures e.Value() == Recipe(p, 0, old(defaultContentType), "")
      ensures defaultContentType == old(defaultContentType)
      ensures Registry() == old(Registry()) + [Recipe(p, 0, old(defaultContentType), "")]
    {
      e := new Endpoint(p, defaultContentType);
      endpoints := endpoints + [e];
      assert Recipes(endpoints) == Recipes(old(endpoints)) + [e.Value()];
    }

    /** Sets the content type for endpoints registered from now on; the ones
        already registered keep theirs. */
    method WithDefaultContentType(t: string) returns (s: Server)
      modifies this
      ensures s == this
      ensures defaultContentType == t
      ensures endpoints == old(endpoints)
      ensures Registry() == old(Registry())
    {
      defaultContentType := t;
      s := this;
    }

    /** Serves a request for `requestPath`: the first endpoint whose pattern
        matches renders its recipe to `w`; when none matches, nothing is
        written. The registry is left unchanged. */
    method ServeHTTP(w: ResponseWriter, requestPath: string)
      modifies w
      ensures w.events == old(w.events) + Dispatch(old(Registry()), requestPath)
    {
      var pc := Split(requestPath, '/');
      ghost var rs := Registry();
      ghost var ps := Patterns(rs);
      label Scan:
      for k := 0 to |endpoints|
        invariant w.events == old(w.events)
        invariant forall j :: 0 <= j < k ==> !Matches(ps[j], pc)
      {
        var e := endpoints[k];
        assert e.Value() == rs[k];
        var ec := Split(e.path, '/');
        assert ec == ps[k];
        if |ec| > |pc| {
          continue;
        }
        for i := 0 to |ec|
          invariant forall m :: 0 <= m < i ==> ec[m] == Wildcard || ec[m] == pc[m]
        {
          if ec[i] == Wildcard {
            continue;
          }
          if ec[i] != pc[i] {
            continue Scan;
          }
        }
        // the pattern matches
        FirstMatchIsEarliest(ps, pc, k);
        assert Dispatch(rs, requestPath) == Render(rs[k]);
        e.ServeHTTP(w);
        return;
      }
      assert Dispatch(rs, requestPath) == [];
    }
  }
}
