/** The request-to-endpoint matching rule of the stub server
    (httpstub.go, ServeHTTP): path-segment prefix matching in which the
    pattern segment "*" accepts any single request segment, and the first
    registered endpoint that matches wins.
 */
module Matching {
  import opened Wrappers
  import opened Segments

  /** The pattern segment that accepts any request segment at its position. */
  const Wildcard: string := "*"

  /** Pattern segments `ec` match request segments `pc`: the pattern is no
      longer than the request, and every pattern segment is the wildcard or
      equal to the request segment at the same position. Request segments
      beyond the pattern's length are ignored. */
  predicate Matches(ec: seq<string>, pc: seq<string>)
    // a pattern that is a segment-wise prefix of the request matches it
    ensures ec <= pc ==> Matches(ec, pc)
    // no pattern matches a request with fewer segments
    ensures Matches(ec, pc) ==> |ec| <= |pc|
  {
    |ec| <= |pc| && forall i :: 0 <= i < |ec| ==> ec[i] == Wildcard || ec[i] == pc[i]
  }

  /** The index of the first pattern, in registration order, that matches
      `pc`, or None when no pattern does. */
  function FirstMatch(patterns: seq<seq<string>>, pc: seq<string>): (r: Option<nat>)
    ensures r.Some? ==> r.value < |patterns| && Matches(patterns[r.value], pc)
    ensures r.Some? ==> forall j :: 0 <= j < r.value ==> !Matches(patterns[j], pc)
    ensures r.None? ==> forall j :: 0 <= j < |patterns| ==> !Matches(patterns[j], pc)
  {
    if |patterns| == 0 then None
    else if Matches(patterns[0], pc) then Some(0)
    else match FirstMatch(patterns[1..], pc)
      case None => None
      case Some(k) => Some(k + 1)
  }

  /** A pattern with more segments than the request never matches it. */
  lemma LongerPatternNeverMatches(ec: seq<string>, pc: seq<string>)
    requires |ec| > |pc|
    ensures !Matches(ec, pc)
  {
  }

  /** Prefix matching: a pattern that matches a request also matches it with
      any further segments appended. */
  lemma MatchesExtended(ec: seq<string>, pc: seq<string>, extra: seq<string>)
    requires Matches(ec, pc)
    ensures Matches(ec, pc + extra)
  {
  }

  /** A wildcard accepts any value at its own position: changing that request
      segment does not change whether the pattern matches. */
  lemma WildcardAcceptsAnySegment(ec: seq<string>, pc: seq<string>, i: nat, v: string)
    requires i < |ec| && i < |pc| && ec[i] == Wildcard
    ensures Matches(ec, pc) <==> Matches(ec, pc[i := v])
  {
  }

  /** Without wildcards, a pattern matches exactly the requests it is a
      segment-wise prefix of. */
  lemma LiteralPatternIsPrefix(ec: seq<string>, pc: seq<string>)
    requires Wildcard !in ec
    ensures Matches(ec, pc) <==> ec <= pc
  {
  }

  /** First match wins: any matching pattern is at or after the selected one. */
  lemma FirstMatchIsEarliest(patterns: seq<seq<string>>, pc: seq<string>, i: nat)
    requires i < |patterns| && Matches(patterns[i], pc)
    ensures FirstMatch(patterns, pc).Some? && FirstMatch(patterns, pc).value <= i
  {
  }

  /** Registering a further pattern never changes which pattern serves a
      request that already had a match; it only serves requests that had none. */
  lemma FirstMatchAppend(patterns: seq<seq<string>>, p: seq<string>, pc: seq<string>)
    ensures FirstMatch(patterns + [p], pc) ==
      if FirstMatch(patterns, pc).Some? then FirstMatch(patterns, pc)
      else if Matches(p, pc) then Some(|patterns|)
      else None
  {
    var ps := patterns + [p];
    assert forall j :: 0 <= j < |patterns| ==> ps[j] == patterns[j];
    assert ps[|patterns|] == p;
    var before := FirstMatch(patterns, pc);
    if before.Some? {
      FirstMatchIsEarliest(ps, pc, before.value);
    }
  }

  /** Appending request segments can only move the selection earlier: a
      longer request still matches the endpoint that served the shorter one. */
  lemma FirstMatchExtended(patterns: seq<seq<string>>, pc: seq<string>, extra: seq<string>)
    requires FirstMatch(patterns, pc).Some?
    ensures FirstMatch(patterns, pc + extra).Some?
    ensures FirstMatch(patterns, pc + extra).value <= FirstMatch(patterns, pc).value
  {
  }

  /** The empty pattern is the single empty segment, so it matches the empty
      path and every path that starts with '/'. */
  lemma EmptyPatternMatchesRootedPaths(requestPath: string)
    ensures Matches(Split("", '/'), Split(requestPath, '/')) <==> |requestPath| == 0 || requestPath[0] == '/'
  {
  }

  /** The pattern "/" is two empty segments. Against a request path "/<t>"
      it matches exactly when `t` is empty or starts with '/': it serves "/"
      and the paths that start with "//", and no other path such as "/err". */
  lemma RootPatternMatches(t: string)
    ensures Matches(Split("/", '/'), Split("/" + t, '/')) <==> |t| == 0 || t[0] == '/'
  {
    assert Split("/", '/') == ["", ""] by {
      assert Join(["", ""], '/') == "/";
      SplitJoin(["", ""], '/');
    }
    TwoEmptySegmentsAfterSeparator(t);
  }

  /** Behind a leading '/', the two-empty-segment pattern needs an empty
      first segment of the rest. */
  lemma TwoEmptySegmentsAfterSeparator(t: string)
    ensures Matches(["", ""], Split("/" + t, '/')) <==> |t| == 0 || t[0] == '/'
  {
    var pc := Split("/" + t, '/');
    FirstSegment("/" + t, '/');
    assert ("/" + t)[1..] == t;
    assert pc == [""] + Split(t, '/');
    FirstSegment(t, '/');
    assert pc[1] == Split(t, '/')[0];
  }
}
