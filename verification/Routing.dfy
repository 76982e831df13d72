/** Path routing of webd: prefix normal form, segment-aligned matching, longest-prefix selection in two
    implementations, and the rewriting of paths below a mount. */
module Routing {
  import opened Wrappers
  import opened Text

  predicate HasPrefix(s: string, prefix: string) {
    prefix <= s
  }

  predicate HasSuffix(s: string, suffix: string) {
    |suffix| <= |s| && s[|s| - |suffix|..] == suffix
  }

  function TrimSuffix(s: string, suffix: string): string {
    if HasSuffix(s, suffix) then s[..|s| - |suffix|] else s
  }

  function TrimPrefix(s: string, prefix: string): string {
    if HasPrefix(s, prefix) then s[|prefix|..] else s
  }

  // ----- Prefixes -----

  function NormalizeRoutePrefix(prefix: string): string {
    var p := TrimSpace(prefix);
    if p == "" then ""
    else
      var rooted := if HasPrefix(p, "/") then p else "/" + p;
      if HasSuffix(rooted, "/") then rooted else rooted + "/"
  }

  /** A path prefix that normalisation leaves alone. */
  predicate Normal(p: string) {
    p != "" && p[0] == '/' && p[|p| - 1] == '/'
  }

  function Base(p: string): string
    requires Normal(p)
  {
    p[..|p| - 1]
  }

  lemma SuffixSlash(s: string)
    ensures HasSuffix(s, "/") <==> s != "" && s[|s| - 1] == '/'
    ensures HasPrefix(s, "/") <==> s != "" && s[0] == '/'
  {}

  /** Normal forms are exactly the fixpoints, and every prefix that is not blank has one. */
  lemma NormalizeNormal(prefix: string)
    ensures NormalizeRoutePrefix(prefix) != "" ==> Normal(NormalizeRoutePrefix(prefix))
    ensures NormalizeRoutePrefix(prefix) == "" <==> Blank(prefix)
    ensures Normal(prefix) <==> prefix != "" && NormalizeRoutePrefix(prefix) == prefix
  {
    TrimSpaceTrimmed(prefix);
    var p := TrimSpace(prefix);
    hide TrimSpace;
    var rooted := if HasPrefix(p, "/") then p else "/" + p;
    SuffixSlash(p);
    SuffixSlash(rooted);
    if Normal(prefix) {
      assert TrimSpace(prefix) == prefix by { TrimSpaceFixpoint(prefix); }
    }
  }

  // ----- Matching -----

  function RoutePathMatches(requestPath: string, prefix: string): bool {
    var normalized := NormalizeRoutePrefix(prefix);
    var path := TrimSpace(requestPath);
    normalized != "" && path != "" && (path == TrimSuffix(normalized, "/") || HasPrefix(path, normalized))
  }

  /** path is the prefix's last segment or something below it: it continues the base at a segment boundary. */
  predicate Aligned(path: string, p: string)
    requires Normal(p)
  {
    Base(p) <= path && (|path| == |Base(p)| || path[|Base(p)|] == '/')
  }

  lemma MatchesIsAligned(requestPath: string, p: string)
    requires Normal(p) && TrimSpace(requestPath) != ""
    ensures RoutePathMatches(requestPath, p) <==> Aligned(TrimSpace(requestPath), p)
  {
    NormalizeNormal(p);
    SuffixSlash(p);
    hide TrimSpace, NormalizeRoutePrefix;
    var path := TrimSpace(requestPath);
    assert p == Base(p) + "/";
    if Aligned(path, p) && |path| > |Base(p)| {
      assert path[..|p|] == Base(p) + [path[|Base(p)|]];
    }
  }

  /** Every matching prefix is a prefix of the path closed by a slash. */
  lemma AlignedClosed(path: string, p: string)
    requires Normal(p)
    ensures Aligned(path, p) <==> p <= path + "/"
  {
    assert p == Base(p) + "/";
    if p <= path + "/" {
      assert (path + "/")[..|p| - 1] == Base(p);
      assert (path + "/")[|p| - 1] == '/';
    }
  }

  /** Any stored prefix matches exactly the trimmed paths that, closed by a slash, begin with its normal form. */
  lemma MatchesClosed(requestPath: string, prefix: string)
    ensures RoutePathMatches(requestPath, prefix) <==>
              NormalizeRoutePrefix(prefix) != "" && TrimSpace(requestPath) != ""
              && NormalizeRoutePrefix(prefix) <= TrimSpace(requestPath) + "/"
  {
    var n := NormalizeRoutePrefix(prefix);
    NormalizeNormal(prefix);
    if n != "" && TrimSpace(requestPath) != "" {
      NormalizeNormal(n);
      MatchesIsAligned(requestPath, n);
      AlignedClosed(TrimSpace(requestPath), n);
    }
  }

  // ----- First hit -----

  datatype Route = Route(reference: string, pathPrefix: string, proxyAddr: string)

  /** The normal form of the prefix route i is stored with; stored prefixes need not be in normal form. */
  function NormalAt(routes: seq<Route>, i: nat): string
    requires i < |routes|
  {
    NormalizeRoutePrefix(routes[i].pathPrefix)
  }

  predicate MatchesAt(routes: seq<Route>, path: string, i: int) {
    0 <= i < |routes| && RoutePathMatches(path, routes[i].pathPrefix)
  }

  /** i is the first route that matches; -1 says that none does. */
  ghost predicate FirstMatch(routes: seq<Route>, path: string, i: int) {
    if i == -1 then forall j :: 0 <= j < |routes| ==> !MatchesAt(routes, path, j)
    else MatchesAt(routes, path, i) && forall j :: 0 <= j < i ==> !MatchesAt(routes, path, j)
  }

  /** Route i matches, and no matching route has a longer normal form. */
  ghost predicate LongestMatch(routes: seq<Route>, path: string, i: int) {
    && MatchesAt(routes, path, i)
    && forall j :: 0 <= j < |routes| && MatchesAt(routes, path, j) ==> |NormalAt(routes, j)| <= |NormalAt(routes, i)|
  }

  /** The loop of realizationRoutingMiddleware. */
  method FirstHit(routes: seq<Route>, requestPath: string) returns (hit: int)
    ensures FirstMatch(routes, requestPath, hit)
  {
    hide RoutePathMatches;
    for i := 0 to |routes|
      invariant forall j :: 0 <= j < i ==> !MatchesAt(routes, requestPath, j)
    {
      if routes[i].pathPrefix != "" && RoutePathMatches(requestPath, routes[i].pathPrefix) {
        return i;
      }
      EmptyMatchesNothing(requestPath);
    }
    return -1;
  }

  lemma EmptyMatchesNothing(requestPath: string)
    ensures !RoutePathMatches(requestPath, "")
  {
    MatchesClosed(requestPath, "");
    NormalizeNormal("");
    assert TrimSpace("") == "";
  }

  /** Route i stands before route j although the normal form of j continues that of i, and no route before i
      stands in for j. */
  ghost predicate Shadows(routes: seq<Route>, i: int, j: int) {
    && 0 <= i < j < |routes| && NormalAt(routes, i) != "" && NormalAt(routes, i) < NormalAt(routes, j)
    && forall k :: 0 <= k < i ==> NormalAt(routes, k) != NormalAt(routes, j)
  }

  ghost predicate AlwaysLongest(routes: seq<Route>) {
    forall path, i :: i != -1 && FirstMatch(routes, path, i) ==> LongestMatch(routes, path, i)
  }

  lemma MatchesAtClosed(routes: seq<Route>, path: string, i: nat)
    requires i < |routes|
    ensures MatchesAt(routes, path, i) <==>
              NormalAt(routes, i) != "" && TrimSpace(path) != "" && NormalAt(routes, i) <= TrimSpace(path) + "/"
  {
    MatchesClosed(path, routes[i].pathPrefix);
  }

  lemma PrefixesOfOne(a: string, b: string, whole: string)
    requires a <= whole && b <= whole && |a| < |b|
    ensures a < b
  {
    assert a == whole[..|a|] && b == whole[..|b|];
  }

  /** Unless some route shadows another, the first hit is a longest match, for every path. */
  lemma UnshadowedIsLongest(routes: seq<Route>, path: string, i: int)
    requires i != -1 && FirstMatch(routes, path, i)
    requires forall a, b :: !Shadows(routes, a, b)
    ensures LongestMatch(routes, path, i)
  {
    hide RoutePathMatches, NormalizeRoutePrefix, TrimSpace;
    MatchesAtClosed(routes, path, i);
    forall j | 0 <= j < |routes| && MatchesAt(routes, path, j) ensures |NormalAt(routes, j)| <= |NormalAt(routes, i)| {
      MatchesAtClosed(routes, path, j);
      if |NormalAt(routes, j)| > |NormalAt(routes, i)| {
        PrefixesOfOne(NormalAt(routes, i), NormalAt(routes, j), TrimSpace(path) + "/");
        assert !Shadows(routes, i, j);
        var k :| 0 <= k < i && NormalAt(routes, k) == NormalAt(routes, j);
        MatchesAtClosed(routes, path, k);
      }
    }
  }

  function Longest(routes: seq<Route>): nat {
    if routes == [] then 0
    else
      var n, rest := |NormalizeRoutePrefix(routes[0].pathPrefix)|, Longest(routes[1..]);
      if n > rest then n else rest
  }

  lemma LongestBounds(routes: seq<Route>, i: nat)
    requires i < |routes|
    ensures |NormalAt(routes, i)| <= Longest(routes)
  {
    if i > 0 { LongestBounds(routes[1..], i - 1); }
  }

  /** A path below a normal prefix whose last segment is longer than every prefix: the routes that match it
      are those whose normal form the prefix begins with. */
  function Below(p: string, n: nat): string {
    p + seq(n + 1, i => 'x')
  }

  lemma BelowTrimmed(p: string, n: nat)
    requires Normal(p)
    ensures TrimSpace(Below(p, n)) == Below(p, n) != ""
  {
    TrimSpaceFixpoint(Below(p, n));
  }

  lemma BelowEnds(p: string, n: nat)
    ensures var closed := Below(p, n) + "/";
            && |closed| == |p| + n + 2 && closed[..|p|] == p
            && forall k :: |p| <= k <= |p| + n ==> closed[k] == 'x'
  {}

  /** Among strings that end in a slash and are not too long, those the path begins with are those p begins with. */
  lemma BelowBegins(q: string, p: string, n: nat)
    requires q != "" && q[|q| - 1] == '/' && |q| <= n
    ensures q <= Below(p, n) + "/" <==> q <= p
  {
    BelowEnds(p, n);
    hide Below;
    var closed := Below(p, n) + "/";
    if |q| <= |p| {
      assert closed[..|q|] == closed[..|p|][..|q|];
    } else {
      assert closed[|q| - 1] == 'x';
    }
  }

  lemma MatchesBelow(p: string, n: nat, prefix: string)
    requires Normal(p) && |NormalizeRoutePrefix(prefix)| <= n
    ensures RoutePathMatches(Below(p, n), prefix)
        <==> NormalizeRoutePrefix(prefix) != "" && NormalizeRoutePrefix(prefix) <= p
  {
    var q := NormalizeRoutePrefix(prefix);
    MatchesClosed(Below(p, n), prefix);
    BelowTrimmed(p, n);
    NormalizeNormal(prefix);
    hide TrimSpace, NormalizeRoutePrefix, RoutePathMatches, Below;
    if q != "" { BelowBegins(q, p, n); }
  }

  lemma MatchesAtBelow(routes: seq<Route>, p: string, k: nat)
    requires Normal(p) && k < |routes|
    ensures MatchesAt(routes, Below(p, Longest(routes)), k) <==> NormalAt(routes, k) != "" && NormalAt(routes, k) <= p
  {
    hide RoutePathMatches, NormalizeRoutePrefix, Longest, Below;
    LongestBounds(routes, k);
    MatchesBelow(p, Longest(routes), routes[k].pathPrefix);
  }

  /** A shadowing pair sends some path to a shorter match. */
  lemma ShadowMisroutes(routes: seq<Route>, i: int, j: int) returns (path: string, hit: int)
    requires Shadows(routes, i, j)
    ensures hit != -1 && FirstMatch(routes, path, hit) && !LongestMatch(routes, path, hit)
  {
    var p := NormalAt(routes, j);
    NormalizeNormal(routes[j].pathPrefix);
    path := Below(p, Longest(routes));
    hide NormalAt, Below, Longest, MatchesAt, Normal;
    MatchesAtBelow(routes, p, i);
    MatchesAtBelow(routes, p, j);
    hit := FirstHitOf(routes, path, i);
    MatchesAtBelow(routes, p, hit);
    ShorterPrefix(NormalAt(routes, hit), p);
  }

  lemma ShorterPrefix(a: string, b: string)
    requires a <= b && a != b
    ensures |a| < |b|
  {}

  lemma FirstHitOf(routes: seq<Route>, path: string, i: nat) returns (hit: nat)
    requires MatchesAt(routes, path, i)
    ensures hit <= i && FirstMatch(routes, path, hit)
  {
    hide RoutePathMatches;
    hit := 0;
    while !MatchesAt(routes, path, hit)
      invariant hit <= i && forall j :: 0 <= j < hit ==> !MatchesAt(routes, path, j)
      decreases i - hit
    {
      hit := hit + 1;
    }
  }

  /** Whatever order the routes stand in and however their prefixes are spelled: the first hit is a longest
      match for every path exactly when no route shadows another. */
  lemma FirstHitIsLongestIff(routes: seq<Route>)
    ensures AlwaysLongest(routes) <==> forall i, j :: !Shadows(routes, i, j)
  {
    hide FirstMatch, LongestMatch, Shadows;
    if forall i, j :: !Shadows(routes, i, j) {
      forall path, i | i != -1 && FirstMatch(routes, path, i) ensures LongestMatch(routes, path, i) {
        UnshadowedIsLongest(routes, path, i);
      }
    }
    if i, j :| Shadows(routes, i, j) {
      var path, hit := ShadowMisroutes(routes, i, j);
    }
  }

  ghost predicate LengthSorted(routes: seq<Route>) {
    forall i, j :: 0 <= i < j < |routes| ==> |routes[i].pathPrefix| >= |routes[j].pathPrefix|
  }

  /** Prefixes stored in normal form and sorted by length never shadow each other, in any order of ties. */
  lemma SortedNormalUnshadowed(routes: seq<Route>)
    requires LengthSorted(routes) && forall i :: 0 <= i < |routes| ==> Normal(routes[i].pathPrefix)
    ensures AlwaysLongest(routes)
  {
    forall i, j ensures !Shadows(routes, i, j) {
      if 0 <= i < j < |routes| {
        NormalizeNormal(routes[i].pathPrefix);
        NormalizeNormal(routes[j].pathPrefix);
      }
    }
    FirstHitIsLongestIff(routes);
  }

  lemma NormalizeBare(prefix: string)
    requires Trimmed(prefix) && prefix != "" && prefix[0] != '/' && prefix[|prefix| - 1] != '/'
    ensures NormalizeRoutePrefix(prefix) == "/" + prefix + "/"
  {
    TrimSpaceFixpoint(prefix);
    hide TrimSpace;
    SuffixSlash(prefix);
    SuffixSlash("/" + prefix);
  }

  lemma SpelledApart()
    ensures NormalizeRoutePrefix("/a/") == "/a/" && NormalizeRoutePrefix("a/b") == "/a/b/"
    ensures TrimSpace("/a/b/x") == "/a/b/x"
  {
    TrimSpaceFixpoint("/a/b/x");
    NormalizeBare("a/b");
    NormalizeNormal("/a/");
  }

  /** Sorting goes by the stored text: these two prefixes tie in length, so this order is one the sort may
      leave, and a path of the inner route goes to the outer one. */
  lemma TieHidesLonger()
    ensures var routes := [Route("outer", "/a/", "outer:80"), Route("inner", "a/b", "inner:80")];
            LengthSorted(routes) && FirstMatch(routes, "/a/b/x", 0) && !LongestMatch(routes, "/a/b/x", 0)
  {
    var routes := [Route("outer", "/a/", "outer:80"), Route("inner", "a/b", "inner:80")];
    SpelledApart();
    hide TrimSpace, NormalizeRoutePrefix, RoutePathMatches;
    MatchesAtClosed(routes, "/a/b/x", 0);
    MatchesAtClosed(routes, "/a/b/x", 1);
    var whole := "/a/b/x/";
    assert "/a/b/x" + "/" == whole && whole[..3] == "/a/" && whole[..5] == "/a/b/";
  }

  // ----- The other implementation: an argmax scan -----

  function LookupPath(rawPath: string): string {
    var target := TrimSpace(rawPath);
    var rooted := if HasPrefix(target, "/") then target else "/" + target;
    if HasSuffix(rooted, "/") then rooted else rooted + "/"
  }

  predicate Found(option: Route, rawPath: string) {
    NormalizeRoutePrefix(option.pathPrefix) != ""
    && HasPrefix(LookupPath(rawPath), NormalizeRoutePrefix(option.pathPrefix))
  }

  /** The answer belongs to a prefix found for the path, and no found prefix is longer; it is empty when none
      is found. */
  ghost predicate Selected(options: seq<Route>, n: nat, rawPath: string, reference: string, prefix: string)
    requires n <= |options|
  {
    && (forall i :: 0 <= i < n && Found(options[i], rawPath) ==>
          0 < |NormalizeRoutePrefix(options[i].pathPrefix)| <= |prefix|)
    && (prefix == "" ==> reference == "")
    && (prefix != "" ==> exists i :: SelectedAt(options, n, rawPath, reference, prefix, i))
  }

  ghost predicate SelectedAt(options: seq<Route>, n: nat, rawPath: string, reference: string, prefix: string, i: int)
    requires n <= |options|
  {
    && 0 <= i < n && Found(options[i], rawPath)
    && NormalizeRoutePrefix(options[i].pathPrefix) == prefix && TrimSpace(options[i].reference) == reference
  }

  /** What the scan answers: nothing for the root, else what it selects. */
  ghost predicate Answers(options: seq<Route>, rawPath: string, reference: string, prefix: string) {
    if TrimSpace(rawPath) == "" || TrimSpace(rawPath) == "/" then reference == "" && prefix == ""
    else Selected(options, |options|, rawPath, reference, prefix)
  }

  /** realizationReferenceForPath over the realizations' references and prefixes. */
  method ReferenceForPath(options: seq<Route>, rawPath: string) returns (reference: string, prefix: string)
    ensures Answers(options, rawPath, reference, prefix)
  {
    hide NormalizeRoutePrefix, TrimSpace;
    reference, prefix := "", "";
    var targetPath := TrimSpace(rawPath);
    if targetPath == "" || targetPath == "/" {
      return;
    }
    if !HasPrefix(targetPath, "/") {
      targetPath := "/" + targetPath;
    }
    var lookupPath := targetPath;
    if !HasSuffix(lookupPath, "/") {
      lookupPath := lookupPath + "/";
    }
    assert lookupPath == LookupPath(rawPath);
    hide LookupPath, HasSuffix;
    for i := 0 to |options|
      invariant Selected(options, i, rawPath, reference, prefix)
    {
      var pathPrefix := NormalizeRoutePrefix(options[i].pathPrefix);
      assert forall j :: SelectedAt(options, i, rawPath, reference, prefix, j) ==>
               SelectedAt(options, i + 1, rawPath, reference, prefix, j);
      if pathPrefix == "" {
        continue;
      }
      if HasPrefix(lookupPath, pathPrefix) && |pathPrefix| > |prefix| {
        prefix := pathPrefix;
        reference := TrimSpace(options[i].reference);
        assert SelectedAt(options, i + 1, rawPath, reference, prefix, i);
      }
    }
  }

  /** The two matchers differ on a prefix exactly when the path already ends in a slash and the prefix is the
      path with one slash more. */
  lemma MatchersDifferIff(rawPath: string, p: string)
    requires Normal(p) && HasPrefix(TrimSpace(rawPath), "/")
    ensures (RoutePathMatches(rawPath, p) <==> HasPrefix(LookupPath(rawPath), p))
        <==> !(HasSuffix(TrimSpace(rawPath), "/") && p == TrimSpace(rawPath) + "/")
  {
    MatchesIsAligned(rawPath, p);
    hide TrimSpace, RoutePathMatches;
    var path := TrimSpace(rawPath);
    AlignedClosed(path, p);
    if HasSuffix(path, "/") {
      assert LookupPath(rawPath) == path;
      if p <= path + "/" && !(p <= path) {
        assert |p| == |path| + 1;
        assert p == (path + "/")[..|p|] == path + "/";
      }
    }
  }

  lemma SlashEnd(path: string)
    ensures HasSuffix(path, "/") <==> path != "" && path[|path| - 1] == '/'
  {
    SuffixSlash(path);
  }

  /** The normal forms of the stored prefixes that are not blank. */
  function PrefixesOf(routes: seq<Route>): set<string> {
    set i | 0 <= i < |routes| && NormalAt(routes, i) != "" :: NormalAt(routes, i)
  }

  /** The prefix a hit selects, in normal form. */
  function HitPrefix(routes: seq<Route>, hit: int): string
    requires -1 <= hit < |routes|
  {
    if hit == -1 then "" else NormalAt(routes, hit)
  }

  /** Where the matchers agree on every prefix, both selections are the longest of the same candidates. */
  lemma SameWhenMatchersAgree(
      routes: seq<Route>, options: seq<Route>, path: string, hit: int, reference: string, prefix: string)
    requires PrefixesOf(routes) == PrefixesOf(options)
    requires -1 <= hit < |routes| && FirstMatch(routes, path, hit) && (hit != -1 ==> LongestMatch(routes, path, hit))
    requires Selected(options, |options|, path, reference, prefix)
    requires forall p :: p in PrefixesOf(routes) ==> (p <= TrimSpace(path) + "/" <==> p <= LookupPath(path))
    requires TrimSpace(path) != ""
    ensures prefix == HitPrefix(routes, hit)
  {
    hide RoutePathMatches, LookupPath, TrimSpace, NormalizeRoutePrefix;
    var closed := TrimSpace(path) + "/";
    if prefix != "" {
      var k :| SelectedAt(options, |options|, path, reference, prefix, k);
      assert NormalAt(options, k) == prefix;
      assert prefix in PrefixesOf(options);
      assert prefix in PrefixesOf(routes);
      var i :| 0 <= i < |routes| && NormalAt(routes, i) == prefix;
      MatchesAtClosed(routes, path, i);
    }
    if hit != -1 {
      MatchesClosed(path, routes[hit].pathPrefix);
      assert NormalAt(routes, hit) in PrefixesOf(options);
      var j :| 0 <= j < |options| && NormalAt(options, j) == NormalAt(routes, hit);
      assert Found(options[j], path);
      assert prefix == closed[..|prefix|] && NormalAt(routes, hit) == closed[..|NormalAt(routes, hit)|];
    }
  }

  function Closed(path: string): string {
    if HasSuffix(path, "/") then path else path + "/"
  }

  lemma RelativeLookup(rawPath: string)
    requires TrimSpace(rawPath) != "" && !HasPrefix(TrimSpace(rawPath), "/")
    ensures LookupPath(rawPath) == "/" + Closed(TrimSpace(rawPath))
  {
    hide TrimSpace;
    var path := TrimSpace(rawPath);
    assert HasSuffix("/" + path, "/") <==> HasSuffix(path, "/") by {
      assert ("/" + path)[|path|] == path[|path| - 1];
    }
    assert "/" + path + "/" == "/" + (path + "/");
  }

  /** What decides whether the two selections agree, given the normal forms of the prefixes. */
  predicate SelectionsAgree(prefixes: set<string>, rawPath: string) {
    var path := TrimSpace(rawPath);
    if path == "/" then "/" !in prefixes && "//" !in prefixes
    else if HasPrefix(path, "/") then !(HasSuffix(path, "/") && path + "/" in prefixes)
    else path == "" || forall p :: p in prefixes ==> !HasPrefix("/" + Closed(path), p)
  }

  /** The first hit, when it is a longest match, and the argmax scan select the same prefix, for every path, exactly
      in these cases: for the root when no prefix matches it, as the scan never looks; for any other absolute path
      unless it ends in a slash and is, with one slash more, itself a prefix; for a path without a leading slash
      when the scan, which adds the slash, finds nothing.  The two lists hold the same prefixes, in any order and
      spelling. */
  lemma SameSelectionIff(
      routes: seq<Route>, options: seq<Route>, rawPath: string, hit: int, reference: string, prefix: string)
    requires PrefixesOf(routes) == PrefixesOf(options)
    requires -1 <= hit < |routes| && FirstMatch(routes, rawPath, hit)
    requires hit != -1 ==> LongestMatch(routes, rawPath, hit)
    requires Answers(options, rawPath, reference, prefix)
    ensures prefix == HitPrefix(routes, hit) <==> SelectionsAgree(PrefixesOf(routes), rawPath)
  {
    hide FirstMatch, LongestMatch, Selected, NormalizeRoutePrefix, LookupPath, Closed, TrimSpace, PrefixesOf, HitPrefix;
    var path := TrimSpace(rawPath);
    if path == "/" {
      RootSelection(routes, rawPath, hit);
    } else if HasPrefix(path, "/") {
      AbsoluteSelection(routes, options, rawPath, hit, reference, prefix);
    } else {
      RelativeMisses(routes, rawPath, hit);
      if path != "" {
        RelativeLookup(rawPath);
        ScanFindsNothingIff(options, rawPath, reference, prefix);
      }
    }
  }

  lemma MatchingPrefixes(routes: seq<Route>, rawPath: string, hit: int)
    requires -1 <= hit < |routes| && FirstMatch(routes, rawPath, hit) && TrimSpace(rawPath) != ""
    ensures HitPrefix(routes, hit) == "" <==> forall p :: p in PrefixesOf(routes) ==> !(p <= TrimSpace(rawPath) + "/")
  {
    hide RoutePathMatches, NormalizeRoutePrefix, TrimSpace;
    forall i | 0 <= i < |routes|
      ensures MatchesAt(routes, rawPath, i)
          <==> NormalAt(routes, i) != "" && NormalAt(routes, i) <= TrimSpace(rawPath) + "/"
    {
      MatchesAtClosed(routes, rawPath, i);
    }
    if hit != -1 { assert NormalAt(routes, hit) in PrefixesOf(routes); }
  }

  lemma RootSelection(routes: seq<Route>, rawPath: string, hit: int)
    requires TrimSpace(rawPath) == "/" && -1 <= hit < |routes| && FirstMatch(routes, rawPath, hit)
    ensures HitPrefix(routes, hit) == "" <==> "/" !in PrefixesOf(routes) && "//" !in PrefixesOf(routes)
  {
    hide FirstMatch, HitPrefix, PrefixesOf, TrimSpace, Normal;
    MatchingPrefixes(routes, rawPath, hit);
    var prefixes := PrefixesOf(routes);
    forall p | p in prefixes
      ensures p <= "/" + "/" <==> p == "/" || p == "//"
    {
      PrefixNotEmpty(routes, p);
      PrefixOfTwo(p);
    }
  }

  lemma PrefixNotEmpty(routes: seq<Route>, p: string)
    requires p in PrefixesOf(routes)
    ensures p != ""
  {
    hide NormalizeRoutePrefix;
    var i :| 0 <= i < |routes| && NormalAt(routes, i) == p;
    NormalizeNormal(routes[i].pathPrefix);
  }

  lemma PrefixOfTwo(p: string)
    requires p != ""
    ensures p <= "//" <==> p == "/" || p == "//"
  {
    var two := "//";
    if p <= two { assert p == two[..|p|]; }
  }

  lemma RelativeMisses(routes: seq<Route>, rawPath: string, hit: int)
    requires !HasPrefix(TrimSpace(rawPath), "/") && -1 <= hit < |routes| && FirstMatch(routes, rawPath, hit)
    ensures HitPrefix(routes, hit) == ""
  {
    hide RoutePathMatches, NormalizeRoutePrefix, TrimSpace;
    SuffixSlash(TrimSpace(rawPath));
    if hit != -1 {
      MatchesAtClosed(routes, rawPath, hit);
      NormalizeNormal(routes[hit].pathPrefix);
    }
  }

  lemma ScanFindsNothingIff(options: seq<Route>, rawPath: string, reference: string, prefix: string)
    requires Selected(options, |options|, rawPath, reference, prefix)
    ensures prefix == "" <==> forall p :: p in PrefixesOf(options) ==> !HasPrefix(LookupPath(rawPath), p)
  {
    hide LookupPath, NormalizeRoutePrefix, TrimSpace;
    if prefix != "" {
      var i :| SelectedAt(options, |options|, rawPath, reference, prefix, i);
      assert NormalAt(options, i) in PrefixesOf(options);
    } else {
      forall p | p in PrefixesOf(options)
        ensures !HasPrefix(LookupPath(rawPath), p)
      {
        var i :| 0 <= i < |options| && NormalAt(options, i) == p;
        assert !Found(options[i], rawPath);
      }
    }
  }

  lemma AbsoluteSelection(
      routes: seq<Route>, options: seq<Route>, rawPath: string, hit: int, reference: string, prefix: string)
    requires PrefixesOf(routes) == PrefixesOf(options)
    requires HasPrefix(TrimSpace(rawPath), "/") && TrimSpace(rawPath) != "/"
    requires -1 <= hit < |routes| && FirstMatch(routes, rawPath, hit)
    requires hit != -1 ==> LongestMatch(routes, rawPath, hit)
    requires Selected(options, |options|, rawPath, reference, prefix)
    ensures prefix == HitPrefix(routes, hit)
        <==> !(HasSuffix(TrimSpace(rawPath), "/") && TrimSpace(rawPath) + "/" in PrefixesOf(routes))
  {
    var path := TrimSpace(rawPath);
    var closed := path + "/";
    SlashEnd(path);
    LookupIs(rawPath);
    hide RoutePathMatches, LookupPath, TrimSpace, NormalizeRoutePrefix, HasSuffix;
    if HasSuffix(path, "/") && closed in PrefixesOf(routes) {
      var i :| 0 <= i < |routes| && NormalAt(routes, i) == closed;
      MatchesClosed(rawPath, routes[i].pathPrefix);
      assert MatchesAt(routes, rawPath, i);
      assert |HitPrefix(routes, hit)| >= |closed|;
      if prefix != "" {
        var k :| SelectedAt(options, |options|, rawPath, reference, prefix, k);
        assert prefix <= path;
      }
    } else {
      forall p | p in PrefixesOf(routes) ensures p <= closed <==> p <= LookupPath(rawPath) {
        if HasSuffix(path, "/") { OtherPrefix(p, path); }
      }
      SameWhenMatchersAgree(routes, options, rawPath, hit, reference, prefix);
    }
  }

  lemma OtherPrefix(p: string, path: string)
    requires p != path + "/"
    ensures p <= path + "/" <==> p <= path
  {
    if p <= path + "/" { assert p == (path + "/")[..|p|]; }
    if p <= path { assert p == path[..|p|] == (path + "/")[..|p|]; }
  }

  lemma LookupIs(rawPath: string)
    requires HasPrefix(TrimSpace(rawPath), "/")
    ensures LookupPath(rawPath) == if HasSuffix(TrimSpace(rawPath), "/") then TrimSpace(rawPath)
                                   else TrimSpace(rawPath) + "/"
  {}

  // ----- Mounts -----

  /** The path trimMountedRequestPrefix forwards. */
  function StripMount(path: string, mount: string): string {
    var stripped := TrimPrefix(path, TrimSuffix(mount, "/"));
    if stripped == "" then "/" else stripped
  }

  function PrefixedMountedPath(path: string, mount: string): string {
    if mount == "" then path
    else if !HasPrefix(path, "/") || HasPrefix(path, "//") || HasPrefix(path, "/__") then path
    else if path == "/" then mount
    else
      var base := TrimSuffix(mount, "/");
      if HasPrefix(path, mount) || path == base then path else base + path
  }

  /** Paths that prefixing leaves alone. */
  predicate PassesThrough(path: string, mount: string) {
    || !HasPrefix(path, "/") || HasPrefix(path, "//") || HasPrefix(path, "/__")
    || (path != "/" && (HasPrefix(path, mount) || path == TrimSuffix(mount, "/")))
  }

  lemma MountBase(mount: string)
    requires Normal(mount)
    ensures TrimSuffix(mount, "/") == Base(mount) && mount == Base(mount) + "/"
  {
    SuffixSlash(mount);
  }

  /** Prefixing is idempotent, for every path and every normal mount. */
  lemma PrefixingIdempotent(path: string, mount: string)
    requires mount == "" || Normal(mount)
    ensures PrefixedMountedPath(PrefixedMountedPath(path, mount), mount) == PrefixedMountedPath(path, mount)
  {
    if mount != "" {
      MountBase(mount);
      var once := PrefixedMountedPath(path, mount);
      if !PassesThrough(path, mount) && path != "/" {
        assert once == Base(mount) + path;
        assert once[..|mount|] == Base(mount) + path[..1] == mount;
      }
    }
  }

  /** What the router knows of a route's prefix: it is stored trimmed, and is not empty.  It need not be in normal
      form: responses are rewritten with the normal form, requests are stripped of the stored text. */
  predicate StoredPrefix(stored: string) {
    Trimmed(stored) && stored != ""
  }

  lemma RootedMount(stored: string)
    requires StoredPrefix(stored)
    ensures Normal(NormalizeRoutePrefix(stored))
    ensures HasPrefix(stored, "/") ==> TrimSuffix(stored, "/") == Base(NormalizeRoutePrefix(stored))
    ensures !HasPrefix(stored, "/") ==> TrimSuffix(stored, "/") != "" && TrimSuffix(stored, "/")[0] != '/'
  {
    TrimSpaceFixpoint(stored);
    NormalizeNormal(stored);
    SuffixSlash(stored);
    hide TrimSpace;
  }

  lemma TrimPrefixIs(base: string, path: string)
    ensures TrimPrefix(base + path, base) == path
  {
    assert (base + path)[|base|..] == path;
  }

  /** A path that prefixing leaves alone comes back unless the stored prefix, less a final slash, begins it. */
  lemma PassedThroughRoundTrip(path: string, stored: string)
    requires StoredPrefix(stored) && PassesThrough(path, NormalizeRoutePrefix(stored))
    ensures StripMount(path, stored) == path
        <==> path != "" && (TrimSuffix(stored, "/") == "" || !HasPrefix(path, TrimSuffix(stored, "/")))
  {
    var base := TrimSuffix(stored, "/");
    hide NormalizeRoutePrefix, TrimSuffix;
    if base == "" { assert TrimPrefix(path, base) == path; }
  }

  /** Any other path comes back exactly when the prefix is stored with its leading slash. */
  lemma PrefixedRoundTrip(path: string, stored: string)
    requires StoredPrefix(stored) && !PassesThrough(path, NormalizeRoutePrefix(stored))
    ensures StripMount(PrefixedMountedPath(path, NormalizeRoutePrefix(stored)), stored) == path
        <==> HasPrefix(stored, "/")
  {
    var mount, base := NormalizeRoutePrefix(stored), TrimSuffix(stored, "/");
    RootedMount(stored);
    MountBase(mount);
    SuffixSlash(path);
    hide NormalizeRoutePrefix, Normal;
    var out := PrefixedMountedPath(path, mount);
    assert out == Base(mount) + path;
    if HasPrefix(stored, "/") {
      TrimPrefixIs(Base(mount), path);
    } else {
      BareNeverStripped(out, base);
      PrefixedDiffers(path, mount);
    }
  }

  lemma BareNeverStripped(out: string, base: string)
    requires out != "" && out[0] == '/' && base != "" && base[0] != '/'
    ensures TrimPrefix(out, base) == out
  {}

  lemma PrefixedDiffers(path: string, mount: string)
    requires Normal(mount) && !PassesThrough(path, mount)
    ensures var out := PrefixedMountedPath(path, mount);
            out != "" && out[0] == '/' && (mount == "/" || out != path)
  {
    MountBase(mount);
  }

  /** Prefixing a path with a route's mount and stripping the route's stored prefix returns the path, for every
      path and every stored prefix, exactly in these cases: prefixing leaves the path alone and the stored prefix
      does not begin it, or prefixing changes the path and the prefix is stored with its leading slash. */
  lemma MountRoundTripIff(path: string, stored: string)
    requires StoredPrefix(stored)
    ensures var mount, base := NormalizeRoutePrefix(stored), TrimSuffix(stored, "/");
            (StripMount(PrefixedMountedPath(path, mount), stored) == path
             <==> if PassesThrough(path, mount) then path != "" && (base == "" || !HasPrefix(path, base))
                  else HasPrefix(stored, "/"))
  {
    var mount := NormalizeRoutePrefix(stored);
    hide NormalizeRoutePrefix, StripMount;
    if PassesThrough(path, mount) {
      assert PrefixedMountedPath(path, mount) == path;
      PassedThroughRoundTrip(path, stored);
    } else {
      PrefixedRoundTrip(path, stored);
    }
  }

  lemma SkipRightPast(s: string, lo: nat, hi: nat, k: nat)
    requires lo <= k < hi <= |s| && !IsSpace(s[k])
    ensures SkipRight(s, lo, hi) > k
  {
    if IsSpace(s[hi - 1]) { SkipRightPast(s, lo, hi - 1, k); }
  }

  /** Trimming keeps a leading part that starts and ends with something visible. */
  lemma TrimKeepsPrefix(s: string, p: string)
    requires p <= s && p != "" && !IsSpace(p[0]) && !IsSpace(p[|p| - 1])
    ensures p <= TrimSpace(s)
  {
    assert SkipLeft(s, 0) == 0;
    assert s[|p| - 1] == p[|p| - 1];
    SkipRightPast(s, 0, |s|, |p| - 1);
  }

  /** A prefixed path matches its route; the mounted application sees the path it issued exactly when the route's
      prefix is stored with its leading slash. */
  lemma MountedPathsComeBack(path: string, stored: string)
    requires StoredPrefix(stored) && !PassesThrough(path, NormalizeRoutePrefix(stored))
    ensures var sent := PrefixedMountedPath(path, NormalizeRoutePrefix(stored));
            RoutePathMatches(sent, stored) && (StripMount(sent, stored) == path <==> HasPrefix(stored, "/"))
  {
    PrefixedRoundTrip(path, stored);
    RootedMount(stored);
    var mount := NormalizeRoutePrefix(stored);
    hide NormalizeRoutePrefix, RoutePathMatches, StripMount;
    PrefixedBegins(path, mount);
    var sent := PrefixedMountedPath(path, mount);
    TrimKeepsPrefix(sent, mount);
    MatchesClosed(sent, stored);
    assert mount <= TrimSpace(sent) <= TrimSpace(sent) + "/";
  }

  lemma PrefixedBegins(path: string, mount: string)
    requires Normal(mount) && !PassesThrough(path, mount)
    ensures mount <= PrefixedMountedPath(path, mount)
  {
    MountBase(mount);
    SuffixSlash(path);
    if path != "/" {
      var sent := Base(mount) + path;
      assert sent[..|mount|] == Base(mount) + path[..1] == mount;
    }
  }

  /** Such a route: stored without its leading slash, it receives its own prefix back. */
  lemma BareMountKeepsItsPrefix()
    ensures StoredPrefix("app") && NormalizeRoutePrefix("app") == "/app/" && !PassesThrough("/x", "/app/")
    ensures PrefixedMountedPath("/x", "/app/") == "/app/x" && RoutePathMatches("/app/x", "app")
    ensures StripMount("/app/x", "app") == "/app/x"
  {
    NormalizeBare("app");
    var mount, path := "/app/", "/x";
    assert TrimSuffix(mount, "/") == "/app" && mount[1] == 'a' && path[1] == 'x';
    hide NormalizeRoutePrefix, RoutePathMatches, TrimSpace;
    MountedPathsComeBack(path, "app");
    BareNeverStripped("/app/x", "app");
    assert TrimSuffix("app", "/") == "app";
  }
}
