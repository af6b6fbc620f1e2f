/**
  The metadata fetch of server/src/metadata-runtime.js: a cache with a time to live in front of a
  map of loads in flight. The code runs to its next await without interruption; a step below is one
  such stretch, and the clock moves only between turns of the event loop.
 */
module MetadataBroker {
  import opened StableSort
  import opened Strings
  import opened Wrappers

  const MAX_BODY_BYTES: nat := 2_000_000
  const SEARCH_TTL: nat := 5 * 60 * 1000
  const CATALOG_TTL: nat := 30 * 60 * 1000
  const DETAIL_TTL: nat := 6 * 60 * 60 * 1000
  const LONG_TTL: nat := 24 * 60 * 60 * 1000

  // ---------------------------------------------------------------------------
  // Cache keys

  datatype Origin = Origin(scheme: string, host: string, port: string)
  datatype Param = Param(name: string, value: string)
  datatype Url = Url(origin: Origin, path: string, query: seq<Param>)

  /** A normalised URL. The source hashes its text; collisions are excluded. */
  type Key = Url

  function Without(query: seq<Param>, name: string): (r: seq<Param>)
    ensures forall i :: 0 <= i < |r| ==> r[i].name != name
  {
    if query == [] then []
    else (if query[0].name == name then [] else [query[0]]) + Without(query[1..], name)
  }

  function NameOf(p: Param): string { p.name }

  function CacheKey(url: Url): Key {
    Url(url.origin, url.path, Sort(Without(url.query, "api_key"), NameOf))
  }

  lemma {:induction false} WithoutGroups(query: seq<Param>, name: string, k: string)
    ensures WithKey(Without(query, name), NameOf, k) == if k == name then [] else WithKey(query, NameOf, k)
  {
    if query != [] {
      WithoutGroups(query[1..], name, k);
      var rest := Without(query[1..], name);
      assert ([query[0]] + rest)[1..] == rest && [] + rest == rest;
    }
  }

  lemma KeyGroups(url: Url, k: string)
    ensures Sorted(CacheKey(url).query, NameOf)
    ensures WithKey(CacheKey(url).query, NameOf, k) == if k == "api_key" then [] else WithKey(url.query, NameOf, k)
  {
    SortSorts(Without(url.query, "api_key"), NameOf);
    SortIsStable(Without(url.query, "api_key"), NameOf, k);
    WithoutGroups(url.query, "api_key", k);
  }

  /** The same place, and the same values in the same order for every parameter but the API key. */
  ghost predicate SameRequest(u: Url, v: Url) {
    && u.origin == v.origin && u.path == v.path
    && forall k :: k != "api_key" ==> WithKey(u.query, NameOf, k) == WithKey(v.query, NameOf, k)
  }

  /**
    Two URLs share a key exactly when they differ only in their API key and in the order of
    parameters with different names.
   */
  lemma SameKeyExactly(u: Url, v: Url)
    ensures CacheKey(u) == CacheKey(v) <==> SameRequest(u, v)
  {
    var a, b := CacheKey(u).query, CacheKey(v).query;
    forall k
      ensures WithKey(a, NameOf, k) == WithKey(b, NameOf, k)
         <==> (k == "api_key" || WithKey(u.query, NameOf, k) == WithKey(v.query, NameOf, k))
    {
      KeyGroups(u, k);
      KeyGroups(v, k);
    }
    KeyGroups(u, "");
    KeyGroups(v, "");
    if SameRequest(u, v) {
      SortedUnique(a, b, NameOf);
    } else if a == b {
      assert forall k :: WithKey(a, NameOf, k) == WithKey(b, NameOf, k);
    }
  }

  // ---------------------------------------------------------------------------
  // Time to live

  predicate OccursAt(s: string, part: string, i: int) {
    0 <= i <= |s| - |part| && s[i..i + |part|] == part
  }

  predicate Contains(s: string, part: string) {
    exists i :: 0 <= i <= |s| && OccursAt(s, part, i)
  }

  predicate EndsWith(s: string, part: string) {
    |part| <= |s| && s[|s| - |part|..] == part
  }

  /** The path ends in /genre/<one segment>/list. */
  predicate GenreList(path: string) {
    EndsWith(path, "/list")
    && exists i :: 0 <= i < |path| - 12 && OccursAt(path, "/genre/", i)
                   && forall j :: i + 7 <= j < |path| - 5 ==> path[j] != '/'
  }

  const CATALOG_KINDS: seq<string> := ["movie", "tv"]
  const CATALOG_NAMES: seq<string> :=
    ["popular", "top_rated", "now_playing", "upcoming", "airing_today", "on_the_air"]

  predicate CatalogPage(path: string) {
    exists kind, page :: kind in CATALOG_KINDS && page in CATALOG_NAMES && path == "/3/" + kind + "/" + page
  }

  function Ttl(url: Url): nat {
    if url.origin.host != "api.themoviedb.org" then 0
    else if !("/3/" <= url.path) then 0
    else if GenreList(url.path) || EndsWith(url.path, "/release_dates") || EndsWith(url.path, "/content_ratings")
      then LONG_TTL
    else if Contains(url.path, "/search/") then SEARCH_TTL
    else if Contains(url.path, "/discover/") || Contains(url.path, "/trending/") || CatalogPage(url.path)
      then CATALOG_TTL
    else DETAIL_TTL
  }

  // The same rule over the segments of the path, which is how the API documents its paths.

  predicate HasInner(segs: seq<string>, w: string) {
    exists k :: 0 < k < |segs| - 1 && segs[k] == w
  }

  predicate HasLast(segs: seq<string>, w: string) {
    |segs| >= 2 && segs[|segs| - 1] == w
  }

  predicate IsGenreList(segs: seq<string>) {
    var n := |segs|;
    n >= 4 && segs[n - 3] == "genre" && segs[n - 2] != "" && segs[n - 1] == "list"
  }

  predicate IsCatalog(kind: string, page: string) {
    && kind in ["movie", "tv"]
    && page in ["popular", "top_rated", "now_playing", "upcoming", "airing_today", "on_the_air"]
  }

  predicate IsCatalogPage(segs: seq<string>) {
    && |segs| == 4 && segs[0] == "" && segs[1] == "3" && IsCatalog(segs[2], segs[3])
  }

  /** Lists and certifications live a day, searches five minutes, catalogs half an hour, the rest six hours. */
  function DocumentedTtl(host: string, segs: seq<string>): nat {
    if host != "api.themoviedb.org" || |segs| < 3 || segs[0] != "" || segs[1] != "3" then 0
    else if IsGenreList(segs) || HasLast(segs, "release_dates") || HasLast(segs, "content_ratings") then 86_400_000
    else if HasInner(segs, "search") then 300_000
    else if HasInner(segs, "discover") || HasInner(segs, "trending") || IsCatalogPage(segs) then 1_800_000
    else 21_600_000
  }

  lemma OccursFrom(s: string, part: string, i: nat)
    requires OccursAt(s, part, i) && part != ""
    ensures i < |s| && s[i] == part[0]
  {
    assert s[i] == s[i..i + |part|][0];
  }

  /** A text's first segment is `w`, and there are more. */
  lemma FirstSegment(rest: string, w: string)
    requires Lacks(w, '/')
    ensures |Split(rest, '/')| > 1 && Split(rest, '/')[0] == w
            <==> |w| < |rest| && rest[..|w|] == w && rest[|w|] == '/'
  {
    hide Find;
    if |w| < |rest| && rest[..|w|] == w && rest[|w|] == '/' {
      assert forall k :: 0 <= k < |w| ==> rest[k] == rest[..|w|][k];
      FindIn(rest, '/', |w|);
    }
  }

  /** After its first segment a text goes on with one that is `w`, and with more. */
  lemma OccursFirst(s: string, w: string)
    requires Lacks(w, '/') && Find(s, '/') < |s|
    ensures var i := Find(s, '/');
            OccursAt(s, ['/'] + w + ['/'], i)
            <==> |Split(s[i + 1..], '/')| > 1 && Split(s[i + 1..], '/')[0] == w
  {
    hide Find, Split;
    var i := Find(s, '/');
    FirstSegment(s[i + 1..], w);
    OccursHere(s, w, i);
  }

  lemma OccursHere(s: string, w: string, i: nat)
    requires i < |s| && s[i] == '/'
    ensures var rest := s[i + 1..];
            OccursAt(s, ['/'] + w + ['/'], i) <==> |w| < |rest| && rest[..|w|] == w && rest[|w|] == '/'
  {
    var rest, part := s[i + 1..], ['/'] + w + ['/'];
    if |w| < |rest| {
      assert s[i..i + |part|] == ['/'] + rest[..|w|] + [rest[|w|]];
      assert part == s[i..i + |part|] ==> rest[..|w|] == s[i..i + |part|][1..|w| + 1] == w;
      assert part == s[i..i + |part|] ==> rest[|w|] == part[|w| + 1];
    }
  }

  lemma InnerCons(head: string, segs: seq<string>, w: string)
    requires segs != []
    ensures HasInner([head] + segs, w) <==> (|segs| > 1 && segs[0] == w) || HasInner(segs, w)
  {
    var all := [head] + segs;
    if |segs| > 1 && segs[0] == w { assert all[1] == w; }
    if HasInner(segs, w) {
      var k :| 0 < k < |segs| - 1 && segs[k] == w;
      assert all[k + 1] == w;
    }
    if HasInner(all, w) {
      var k :| 0 < k < |all| - 1 && all[k] == w;
      assert segs[k - 1] == w;
    }
  }

  lemma OccursAfter(s: string, part: string, i: nat, j: nat)
    requires i < j <= |s|
    ensures OccursAt(s, part, j) <==> OccursAt(s[i + 1..], part, j - (i + 1))
  {
    if j <= |s| - |part| {
      assert s[j..j + |part|] == s[i + 1..][j - (i + 1)..j - (i + 1) + |part|];
    }
  }

  lemma {:induction false} ContainsBySegments(s: string, w: string)
    requires Lacks(w, '/')
    ensures Contains(s, ['/'] + w + ['/']) <==> HasInner(Split(s, '/'), w)
    decreases |s|
  {
    var i, part := Find(s, '/'), ['/'] + w + ['/'];
    forall j | 0 <= j < i ensures !OccursAt(s, part, j) {
      if OccursAt(s, part, j) { OccursFrom(s, part, j); }
    }
    if i < |s| {
      var rest := s[i + 1..];
      OccursFirst(s, w);
      ContainsBySegments(rest, w);
      InnerCons(s[..i], Split(rest, '/'), w);
      ContainsAfter(s, part, i);
    }
  }

  lemma ContainsAfter(s: string, part: string, i: nat)
    requires i < |s| && forall j :: 0 <= j < i ==> !OccursAt(s, part, j)
    ensures Contains(s, part) <==> OccursAt(s, part, i) || Contains(s[i + 1..], part)
  {
    var rest := s[i + 1..];
    if Contains(rest, part) {
      var j :| 0 <= j <= |rest| && OccursAt(rest, part, j);
      OccursAfter(s, part, i, j + i + 1);
    }
    if Contains(s, part) {
      var j :| 0 <= j <= |s| && OccursAt(s, part, j);
      if j > i { OccursAfter(s, part, i, j); }
    }
  }

  lemma EndsHere(s: string, i: nat, w: string)
    requires i < |s| && s[i] == '/'
    ensures s[i + 1..] == w ==> EndsWith(s, ['/'] + w)
    ensures EndsWith(s, ['/'] + w) && i == |s| - |w| - 1 ==> s[i + 1..] == w
  {
    var rest := s[i + 1..];
    assert s[i..] == ['/'] + rest;
    assert i == |s| - |w| - 1 && s[i..] == ['/'] + w ==> rest == s[i..][1..] == (['/'] + w)[1..] == w;
  }

  lemma EndsLater(s: string, i: nat, part: string)
    requires i < |s| - |part|
    ensures EndsWith(s, part) <==> EndsWith(s[i + 1..], part)
  {
    assert s[|s| - |part|..] == s[i + 1..][|s| - |part| - (i + 1)..];
  }

  lemma EndsOnSlash(s: string, w: string)
    requires EndsWith(s, ['/'] + w)
    ensures s[|s| - |w| - 1] == '/'
  {
    assert s[|s| - |w| - 1..][0] == '/';
  }

  lemma LastCons(head: string, segs: seq<string>, w: string)
    requires segs != []
    ensures HasLast([head] + segs, w) <==> (|segs| == 1 && segs[0] == w) || HasLast(segs, w)
  {
  }

  /** After the first segment the text is `w`, or ends in a later segment `w`. */
  lemma EndsAfter(s: string, i: nat, w: string)
    requires i < |s| && s[i] == '/' && forall j :: 0 <= j < i ==> s[j] != '/'
    ensures EndsWith(s, ['/'] + w) <==> s[i + 1..] == w || EndsWith(s[i + 1..], ['/'] + w)
  {
    hide EndsWith;
    EndsHere(s, i, w);
    if EndsWith(s, ['/'] + w) {
      EndsIsInside(s, w);
      EndsOnSlash(s, w);
    }
    if i < |s| - |w| - 1 { EndsLater(s, i, ['/'] + w); } else { TooShort(s[i + 1..], w); }
  }

  /** A text is `w` when that is its only segment. */
  lemma OnlySegment(s: string, w: string)
    requires Lacks(w, '/')
    ensures |Split(s, '/')| == 1 && Split(s, '/')[0] == w <==> s == w
  {
    hide Split, Join;
    SplitCons(w, '/', "");
    JoinSplit(s, '/');
    JoinAlone(w, '/');
    assert |Split(s, '/')| == 1 ==> Split(s, '/') == [Split(s, '/')[0]];
  }

  lemma {:induction false} EndsBySegments(s: string, w: string)
    requires Lacks(w, '/')
    ensures EndsWith(s, ['/'] + w) <==> HasLast(Split(s, '/'), w)
    decreases |s|
  {
    hide EndsWith, HasLast, Find;
    var i := Find(s, '/');
    if i == |s| {
      AloneHasNoLast(s, w);
      if EndsWith(s, ['/'] + w) {
        EndsIsInside(s, w);
        EndsOnSlash(s, w);
      }
    } else {
      var rest := s[i + 1..];
      EndsBySegments(rest, w);
      LastCons(s[..i], Split(rest, '/'), w);
      EndsAfter(s, i, w);
      OnlySegment(rest, w);
    }
  }

  lemma EndsIsInside(s: string, w: string)
    requires EndsWith(s, ['/'] + w)
    ensures |w| < |s|
  {
  }

  lemma TooShort(s: string, w: string)
    requires |s| <= |w|
    ensures !EndsWith(s, ['/'] + w)
  {
  }

  lemma AloneHasNoLast(s: string, w: string)
    ensures !HasLast([s], w)
  {
  }

  /** /genre/<one segment>/list is all there is from `i` on. */
  predicate GenreAt(path: string, i: int) {
    && 0 <= i < |path| - 12 && OccursAt(path, "/genre/", i) && EndsWith(path, "/list")
    && forall j :: i + 7 <= j < |path| - 5 ==> path[j] != '/'
  }

  lemma GenreHere(s: string)
    requires Find(s, '/') < |s|
    ensures var i := Find(s, '/');
            GenreAt(s, i) <==> |Split(s[i + 1..], '/')| == 3 && IsGenreList([""] + Split(s[i + 1..], '/'))
  {
    hide Find, Split, IsGenreList, GenreAt;
    var i := Find(s, '/');
    var rest := s[i + 1..];
    if GenreAt(s, i) {
      var x := GenreSegment(s, i);
      SplitCons("genre", '/', x + (['/'] + "list"));
      SplitCons(x, '/', "list");
      SplitCons("list", '/', "");
      IsGenre(["genre"] + ([x] + ["list"]));
    } else if |Split(rest, '/')| == 3 && IsGenreList([""] + Split(rest, '/')) {
      JoinSplit(rest, '/');
      GenreSpelled(s, i, Split(rest, '/'));
    }
  }

  lemma IsGenre(segs: seq<string>)
    requires |segs| == 3 && segs[0] == "genre" && segs[1] != "" && segs[2] == "list"
    ensures IsGenreList([""] + segs)
  {
  }

  lemma GenreSegment(s: string, i: nat) returns (x: string)
    requires GenreAt(s, i)
    ensures i < |s| && s[i + 1..] == "genre" + (['/'] + (x + (['/'] + "list"))) && x != "" && Lacks(x, '/')
  {
    x := s[i + 7..|s| - 5];
    assert s[i + 1..] == s[i..i + 7][1..] + (x + s[|s| - 5..]);
    assert "/genre/"[1..] == "genre" + ['/'] && "/list" == ['/'] + "list";
  }

  lemma JoinThree(a: string, b: string, c: string)
    ensures Join([a, b, c], '/') == a + (['/'] + (b + (['/'] + c)))
  {
    JoinCons(a, [b, c], '/');
    JoinCons(b, [c], '/');
    assert [a] + [b, c] == [a, b, c] && [b] + [c] == [b, c];
  }

  lemma GenreEnds(s: string, i: nat, x: string)
    requires i < |s| && s[i + 1..] == "genre" + (['/'] + (x + (['/'] + "list")))
    ensures |s| == i + |x| + 12 && EndsWith(s, "/list")
  {
    var rest := s[i + 1..];
    assert s[|s| - 5..] == rest[|rest| - 5..] == ['/'] + "list";
  }

  lemma GenreStartsHere(s: string, i: nat, more: string)
    requires i < |s| && s[i] == '/' && s[i + 1..] == "genre" + (['/'] + more)
    ensures OccursAt(s, "/genre/", i)
  {
    var rest := s[i + 1..];
    assert rest[..6] == "genre" + ['/'];
    assert s[i..i + 7] == ['/'] + rest[..6] == "/genre/";
  }

  lemma GenreBetween(s: string, i: nat, x: string)
    requires i < |s| && s[i + 1..] == "genre" + (['/'] + (x + (['/'] + "list"))) && Lacks(x, '/')
    ensures forall j :: i + 7 <= j < |s| - 5 ==> s[j] != '/'
  {
    var rest := s[i + 1..];
    forall j | i + 7 <= j < |s| - 5 ensures s[j] != '/' { assert s[j] == rest[j - (i + 1)] == x[j - (i + 7)]; }
  }

  lemma GenreText(s: string, i: nat, x: string)
    requires i < |s| && s[i] == '/' && x != "" && Lacks(x, '/')
    requires s[i + 1..] == "genre" + (['/'] + (x + (['/'] + "list")))
    ensures GenreAt(s, i)
  {
    hide OccursAt, EndsWith, Lacks;
    GenreStartsHere(s, i, x + (['/'] + "list"));
    GenreEnds(s, i, x);
    GenreBetween(s, i, x);
  }

  lemma GenreSpelled(s: string, i: nat, segs: seq<string>)
    requires i < |s| && s[i] == '/' && |segs| == 3 && IsGenreList([""] + segs)
    requires s[i + 1..] == Join(segs, '/') && Lacks(segs[1], '/')
    ensures GenreAt(s, i)
  {
    hide Join;
    var all := [""] + segs;
    assert all[1] == "genre" && all[2] == segs[1] && all[3] == "list";
    JoinThree(segs[0], segs[1], segs[2]);
    assert segs == [segs[0], segs[1], segs[2]];
    GenreText(s, i, segs[1]);
  }

  lemma GenreLater(s: string, i: nat, j: nat)
    requires i < j <= |s|
    ensures GenreAt(s, j) <==> GenreAt(s[i + 1..], j - (i + 1))
  {
    OccursAfter(s, "/genre/", i, j);
    var rest := s[i + 1..];
    assert forall k :: i + 1 <= k < |s| ==> s[k] == rest[k - (i + 1)];
    if |rest| >= 5 { assert rest[|rest| - 5..] == s[|s| - 5..]; }
  }

  lemma GenreListIsSomewhere(path: string)
    ensures GenreList(path) <==> exists i :: 0 <= i < |path| && GenreAt(path, i)
  {
    if GenreList(path) {
      var i :| 0 <= i < |path| - 12 && OccursAt(path, "/genre/", i)
               && forall j :: i + 7 <= j < |path| - 5 ==> path[j] != '/';
      assert GenreAt(path, i);
    }
  }

  lemma GenreCons(head: string, segs: seq<string>)
    requires segs != []
    ensures IsGenreList([head] + segs) <==> (|segs| == 3 && IsGenreList([""] + segs)) || IsGenreList(segs)
  {
  }

  lemma {:induction false} GenreBySegments(s: string)
    ensures GenreList(s) <==> IsGenreList(Split(s, '/'))
    decreases |s|
  {
    hide GenreAt, IsGenreList, GenreList, Find;
    GenreListIsSomewhere(s);
    var i := Find(s, '/');
    forall j | 0 <= j < i ensures !GenreAt(s, j) {
      if GenreAt(s, j) { GenreStarts(s, j); }
    }
    if i == |s| {
      OneSegment(s);
    } else {
      var rest := s[i + 1..];
      GenreHere(s);
      GenreBySegments(rest);
      GenreListIsSomewhere(rest);
      GenreCons(s[..i], Split(rest, '/'));
      if j :| 0 <= j < |rest| && GenreAt(rest, j) { GenreLater(s, i, j + i + 1); }
      if j :| i < j < |s| && GenreAt(s, j) { GenreLater(s, i, j); }
    }
  }

  lemma GenreStarts(s: string, i: nat)
    requires GenreAt(s, i)
    ensures i < |s| && s[i] == '/'
  {
    OccursFrom(s, "/genre/", i);
  }

  lemma OneSegment(s: string)
    ensures !IsGenreList([s])
  {
  }

  lemma CatalogSplit(kind: string, page: string)
    requires Lacks(kind, '/') && Lacks(page, '/')
    ensures Split("/3/" + kind + "/" + page, '/') == [""] + (["3"] + ([kind] + [page]))
  {
    hide Split;
    SplitCons("", '/', "3" + (['/'] + (kind + (['/'] + page))));
    SplitCons("3", '/', kind + (['/'] + page));
    SplitCons(kind, '/', page);
    SplitCons(page, '/', "");
    assert "/3/" + kind + "/" + page == "" + (['/'] + ("3" + (['/'] + (kind + (['/'] + page)))));
  }

  lemma JoinFour(a: string, b: string, c: string, d: string)
    ensures Join([a, b, c, d], '/') == a + (['/'] + (b + (['/'] + (c + (['/'] + d)))))
  {
    JoinCons(a, [b, c, d], '/');
    JoinThree(b, c, d);
    assert [a] + [b, c, d] == [a, b, c, d];
  }

  lemma CatalogLacks(kind: string, page: string)
    requires IsCatalog(kind, page)
    ensures Lacks(kind, '/') && Lacks(page, '/')
  {
  }

  lemma CatalogPageIs(path: string)
    ensures CatalogPage(path) <==> exists kind, page :: IsCatalog(kind, page) && path == "/3/" + kind + "/" + page
  {
    if CatalogPage(path) {
      var kind, page :| kind in CATALOG_KINDS && page in CATALOG_NAMES && path == "/3/" + kind + "/" + page;
      assert IsCatalog(kind, page);
    }
  }

  lemma CatalogBySegments(path: string)
    ensures CatalogPage(path) <==> IsCatalogPage(Split(path, '/'))
  {
    hide Split, Join, IsCatalog, CatalogPage;
    CatalogPageIs(path);
    var segs := Split(path, '/');
    if exists kind, page :: IsCatalog(kind, page) && path == "/3/" + kind + "/" + page {
      var kind, page :| IsCatalog(kind, page) && path == "/3/" + kind + "/" + page;
      CatalogLacks(kind, page);
      CatalogSplit(kind, page);
    }
    if IsCatalogPage(segs) {
      JoinSplit(path, '/');
      JoinFour(segs[0], segs[1], segs[2], segs[3]);
      assert segs == [segs[0], segs[1], segs[2], segs[3]];
      assert path == "/3/" + segs[2] + "/" + segs[3];
    }
  }

  lemma VersionBySegments(path: string)
    ensures "/3/" <= path <==> var segs := Split(path, '/'); |segs| >= 3 && segs[0] == "" && segs[1] == "3"
  {
    if path != "" && path[0] == '/' {
      var rest := path[1..];
      FirstSegment(rest, "3");
      assert Split(path, '/') == [""] + Split(rest, '/');
      hide Split;
      assert "/3/" <= path <==> 1 < |rest| && rest[..1] == "3" && rest[1] == '/';
    }
  }

  lemma LastNames(path: string)
    ensures EndsWith(path, "/release_dates") <==> HasLast(Split(path, '/'), "release_dates")
    ensures EndsWith(path, "/content_ratings") <==> HasLast(Split(path, '/'), "content_ratings")
  {
    hide EndsWith, HasLast, Split;
    EndsBySegments(path, "release_dates");
    EndsBySegments(path, "content_ratings");
    assert "/release_dates" == ['/'] + "release_dates" && "/content_ratings" == ['/'] + "content_ratings";
  }

  lemma SearchName(path: string)
    ensures Contains(path, "/search/") <==> HasInner(Split(path, '/'), "search")
  {
    hide Contains, HasInner, Split;
    ContainsBySegments(path, "search");
    assert "/search/" == ['/'] + "search" + ['/'];
  }

  lemma CatalogNames(path: string)
    ensures Contains(path, "/discover/") <==> HasInner(Split(path, '/'), "discover")
    ensures Contains(path, "/trending/") <==> HasInner(Split(path, '/'), "trending")
  {
    hide Contains, HasInner, Split;
    ContainsBySegments(path, "discover");
    ContainsBySegments(path, "trending");
    assert "/discover/" == ['/'] + "discover" + ['/'] && "/trending/" == ['/'] + "trending" + ['/'];
  }

  /** The time to live is the documented one of the path's kind, for every URL. */
  lemma TtlIsDocumented(url: Url)
    ensures Ttl(url) == DocumentedTtl(url.origin.host, Split(url.path, '/'))
  {
    hide GenreList, EndsWith, Contains, CatalogPage, IsGenreList, HasInner, HasLast, IsCatalogPage, Split;
    var path := url.path;
    VersionBySegments(path);
    GenreBySegments(path);
    LastNames(path);
    SearchName(path);
    CatalogNames(path);
    CatalogBySegments(path);
  }

  // ---------------------------------------------------------------------------
  // The broker

  datatype Outcome = Response(status: nat, body: string) | Failure

  /** An upstream request: being fetched, settled, and taken out of the map by its leader. */
  datatype Phase = Fetching | Settled(outcome: Outcome, at: nat) | Finished(outcome: Outcome, at: nat)
  datatype Load = Load(key: Key, leader: nat, phase: Phase)

  /** A cache row; `load` names the request it came from and is not stored by the source. */
  datatype Row = Row(status: nat, body: string, expires: nat, load: nat)

  datatype Wait = Wait(key: Key, since: nat, load: nat)
  datatype Answer = Answer(key: Key, since: nat, at: nat, outcome: Outcome, load: nat)

  datatype State = State(now: nat, cache: map<Key, Row>, inflight: map<Key, nat>, loads: seq<Load>,
                         waiting: map<nat, Wait>, answers: map<nat, Answer>,
                         direct: map<nat, Url>, passed: map<nat, Outcome>) // calls that bypass the cache

  datatype Event =
    | Call(caller: nat, url: Url)
    | Settle(load: nat, outcome: Outcome)
    | Finish(load: nat)
    | Deliver(caller: nat)
    | Return(caller: nat, outcome: Outcome) // upstream answers a call that bypassed the cache
    | Tick(elapsed: nat)

  /** The bytes a character takes in UTF-8 (section 3 of RFC 3629). */
  function CharBytes(c: char): nat {
    if c < '\U{80}' then 1 else if c < '\U{800}' then 2 else if c < '\U{10000}' then 3 else 4
  }

  function ByteLength(s: string): nat {
    if s == "" then 0 else ByteLength(s[..|s| - 1]) + CharBytes(s[|s| - 1])
  }

  /** The sequence is the shortest that holds the scalar: 7, 11, 16 or 21 bits in 1, 2, 3 or 4 bytes. */
  lemma CharBytesIsUtf8(c: char)
    ensures var n, v := CharBytes(c), c as int;
            && 1 <= n <= 4 && (n == 1 <==> v < 0x80)
            && (n == 2 <==> 0x80 <= v < 0x800) && (n == 3 <==> 0x800 <= v < 0x1_0000)
  {
  }

  lemma {:induction false} ByteLengthAppend(a: string, b: string)
    ensures ByteLength(a + b) == ByteLength(a) + ByteLength(b) && (forall c :: ByteLength([c]) == CharBytes(c))
  {
    forall c ensures ByteLength([c]) == CharBytes(c) { assert [c][..0] == ""; }
    if b == "" {
      assert a + b == a;
    } else {
      var n := |b| - 1;
      ByteLengthAppend(a, b[..n]);
      assert (a + b)[..|a + b| - 1] == a + b[..n] && (a + b)[|a + b| - 1] == b[n];
    }
  }

  predicate Storable(o: Outcome) {
    o.Response? && 200 <= o.status <= 299 && ByteLength(o.body) <= MAX_BODY_BYTES
  }

  predicate IsFresh(cache: map<Key, Row>, k: Key, now: nat) {
    k in cache && cache[k].expires > now
  }

  /** storeMetadataCache: nothing but a small success is stored, and expired rows go first. */
  function StoreRow(cache: map<Key, Row>, now: nat, k: Key, o: Outcome, load: nat): map<Key, Row> {
    if !Storable(o) then cache
    else (map j | j in cache && cache[j].expires > now :: cache[j])[k := Row(o.status, o.body, now + Ttl(k), load)]
  }

  function CallStep(s: State, c: nat, url: Url): State {
    var k := CacheKey(url);
    if c in s.waiting || c in s.answers || c in s.direct || c in s.passed then s
    else if Ttl(url) == 0 then s.(direct := s.direct[c := url])
    else if IsFresh(s.cache, k, s.now) then
      var row := s.cache[k];
      s.(answers := s.answers[c := Answer(k, s.now, s.now, Response(row.status, row.body), row.load)])
    else if k in s.inflight then s.(waiting := s.waiting[c := Wait(k, s.now, s.inflight[k])])
    else s.(loads := s.loads + [Load(k, c, Fetching)],
            inflight := s.inflight[k := |s.loads|],
            waiting := s.waiting[c := Wait(k, s.now, |s.loads|)])
  }

  predicate IsFetching(loads: seq<Load>, l: nat) { l < |loads| && loads[l].phase.Fetching? }
  predicate IsSettled(loads: seq<Load>, l: nat) { l < |loads| && loads[l].phase.Settled? }

  function SettleStep(s: State, l: nat, o: Outcome): State {
    if !IsFetching(s.loads, l) then s
    else s.(loads := s.loads[l := s.loads[l].(phase := Settled(o, s.now))],
            cache := StoreRow(s.cache, s.now, s.loads[l].key, o, l))
  }

  function AnswerOf(s: State, c: nat): Answer
    requires c in s.waiting && s.waiting[c].load < |s.loads| && !s.loads[s.waiting[c].load].phase.Fetching?
  {
    var w := s.waiting[c];
    Answer(w.key, w.since, s.now, s.loads[w.load].phase.outcome, w.load)
  }

  function DeliverStep(s: State, c: nat): State {
    if c !in s.waiting || s.waiting[c].load >= |s.loads| || s.loads[s.waiting[c].load].phase.Fetching? then s
    else s.(waiting := s.waiting - {c}, answers := s.answers[c := AnswerOf(s, c)])
  }

  /** The leader's finally takes the settled load out of the map. */
  function TakeOut(s: State, l: nat): State
    requires IsSettled(s.loads, l)
  {
    var load := s.loads[l];
    s.(loads := s.loads[l := load.(phase := Finished(load.phase.outcome, load.phase.at))],
       inflight := s.inflight - {load.key})
  }

  /** The leader's continuation: it takes the entry out and answers its own caller. */
  function FinishStep(s: State, l: nat): State {
    if !IsSettled(s.loads, l) then s else DeliverStep(TakeOut(s, l), s.loads[l].leader)
  }

  function ReturnStep(s: State, c: nat, o: Outcome): State {
    if c !in s.direct then s else s.(direct := s.direct - {c}, passed := s.passed[c := o])
  }

  /** The clock moves when the continuations of this turn have run. */
  function TickStep(s: State, elapsed: nat): State {
    if exists l :: 0 <= l < |s.loads| && IsSettled(s.loads, l) then s else s.(now := s.now + elapsed)
  }

  function Step(s: State, e: Event): State {
    match e
    case Call(c, url) => CallStep(s, c, url)
    case Settle(l, o) => SettleStep(s, l, o)
    case Finish(l) => FinishStep(s, l)
    case Deliver(c) => DeliverStep(s, c)
    case Return(c, o) => ReturnStep(s, c, o)
    case Tick(elapsed) => TickStep(s, elapsed)
  }

  function Run(s: State, trace: seq<Event>): State
    decreases |trace|
  {
    if trace == [] then s else Run(Step(s, trace[0]), trace[1..])
  }

  const INITIAL: State := State(0, map[], map[], [], map[], map[], map[], map[])

  // ---------------------------------------------------------------------------
  // What every run keeps

  ghost predicate InflightOk(inflight: map<Key, nat>, loads: seq<Load>) {
    && (forall k :: k in inflight ==>
          inflight[k] < |loads| && loads[inflight[k]].key == k && !loads[inflight[k]].phase.Finished?)
    && (forall l :: 0 <= l < |loads| && !loads[l].phase.Finished? ==>
          loads[l].key in inflight && inflight[loads[l].key] == l)
  }

  ghost predicate TimesOk(loads: seq<Load>, now: nat) {
    forall l :: 0 <= l < |loads| ==>
      && (loads[l].phase.Settled? ==> loads[l].phase.at == now)
      && (loads[l].phase.Finished? ==> loads[l].phase.at <= now)
  }

  predicate CameFrom(loads: seq<Load>, l: nat, k: Key, o: Outcome) {
    l < |loads| && loads[l].key == k && !loads[l].phase.Fetching? && loads[l].phase.outcome == o
  }

  ghost predicate CacheOk(cache: map<Key, Row>, loads: seq<Load>) {
    forall k :: k in cache ==>
      && CameFrom(loads, cache[k].load, k, Response(cache[k].status, cache[k].body))
      && Storable(loads[cache[k].load].phase.outcome)
      && cache[k].expires == loads[cache[k].load].phase.at + Ttl(k)
  }

  ghost predicate WaitingOk(waiting: map<nat, Wait>, loads: seq<Load>, now: nat) {
    forall c :: c in waiting ==>
      && waiting[c].load < |loads| && loads[waiting[c].load].key == waiting[c].key && waiting[c].since <= now
      && (!loads[waiting[c].load].phase.Fetching? ==> waiting[c].since <= loads[waiting[c].load].phase.at)
  }

  /** The answer is an upstream outcome for its key: settled during the call, or within its time to live. */
  predicate Justified(loads: seq<Load>, a: Answer) {
    && CameFrom(loads, a.load, a.key, a.outcome)
    && var at := loads[a.load].phase.at;
       || a.since <= at <= a.at
       || (Storable(a.outcome) && at <= a.since == a.at < at + Ttl(a.key))
  }

  ghost predicate AnswersOk(answers: map<nat, Answer>, loads: seq<Load>) {
    forall c :: c in answers ==> Justified(loads, answers[c])
  }

  ghost predicate Inv(s: State) {
    && InflightOk(s.inflight, s.loads) && TimesOk(s.loads, s.now) && CacheOk(s.cache, s.loads)
    && WaitingOk(s.waiting, s.loads, s.now) && AnswersOk(s.answers, s.loads)
    && s.waiting.Keys !! s.answers.Keys
  }

  /** Loads are only added to, and what one settled with stays. */
  ghost predicate Grows(before: seq<Load>, after: seq<Load>) {
    && |before| <= |after|
    && forall l :: 0 <= l < |before| ==>
         && after[l].key == before[l].key
         && (!before[l].phase.Fetching? ==>
               !after[l].phase.Fetching? && after[l].phase.outcome == before[l].phase.outcome
               && after[l].phase.at == before[l].phase.at)
  }

  lemma GrowthKeeps(cache: map<Key, Row>, answers: map<nat, Answer>, before: seq<Load>, after: seq<Load>)
    requires CacheOk(cache, before) && AnswersOk(answers, before) && Grows(before, after)
    ensures CacheOk(cache, after) && AnswersOk(answers, after)
  {
    forall c | c in answers ensures Justified(after, answers[c]) {
      assert Justified(before, answers[c]);
    }
  }

  lemma HitKeepsAnswers(s: State, c: nat, k: Key)
    requires CacheOk(s.cache, s.loads) && TimesOk(s.loads, s.now) && AnswersOk(s.answers, s.loads)
    requires IsFresh(s.cache, k, s.now)
    ensures var row := s.cache[k];
            AnswersOk(s.answers[c := Answer(k, s.now, s.now, Response(row.status, row.body), row.load)], s.loads)
  {
    var row := s.cache[k];
    assert Justified(s.loads, Answer(k, s.now, s.now, Response(row.status, row.body), row.load));
  }

  lemma JoinKeepsWaiting(s: State, c: nat, k: Key)
    requires InflightOk(s.inflight, s.loads) && TimesOk(s.loads, s.now) && WaitingOk(s.waiting, s.loads, s.now)
    requires k in s.inflight
    ensures WaitingOk(s.waiting[c := Wait(k, s.now, s.inflight[k])], s.loads, s.now)
  {
    assert !s.loads[s.inflight[k]].phase.Finished?;
  }

  lemma CallKeepsInv(s: State, c: nat, url: Url)
    requires Inv(s)
    ensures Inv(CallStep(s, c, url))
  {
    hide InflightOk, TimesOk, CacheOk, WaitingOk, AnswersOk;
    var k := CacheKey(url);
    if c !in s.waiting && c !in s.answers && c !in s.direct && c !in s.passed && Ttl(url) != 0 {
      if IsFresh(s.cache, k, s.now) {
        HitKeepsAnswers(s, c, k);
      } else if k in s.inflight {
        JoinKeepsWaiting(s, c, k);
      } else {
        StartKeepsInv(s, c, k);
      }
    }
  }

  lemma StartKeepsInv(s: State, c: nat, k: Key)
    requires Inv(s) && k !in s.inflight && c !in s.waiting && c !in s.answers
    ensures Inv(s.(loads := s.loads + [Load(k, c, Fetching)], inflight := s.inflight[k := |s.loads|],
                   waiting := s.waiting[c := Wait(k, s.now, |s.loads|)]))
  {
    GrowthKeeps(s.cache, s.answers, s.loads, s.loads + [Load(k, c, Fetching)]);
  }

  lemma StoreKeepsCache(cache: map<Key, Row>, loads: seq<Load>, now: nat, k: Key, o: Outcome, l: nat)
    requires CacheOk(cache, loads) && CameFrom(loads, l, k, o) && loads[l].phase.at == now
    ensures CacheOk(StoreRow(cache, now, k, o, l), loads)
  {
  }

  lemma SettleKeepsWaiting(waiting: map<nat, Wait>, loads: seq<Load>, now: nat, l: nat, o: Outcome)
    requires WaitingOk(waiting, loads, now) && l < |loads|
    ensures WaitingOk(waiting, loads[l := loads[l].(phase := Settled(o, now))], now)
  {
  }

  lemma SettleKeepsInv(s: State, l: nat, o: Outcome)
    requires Inv(s)
    ensures Inv(SettleStep(s, l, o))
  {
    hide CacheOk, AnswersOk, StoreRow, WaitingOk;
    if IsFetching(s.loads, l) {
      var after := s.loads[l := s.loads[l].(phase := Settled(o, s.now))];
      GrowthKeeps(s.cache, s.answers, s.loads, after);
      StoreKeepsCache(s.cache, after, s.now, s.loads[l].key, o, l);
      SettleKeepsWaiting(s.waiting, s.loads, s.now, l, o);
    }
  }

  lemma DeliverJustified(s: State, c: nat)
    requires TimesOk(s.loads, s.now) && WaitingOk(s.waiting, s.loads, s.now)
    requires c in s.waiting && !s.loads[s.waiting[c].load].phase.Fetching?
    ensures Justified(s.loads, AnswerOf(s, c))
  {
  }

  lemma DeliverKeepsInv(s: State, c: nat)
    requires Inv(s)
    ensures Inv(DeliverStep(s, c))
  {
    hide InflightOk, TimesOk, CacheOk, Justified;
    if c in s.waiting && !s.loads[s.waiting[c].load].phase.Fetching? { DeliverJustified(s, c); }
  }

  lemma TakeOutKeepsInv(s: State, l: nat)
    requires Inv(s) && IsSettled(s.loads, l)
    ensures Inv(TakeOut(s, l))
  {
    hide CacheOk, AnswersOk;
    GrowthKeeps(s.cache, s.answers, s.loads, TakeOut(s, l).loads);
  }

  lemma FinishKeepsInv(s: State, l: nat)
    requires Inv(s)
    ensures Inv(FinishStep(s, l))
  {
    hide Inv, DeliverStep, TakeOut;
    if IsSettled(s.loads, l) {
      TakeOutKeepsInv(s, l);
      DeliverKeepsInv(TakeOut(s, l), s.loads[l].leader);
    }
  }

  lemma TickKeepsInv(s: State, elapsed: nat)
    requires Inv(s)
    ensures Inv(TickStep(s, elapsed))
  {
    hide InflightOk, CacheOk, AnswersOk;
    assert forall l :: 0 <= l < |s.loads| && s.loads[l].phase.Settled? ==> IsSettled(s.loads, l);
  }

  lemma StepKeepsInv(s: State, e: Event)
    requires Inv(s)
    ensures Inv(Step(s, e))
  {
    hide InflightOk, TimesOk, CacheOk, WaitingOk, AnswersOk, CallStep, SettleStep, FinishStep, DeliverStep, TickStep;
    match e
    case Call(c, url) => CallKeepsInv(s, c, url);
    case Settle(l, o) => SettleKeepsInv(s, l, o);
    case Finish(l) => FinishKeepsInv(s, l);
    case Deliver(c) => DeliverKeepsInv(s, c);
    case Return(_, _) =>
    case Tick(elapsed) => TickKeepsInv(s, elapsed);
  }

  lemma {:induction false} RunKeepsInv(s: State, trace: seq<Event>)
    requires Inv(s)
    ensures Inv(Run(s, trace))
    decreases |trace|
  {
    if trace != [] {
      StepKeepsInv(s, trace[0]);
      RunKeepsInv(Step(s, trace[0]), trace[1..]);
    }
  }

  // ---------------------------------------------------------------------------
  // Main results

  /** Two requests for one key are never outstanding together. */
  lemma AtMostOneOutstanding(trace: seq<Event>, i: nat, j: nat)
    requires IsFetching(Run(INITIAL, trace).loads, i) && IsFetching(Run(INITIAL, trace).loads, j)
    requires Run(INITIAL, trace).loads[i].key == Run(INITIAL, trace).loads[j].key
    ensures i == j
  {
    RunKeepsInv(INITIAL, trace);
  }

  /** Every answer is an upstream outcome for the caller's key, settled during the call or still live. */
  lemma EveryAnswerJustified(trace: seq<Event>, c: nat)
    requires c in Run(INITIAL, trace).answers
    ensures Justified(Run(INITIAL, trace).loads, Run(INITIAL, trace).answers[c])
  {
    RunKeepsInv(INITIAL, trace);
  }

  /** What is stored is a small success, kept for exactly the time to live of its key. */
  lemma OnlySmallSuccessesStored(trace: seq<Event>, k: Key)
    requires k in Run(INITIAL, trace).cache
    ensures var s := Run(INITIAL, trace);
            && CameFrom(s.loads, s.cache[k].load, k, Response(s.cache[k].status, s.cache[k].body))
            && 200 <= s.cache[k].status <= 299 && ByteLength(s.cache[k].body) <= MAX_BODY_BYTES
            && s.cache[k].expires == s.loads[s.cache[k].load].phase.at + Ttl(k)
  {
    RunKeepsInv(INITIAL, trace);
  }

  /** Storing leaves only live rows, drops no live one, and keeps other keys' rows as they are. */
  lemma StoringSweeps(cache: map<Key, Row>, now: nat, k: Key, o: Outcome, load: nat)
    requires Storable(o) && Ttl(k) > 0
    ensures forall j :: IsFresh(StoreRow(cache, now, k, o, load), j, now) <==> j in StoreRow(cache, now, k, o, load)
    ensures forall j :: j != k ==>
              (j in StoreRow(cache, now, k, o, load) <==> IsFresh(cache, j, now))
              && (IsFresh(cache, j, now) ==> StoreRow(cache, now, k, o, load)[j] == cache[j])
  {
  }

  lemma {:induction false} RunKeepsCached(s: State, trace: seq<Event>, k: Key, row: Row)
    requires Inv(s) && k in s.cache && s.cache[k] == row && NoneSettles(s, trace, k)
    ensures var t := Run(s, trace);
            Inv(t) && t.now >= s.now && (t.now < row.expires ==> k in t.cache && t.cache[k] == row)
    decreases |trace|
  {
    hide Inv, Step;
    if trace != [] {
      StepKeepsInv(s, trace[0]);
      StepKeepsCached(s, trace[0], k, row);
      var t := Step(s, trace[0]);
      if t.now < row.expires { RunKeepsCached(t, trace[1..], k, row); } else { RunKeepsTime(t, trace[1..]); }
    }
  }

  /** No load of the key settles with something to store. */
  predicate NoneSettles(s: State, trace: seq<Event>, k: Key)
    decreases |trace|
  {
    trace == [] || (!Stores(s, trace[0], k) && NoneSettles(Step(s, trace[0]), trace[1..], k))
  }

  predicate Stores(s: State, e: Event, k: Key) {
    e.Settle? && IsFetching(s.loads, e.load) && s.loads[e.load].key == k && Storable(e.outcome)
  }

  lemma StepKeepsCached(s: State, e: Event, k: Key, row: Row)
    requires k in s.cache && s.cache[k] == row && !Stores(s, e, k)
    ensures var t := Step(s, e);
            t.now >= s.now && (t.now < row.expires ==> k in t.cache && t.cache[k] == row)
  {
    hide CacheKey, Ttl, Storable;
  }

  lemma {:induction false} RunKeepsTime(s: State, trace: seq<Event>)
    requires Inv(s)
    ensures Inv(Run(s, trace)) && Run(s, trace).now >= s.now
    decreases |trace|
  {
    hide Inv, Step;
    if trace != [] {
      StepKeepsInv(s, trace[0]);
      TimeGoesOn(s, trace[0]);
      RunKeepsTime(Step(s, trace[0]), trace[1..]);
    }
  }

  lemma TimeGoesOn(s: State, e: Event)
    ensures Step(s, e).now >= s.now
  {
    hide CacheKey, Ttl, StoreRow;
  }

  /** A new call, of a caller that has made none. */
  predicate IsNew(s: State, c: nat) {
    c !in s.waiting && c !in s.answers && c !in s.direct && c !in s.passed
  }

  /**
    What is stored is served: after a load settles with a small success, whatever runs next, until
    its time to live is over or another success for the key settles, every new call for the key is
    answered with it at once, and goes upstream no more.
   */
  lemma StoredIsServed(before: seq<Event>, l: nat, o: Outcome, after: seq<Event>, c: nat, url: Url)
    requires var s := Run(INITIAL, before);
             && IsFetching(s.loads, l) && s.loads[l].key == CacheKey(url) && Ttl(url) > 0
             && o.Response? && 200 <= o.status <= 299 && ByteLength(o.body) <= 2_000_000
             && NoneSettles(Step(s, Settle(l, o)), after, CacheKey(url))
             && IsNew(Run(Step(s, Settle(l, o)), after), c)
             && Run(Step(s, Settle(l, o)), after).now < s.now + Ttl(url)
    ensures var t := Run(Step(Run(INITIAL, before), Settle(l, o)), after);
            var u := Step(t, Call(c, url));
            && c in u.answers && u.answers[c].outcome == o && u.answers[c].at == t.now
            && u.loads == t.loads && u.direct == t.direct
  {
    hide Inv, Run, CacheKey, Ttl, NoneSettles;
    var s, k := Run(INITIAL, before), CacheKey(url);
    ReachableInv(before);
    StepKeepsInv(s, Settle(l, o));
    TtlOfKey(url);
    SettleStores(s, l, o);
    var row := Row(o.status, o.body, s.now + Ttl(k), l);
    var t := Step(s, Settle(l, o));
    RunKeepsCached(t, after, k, row);
    ServesRow(Run(t, after), c, url, row);
  }

  lemma ReachableInv(trace: seq<Event>)
    ensures Inv(Run(INITIAL, trace))
  {
    RunKeepsInv(INITIAL, trace);
  }

  lemma TtlOfKey(url: Url)
    ensures Ttl(CacheKey(url)) == Ttl(url)
  {
    hide GenreList, CatalogPage, Contains, EndsWith;
  }

  lemma SettleStores(s: State, l: nat, o: Outcome)
    requires IsFetching(s.loads, l) && Storable(o)
    ensures var k, t := s.loads[l].key, Step(s, Settle(l, o));
            k in t.cache && t.cache[k] == Row(o.status, o.body, s.now + Ttl(k), l)
  {
    hide Ttl;
  }

  lemma ServesRow(s: State, c: nat, url: Url, row: Row)
    requires IsNew(s, c) && Ttl(url) > 0 && CacheKey(url) in s.cache && s.cache[CacheKey(url)] == row
    requires s.now < row.expires
    ensures var u := Step(s, Call(c, url));
            && c in u.answers && u.answers[c].outcome == Response(row.status, row.body) && u.answers[c].at == s.now
            && u.loads == s.loads && u.direct == s.direct
  {
    hide Ttl, CacheKey;
  }

  /** A new call that nothing live answers waits for an upstream request for its key, its own if none is out. */
  lemma MissWaits(before: seq<Event>, c: nat, url: Url)
    requires IsNew(Run(INITIAL, before), c) && Ttl(url) > 0
    requires !IsFresh(Run(INITIAL, before).cache, CacheKey(url), Run(INITIAL, before).now)
    ensures var s := Run(INITIAL, before);
            var k, t := CacheKey(url), Step(s, Call(c, url));
            && c in t.waiting && t.waiting[c].load < |t.loads|
            && t.loads[t.waiting[c].load].key == k && !t.loads[t.waiting[c].load].phase.Finished?
            && t.loads == if k in s.inflight then s.loads else s.loads + [Load(k, c, Fetching)]
  {
    hide Run, CacheKey, Ttl, Inv;
    ReachableInv(before);
    InflightHolds(Run(INITIAL, before));
  }

  lemma InflightHolds(s: State)
    requires Inv(s)
    ensures forall k :: k in s.inflight ==>
              s.inflight[k] < |s.loads| && s.loads[s.inflight[k]].key == k && !s.loads[s.inflight[k]].phase.Finished?
    ensures forall c :: c in s.waiting ==> s.waiting[c].load < |s.loads|
  {
  }

  /** A caller that waits is answered with what its request settled with, the leader by the request's end. */
  lemma WaitingIsAnswered(before: seq<Event>, c: nat)
    requires c in Run(INITIAL, before).waiting
    ensures var s := Run(INITIAL, before);
            var l := s.waiting[c].load;
            && l < |s.loads|
            && (!s.loads[l].phase.Fetching? ==>
                  var t := Step(s, Deliver(c));
                  c in t.answers && t.answers[c].outcome == s.loads[l].phase.outcome && c !in t.waiting)
            && (IsSettled(s.loads, l) && s.loads[l].leader == c ==>
                  var t := Step(s, Finish(l));
                  c in t.answers && t.answers[c].outcome == s.loads[l].phase.outcome && s.loads[l].key !in t.inflight)
  {
    hide Run, Inv;
    ReachableInv(before);
    InflightHolds(Run(INITIAL, before));
  }

  /** A call that may not be cached goes upstream by itself and gets its own answer. */
  lemma UncachedPassesThrough(s: State, c: nat, url: Url, o: Outcome)
    requires IsNew(s, c) && Ttl(url) == 0
    ensures var t := Step(s, Call(c, url));
            && c in t.direct && t == s.(direct := s.direct[c := url])
            && Step(t, Return(c, o)).passed == s.passed[c := o] && c !in Step(t, Return(c, o)).direct
    ensures c !in s.direct ==> Step(s, Return(c, o)) == s
  {
    hide Ttl;
  }

  /** The clock moves on by itself unless something settled is still to be handed on. */
  lemma TimePasses(s: State, elapsed: nat)
    requires forall l :: 0 <= l < |s.loads| ==> !s.loads[l].phase.Settled?
    ensures Step(s, Tick(elapsed)).now == s.now + elapsed
  {
  }

  /** A caller that finds its key outstanding and nothing live in the cache waits for that request. */
  lemma JoinsOutstanding(s: State, c: nat, url: Url)
    requires c !in s.waiting && c !in s.answers && c !in s.direct && c !in s.passed && Ttl(url) > 0
    requires CacheKey(url) in s.inflight && !IsFresh(s.cache, CacheKey(url), s.now)
    ensures CallStep(s, c, url).waiting == s.waiting[c := Wait(CacheKey(url), s.now, s.inflight[CacheKey(url)])]
    ensures CallStep(s, c, url).loads == s.loads && CallStep(s, c, url).answers == s.answers
  {
  }

  predicate BoundTo(s: State, c: nat, l: nat) {
    || (c in s.waiting && s.waiting[c].load == l)
    || (c in s.answers && s.answers[c].load == l)
  }

  lemma CallKeepsBound(s: State, d: nat, url: Url, c: nat, l: nat)
    requires BoundTo(s, c, l)
    ensures BoundTo(CallStep(s, d, url), c, l)
  {
    hide CacheKey, Ttl, IsFresh;
  }

  lemma DeliverKeepsBound(s: State, d: nat, c: nat, l: nat)
    requires BoundTo(s, c, l) && s.waiting.Keys !! s.answers.Keys
    ensures BoundTo(DeliverStep(s, d), c, l)
  {
  }

  lemma FinishKeepsBound(s: State, k: nat, c: nat, l: nat)
    requires BoundTo(s, c, l) && s.waiting.Keys !! s.answers.Keys
    ensures BoundTo(FinishStep(s, k), c, l)
  {
    hide DeliverStep;
    if IsSettled(s.loads, k) { DeliverKeepsBound(TakeOut(s, k), s.loads[k].leader, c, l); }
  }

  lemma StepKeepsBound(s: State, e: Event, c: nat, l: nat)
    requires BoundTo(s, c, l) && s.waiting.Keys !! s.answers.Keys
    ensures BoundTo(Step(s, e), c, l)
  {
    hide CallStep, DeliverStep, FinishStep, StoreRow;
    match e
    case Call(d, url) => CallKeepsBound(s, d, url, c, l);
    case Deliver(d) => DeliverKeepsBound(s, d, c, l);
    case Finish(k) => FinishKeepsBound(s, k, c, l);
    case _ =>
  }

  lemma {:induction false} RunKeepsBound(s: State, trace: seq<Event>, c: nat, l: nat)
    requires Inv(s) && BoundTo(s, c, l)
    ensures BoundTo(Run(s, trace), c, l)
    decreases |trace|
  {
    if trace != [] {
      StepKeepsInv(s, trace[0]);
      StepKeepsBound(s, trace[0], c, l);
      RunKeepsBound(Step(s, trace[0]), trace[1..], c, l);
    }
  }

  /**
    Callers of one key whose requests are outstanding together get one outcome, however the run
    goes on.
   */
  lemma SharedOutcome(before: seq<Event>, after: seq<Event>, c: nat, d: nat)
    requires var s := Run(INITIAL, before);
             && c in s.waiting && d in s.waiting && s.waiting[c].key == s.waiting[d].key
             && IsFetching(s.loads, s.waiting[c].load) && IsFetching(s.loads, s.waiting[d].load)
    requires c in Run(Run(INITIAL, before), after).answers && d in Run(Run(INITIAL, before), after).answers
    ensures Run(Run(INITIAL, before), after).answers[c].outcome == Run(Run(INITIAL, before), after).answers[d].outcome
  {
    var s := Run(INITIAL, before);
    RunKeepsInv(INITIAL, before);
    AtMostOneOutstanding(before, s.waiting[c].load, s.waiting[d].load);
    SameLoadSameOutcome(s, after, c, d);
  }

  lemma SameLoadSameOutcome(s: State, after: seq<Event>, c: nat, d: nat)
    requires Inv(s) && c in s.waiting && d in s.waiting && s.waiting[c].load == s.waiting[d].load
    requires c in Run(s, after).answers && d in Run(s, after).answers
    ensures Run(s, after).answers[c].outcome == Run(s, after).answers[d].outcome
  {
    RunKeepsInv(s, after);
    RunKeepsBound(s, after, c, s.waiting[c].load);
    RunKeepsBound(s, after, d, s.waiting[d].load);
    var t := Run(s, after);
    assert Justified(t.loads, t.answers[c]) && Justified(t.loads, t.answers[d]);
  }

  // ---------------------------------------------------------------------------
  // The fetch function over the table and the map it updates

  class Broker {
    var now: nat
    var cache: map<Key, Row>
    var inflight: map<Key, nat>
    var loads: seq<Load>
    var waiting: map<nat, Wait>
    var answers: map<nat, Answer>
    var direct: map<nat, Url>
    var passed: map<nat, Outcome>

    ghost function Contents(): State
      reads this
    {
      State(now, cache, inflight, loads, waiting, answers, direct, passed)
    }

    constructor ()
      ensures Contents() == INITIAL
    {
      now, cache, inflight, loads := 0, map[], map[], [];
      waiting, answers, direct, passed := map[], map[], map[], map[];
    }

    method ReadMetadataCache(k: Key) returns (row: Option<Row>)
      ensures row == if IsFresh(cache, k, now) then Some(cache[k]) else None
    {
      if k !in cache || cache[k].expires <= now { return None; }
      row := Some(cache[k]);
    }

    method StoreMetadataCache(k: Key, o: Outcome, ttl: nat, load: nat)
      requires ttl == Ttl(k)
      modifies `cache
      ensures cache == StoreRow(old(cache), now, k, o, load)
    {
      if o.Failure? || o.status < 200 || o.status > 299 { return; }
      if ByteLength(o.body) > MAX_BODY_BYTES { return; }
      cache := map j | j in cache && cache[j].expires > now :: cache[j];
      cache := cache[k := Row(o.status, o.body, now + ttl, load)];
    }

    /** cachedServerFetch up to its first await. */
    method Fetch(c: nat, url: Url)
      requires c !in waiting && c !in answers && c !in direct && c !in passed
      modifies this
      ensures Contents() == Step(old(Contents()), Call(c, url))
    {
      var ttl := Ttl(url);
      if ttl <= 0 {
        direct := direct[c := url];
        return;
      }
      var k := CacheKey(url);
      var cached := ReadMetadataCache(k);
      if cached.Some? {
        var row := cached.value;
        answers := answers[c := Answer(k, now, now, Response(row.status, row.body), row.load)];
        return;
      }
      if k in inflight {
        waiting := waiting[c := Wait(k, now, inflight[k])];
        return;
      }
      var load := |loads|;
      loads := loads + [Load(k, c, Fetching)];
      inflight := inflight[k := load];
      waiting := waiting[c := Wait(k, now, load)];
    }

    /** The end of the load: the body has arrived, or the request failed. */
    method Settle(load: nat, o: Outcome)
      requires IsFetching(loads, load)
      modifies this
      ensures Contents() == Step(old(Contents()), Event.Settle(load, o))
    {
      StoreMetadataCache(loads[load].key, o, Ttl(loads[load].key), load);
      loads := loads[load := loads[load].(phase := Settled(o, now))];
    }

    method Deliver(c: nat)
      modifies this
      ensures Contents() == DeliverStep(old(Contents()), c)
    {
      if c in waiting && waiting[c].load < |loads| {
        var w := waiting[c];
        if !loads[w.load].phase.Fetching? {
          waiting := waiting - {c};
          answers := answers[c := Answer(w.key, w.since, now, loads[w.load].phase.outcome, w.load)];
        }
      }
    }

    /** The answer of a call that went straight upstream. */
    method Return(c: nat, o: Outcome)
      requires c in direct
      modifies `direct, `passed
      ensures Contents() == Step(old(Contents()), Event.Return(c, o))
    {
      direct := direct - {c};
      passed := passed[c := o];
    }

    /** The leader's continuation, with its finally block. */
    method Finish(load: nat)
      requires IsSettled(loads, load)
      modifies this
      ensures Contents() == Step(old(Contents()), Event.Finish(load))
    {
      var l := loads[load];
      loads := loads[load := l.(phase := Finished(l.phase.outcome, l.phase.at))];
      inflight := inflight - {l.key};
      Deliver(l.leader);
    }
  }
}
