/** Where UI-server paths go, with every prefix spelled out here once more, apart from the code. */
module PathAnswers {
  import opened Prelude
  import opened PercentCodec
  import opened PathRewrite
  import opened PathTargets

  lemma PrefixesSpelled()
    ensures UI == "/ui-server" && |UI| == 10
    ensures UI_AUTH == "/ui-server/auth" && UI_AUTH == UI + "/auth" && |UI_AUTH| == 15
    ensures UI_API == "/ui-server/api" && UI_API == UI + "/api" && |UI_API| == 14
    ensures UI_NOTEBOOKS == "/ui-server/api/notebooks" && UI_NOTEBOOKS == UI_API + "/notebooks" && |UI_NOTEBOOKS| == 24
    ensures DATA_NOTEBOOKS == "/api/data/notebooks"
  {
  }

  /** A target is refused for a control byte, or a '%' in its path that two hexadecimal digits do not follow. */
  lemma ParseRefuses(p: Bytes, query: Option<Bytes>)
    requires '?' !in p && '#' !in p && (query.Some? ==> '#' !in query.value)
    ensures
      var s := p + match query case None => [] case Some(q) => ['?'] + q;
      && '#' !in s
      && (Parse(s).None? <==> (exists c :: c in s && (c as int < 32 || c as int == 127)) || Unescape(p, PathMode).None?)
  {
    var s := p + match query case None => [] case Some(q) => ['?'] + q;
    if query.None? {
      assert s == p;
      IndexOfFirst(p, '?', []);
    } else {
      assert s == p + ['?'] + query.value;
      IndexOfFirst(p, '?', query.value);
    }
    assert forall c: Byte :: Control(c) <==> c as int < 32 || c as int == 127;
  }

  /** Each of the five endpoints, with whatever follows, stays with the UI server: the request is not changed. */
  lemma EndpointStays(u: Url, v: Url, endpoint: Bytes, rest: Bytes)
    requires endpoint in {
      "/ui-server/api/allows-iframe", "/ui-server/api/projects", "/ui-server/api/renku/cache.files_upload",
      "/ui-server/api/last-projects", "/ui-server/api/last-searches"}
    requires u.path == endpoint + rest && Routed(u, v)
    ensures LeftToUi(u.path) && v == u
  {
    assert endpoint <= u.path;
  }

  /** So does what is neither for authentication nor for the API. */
  lemma OtherStays(u: Url, v: Url)
    requires !("/ui-server/auth" <= u.path) && !("/ui-server/api" <= u.path) && Routed(u, v)
    ensures LeftToUi(u.path) && v == u
  {
    PrefixesSpelled();
  }

  lemma AuthIsNotKept(path: Bytes)
    requires UI_AUTH <= path
    ensures !LeftToUi(path) && !(UI_NOTEBOOKS <= path)
  {
    PrefixesApart(path);
    PrefixesSpelled();
    assert path[12] == UI_AUTH[12] == 'u';
    assert "/ui-server/api/allows-iframe"[12] == 'p' && "/ui-server/api/projects"[12] == 'p';
    assert "/ui-server/api/renku/cache.files_upload"[12] == 'p' && "/ui-server/api/last-projects"[12] == 'p';
    assert "/ui-server/api/last-searches"[12] == 'p';
  }

  /** An authentication path goes to `/api/auth`, with what follows as it was sent. */
  lemma AuthGoes(u: Url, v: Url, rest: Bytes)
    requires u.path == "/ui-server/auth" + rest && Routed(u, v)
    ensures !LeftToUi(u.path) && v.path == "/api/auth" + rest && v.query == u.query
    ensures PlainPrefix(u) ==> EscapedPath(v) == "/api" + EscapedPath(u)[|"/ui-server"|..]
  {
    PrefixesSpelled();
    assert u.path == UI_AUTH + rest && u.path[|UI_AUTH|..] == rest;
    AuthIsNotKept(u.path);
    PrefixesApart(u.path);
  }

  /** A notebooks path goes to the data service, its dot segments resolved, and escaped anew. */
  lemma NotebooksGo(u: Url, v: Url, rest: Bytes)
    requires u.path == "/ui-server/api/notebooks" + rest && Routed(u, v)
    ensures v.path == Resolved("/api/data/notebooks" + rest) && v.query == u.query
    ensures NoDots(Split("/api/data/notebooks" + rest)) <==> v.path == "/api/data/notebooks" + rest
    ensures EscapedPath(v) == Escape(v.path, PathMode)
  {
    PrefixesSpelled();
    assert u.path == UI_NOTEBOOKS + rest && u.path[|UI_NOTEBOOKS|..] == rest;
    NotebooksIntended(u.path);
  }

  lemma StillNoNotebooks(path: Bytes, rest: Bytes)
    requires path == UI_API + rest && !("/notebooks" <= rest)
    ensures !(UI_NOTEBOOKS <= path)
  {
    if UI_NOTEBOOKS <= path {
      var tail := path[|UI_NOTEBOOKS|..];
      assert UI_NOTEBOOKS == UI_API + "/notebooks" by { PrefixesSpelled(); }
      assert path == UI_NOTEBOOKS + tail;
      CutInThree(UI_API, "/notebooks", tail);
    }
  }

  lemma AuthMeant(path: Bytes)
    requires UI_AUTH <= path && !Kept(path)
    ensures Intended(path) == "/api/auth" + path[|UI_AUTH|..]
  {
  }

  lemma ApiMeant(path: Bytes)
    requires UI_API <= path && !Kept(path) && !(UI_NOTEBOOKS <= path)
    ensures Intended(path) == "/api" + path[|UI_API|..] && Replacement(path) == Some([])
  {
    PrefixesApart(path);
  }

  lemma GoesAsMeant(u: Url, v: Url)
    requires Routed(u, v) && !(UI_NOTEBOOKS <= u.path)
    ensures v.path == Intended(u.path) && v.query == u.query
  {
  }

  lemma KeepsEscapes(u: Url, v: Url, prefix: Bytes)
    requires Routed(u, v) && !(UI_NOTEBOOKS <= u.path) && PlainPrefix(u) && Replacement(u.path) == Some(prefix)
    ensures EscapedPath(v) == prefix + EscapedPath(u)[|UI|..]
  {
  }

  /** Any other API path loses `/ui-server`, and what follows is as it was sent. */
  lemma ApiGoes(u: Url, v: Url, rest: Bytes)
    requires u.path == "/ui-server/api" + rest && !LeftToUi(u.path) && !("/notebooks" <= rest) && Routed(u, v)
    ensures v.path == "/api" + rest && v.query == u.query
    ensures PlainPrefix(u) ==> EscapedPath(v) == EscapedPath(u)[|"/ui-server"|..]
  {
    assert UI == "/ui-server" && UI_API == "/ui-server/api";
    assert u.path == UI_API + rest && u.path[|UI_API|..] == rest;
    StillNoNotebooks(u.path, rest);
    ApiMeant(u.path);
    GoesAsMeant(u, v);
    if PlainPrefix(u) {
      KeepsEscapes(u, v, []);
      assert [] + EscapedPath(u)[|UI|..] == EscapedPath(u)[|UI|..];
    }
  }

  lemma MeantLeavesUi(path: Bytes)
    requires !Kept(path) && (UI_AUTH <= path || UI_API <= path) && !(UI_NOTEBOOKS <= path)
    ensures !(UI <= Intended(path))
  {
    if UI_AUTH <= path {
      AuthMeant(path);
    } else {
      ApiMeant(path);
    }
    assert Intended(path)[1] == 'a' && UI[1] == 'u';
  }

  lemma NotLeftToUi(path: Bytes)
    requires !LeftToUi(path)
    ensures !Kept(path) && (UI_AUTH <= path || UI_API <= path)
  {
  }

  /** So an authentication path, or an API path that is not for notebooks, no longer names the UI server. */
  lemma RewrittenLeavesUi(u: Url, v: Url)
    requires !LeftToUi(u.path) && !(UI_NOTEBOOKS <= u.path) && Routed(u, v)
    ensures !(UI <= v.path)
  {
    NotLeftToUi(u.path);
    MeantLeavesUi(u.path);
    GoesAsMeant(u, v);
  }

  // ---- Notebooks paths that come back -----------------------------------------------------

  lemma PrefixOfSegment(name: Bytes, seg: Bytes, tail: Bytes)
    requires '/' !in name && '/' !in seg && (tail == [] || tail[0] == '/')
    ensures name <= seg + tail <==> name <= seg
  {
    if |seg| < |name| && tail != [] {
      assert (seg + tail)[|seg|] == '/' && name[|seg|] in name;
    }
  }

  lemma PrefixAfterSlash(name: Bytes, s: Bytes)
    ensures ['/'] + name <= ['/'] + s <==> name <= s
  {
    assert (['/'] + name)[1..] == name && (['/'] + s)[1..] == s;
    if ['/'] + name <= ['/'] + s {
      assert (['/'] + s)[..|name| + 1][1..] == s[..|name|];
    }
  }

  /** The segments of a path that dot removal leaves over. */
  function LeftOver(p: Bytes): seq<Bytes> {
    DropDots([], Split(p))
  }

  /** The first named segment left over starts with `name`. */
  predicate Tops(segs: seq<Bytes>, name: Bytes) {
    segs != [] && (if segs[0] != [] then name <= segs[0] else |segs| > 1 && name <= segs[1])
  }

  lemma JoinedTops(segs: seq<Bytes>, slash: Bytes, name: Bytes)
    requires segs != [] && Slashless(segs) && (slash == [] || slash == ['/']) && '/' !in name && name != []
    ensures name <= Join(segs) + slash <==> name <= segs[0]
  {
    var tail := (if |segs| == 1 then [] else ['/'] + Join(segs[1..])) + slash;
    assert Join(segs) + slash == segs[0] + tail;
    PrefixOfSegment(name, segs[0], tail);
  }

  /** A resolved path starts with a name exactly when that name tops what dot removal leaves over. */
  lemma ResolvedTops(p: Bytes, name: Bytes)
    requires '/' !in name && name != []
    ensures ['/'] + name <= Resolved(p) <==> Tops(LeftOver(p), name)
  {
    var segs := LeftOver(p);
    var slash: Bytes := if Dot(Split(p)[|Split(p)| - 1]) then ['/'] else [];
    JoinSplit(p);
    DropDotsLeavesNone([], Split(p));
    var s := Join(segs) + slash;
    if segs == [] {
      assert s == slash && Rooted(s) == ['/'];
    } else if segs[0] != [] {
      assert s[0] == segs[0][0] && segs[0][0] in segs[0];
      JoinedTops(segs, slash, name);
      PrefixAfterSlash(name, s);
    } else if |segs| == 1 {
      assert s == slash && Rooted(s) == ['/'];
    } else {
      assert s == ['/'] + (Join(segs[1..]) + slash);
      JoinedTops(segs[1..], slash, name);
      PrefixAfterSlash(name, Join(segs[1..]) + slash);
    }
  }

  const UI_SERVER: Bytes := "ui-server"

  lemma UiTops(meant: Bytes)
    ensures UI <= Resolved(meant) <==> Tops(LeftOver(meant), UI_SERVER)
  {
    ResolvedTops(meant, UI_SERVER);
    assert ['/'] + UI_SERVER == UI;
  }

  /**
   * A notebooks path can come back to the UI server: exactly when its dot segments climb to the top and
   * `ui-server` is what they leave there.
   */
  lemma NotebooksComeBack(u: Url, v: Url, rest: Bytes)
    requires u.path == UI_NOTEBOOKS + rest && Routed(u, v)
    ensures UI <= v.path <==> Tops(LeftOver(DATA_NOTEBOOKS + rest), UI_SERVER)
  {
    assert u.path[|UI_NOTEBOOKS|..] == rest;
    NotebooksIntended(u.path);
    UiTops(DATA_NOTEBOOKS + rest);
  }

  // ---- What dot segments do, wherever they stand ------------------------------------------

  lemma LastOfConcat(a: seq<Bytes>, b: seq<Bytes>)
    requires b != []
    ensures (a + b)[|a + b| - 1] == b[|b| - 1]
  {
  }

  lemma LeftOverConcat(p: Bytes, q: Bytes)
    ensures LeftOver(p + ['/'] + q) == DropDots(LeftOver(p), Split(q))
    ensures Split(p + ['/'] + q)[|Split(p + ['/'] + q)| - 1] == Split(q)[|Split(q)| - 1]
  {
    SplitConcat(p, q);
    DropDotsConcat([], Split(p), Split(q));
    LastOfConcat(Split(p), Split(q));
  }

  lemma OneSegment(seg: Bytes)
    requires '/' !in seg
    ensures Split(seg) == [seg]
  {
    IndexOfFirst(seg, '/', []);
  }

  lemma DropDotsStep(done: seq<Bytes>, seg: Bytes)
    ensures DropDots(done, [seg]) == Entering(done, seg)
  {
    assert [seg][1..] == [];
  }

  lemma LeftOverSegment(p: Bytes, seg: Bytes)
    requires '/' !in seg
    ensures LeftOver(p + ['/'] + seg) == Entering(LeftOver(p), seg)
  {
    LeftOverConcat(p, seg);
    OneSegment(seg);
    DropDotsStep(LeftOver(p), seg);
  }

  /** Paths with the same left over before a slash are resolved alike behind it. */
  lemma SameBehind(p: Bytes, p': Bytes, q: Bytes)
    requires LeftOver(p) == LeftOver(p')
    ensures Resolved(p + ['/'] + q) == Resolved(p' + ['/'] + q)
  {
    LeftOverConcat(p, q);
    LeftOverConcat(p', q);
  }

  /** A segment and ".." behind it cancel, anywhere in a path. */
  lemma UpCancels(p: Bytes, seg: Bytes, q: Bytes)
    requires '/' !in seg && !Dot(seg)
    ensures Resolved(p + ['/'] + seg + ['/'] + DOTTED + ['/'] + q) == Resolved(p + ['/'] + q)
  {
    LeftOverSegment(p, seg);
    LeftOverSegment(p + ['/'] + seg, DOTTED);
    assert (LeftOver(p) + [seg])[..|LeftOver(p)|] == LeftOver(p);
    SameBehind(p + ['/'] + seg + ['/'] + DOTTED, p, q);
  }

  /** "." is dropped, anywhere but where ".." has taken even the root. */
  lemma HereVanishes(p: Bytes, q: Bytes)
    requires LeftOver(p) != []
    ensures Resolved(p + ['/'] + ['.'] + ['/'] + q) == Resolved(p + ['/'] + q)
  {
    LeftOverSegment(p, ['.']);
    SameBehind(p + ['/'] + ['.'], p, q);
  }

  /** And there it puts the root back. */
  lemma HereRestoresRoot(p: Bytes, q: Bytes)
    requires LeftOver(p) == []
    ensures Resolved(p + ['/'] + ['.'] + ['/'] + q) == Resolved([] + ['/'] + q)
  {
    LeftOverSegment(p, ['.']);
    OneSegment([]);
    DropDotsStep([], []);
    SameBehind(p + ['/'] + ['.'], [], q);
  }

  /** At the root ".." goes nowhere. */
  lemma UpAtRoot(q: Bytes)
    requires NoDots(Split(q)) && q != [] && q[0] != '/'
    ensures Resolved([] + ['/'] + DOTTED + ['/'] + q) == ['/'] + q
  {
    LeftOverSegment([], DOTTED);
    OneSegment([]);
    DropDotsStep([], []);
    LeftOverConcat([] + ['/'] + DOTTED, q);
    DropDotsKeepsRest([], Split(q));
    assert [] + Split(q) == Split(q);
    JoinSplit(q);
    assert q + [] == q;
  }

  lemma LeftOverUp(p: Bytes, seg: Bytes)
    requires '/' !in seg && !Dot(seg)
    ensures LeftOver(p + ['/'] + seg) == LeftOver(p) + [seg]
  {
    LeftOverSegment(p, seg);
  }

  lemma LeftOverDotted(p: Bytes, done: seq<Bytes>, seg: Bytes)
    requires LeftOver(p) == done + [seg]
    ensures LeftOver(p + ['/'] + DOTTED) == done
  {
    LeftOverSegment(p, DOTTED);
    assert (done + [seg])[..|done|] == done;
  }

  lemma DataLeftOver()
    ensures LeftOver(DATA_NOTEBOOKS) == DATA_SEGMENTS
  {
    DataSegments();
    DataHasNoDots();
    DropDotsKeepsRest([], DATA_SEGMENTS);
    assert [] + DATA_SEGMENTS == DATA_SEGMENTS;
  }

  function UpFrom(p: Bytes): Bytes {
    p + (['/'] + DOTTED)
  }

  lemma UpOnce(p: Bytes, done: seq<Bytes>, seg: Bytes)
    requires LeftOver(p) == done + [seg]
    ensures LeftOver(UpFrom(p)) == done
  {
    LeftOverDotted(p, done, seg);
    assert UpFrom(p) == p + ['/'] + DOTTED;
  }

  lemma UpThrice(p: Bytes, a: Bytes, b: Bytes, c: Bytes, d: Bytes)
    requires LeftOver(p) == [a] + [b] + [c] + [d]
    ensures LeftOver(UpFrom(UpFrom(UpFrom(p)))) == [a]
  {
    UpOnce(p, [a] + [b] + [c], d);
    UpOnce(UpFrom(p), [a] + [b], c);
    UpOnce(UpFrom(UpFrom(p)), [a], b);
  }

  /** `/ui-server/api/notebooks/../../../ui-server` */
  function Climbing(base: Bytes): Bytes {
    UpFrom(UpFrom(UpFrom(base))) + ['/'] + UI_SERVER
  }

  lemma ClimbingTops(base: Bytes)
    requires LeftOver(base) == DATA_SEGMENTS
    ensures Tops(LeftOver(Climbing(base)), UI_SERVER)
  {
    var segs := DATA_SEGMENTS;
    assert segs == [segs[0]] + [segs[1]] + [segs[2]] + [segs[3]];
    UpThrice(base, segs[0], segs[1], segs[2], segs[3]);
    LeftOverUp(UpFrom(UpFrom(UpFrom(base))), UI_SERVER);
  }

  lemma UpFromBase(base: Bytes, rest: Bytes)
    ensures UpFrom(base + rest) == base + UpFrom(rest)
  {
  }

  lemma ClimbingFrom(base: Bytes)
    ensures Climbing(base) == base + Climbing([])
  {
    UpFromBase(base, []);
    UpFromBase(base, UpFrom([]));
    UpFromBase(base, UpFrom(UpFrom([])));
    assert base + [] == base;
    var up := UpFrom(UpFrom(UpFrom([])));
    assert base + up + ['/'] + UI_SERVER == base + (up + ['/'] + UI_SERVER);
  }

  /** For one, `/ui-server/api/notebooks/../../../ui-server` names the UI server again. */
  lemma ClimbingComesBack(u: Url, v: Url)
    requires u.path == Climbing(UI_NOTEBOOKS) && Routed(u, v)
    ensures UI <= v.path
  {
    ClimbingFrom(UI_NOTEBOOKS);
    ClimbingFrom(DATA_NOTEBOOKS);
    DataLeftOver();
    ClimbingTops(DATA_NOTEBOOKS);
    NotebooksComeBack(u, v, Climbing([]));
  }
}
