/** Where a UI-server request ends up: the rewriting of PathRewrite followed by the rule for `/api/notebooks`. */
module PathTargets {
  import opened Prelude
  import opened PercentCodec
  import opened PathRewrite

  // ---- Dot segments (RFC 3986, section 5.2.4, as `net/url` removes them) ------------------

  function Split(p: Bytes): (segs: seq<Bytes>)
    ensures segs != []
    decreases |p|
  {
    var i := IndexOf(p, '/');
    if i == |p| then [p] else [p[..i]] + Split(p[i + 1..])
  }

  function Join(segs: seq<Bytes>): Bytes {
    if segs == [] then [] else if |segs| == 1 then segs[0] else segs[0] + ['/'] + Join(segs[1..])
  }

  /** The segment "." */
  predicate Here(seg: Bytes) {
    |seg| == 1 && seg[0] == '.'
  }

  /** The segment ".." */
  predicate Up(seg: Bytes) {
    |seg| == 2 && seg[0] == '.' && seg[1] == '.'
  }

  predicate Dot(seg: Bytes) {
    Here(seg) || Up(seg)
  }

  predicate NoDots(segs: seq<Bytes>) {
    forall k :: 0 <= k < |segs| ==> !Dot(segs[k])
  }

  predicate Slashless(segs: seq<Bytes>) {
    forall k :: 0 <= k < |segs| ==> '/' !in segs[k]
  }

  /**
   * What a segment does to the segments before it: "." is dropped, ".." takes the one before it along.
   * Where ".." has taken even the root, "." puts an empty segment back (Go's `first` flag).
   */
  function Entering(done: seq<Bytes>, seg: Bytes): seq<Bytes> {
    if Here(seg) then (if done == [] then [[]] else done)
    else if Up(seg) then (if done == [] then [] else done[..|done| - 1])
    else done + [seg]
  }

  function DropDots(done: seq<Bytes>, segs: seq<Bytes>): seq<Bytes>
    decreases |segs|
  {
    if segs == [] then done else DropDots(Entering(done, segs[0]), segs[1..])
  }

  function Rooted(s: Bytes): Bytes {
    if s != [] && s[0] == '/' then s else ['/'] + s
  }

  /** `net/url`'s `resolvePath` of an absolute path. */
  function Resolved(p: Bytes): Bytes {
    var segs := Split(p);
    Rooted(Join(DropDots([], segs)) + if Dot(segs[|segs| - 1]) then ['/'] else [])
  }

  lemma JoinCons(head: Bytes, rest: seq<Bytes>)
    requires rest != []
    ensures Join([head] + rest) == head + ['/'] + Join(rest)
  {
    var segs := [head] + rest;
    assert segs[0] == head && segs[1..] == rest;
  }

  lemma SlashlessCons(head: Bytes, rest: seq<Bytes>)
    requires '/' !in head && Slashless(rest)
    ensures Slashless([head] + rest)
  {
  }

  lemma {:induction false} JoinSplit(p: Bytes)
    ensures Join(Split(p)) == p && Slashless(Split(p))
    decreases |p|
  {
    var i := IndexOf(p, '/');
    if i == |p| {
      assert Split(p) == [p];
    } else {
      var head, rest := p[..i], p[i + 1..];
      assert '/' !in head;
      JoinSplit(rest);
      assert Split(p) == [head] + Split(rest);
      JoinCons(head, Split(rest));
      SlashlessCons(head, Split(rest));
      assert p == head + ['/'] + rest;
    }
  }

  lemma SplitCons(head: Bytes, rest: Bytes)
    requires '/' !in head
    ensures Split(head + ['/'] + rest) == [head] + Split(rest)
  {
    IndexOfFirst(head, '/', rest);
  }

  lemma {:induction false} SplitJoin(segs: seq<Bytes>)
    requires segs != [] && Slashless(segs)
    ensures Split(Join(segs)) == segs
    decreases |segs|
  {
    var head, rest := segs[0], segs[1..];
    assert '/' !in head;
    if rest == [] {
      IndexOfFirst(head, '/', []);
      assert Join(segs) == head && Split(head) == [head];
    } else {
      assert segs == [head] + rest;
      JoinCons(head, rest);
      SplitJoin(rest);
      SplitCons(head, Join(rest));
    }
  }

  lemma {:induction false} DropDotsLeavesNone(done: seq<Bytes>, segs: seq<Bytes>)
    requires NoDots(done) && Slashless(done) && Slashless(segs)
    ensures NoDots(DropDots(done, segs)) && Slashless(DropDots(done, segs))
    decreases |segs|
  {
    if segs != [] {
      assert Slashless(segs[1..]);
      DropDotsLeavesNone(Entering(done, segs[0]), segs[1..]);
    }
  }

  lemma {:induction false} DropDotsKeepsRest(done: seq<Bytes>, segs: seq<Bytes>)
    requires NoDots(segs)
    ensures DropDots(done, segs) == done + segs
    decreases |segs|
  {
    if segs != [] {
      assert NoDots(segs[1..]) && !Dot(segs[0]);
      DropDotsKeepsRest(done + [segs[0]], segs[1..]);
      assert done + [segs[0]] + segs[1..] == done + segs;
    }
  }

  lemma RootedHasNoDots(segs: seq<Bytes>)
    requires segs != [] && NoDots(segs) && Slashless(segs)
    ensures NoDots(Split(Rooted(Join(segs))))
  {
    var s := Join(segs);
    if s != [] && s[0] == '/' {
      SplitJoin(segs);
    } else {
      var led := [[]] + segs;
      assert led[1..] == segs;
      assert Join(led) == [] + ['/'] + s == ['/'] + s;
      SplitJoin(led);
    }
  }

  lemma {:induction false} JoinSnoc(segs: seq<Bytes>, last: Bytes)
    requires segs != []
    ensures Join(segs + [last]) == Join(segs) + ['/'] + last
    decreases |segs|
  {
    assert (segs + [last])[1..] == segs[1..] + [last];
    if |segs| > 1 {
      JoinSnoc(segs[1..], last);
    } else {
      assert segs[1..] + [last] == [last];
    }
  }

  /** Joining never brings a dot segment in, with or without a slash after. */
  lemma JoinedHasNoDots(segs: seq<Bytes>, slash: Bytes)
    requires NoDots(segs) && Slashless(segs) && (slash == [] || slash == ['/'])
    ensures NoDots(Split(Rooted(Join(segs) + slash)))
  {
    if segs == [] {
      RootedHasNoDots([[], []]);
      assert Join([[], []]) == ['/'];
      assert Rooted([] + slash) == ['/'];
    } else if slash == [] {
      RootedHasNoDots(segs);
      assert Join(segs) + [] == Join(segs);
    } else {
      JoinSnoc(segs, []);
      assert Join(segs) + ['/'] + [] == Join(segs) + ['/'];
      RootedHasNoDots(segs + [[]]);
    }
  }

  lemma ResolvedHasNoDots(p: Bytes)
    ensures NoDots(Split(Resolved(p)))
  {
    var segs := Split(p);
    JoinSplit(p);
    DropDotsLeavesNone([], segs);
    JoinedHasNoDots(DropDots([], segs), if Dot(segs[|segs| - 1]) then ['/'] else []);
  }

  lemma UndottedIsResolved(p: Bytes)
    requires p != [] && p[0] == '/' && NoDots(Split(p))
    ensures Resolved(p) == p
  {
    var segs := Split(p);
    JoinSplit(p);
    DropDotsKeepsRest([], segs);
    assert [] + segs == segs;
    assert !Dot(segs[|segs| - 1]);
    assert p + [] == p;
  }

  /** Removing dot segments leaves an absolute path alone exactly when it has none. */
  lemma ResolvedUnchanged(p: Bytes)
    requires p != [] && p[0] == '/'
    ensures Resolved(p) == p <==> NoDots(Split(p))
  {
    ResolvedHasNoDots(p);
    if NoDots(Split(p)) {
      UndottedIsResolved(p);
    }
  }

  // ---- Dot segments in escaped paths ------------------------------------------------------

  function EscapeAll(segs: seq<Bytes>): seq<Bytes> {
    seq(|segs|, i requires 0 <= i < |segs| => Escape(segs[i], PathMode))
  }

  lemma {:induction false} EscapeConcat(s: Bytes, t: Bytes)
    ensures Escape(s + t, PathMode) == Escape(s, PathMode) + Escape(t, PathMode)
  {
    if s == [] {
      assert s + t == t;
    } else {
      assert (s + t)[1..] == s[1..] + t;
      EscapeConcat(s[1..], t);
    }
  }

  lemma {:induction false} EscapedSlashless(s: Bytes)
    requires '/' !in s
    ensures '/' !in Escape(s, PathMode)
  {
    if s != [] {
      EscapedSlashless(s[1..]);
      assert s[0] in s && '/' !in EscapeByte(s[0], PathMode);
    }
  }

  lemma {:induction false} JoinEscaped(segs: seq<Bytes>)
    ensures Join(EscapeAll(segs)) == Escape(Join(segs), PathMode)
    decreases |segs|
  {
    if |segs| > 1 {
      JoinEscaped(segs[1..]);
      assert EscapeAll(segs)[1..] == EscapeAll(segs[1..]);
      EscapeConcat(segs[0] + ['/'], Join(segs[1..]));
      EscapeConcat(segs[0], ['/']);
      assert Escape(['/'], PathMode) == ['/'];
    }
  }

  lemma SplitEscaped(t: Bytes)
    ensures Split(Escape(t, PathMode)) == EscapeAll(Split(t))
  {
    var segs := Split(t);
    JoinSplit(t);
    JoinEscaped(segs);
    forall k | 0 <= k < |segs|
      ensures '/' !in EscapeAll(segs)[k]
    {
      EscapedSlashless(segs[k]);
    }
    SplitJoin(EscapeAll(segs));
  }

  lemma EscapedDots(seg: Bytes)
    ensures Here(Escape(seg, PathMode)) <==> Here(seg)
    ensures Up(Escape(seg, PathMode)) <==> Up(seg)
  {
    assert Escape(['.'], PathMode) == ['.'] && Escape(['.', '.'], PathMode) == ['.', '.'];
    if Here(seg) {
      assert seg == ['.'];
    } else if Up(seg) {
      assert seg == ['.', '.'];
    }
    if Here(Escape(seg, PathMode)) {
      assert Escape(seg, PathMode) == ['.'];
      EscapeInjective(seg, ['.'], PathMode);
    } else if Up(Escape(seg, PathMode)) {
      assert Escape(seg, PathMode) == ['.', '.'];
      EscapeInjective(seg, ['.', '.'], PathMode);
    }
  }

  lemma {:induction false} DropDotsEscaped(done: seq<Bytes>, segs: seq<Bytes>)
    ensures DropDots(EscapeAll(done), EscapeAll(segs)) == EscapeAll(DropDots(done, segs))
    decreases |segs|
  {
    if segs != [] {
      EscapedDots(segs[0]);
      assert EscapeAll([[]]) == [[]];
      assert Entering(EscapeAll(done), EscapeAll(segs)[0]) == EscapeAll(Entering(done, segs[0]));
      assert EscapeAll(segs)[1..] == EscapeAll(segs[1..]);
      DropDotsEscaped(Entering(done, segs[0]), segs[1..]);
    }
  }

  lemma RootedEscaped(s: Bytes)
    ensures Rooted(Escape(s, PathMode)) == Escape(Rooted(s), PathMode)
  {
    EscapeConcat(['/'], s);
    assert Escape(['/'], PathMode) == ['/'];
    if s != [] {
      assert Escape(s, PathMode)[0] == EscapeByte(s[0], PathMode)[0];
    }
  }

  /** Escaping and dot-segment removal commute. */
  lemma ResolvedEscaped(t: Bytes)
    ensures Resolved(Escape(t, PathMode)) == Escape(Resolved(t), PathMode)
  {
    var segs := Split(t);
    var kept := DropDots([], segs);
    var slash: Bytes := if Dot(segs[|segs| - 1]) then ['/'] else [];
    SplitEscaped(t);
    assert EscapeAll([]) == [];
    DropDotsEscaped([], segs);
    JoinEscaped(kept);
    EscapedDots(segs[|segs| - 1]);
    EscapeConcat(Join(kept), slash);
    assert Escape(slash, PathMode) == slash;
    RootedEscaped(Join(kept) + slash);
  }

  // ---- The composition --------------------------------------------------------------------

  /**
   * The rule `^/api/notebooks(.*)` -> `/api/data/notebooks$1`: it rewrites the request target and
   * resolves the result against the request's URL. None when the new target does not parse.
   */
  function NotebooksRule(u: Url, requestURI: Bytes): Option<Url>
    requires '#' !in requestURI
  {
    if !(NOTEBOOKS <= requestURI) then Some(u)
    else
      assert forall c :: c in requestURI[|NOTEBOOKS|..] ==> c in requestURI;
      match Parse(DATA_NOTEBOOKS + requestURI[|NOTEBOOKS|..])
      case None => None
      case Some(v) =>
        var w := SetPath(Resolved(EscapedPath(v)), v.query);
        if w.Some? then w else Some(v)
  }

  /** Where the gateway means a UI-server path to go. */
  function Intended(path: Bytes): Bytes {
    if Kept(path) then path
    else if UI_AUTH <= path then "/api/auth" + path[|UI_AUTH|..]
    else if UI_NOTEBOOKS <= path then DATA_NOTEBOOKS + path[|UI_NOTEBOOKS|..]
    else if UI_API <= path then "/api" + path[|UI_API|..]
    else path
  }

  lemma PrefixesAreLiteral()
    ensures Literal(NOTEBOOKS) && Literal(DATA_NOTEBOOKS) && '?' !in NOTEBOOKS && |NOTEBOOKS| == 14
    ensures NOTEBOOKS[0] == '/' && DATA_NOTEBOOKS[0] == '/' && |DATA_NOTEBOOKS| > 1
  {
  }

  /** A target sent with `/api/notebooks` in front has a path with `/api/notebooks` in front. */
  lemma SentPrefix(requestURI: Bytes)
    requires '#' !in requestURI && NOTEBOOKS <= requestURI && Parse(requestURI).Some?
    ensures NOTEBOOKS <= Parse(requestURI).value.path
  {
    var i := IndexOf(requestURI, '?');
    var p := requestURI[..i];
    assert i == |requestURI| ==> p == requestURI;
    PrefixesAreLiteral();
    assert forall k :: 0 <= k < |NOTEBOOKS| ==> requestURI[k] == NOTEBOOKS[k];
    assert p == NOTEBOOKS + p[|NOTEBOOKS|..];
    UnescapeLiteralPrefix(NOTEBOOKS, p[|NOTEBOOKS|..]);
  }

  lemma CutInThree(a: Bytes, b: Bytes, c: Bytes)
    ensures a + b + c == a + (b + c) && (a + b + c)[|a|..] == b + c
  {
  }

  lemma PrintedPath(u: Url, prefix: Bytes, rest: Bytes, q: Bytes)
    requires u.path == prefix + rest && EscapedPath(u) == Escape(u.path, PathMode) && Literal(prefix)
    requires q == match u.query case None => [] case Some(q) => ['?'] + q
    ensures Print(u) == prefix + (Escape(rest, PathMode) + q)
    ensures Print(u)[|prefix|..] == Escape(rest, PathMode) + q
  {
    EscapeLiteralPrefix(prefix, rest);
    var e := Escape(rest, PathMode);
    assert EscapedPath(u) == prefix + e;
    assert Print(u) == prefix + e + q;
    CutInThree(prefix, e, q);
  }

  lemma ResolvedIsPlain(p: Bytes, query: Option<Query>)
    ensures EscapedPath(Url(Resolved(p), [], query)) == Escape(Resolved(p), PathMode)
  {
    assert Resolved(p)[0] == '/';
  }

  lemma ResolvedParses(t: Bytes, query: Option<Query>)
    ensures SetPath(Resolved(Escape(t, PathMode)), query) == Some(Url(Resolved(t), [], query))
  {
    ResolvedEscaped(t);
    EscapeRoundTrip(Resolved(t), PathMode);
  }

  /** The target the rule puts together parses into the path with the prefix replaced. */
  lemma RuleParses(rest: Bytes, query: Option<Query>, q: Bytes)
    requires q == match query case None => [] case Some(q) => ['?'] + q
    ensures var s := DATA_NOTEBOOKS + (Escape(rest, PathMode) + q);
      && '#' !in s && Parse(s).Some? && Parse(s).value.query == query
      && EscapedPath(Parse(s).value) == Escape(DATA_NOTEBOOKS + rest, PathMode)
  {
    var t := Url(DATA_NOTEBOOKS + rest, [], query);
    PrefixesAreLiteral();
    assert t.path[0] == '/' && |t.path| > 1;
    PrintedPath(t, DATA_NOTEBOOKS, rest, q);
    PrintParse(t);
  }

  /** The rule sends a plainly escaped notebooks path to the data service, with dot segments removed. */
  lemma RuleTarget(u: Url, rest: Bytes)
    requires u.path == NOTEBOOKS + rest && EscapedPath(u) == Escape(u.path, PathMode)
    ensures '#' !in Print(u)
    ensures NotebooksRule(u, Print(u)) == Some(Url(Resolved(DATA_NOTEBOOKS + rest), [], u.query))
  {
    var q := match u.query case None => [] case Some(q) => ['?'] + q;
    PrefixesAreLiteral();
    assert u.path[0] == '/';
    PrintParse(u);
    PrintedPath(u, NOTEBOOKS, rest, q);
    RuleParses(rest, u.query, q);
    ResolvedParses(DATA_NOTEBOOKS + rest, u.query);
  }

  lemma AuthIntended(path: Bytes)
    requires UI_AUTH <= path
    ensures UI <= path && "/api" + path[|UI|..] == "/api/auth" + path[|UI_AUTH|..]
    ensures !(NOTEBOOKS <= "/api/auth" + path[|UI_AUTH|..])
  {
    var rest := path[|UI_AUTH|..];
    assert path == UI_AUTH + rest;
    assert UI_AUTH == UI + "/auth" && "/api" + "/auth" == "/api/auth";
    CutInThree(UI, "/auth", rest);
    CutInThree("/api", "/auth", rest);
    assert ("/api/auth" + rest)[5] == 'a' && NOTEBOOKS[5] == 'n';
  }

  lemma UiNotebooks(path: Bytes)
    requires UI <= path && NOTEBOOKS <= path[|UI|..]
    ensures UI_NOTEBOOKS <= path
  {
    var tail := path[|UI|..][|NOTEBOOKS|..];
    assert path == UI + path[|UI|..] && path[|UI|..] == NOTEBOOKS + tail;
    CutInThree(UI, NOTEBOOKS, tail);
    assert UI + NOTEBOOKS == UI_NOTEBOOKS;
  }

  lemma ApiIntended(path: Bytes)
    requires UI_API <= path && !(UI_NOTEBOOKS <= path)
    ensures UI <= path && path[|UI|..] == "/api" + path[|UI_API|..]
    ensures !(NOTEBOOKS <= path[|UI|..])
  {
    var rest := path[|UI_API|..];
    assert path == UI_API + rest && UI_API == UI + "/api";
    CutInThree(UI, "/api", rest);
    if NOTEBOOKS <= path[|UI|..] {
      UiNotebooks(path);
    }
  }

  lemma UiIsNoNotebooks(path: Bytes)
    requires UI <= path
    ensures !(NOTEBOOKS <= path)
  {
    assert NOTEBOOKS[1] == 'a' && UI[1] == 'u' == path[1];
  }

  /** What is meant, in terms of the prefix the middleware puts in. */
  lemma IntendedSplits(path: Bytes)
    requires UI <= path
    ensures !(NOTEBOOKS <= path)
    ensures Replacement(path).None? ==> Intended(path) == path
    ensures Replacement(path).Some? && UI_NOTEBOOKS <= path ==>
      Replacement(path).value + path[|UI|..] == NOTEBOOKS + path[|UI_NOTEBOOKS|..]
    ensures Replacement(path).Some? && !(UI_NOTEBOOKS <= path) ==>
      Replacement(path).value + path[|UI|..] == Intended(path) && !(NOTEBOOKS <= Intended(path))
  {
    UiIsNoNotebooks(path);
    PrefixesApart(path);
    if !Kept(path) {
      if UI_AUTH <= path {
        AuthIntended(path);
      } else if UI_API <= path {
        assert [] + path[|UI|..] == path[|UI|..];
        if !(UI_NOTEBOOKS <= path) {
          ApiIntended(path);
        }
      }
    }
  }

  /** Decoded, a path goes where it is meant to, but a notebooks path loses its dot segments if it has any. */
  predicate Lands(path: Bytes, result: Bytes) {
    var meant := Intended(path);
    && result == (if !Kept(path) && UI_NOTEBOOKS <= path then Resolved(meant) else meant)
    && (result == meant <==> Kept(path) || !(UI_NOTEBOOKS <= path) || NoDots(Split(meant)))
  }

  /** `u` sent, `v` passed on: the query, the decoded path and the escaped path. */
  predicate Routed(u: Url, v: Url) {
    && v.query == u.query && Lands(u.path, v.path)
    && if Replacement(u.path).None? then v == u
       else if PlainPrefix(u) && !(UI_NOTEBOOKS <= u.path)
       then EscapedPath(v) == Replacement(u.path).value + EscapedPath(u)[|UI|..]
       else EscapedPath(v) == Escape(v.path, PathMode)
  }

  /** What the rule makes of a path once the middleware has been over it. */
  lemma RuleAfterRewrite(path: Bytes, u: Url, requestURI: Bytes)
    requires UI <= path
    requires Replacement(path).None? ==> u.path == path && '#' !in requestURI && Parse(requestURI) == Some(u)
    requires Replacement(path).Some? ==> u.path == Replacement(path).value + path[|UI|..] && requestURI == Print(u)
    requires Replacement(path).Some? && UI_NOTEBOOKS <= path ==> EscapedPath(u) == Escape(u.path, PathMode)
    ensures '#' !in requestURI && NotebooksRule(u, requestURI).Some?
    ensures var w := NotebooksRule(u, requestURI).value;
      && w.query == u.query && Lands(path, w.path)
      && if Replacement(path).Some? && UI_NOTEBOOKS <= path then EscapedPath(w) == Escape(w.path, PathMode) else w == u
  {
    IntendedSplits(path);
    PrefixesApart(path);
    if Replacement(path).None? {
      if NOTEBOOKS <= requestURI {
        SentPrefix(requestURI);
      }
    } else if UI_NOTEBOOKS <= path {
      RuleTarget(u, path[|UI_NOTEBOOKS|..]);
      PrefixesAreLiteral();
      ResolvedUnchanged(Intended(path));
      ResolvedIsPlain(Intended(path), u.query);
    } else {
      PrintParse(u);
      if NOTEBOOKS <= requestURI {
        SentPrefix(requestURI);
      }
    }
  }

  lemma ParsedIsWellFormed(s: Bytes)
    requires '#' !in s && Parse(s).Some?
    ensures WellFormed(Parse(s).value)
  {
  }

  /** What of its paths the UI server still handles itself, prefix by prefix. */
  predicate LeftToUi(path: Bytes) {
    || "/ui-server/api/allows-iframe" <= path || "/ui-server/api/projects" <= path
    || "/ui-server/api/renku/cache.files_upload" <= path
    || "/ui-server/api/last-projects" <= path || "/ui-server/api/last-searches" <= path
    || !("/ui-server/auth" <= path || "/ui-server/api" <= path)
  }

  /**
   * The middleware and then the rule, for every UI-server path: it never fails, the query is kept, the
   * decoded path lands where it should, and the escapes survive except in a notebooks path or behind an
   * escaped prefix.
   */
  method Route(r: Request) returns (ok: bool)
    requires '#' !in r.requestURI && Parse(r.requestURI) == Some(r.url) && UI <= r.url.path
    modifies r
    ensures ok && Routed(old(r.url), r.url)
    ensures LeftToUi(old(r.url).path) ==> r.url == old(r.url) && r.requestURI == old(r.requestURI)
    ensures !LeftToUi(old(r.url).path) && !("/ui-server/api/notebooks" <= old(r.url).path) ==>
      r.requestURI == Print(r.url)
  {
    ghost var path := r.url.path;
    ParsedIsWellFormed(r.requestURI);
    ok := r.UiServerPathRewrite();
    RuleAfterRewrite(path, r.url, r.requestURI);
    var next := NotebooksRule(r.url, r.requestURI);
    ok := next.Some?;
    if ok {
      r.url := next.value;
    }
  }

  // ---- Notebooks paths --------------------------------------------------------------------

  lemma NotebooksIntended(path: Bytes)
    requires UI_NOTEBOOKS <= path
    ensures UI <= path && !Kept(path) && Replacement(path).Some?
        && Intended(path) == DATA_NOTEBOOKS + path[|UI_NOTEBOOKS|..]
  {
    PrefixesApart(path);
    assert UI_NOTEBOOKS[15] == 'n' && path[15] == 'n';
    assert "/ui-server/api/allows-iframe"[15] == 'a' && "/ui-server/api/projects"[15] == 'p';
    assert "/ui-server/api/renku/cache.files_upload"[15] == 'r' && "/ui-server/api/last-projects"[15] == 'l';
    assert "/ui-server/api/last-searches"[15] == 'l';
  }

  lemma UiNotebooksIsLiteral()
    ensures Literal(UI_NOTEBOOKS)
  {
  }

  /**
   * The escapes of a notebooks path survive exactly when it was sent with the default ones. (Its dot
   * segments, if any, are lost besides.)
   */
  lemma NotebooksEscapesLost(u: Url, v: Url)
    requires Routed(u, v) && UI_NOTEBOOKS <= u.path && UI_NOTEBOOKS <= EscapedPath(u) && NoDots(Split(Intended(u.path)))
    ensures EscapedPath(v) == DATA_NOTEBOOKS + EscapedPath(u)[|UI_NOTEBOOKS|..] <==>
        EscapedPath(u) == Escape(u.path, PathMode)
  {
    var rest, sent := u.path[|UI_NOTEBOOKS|..], EscapedPath(u)[|UI_NOTEBOOKS|..];
    NotebooksIntended(u.path);
    assert u.path == UI_NOTEBOOKS + rest && EscapedPath(u) == UI_NOTEBOOKS + sent;
    PrefixesAreLiteral();
    UiNotebooksIsLiteral();
    EscapeLiteralPrefix(DATA_NOTEBOOKS, rest);
    EscapeLiteralPrefix(UI_NOTEBOOKS, rest);
    var e := Escape(rest, PathMode);
    assert (DATA_NOTEBOOKS + e)[|DATA_NOTEBOOKS|..] == e && (DATA_NOTEBOOKS + sent)[|DATA_NOTEBOOKS|..] == sent;
    assert (UI_NOTEBOOKS + e)[|UI_NOTEBOOKS|..] == e && (UI_NOTEBOOKS + sent)[|UI_NOTEBOOKS|..] == sent;
  }

  lemma AroundSlash(head: Bytes, rest: Bytes, b: Bytes)
    ensures head + ['/'] + rest + ['/'] + b == head + ['/'] + (rest + ['/'] + b)
  {
  }

  lemma SegmentsAssociate(a: seq<Bytes>, b: seq<Bytes>, c: seq<Bytes>)
    ensures a + (b + c) == (a + b) + c
  {
  }

  /** `front` is `head`, a slash and `rest`; `whole` is `head`, a slash and `tail`. */
  lemma SplitConcatStep(head: Bytes, rest: Bytes, front: Bytes, tail: Bytes, whole: Bytes, last: seq<Bytes>)
    requires '/' !in head && front == head + ['/'] + rest && whole == head + ['/'] + tail
    requires Split(tail) == Split(rest) + last
    ensures Split(whole) == Split(front) + last
  {
    SplitCons(head, tail);
    SplitCons(head, rest);
    SegmentsAssociate([head], Split(rest), last);
  }

  lemma {:induction false} SplitConcat(a: Bytes, b: Bytes)
    ensures Split(a + ['/'] + b) == Split(a) + Split(b)
    decreases |a|
  {
    var i := IndexOf(a, '/');
    if i == |a| {
      assert '/' !in a;
      SplitCons(a, b);
      assert Split(a) == [a];
    } else {
      var head, rest := a[..i], a[i + 1..];
      assert '/' !in head && a == head + ['/'] + rest;
      AroundSlash(head, rest, b);
      SplitConcat(rest, b);
      SplitConcatStep(head, rest, a, rest + ['/'] + b, a + ['/'] + b, Split(b));
    }
  }

  const DATA_SEGMENTS: seq<Bytes> := [[], "api", "data", "notebooks"]

  lemma JoinThree(a: Bytes, b: Bytes)
    ensures Join([[], a, b]) == ['/'] + a + ['/'] + b
  {
    JoinCons(a, [b]);
    JoinCons([], [a, b]);
    assert [a] + [b] == [a, b] && [[]] + [a, b] == [[], a, b];
    assert [] + ['/'] + (a + ['/'] + b) == ['/'] + a + ['/'] + b;
  }

  lemma JoinFour(a: Bytes, b: Bytes, c: Bytes)
    ensures Join([[], a, b, c]) == ['/'] + a + ['/'] + b + ['/'] + c
  {
    JoinThree(a, b);
    JoinSnoc([[], a, b], c);
    assert [[], a, b] + [c] == [[], a, b, c];
  }

  lemma DataJoined()
    ensures Join(DATA_SEGMENTS) == DATA_NOTEBOOKS && Join(DATA_SEGMENTS[..3]) == "/api/data"
  {
    JoinThree("api", "data");
    JoinFour("api", "data", "notebooks");
    assert DATA_SEGMENTS[..3] == [[], "api", "data"];
  }

  lemma DataSegments()
    ensures Split(DATA_NOTEBOOKS) == DATA_SEGMENTS
  {
    DataJoined();
    SplitJoin(DATA_SEGMENTS);
  }

  lemma DataHasNoDots()
    ensures NoDots(DATA_SEGMENTS)
  {
    assert |DATA_SEGMENTS[1]| == 3 && |DATA_SEGMENTS[2]| == 4 && |DATA_SEGMENTS[3]| == 9;
  }

  lemma NoDotsConcat(a: seq<Bytes>, b: seq<Bytes>)
    requires NoDots(a) && NoDots(b)
    ensures NoDots(a + b)
  {
  }

  lemma TrailingSlash(p: Bytes)
    requires NoDots(Split(p))
    ensures NoDots(Split(p + ['/']))
  {
    SplitConcat(p, []);
    assert p + ['/'] + [] == p + ['/'];
    NoDotsConcat(Split(p), Split([]));
  }

  lemma SlashHasNoDots()
    ensures NoDots(Split(DATA_NOTEBOOKS + ['/']))
  {
    DataSegments();
    DataHasNoDots();
    TrailingSlash(DATA_NOTEBOOKS);
  }

  const SENT_SLASH: Bytes := ['%', '2', 'F']

  lemma SlashSent()
    ensures Unescape(UI_NOTEBOOKS + SENT_SLASH, PathMode) == Some(UI_NOTEBOOKS + ['/'])
    ensures ValidEncoded(UI_NOTEBOOKS + SENT_SLASH)
  {
    assert SENT_SLASH[3..] == [] && Unescape([], PathMode) == Some([]);
    assert Unhex('2') * 16 + Unhex('F') == 47 && 47 as char == '/';
    var slash := Unescape(SENT_SLASH, PathMode).value;
    assert slash == [47 as char] + [] == ['/'];
    UiNotebooksIsLiteral();
    UnescapeLiteralPrefix(UI_NOTEBOOKS, SENT_SLASH);
  }

  /** For one, an escaped slash is lost. */
  lemma EscapedSlashLost(u: Url, v: Url)
    requires u == Url(UI_NOTEBOOKS + ['/'], UI_NOTEBOOKS + SENT_SLASH, None) && Routed(u, v)
    ensures EscapedPath(u) == UI_NOTEBOOKS + SENT_SLASH
    ensures EscapedPath(v) == DATA_NOTEBOOKS + ['/'] != DATA_NOTEBOOKS + SENT_SLASH
  {
    SlashSent();
    NotebooksIntended(u.path);
    assert u.path[|UI_NOTEBOOKS|..] == ['/'];
    SlashHasNoDots();
    assert v.path == DATA_NOTEBOOKS + ['/'];
    PrefixesAreLiteral();
    EscapeLiteralPrefix(DATA_NOTEBOOKS, ['/']);
    assert Escape(['/'], PathMode) == ['/'];
    assert |DATA_NOTEBOOKS + ['/']| != |DATA_NOTEBOOKS + SENT_SLASH|;
  }

  lemma {:induction false} DropDotsConcat(done: seq<Bytes>, a: seq<Bytes>, b: seq<Bytes>)
    ensures DropDots(done, a + b) == DropDots(DropDots(done, a), b)
    decreases |a|
  {
    if a == [] {
      assert a + b == b;
    } else {
      assert (a + b)[1..] == a[1..] + b;
      DropDotsConcat(Entering(done, a[0]), a[1..], b);
    }
  }

  const DOTTED: Bytes := ['.', '.']

  lemma DropLast(segs: seq<Bytes>)
    requires segs != [] && NoDots(segs)
    ensures DropDots([], segs + [DOTTED]) == segs[..|segs| - 1]
  {
    DropDotsConcat([], segs, [DOTTED]);
    DropDotsKeepsRest([], segs);
    assert [] + segs == segs;
    assert [DOTTED][1..] == [];
  }

  /** A trailing ".." takes the last segment along. */
  lemma ResolvedUp(p: Bytes)
    requires NoDots(Split(p))
    ensures Resolved(p + ['/'] + DOTTED) == Rooted(Join(Split(p)[..|Split(p)| - 1]) + ['/'])
  {
    SplitConcat(p, DOTTED);
    IndexOfFirst(DOTTED, '/', []);
    assert Split(DOTTED) == [DOTTED];
    DropLast(Split(p));
    var segs := Split(p) + [DOTTED];
    assert segs[|segs| - 1] == DOTTED;
  }

  lemma DottedResolved()
    ensures Resolved(DATA_NOTEBOOKS + ['/'] + DOTTED) == "/api/data" + ['/']
  {
    DataSegments();
    DataHasNoDots();
    DataJoined();
    ResolvedUp(DATA_NOTEBOOKS);
    assert ("/api/data" + ['/'])[0] == "/api/data"[0] == '/';
  }

  /** And a dotted path leaves the notebooks: `/ui-server/api/notebooks/..` goes to `/api/data/`. */
  lemma DottedPathLeaves(u: Url, v: Url)
    requires Routed(u, v) && u.path == UI_NOTEBOOKS + (['/'] + DOTTED)
    ensures v.path == "/api/data" + ['/'] && Intended(u.path) == DATA_NOTEBOOKS + (['/'] + DOTTED)
    ensures |v.path| < |Intended(u.path)|
  {
    NotebooksIntended(u.path);
    assert u.path[|UI_NOTEBOOKS|..] == ['/'] + DOTTED;
    CutInThree(DATA_NOTEBOOKS, ['/'], DOTTED);
    DottedResolved();
    assert |DATA_NOTEBOOKS| == 19;
  }
}
