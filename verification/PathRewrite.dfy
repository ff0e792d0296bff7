/** The rewriting of UI-server paths, with `net/url`'s two views of a path: decoded, and as it was sent. */
module PathRewrite {
  import opened Prelude
  import opened PercentCodec

  /** Bytes `url.Parse` refuses anywhere in a URL. */
  predicate Control(c: Byte) {
    c < ' ' || c as int == 127
  }

  /** A query as a server hands it on: control bytes are refused, and a client does not send fragments. */
  type Query = q: Bytes | forall c :: c in q ==> c != '#' && !Control(c) witness []

  /** A URL in origin form: no scheme, no host. `rawPath` is a hint, empty when the default encoding will do. */
  datatype Url = Url(path: Bytes, rawPath: Bytes, query: Option<Query>)

  /** Whether a raw path is the one to show for a path. */
  predicate Usable(raw: Bytes, path: Bytes) {
    raw != [] && ValidEncoded(raw) && Unescape(raw, PathMode) == Some(path)
  }

  /** `URL.EscapedPath`. */
  function EscapedPath(u: Url): (p: Bytes)
    ensures ValidEncoded(p) && Unescape(p, PathMode) == Some(u.path)
  {
    EscapeRoundTrip(u.path, PathMode);
    EscapedIsValid(u.path);
    if Usable(u.rawPath, u.path) then u.rawPath
    else if u.path == "*" then "*"
    else Escape(u.path, PathMode)
  }

  /** `URL.String` for a path that starts with a single '/'. */
  function Print(u: Url): Bytes {
    EscapedPath(u) + match u.query case None => [] case Some(q) => ['?'] + q
  }

  /** `URL.setPath`: keep the raw form only where it differs from the default encoding. */
  function SetPath(p: Bytes, query: Option<Query>): Option<Url> {
    match Unescape(p, PathMode)
    case None => None
    case Some(path) => Some(Url(path, if p == Escape(path, PathMode) then [] else p, query))
  }

  function IndexOf(s: Bytes, c: Byte): (i: nat)
    ensures i <= |s| && (forall k :: 0 <= k < i ==> s[k] != c) && (i < |s| ==> s[i] == c)
  {
    if s == [] || s[0] == c then 0 else 1 + IndexOf(s[1..], c)
  }

  /** `url.Parse` for a string that starts with a single '/' and has no fragment. */
  function Parse(s: Bytes): Option<Url>
    requires '#' !in s
  {
    var i := IndexOf(s, '?');
    if exists c :: c in s && Control(c) then None
    else if i == |s| then SetPath(s, None)
    else SetPath(s[..i], Some(s[i + 1..]))
  }

  /** Bytes that may stand in the path of a URL string. */
  predicate Plain(p: Bytes) {
    forall c :: c in p ==> c != '?' && c != '#' && !Control(c)
  }

  lemma EscapedPathIsPlain(u: Url)
    ensures Plain(EscapedPath(u))
  {
    forall c | c in EscapedPath(u)
      ensures c != '?' && c != '#' && !Control(c)
    {
      assert ValidByte(c);
    }
  }

  lemma IndexOfFirst(head: Bytes, c: Byte, rest: Bytes)
    requires c !in head
    ensures IndexOf(head, c) == |head|
    ensures var s := head + [c] + rest; IndexOf(s, c) == |head| && s[..|head|] == head && s[|head| + 1..] == rest
  {
    var s := head + [c] + rest;
    assert s[|head|] == c;
    assert forall k :: 0 <= k < |head| ==> s[k] == head[k] && head[k] in head;
  }

  /** A path that needs no more escaping, with a query behind it, parses back into the two. */
  lemma ParseParts(p: Bytes, query: Option<Query>)
    requires Plain(p)
    ensures var s := p + match query case None => [] case Some(q) => ['?'] + q;
      '#' !in s && Parse(s) == SetPath(p, query)
  {
    if query.None? {
      assert p + [] == p;
      IndexOfFirst(p, '?', []);
    } else {
      var q: Bytes := query.value;
      IndexOfFirst(p, '?', q);
      assert p + (['?'] + q) == p + ['?'] + q;
      assert forall c :: c in p + ['?'] + q ==> c in p || c == '?' || c in q;
    }
  }

  /** As `setPath` leaves a URL: a raw path, where there is one, decodes to the path. */
  predicate WellFormed(u: Url) {
    u.rawPath == [] || Unescape(u.rawPath, PathMode) == Some(u.path)
  }

  /** Printing a URL and parsing it again keeps the decoded path, the escapes and the query. */
  lemma PrintParse(u: Url)
    requires u.path != [] && u.path[0] == '/'
    ensures '#' !in Print(u) && Parse(Print(u)).Some?
    ensures var v := Parse(Print(u)).value;
      v.path == u.path && EscapedPath(v) == EscapedPath(u) && v.query == u.query && WellFormed(v)
  {
    EscapedPathIsPlain(u);
    ParseParts(EscapedPath(u), u.query);
    assert EscapedPath(u) != [];
  }

  // ---- The rewriting --------------------------------------------------------------------

  const UI: Bytes := "/ui-server"
  const UI_AUTH: Bytes := "/ui-server/auth"
  const UI_API: Bytes := "/ui-server/api"
  const UI_NOTEBOOKS: Bytes := "/ui-server/api/notebooks"
  const NOTEBOOKS: Bytes := "/api/notebooks"
  const DATA_NOTEBOOKS: Bytes := "/api/data/notebooks"

  function TrimPrefix(s: Bytes, p: Bytes): Bytes {
    if p <= s then s[|p|..] else s
  }

  /** The endpoints the UI server still handles itself. */
  predicate Kept(path: Bytes) {
    || "/ui-server/api/allows-iframe" <= path
    || "/ui-server/api/projects" <= path
    || "/ui-server/api/renku/cache.files_upload" <= path
    || "/ui-server/api/last-projects" <= path
    || "/ui-server/api/last-searches" <= path
  }

  /** What the rewriting puts in place of the leading `/ui-server`, if it applies. */
  function Replacement(path: Bytes): Option<Bytes> {
    if Kept(path) then None
    else if UI_AUTH <= path then Some("/api")
    else if UI_API <= path then Some([])
    else None
  }

  /** The prefixes the rules test are different enough that at most one group applies. */
  lemma PrefixesApart(path: Bytes)
    ensures UI_AUTH <= path ==> UI <= path && !(UI_API <= path) && !(UI_NOTEBOOKS <= path)
    ensures UI_NOTEBOOKS <= path ==> UI_API <= path && path[|UI|..] == NOTEBOOKS + path[|UI_NOTEBOOKS|..]
    ensures UI_API <= path ==> UI <= path && "/api" <= path[|UI|..]
  {
    assert UI_AUTH[12] == 'u' && UI_API[12] == 'p' && UI_NOTEBOOKS[12] == 'p';
    assert UI_NOTEBOOKS[..|UI_API|] == UI_API && UI_API[..|UI|] == UI == UI_AUTH[..|UI|];
    assert UI_API[|UI|] == '/';
    if UI_NOTEBOOKS <= path {
      assert path[..|UI_API|] == UI_NOTEBOOKS[..|UI_API|];
    }
    if UI_API <= path {
      assert path[..|UI|] == UI_API[..|UI|];
    }
    if UI_AUTH <= path {
      assert path[..|UI|] == UI_AUTH[..|UI|];
    }
  }

  lemma UiIsLiteral()
    ensures Literal(UI)
  {
  }

  /** A raw path that was in use stays in use when a literal prefix of both views is replaced. */
  lemma UsableStays(r: Bytes, rest: Bytes, prefix: Bytes)
    requires Literal(prefix) && rest != [] && Usable(UI + r, UI + rest)
    ensures Usable(prefix + r, prefix + rest) && Unescape(r, PathMode) == Some(rest)
  {
    UiIsLiteral();
    UnescapeLiteralPrefix(UI, r);
    UnescapeLiteralPrefix(prefix, r);
    assert Unescape(UI + r, PathMode) == Some(UI + rest);
    assert (UI + rest)[|UI|..] == rest;
    assert UI + Unescape(r, PathMode).value == UI + rest;
    assert (UI + Unescape(r, PathMode).value)[|UI|..] == Unescape(r, PathMode).value;
    assert forall c :: c in prefix ==> ValidByte(c);
    assert forall c :: c in r ==> c in UI + r;
  }

  /** A raw path that was not in use does not come into use by that. */
  lemma UnusableStays(raw: Bytes, rest: Bytes, prefix: Bytes)
    requires Literal(prefix) && rest != [] && !Usable(raw, UI + rest)
    requires raw == [] || Unescape(raw, PathMode) == Some(UI + rest)
    ensures !Usable(prefix + TrimPrefix(raw, UI), prefix + rest)
  {
    UiIsLiteral();
    UnescapeLiteralPrefix(prefix, TrimPrefix(raw, UI));
    if UI <= raw {
      var r := raw[|UI|..];
      assert raw == UI + r;
      assert forall c :: c in r ==> c in prefix + r;
      assert forall c :: c in UI ==> ValidByte(c);
      assert ValidEncoded(prefix + r) ==> ValidEncoded(raw);
    }
  }

  lemma PlainStrip(rest: Bytes, prefix: Bytes)
    requires Literal(prefix)
    ensures UI <= Escape(UI + rest, PathMode) && Escape(UI + rest, PathMode)[|UI|..] == Escape(rest, PathMode)
    ensures Escape(prefix + rest, PathMode) == prefix + Escape(rest, PathMode)
  {
    UiIsLiteral();
    EscapeLiteralPrefix(UI, rest);
    EscapeLiteralPrefix(prefix, rest);
    var e := Escape(rest, PathMode);
    assert (UI + e)[|UI|..] == e;
  }

  /** Replacing a leading `/ui-server` in both views keeps the escapes of the rest. */
  lemma StripKeepsEscapes(u: Url, prefix: Bytes)
    requires Literal(prefix) && UI <= u.path && |UI| < |u.path| && WellFormed(u) && UI <= EscapedPath(u)
    requires prefix + u.path[|UI|..] != "*"
    ensures EscapedPath(Url(prefix + u.path[|UI|..], prefix + TrimPrefix(u.rawPath, UI), None)) ==
            prefix + EscapedPath(u)[|UI|..]
  {
    var rest := u.path[|UI|..];
    assert u.path == UI + rest;
    if Usable(u.rawPath, u.path) {
      var r := u.rawPath[|UI|..];
      assert u.rawPath == UI + r;
      UsableStays(r, rest, prefix);
    } else {
      UnusableStays(u.rawPath, rest, prefix);
      PlainStrip(rest, prefix);
      assert u.path[0] == '/';
    }
  }

  /** A raw path with an escaped prefix cannot be cut, and goes out of use. */
  lemma EscapedPrefixIsDropped(u: Url, prefix: Bytes)
    requires Literal(prefix) && UI <= u.path && |UI| < |u.path| && WellFormed(u) && !(UI <= EscapedPath(u))
    requires prefix + u.path[|UI|..] != "*"
    ensures EscapedPath(Url(prefix + u.path[|UI|..], prefix + TrimPrefix(u.rawPath, UI), None)) ==
            Escape(prefix + u.path[|UI|..], PathMode)
  {
    var rest := u.path[|UI|..];
    assert u.path == UI + rest && u.path[0] == '/';
    PlainStrip(rest, prefix);
    assert Usable(u.rawPath, u.path) && TrimPrefix(u.rawPath, UI) == u.rawPath;
    UnescapeLiteralPrefix(prefix, u.rawPath);
    assert |prefix + u.path| != |prefix + rest|;
  }

  lemma DecodedPrefix(raw: Bytes)
    requires UI <= raw && Unescape(raw, PathMode).Some?
    ensures UI <= Unescape(raw, PathMode).value
  {
    UiIsLiteral();
    assert raw == UI + raw[|UI|..];
    UnescapeLiteralPrefix(UI, raw[|UI|..]);
  }

  lemma DataIsElsewhere(rest: Bytes)
    ensures !(UI <= DATA_NOTEBOOKS + rest) && DATA_NOTEBOOKS + rest != NOTEBOOKS + rest
  {
    assert (DATA_NOTEBOOKS + rest)[1] == DATA_NOTEBOOKS[1] == 'a' && UI[1] == 'u';
  }

  /** After the notebooks rule the raw path still says `/api/data/notebooks`, so the last rule drops it. */
  lemma NotebooksLoseEscapes(raw: Bytes, rest: Bytes)
    requires raw == [] || Unescape(raw, PathMode) == Some(DATA_NOTEBOOKS + rest)
    ensures EscapedPath(Url(NOTEBOOKS + rest, TrimPrefix(raw, UI), None)) == Escape(NOTEBOOKS + rest, PathMode)
  {
    DataIsElsewhere(rest);
    assert |NOTEBOOKS + rest| > 1;
    if UI <= raw {
      DecodedPrefix(raw);
    }
  }

  /** A URL whose prefix was sent as it is, so that the raw path can be cut. */
  predicate PlainPrefix(u: Url) {
    WellFormed(u) && UI <= EscapedPath(u)
  }

  /**
   * `v` is `u` with its leading `/ui-server` replaced, in the decoded path and in the escaped one; if
   * the prefix itself was sent escaped, the path is escaped anew.
   */
  predicate RewrittenTo(u: Url, prefix: Bytes, v: Url, requestURI: Bytes) {
    && UI <= u.path && v.path == prefix + u.path[|UI|..] && v.query == u.query && requestURI == Print(v)
    && (PlainPrefix(u) ==> EscapedPath(v) == prefix + EscapedPath(u)[|UI|..])
    && (WellFormed(u) && !PlainPrefix(u) ==> EscapedPath(v) == Escape(v.path, PathMode))
  }

  class Request {
    var url: Url
    var requestURI: Bytes

    constructor (url: Url, requestURI: Bytes)
      ensures this.url == url && this.requestURI == requestURI
    {
      this.url := url;
      this.requestURI := requestURI;
    }

    /** Assigns both views of the path, then prints and reparses the URL; false when it does not parse. */
    method SetUrl(path: Bytes, rawPath: Bytes) returns (ok: bool)
      requires "/api" <= path
      modifies this
      ensures ok && url.path == path && url.query == old(url).query && WellFormed(url)
      ensures EscapedPath(url) == EscapedPath(Url(path, rawPath, None))
      ensures requestURI == Print(url)
    {
      var changed := Url(path, rawPath, url.query);
      assert path[0] == "/api"[0];
      PrintParse(changed);
      var parsed := Parse(Print(changed));
      ok := parsed.Some?;
      if ok {
        url := parsed.value;
        requestURI := Print(url);
      }
    }

    /** The rule for `/ui-server/auth`. */
    method RewriteAuth(path: Bytes) returns (ok: bool)
      requires UI_AUTH <= path && path == url.path
      modifies this
      ensures ok && RewrittenTo(old(url), "/api", url, requestURI)
    {
      PrefixesApart(path);
      if PlainPrefix(url) {
        StripKeepsEscapes(url, "/api");
      } else if WellFormed(url) {
        EscapedPrefixIsDropped(url, "/api");
      }
      ok := SetUrl("/api" + TrimPrefix(path, UI), "/api" + TrimPrefix(url.rawPath, UI));
    }

    /** The rule for `/ui-server/api/notebooks`. */
    method RewriteNotebooks(path: Bytes) returns (ok: bool)
      requires UI_NOTEBOOKS <= path && path == url.path
      modifies this
      ensures ok && url.query == old(url).query
      ensures url.path == DATA_NOTEBOOKS + path[|UI_NOTEBOOKS|..] && WellFormed(url) && requestURI == Print(url)
    {
      ok := SetUrl(DATA_NOTEBOOKS + TrimPrefix(path, UI_NOTEBOOKS),
                   DATA_NOTEBOOKS + TrimPrefix(url.rawPath, UI_NOTEBOOKS));
    }

    /** The rule for `/ui-server/api`, which tests and rewrites the path the request came with. */
    method RewriteApi(path: Bytes) returns (ok: bool)
      requires UI_API <= path
      modifies this
      ensures ok && url.path == path[|UI|..] && url.query == old(url).query && requestURI == Print(url)
      ensures old(url).path == path ==> RewrittenTo(old(url), [], url, requestURI)
      ensures
        UI_NOTEBOOKS <= path && WellFormed(old(url)) && old(url).path == DATA_NOTEBOOKS + path[|UI_NOTEBOOKS|..] ==>
          EscapedPath(url) == Escape(url.path, PathMode)
    {
      PrefixesApart(path);
      assert [] + path[|UI|..] == path[|UI|..] && [] + TrimPrefix(url.rawPath, UI) == TrimPrefix(url.rawPath, UI);
      if path == url.path {
        if PlainPrefix(url) {
          StripKeepsEscapes(url, []);
        } else if WellFormed(url) {
          EscapedPrefixIsDropped(url, []);
        }
      }
      if UI_NOTEBOOKS <= path && WellFormed(url) && url.path == DATA_NOTEBOOKS + path[|UI_NOTEBOOKS|..] {
        NotebooksLoseEscapes(url.rawPath, path[|UI_NOTEBOOKS|..]);
      }
      ok := SetUrl(TrimPrefix(path, UI), TrimPrefix(url.rawPath, UI));
    }

    /**
     * The middleware. It never fails. The decoded path loses `/ui-server`, or has it replaced, except
     * where the UI server is kept; and what was percent-escaped in the rest stays escaped, but a notebooks
     * path, or one whose prefix was itself sent escaped, is escaped anew.
     */
    method UiServerPathRewrite() returns (ok: bool)
      modifies this
      ensures ok && url.query == old(url).query
      ensures Replacement(old(url).path).None? ==> url == old(url) && requestURI == old(requestURI)
      ensures Replacement(old(url).path).Some? ==>
        && url.path == Replacement(old(url).path).value + old(url).path[|UI|..]
        && requestURI == Print(url)
        && if UI_NOTEBOOKS <= old(url).path then EscapedPath(url) == Escape(url.path, PathMode)
           else RewrittenTo(old(url), Replacement(old(url).path).value, url, requestURI)
    {
      var path := url.path;
      ok := true;
      if Kept(path) {
        return;
      }
      PrefixesApart(path);
      if UI_AUTH <= path {
        ok := RewriteAuth(path);
      }
      if UI_NOTEBOOKS <= path {
        ok := RewriteNotebooks(path);
      }
      if UI_API <= path {
        ok := RewriteApi(path);
      }
    }
  }
}
