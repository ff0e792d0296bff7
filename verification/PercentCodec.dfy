/** Percent-encoding of byte strings, for URL paths and for query components (RFC 3986, sections 2.1 and 2.3). */
module PercentCodec {
  import opened Prelude

  /** Strings here are strings of bytes: every character is below 256. */
  type Byte = c: char | c as int < 256 witness 'a'

  type Bytes = seq<Byte>

  datatype Mode = PathMode | QueryMode

  predicate Unreserved(c: Byte) {
    'a' <= c <= 'z' || 'A' <= c <= 'Z' || '0' <= c <= '9' || c in {'-', '_', '.', '~'}
  }

  predicate ShouldEscape(c: Byte, mode: Mode) {
    if Unreserved(c) then false
    else if c in {'$', '&', '+', ',', '/', ':', ';', '=', '?', '@'} then mode.QueryMode? || c == '?'
    else true
  }

  predicate IsHex(c: Byte) {
    '0' <= c <= '9' || 'a' <= c <= 'f' || 'A' <= c <= 'F'
  }

  function Unhex(c: Byte): (n: int)
    requires IsHex(c)
    ensures 0 <= n < 16
  {
    if '0' <= c <= '9' then c as int - '0' as int
    else if 'a' <= c <= 'f' then c as int - 'a' as int + 10
    else c as int - 'A' as int + 10
  }

  function HexDigit(n: int): (c: Byte)
    requires 0 <= n < 16
    ensures IsHex(c) && Unhex(c) == n
  {
    if n < 10 then '0' + n as char else 'A' + (n - 10) as char
  }

  function EscapeByte(c: Byte, mode: Mode): Bytes {
    if !ShouldEscape(c, mode) then [c]
    else if c == ' ' && mode.QueryMode? then ['+']
    else ['%', HexDigit(c as int / 16), HexDigit(c as int % 16)]
  }

  /** `url.QueryEscape`, and `url.PathEscape` as used for whole paths. */
  function Escape(s: Bytes, mode: Mode): Bytes {
    if s == [] then [] else EscapeByte(s[0], mode) + Escape(s[1..], mode)
  }

  /** Decoding; None for a '%' that two hexadecimal digits do not follow. */
  function Unescape(s: Bytes, mode: Mode): Option<Bytes> {
    if s == [] then Some([])
    else if s[0] == '%' then
      if |s| < 3 || !IsHex(s[1]) || !IsHex(s[2]) then None
      else
        match Unescape(s[3..], mode)
        case None => None
        case Some(rest) => Some([(Unhex(s[1]) * 16 + Unhex(s[2])) as char] + rest)
    else
      match Unescape(s[1..], mode)
      case None => None
      case Some(rest) => Some([if s[0] == '+' && mode.QueryMode? then ' ' else s[0]] + rest)
  }

  lemma EscapedByteDecodes(c: Byte, rest: Bytes, mode: Mode)
    ensures Unescape(EscapeByte(c, mode) + rest, mode) ==
            match Unescape(rest, mode) case None => None case Some(s) => Some([c] + s)
  {
    var head := EscapeByte(c, mode);
    var n := c as int;
    assert n == n / 16 * 16 + n % 16;
    assert (head + rest)[|head|..] == rest;
  }

  /** Decoding undoes encoding, for every byte string. */
  lemma {:induction false} EscapeRoundTrip(s: Bytes, mode: Mode)
    ensures Unescape(Escape(s, mode), mode) == Some(s)
  {
    if s != [] {
      EscapeRoundTrip(s[1..], mode);
      EscapedByteDecodes(s[0], Escape(s[1..], mode), mode);
      assert s == [s[0]] + s[1..];
    }
  }

  /** Escaping is injective. */
  lemma EscapeInjective(s: Bytes, t: Bytes, mode: Mode)
    requires Escape(s, mode) == Escape(t, mode)
    ensures s == t
  {
    EscapeRoundTrip(s, mode);
    EscapeRoundTrip(t, mode);
  }

  // ---- Escaped paths --------------------------------------------------------------------

  predicate ValidByte(c: Byte) {
    || c in {'!', '$', '&', '\'', '(', ')', '*', '+', ',', ';', '=', ':', '@', '[', ']', '%'}
    || !ShouldEscape(c, PathMode)
  }

  /** `net/url`'s test that a raw path could be an encoding at all. */
  predicate ValidEncoded(s: Bytes) {
    forall c :: c in s ==> ValidByte(c)
  }

  lemma {:induction false} EscapedIsValid(s: Bytes)
    ensures ValidEncoded(Escape(s, PathMode))
  {
    if s != [] {
      EscapedIsValid(s[1..]);
    }
  }

  /** Characters a path may carry as they are. */
  predicate Literal(s: Bytes) {
    forall c :: c in s ==> !ShouldEscape(c, PathMode)
  }

  lemma {:induction false} EscapeLiteralPrefix(p: Bytes, s: Bytes)
    requires Literal(p)
    ensures Escape(p + s, PathMode) == p + Escape(s, PathMode)
  {
    if p == [] {
      assert p + s == s;
    } else {
      assert (p + s)[0] == p[0] && (p + s)[1..] == p[1..] + s;
      EscapeLiteralPrefix(p[1..], s);
      assert p[0] in p && EscapeByte(p[0], PathMode) == [p[0]];
      var e := Escape(s, PathMode);
      assert [p[0]] + (p[1..] + e) == p + e;
    }
  }

  lemma {:induction false} UnescapeLiteralPrefix(p: Bytes, s: Bytes)
    requires Literal(p)
    ensures Unescape(p + s, PathMode) == match Unescape(s, PathMode) case None => None case Some(t) => Some(p + t)
  {
    if p == [] {
      assert p + s == s;
      assert Unescape(s, PathMode).Some? ==> p + Unescape(s, PathMode).value == Unescape(s, PathMode).value;
    } else {
      assert (p + s)[0] == p[0] && (p + s)[1..] == p[1..] + s;
      UnescapeLiteralPrefix(p[1..], s);
      assert p[0] in p && p[0] != '%';
      if Unescape(s, PathMode).Some? {
        var t := Unescape(s, PathMode).value;
        assert Unescape((p + s)[1..], PathMode) == Some(p[1..] + t);
        assert [p[0]] + (p[1..] + t) == p + t;
      }
    }
  }

  // ---- The alphabet ---------------------------------------------------------------------

  const UPPER_HEX: string := "0123456789ABCDEF"

  /** The bytes that stand for themselves in an escaped text. */
  predicate StandsForItself(c: Byte, mode: Mode) {
    || 'A' <= c <= 'Z' || 'a' <= c <= 'z' || '0' <= c <= '9' || c == '-' || c == '_' || c == '.' || c == '~'
    || (mode.PathMode? &&
        (c == '$' || c == '&' || c == '+' || c == ',' || c == '/' || c == ':' || c == ';' || c == '=' || c == '@'))
  }

  lemma HexDigitsSpelled(n: int)
    requires 0 <= n < 16
    ensures HexDigit(n) == UPPER_HEX[n]
  {
  }

  /** Any other byte becomes two upper-case hexadecimal digits behind '%', or '+' for a space in a query. */
  lemma ByteEscaped(c: Byte, mode: Mode)
    ensures
      EscapeByte(c, mode) ==
      if StandsForItself(c, mode) then [c]
      else if mode.QueryMode? && c == ' ' then ['+']
      else ['%', UPPER_HEX[c as int / 16], UPPER_HEX[c as int % 16]]
  {
    HexDigitsSpelled(c as int / 16);
    HexDigitsSpelled(c as int % 16);
  }

  /** So an escaped text holds nothing but such bytes, '%', and '+'. */
  lemma {:induction false} EscapedAlphabet(s: Bytes, mode: Mode)
    ensures forall c :: c in Escape(s, mode) ==> StandsForItself(c, mode) || c == '%' || c == '+'
  {
    if s != [] {
      EscapedAlphabet(s[1..], mode);
      ByteEscaped(s[0], mode);
      assert forall k :: 0 <= k < 16 ==> '0' <= UPPER_HEX[k] <= '9' || 'A' <= UPPER_HEX[k] <= 'F';
    }
  }

  /** A raw path may hold a few more bytes than escaping leaves as they are. */
  lemma RawAlphabet(c: Byte)
    ensures ValidByte(c) <==>
      StandsForItself(c, PathMode) || c == '%'
      || c == '!' || c == '\'' || c == '(' || c == ')' || c == '*' || c == '[' || c == ']'
  {
  }
}
