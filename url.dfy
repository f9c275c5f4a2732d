/** URL handling of the hub: the IRI-to-URI mapping applied to every callback
    and topic URL (section 3.1 of RFC 3987), the percent-encoding of query
    parameters, and the validity check on callback and topic URLs. */
module Url {
  import opened Common
  import Config

  newtype byte = x: int | 0 <= x < 256

  predicate IsAscii(s: string)
  {
    forall i :: 0 <= i < |s| ==> s[i] as int <= 0x7f
  }

  // ---------------------------------------------------------------------------
  // UTF-8

  /** The UTF-8 encoding of one Unicode scalar value. */
  function Utf8Encode(c: char): (r: seq<byte>)
    ensures 1 <= |r| <= 4
    ensures |r| == 1 <==> c as int <= 0x7f
    ensures |r| == 1 ==> r[0] as int == c as int
    ensures |r| > 1 ==> forall i :: 0 <= i < |r| ==> r[i] >= 0x80
  {
    var n := c as int;
    if n < 0x80 then [n as byte]
    else if n < 0x800 then [(0xC0 + n / 64) as byte, (0x80 + n % 64) as byte]
    else if n < 0x10000 then
      [(0xE0 + n / 64 / 64) as byte, (0x80 + n / 64 % 64) as byte, (0x80 + n % 64) as byte]
    else
      [(0xF0 + n / 64 / 64 / 64) as byte, (0x80 + n / 64 / 64 % 64) as byte,
       (0x80 + n / 64 % 64) as byte, (0x80 + n % 64) as byte]
  }

  /** The UTF-8 encoding of a string (Python's s.encode('utf-8')). */
  function Utf8(s: string): seq<byte>
  {
    if s == [] then [] else Utf8Encode(s[0]) + Utf8(s[1..])
  }

  predicate IsContinuation(b: byte)
  {
    0x80 <= b < 0xC0
  }

  /** The length of the sequence a lead byte announces; 0 for a byte that
      cannot start a sequence. */
  function Utf8Length(lead: byte): nat
  {
    if lead < 0x80 then 1
    else if 0xC0 <= lead < 0xE0 then 2
    else if 0xE0 <= lead < 0xF0 then 3
    else if 0xF0 <= lead < 0xF8 then 4
    else 0
  }

  /** Decodes one complete, shortest-form UTF-8 sequence. */
  function Utf8DecodeChar(b: seq<byte>): Option<char>
  {
    if |b| == 1 && b[0] < 0x80 then Some(b[0] as int as char)
    else if |b| == 2 && 0xC0 <= b[0] < 0xE0 && IsContinuation(b[1]) then
      var n := (b[0] as int - 0xC0) * 64 + (b[1] as int - 0x80);
      if n >= 0x80 then Some(n as char) else None
    else if |b| == 3 && 0xE0 <= b[0] < 0xF0 && IsContinuation(b[1]) && IsContinuation(b[2]) then
      var n := ((b[0] as int - 0xE0) * 64 + (b[1] as int - 0x80)) * 64 + (b[2] as int - 0x80);
      if n >= 0x800 && !(0xD800 <= n < 0xE000) then Some(n as char) else None
    else if |b| == 4 && 0xF0 <= b[0] < 0xF8 && IsContinuation(b[1]) && IsContinuation(b[2])
            && IsContinuation(b[3]) then
      var n := (((b[0] as int - 0xF0) * 64 + (b[1] as int - 0x80)) * 64 + (b[2] as int - 0x80)) * 64
               + (b[3] as int - 0x80);
      if 0x10000 <= n < 0x110000 then Some(n as char) else None
    else None
  }

  /** Decodes a UTF-8 byte string; None when it is malformed. */
  function Utf8Decode(b: seq<byte>): Option<string>
    decreases |b|
  {
    if b == [] then Some([])
    else
      var n := Utf8Length(b[0]);
      if n == 0 || n > |b| then None
      else match Utf8DecodeChar(b[..n])
        case None => None
        case Some(c) =>
          match Utf8Decode(b[n..])
          case None => None
          case Some(rest) => Some([c] + rest)
  }

  lemma DivMod64(x: int, y: int)
    requires 0 <= y < 64
    ensures (x * 64 + y) / 64 == x && (x * 64 + y) % 64 == y
  {
  }

  lemma Utf8EncodeDecodes(c: char)
    ensures Utf8DecodeChar(Utf8Encode(c)) == Some(c)
  {
    var n := c as int;
    DivMod64(n / 64, n % 64);
    DivMod64(n / 64 / 64, n / 64 % 64);
    DivMod64(n / 64 / 64 / 64, n / 64 / 64 % 64);
  }

  lemma Utf8DecodeIsEncode(b: seq<byte>, c: char)
    requires Utf8DecodeChar(b) == Some(c)
    ensures b == Utf8Encode(c)
  {
    if |b| == 2 {
      Decode2IsEncode(b, c);
    } else if |b| == 3 {
      Decode3IsEncode(b, c);
    } else if |b| == 4 {
      Decode4IsEncode(b, c);
    }
  }

  lemma Decode2IsEncode(b: seq<byte>, c: char)
    requires |b| == 2 && Utf8DecodeChar(b) == Some(c)
    ensures b == Utf8Encode(c)
  {
    var n := (b[0] as int - 0xC0) * 64 + (b[1] as int - 0x80);
    assert c as int == n && 0x80 <= n < 0x800;
    DivMod64(b[0] as int - 0xC0, b[1] as int - 0x80);
    assert Utf8Encode(c) == [(0xC0 + n / 64) as byte, (0x80 + n % 64) as byte];
  }

  lemma Decode3IsEncode(b: seq<byte>, c: char)
    requires |b| == 3 && Utf8DecodeChar(b) == Some(c)
    ensures b == Utf8Encode(c)
  {
    var x := (b[0] as int - 0xE0) * 64 + (b[1] as int - 0x80);
    var n := x * 64 + (b[2] as int - 0x80);
    assert c as int == n && 0x800 <= n < 0x10000;
    DivMod64(x, b[2] as int - 0x80);
    DivMod64(b[0] as int - 0xE0, b[1] as int - 0x80);
    assert Utf8Encode(c) == [(0xE0 + n / 64 / 64) as byte, (0x80 + n / 64 % 64) as byte, (0x80 + n % 64) as byte];
  }

  lemma Decode4IsEncode(b: seq<byte>, c: char)
    requires |b| == 4 && Utf8DecodeChar(b) == Some(c)
    ensures b == Utf8Encode(c)
  {
    var x := (b[0] as int - 0xF0) * 64 + (b[1] as int - 0x80);
    var y := x * 64 + (b[2] as int - 0x80);
    var n := y * 64 + (b[3] as int - 0x80);
    assert c as int == n && 0x10000 <= n < 0x110000;
    DivMod64(y, b[3] as int - 0x80);
    DivMod64(x, b[2] as int - 0x80);
    DivMod64(b[0] as int - 0xF0, b[1] as int - 0x80);
    assert Utf8Encode(c) == [(0xF0 + n / 64 / 64 / 64) as byte, (0x80 + n / 64 / 64 % 64) as byte,
                             (0x80 + n / 64 % 64) as byte, (0x80 + n % 64) as byte];
  }

  /** Decoding accepts exactly the encodings: a sequence decodes to c if and
      only if it is the encoding of c. */
  lemma Utf8CharRoundTrip(c: char, b: seq<byte>)
    ensures Utf8DecodeChar(Utf8Encode(c)) == Some(c)
    ensures Utf8DecodeChar(b) == Some(c) ==> b == Utf8Encode(c)
  {
    Utf8EncodeDecodes(c);
    if Utf8DecodeChar(b) == Some(c) { Utf8DecodeIsEncode(b, c); }
  }

  lemma {:induction false} Utf8StringRoundTrip(s: string)
    ensures Utf8Decode(Utf8(s)) == Some(s)
  {
    if s != [] {
      var e := Utf8Encode(s[0]);
      var b := Utf8(s);
      assert b == e + Utf8(s[1..]);
      assert b[0] == e[0];
      assert Utf8Length(e[0]) == |e| by { Utf8CharRoundTrip(s[0], e); }
      assert b[..|e|] == e && b[|e|..] == Utf8(s[1..]);
      Utf8CharRoundTrip(s[0], e);
      Utf8StringRoundTrip(s[1..]);
      assert s == [s[0]] + s[1..];
    }
  }

  // ---------------------------------------------------------------------------
  // Percent-encoding as Python 2's urllib.quote and urllib.quote_plus do it

  function HexDigit(d: nat): char
    requires d < 16
  {
    if d < 10 then DigitChar(d) else ('A' as int + d - 10) as char
  }

  /** The value of a hexadecimal digit of either case. */
  function HexValue(c: char): Option<nat>
  {
    if '0' <= c <= '9' then Some(c as int - '0' as int)
    else if 'A' <= c <= 'F' then Some(c as int - 'A' as int + 10)
    else if 'a' <= c <= 'f' then Some(c as int - 'a' as int + 10)
    else None
  }

  lemma HexRoundTrip(d: nat)
    requires d < 16
    ensures HexValue(HexDigit(d)) == Some(d)
  {
  }

  /** The '%XX' escape of a byte, upper-case hexadecimal. */
  function Escape(b: byte): (r: string)
    ensures |r| == 3 && IsAscii(r)
  {
    ['%', HexDigit(b as int / 16), HexDigit(b as int % 16)]
  }

  /** Letters, digits and '_.-': the characters urllib.quote never escapes. */
  predicate AlwaysSafe(b: byte)
  {
    ('A' as byte <= b <= 'Z' as byte) || ('a' as byte <= b <= 'z' as byte)
    || ('0' as byte <= b <= '9' as byte) || b == '_' as byte || b == '.' as byte || b == '-' as byte
  }

  /** urllib.quote(s, safe): bytes that are always safe or listed in `safe`
      stay as they are, every other byte becomes its escape. */
  function Quote(b: seq<byte>, safe: string): (r: string)
    ensures IsAscii(r)
  {
    if b == [] then []
    else
      var head := if AlwaysSafe(b[0]) || (b[0] < 0x80 && (b[0] as int as char) in safe)
                  then [b[0] as int as char] else Escape(b[0]);
      head + Quote(b[1..], safe)
  }

  /** urllib.quote_plus(s): as quote with nothing extra safe, except that a
      space becomes '+'. */
  function QuotePlus(b: seq<byte>): (r: string)
    ensures IsAscii(r)
  {
    if b == [] then []
    else (if b[0] == ' ' as byte then "+" else Quote([b[0]], "")) + QuotePlus(b[1..])
  }

  /** urllib.urlencode on a list of (name, value) pairs whose values have been
      encoded as UTF-8: name=value pairs joined by '&'. */
  function UrlEncode(params: seq<(string, string)>): string
  {
    Join("&", seq(|params|, i requires 0 <= i < |params| =>
      QuotePlus(Utf8(params[i].0)) + "=" + QuotePlus(Utf8(params[i].1))))
  }

  /** The escape of every byte. */
  function EscapeAll(b: seq<byte>): (r: string)
    ensures IsAscii(r) && |r| == 3 * |b|
  {
    if b == [] then [] else Escape(b[0]) + EscapeAll(b[1..])
  }

  lemma {:induction false} QuoteEscapesHighBytes(b: seq<byte>, safe: string)
    requires IsAscii(safe)
    requires forall i :: 0 <= i < |b| ==> b[i] >= 0x80
    ensures Quote(b, safe) == EscapeAll(b)
  {
    if b != [] { QuoteEscapesHighBytes(b[1..], safe); }
  }

  // ---------------------------------------------------------------------------
  // normalize_iri

  /** One character of the mapping: ASCII characters stay, any other
      character becomes the escapes of its UTF-8 bytes. */
  function CharOrEscape(c: char): (r: string)
    ensures IsAscii(r)
  {
    if c as int > 0x7f then Quote(Utf8Encode(c), "/") else [c]
  }

  /** normalize_iri: the IRI-to-URI mapping, character by character. */
  function NormalizeIri(url: string): (r: string)
    ensures IsAscii(r)
    ensures |r| >= |url|
  {
    if url == [] then [] else CharOrEscape(url[0]) + NormalizeIri(url[1..])
  }

  /** Both halves of the character rule: an ASCII character maps to itself,
      any other character to the escapes of its UTF-8 bytes, three ASCII
      characters per byte. */
  lemma CharOrEscapeIs(c: char)
    ensures c as int <= 0x7f ==> CharOrEscape(c) == [c]
    ensures c as int > 0x7f ==> CharOrEscape(c) == EscapeAll(Utf8Encode(c))
    ensures c as int > 0x7f ==> 6 <= |CharOrEscape(c)| <= 12 && CharOrEscape(c)[0] == '%'
  {
    if c as int > 0x7f { QuoteEscapesHighBytes(Utf8Encode(c), "/"); }
  }

  /** The mapping works character by character, so it distributes over
      concatenation. */
  lemma {:induction false} NormalizeIriConcat(a: string, b: string)
    ensures NormalizeIri(a + b) == NormalizeIri(a) + NormalizeIri(b)
  {
    if a != [] {
      assert (a + b)[0] == a[0] && (a + b)[1..] == a[1..] + b;
      NormalizeIriConcat(a[1..], b);
      calc {
        NormalizeIri(a + b);
        CharOrEscape(a[0]) + NormalizeIri(a[1..] + b);
        CharOrEscape(a[0]) + (NormalizeIri(a[1..]) + NormalizeIri(b));
        (CharOrEscape(a[0]) + NormalizeIri(a[1..])) + NormalizeIri(b);
        NormalizeIri(a) + NormalizeIri(b);
      }
    } else {
      assert a + b == b;
    }
  }

  /** A URL is left unchanged exactly when it is already ASCII. */
  lemma {:induction false} NormalizeIriFixpoint(s: string)
    ensures NormalizeIri(s) == s <==> IsAscii(s)
  {
    if IsAscii(s) && s != [] {
      NormalizeIriFixpoint(s[1..]);
      assert s == [s[0]] + s[1..];
    }
  }

  /** Normalizing twice is normalizing once. */
  lemma NormalizeIriIdempotent(s: string)
    ensures NormalizeIri(NormalizeIri(s)) == NormalizeIri(s)
  {
    NormalizeIriFixpoint(NormalizeIri(s));
  }

  /** Turning a URI back into bytes: '%XX' escapes become the byte they name
      and every other ASCII character its own code; None on a malformed
      escape or a non-ASCII character. */
  function PercentDecode(s: string): Option<seq<byte>>
  {
    if s == [] then Some([])
    else if s[0] == '%' then
      if |s| >= 3 && HexValue(s[1]).Some? && HexValue(s[2]).Some? then
        match PercentDecode(s[3..])
        case None => None
        case Some(rest) => Some([(16 * HexValue(s[1]).value + HexValue(s[2]).value) as byte] + rest)
      else None
    else if s[0] as int < 0x80 then
      match PercentDecode(s[1..])
      case None => None
      case Some(rest) => Some([s[0] as int as byte] + rest)
    else None
  }

  lemma {:induction false} PercentDecodeEscapes(b: seq<byte>, rest: string)
    requires PercentDecode(rest).Some?
    ensures PercentDecode(EscapeAll(b) + rest) == Some(b + PercentDecode(rest).value)
  {
    if b != [] {
      var tail := EscapeAll(b[1..]) + rest;
      assert EscapeAll(b) + rest == Escape(b[0]) + tail;
      PercentDecodeEscapes(b[1..], rest);
      DecodeEscapeHead(b[0], tail);
      assert b == [b[0]] + b[1..];
      assert [b[0]] + (b[1..] + PercentDecode(rest).value) == b + PercentDecode(rest).value;
    } else {
      assert EscapeAll(b) + rest == rest;
      assert b + PercentDecode(rest).value == PercentDecode(rest).value;
    }
  }

  /** One escape decodes back to its byte. */
  lemma DecodeEscapeHead(x: byte, tail: string)
    requires PercentDecode(tail).Some?
    ensures PercentDecode(Escape(x) + tail) == Some([x] + PercentDecode(tail).value)
  {
    var s := Escape(x) + tail;
    assert s[3..] == tail;
    HexRoundTrip(x as int / 16);
    HexRoundTrip(x as int % 16);
    assert s[0] == '%' && s[1] == HexDigit(x as int / 16) && s[2] == HexDigit(x as int % 16);
    assert 16 * (x as int / 16) + x as int % 16 == x as int;
    assert (16 * HexValue(s[1]).value + HexValue(s[2]).value) as byte == x;
  }

  /** Without '%' in the input the mapping loses nothing: decoding the
      escapes gives the UTF-8 encoding of the original, which decodes back to
      the original string. */
  lemma {:induction false} NormalizeIriReversible(s: string)
    requires '%' !in s
    ensures PercentDecode(NormalizeIri(s)) == Some(Utf8(s))
    ensures Utf8Decode(PercentDecode(NormalizeIri(s)).value) == Some(s)
  {
    if s != [] {
      NormalizeIriReversible(s[1..]);
      var tail := NormalizeIri(s[1..]);
      CharOrEscapeIs(s[0]);
      if s[0] as int > 0x7f {
        PercentDecodeEscapes(Utf8Encode(s[0]), tail);
      } else {
        assert ([s[0]] + tail)[1..] == tail;
      }
    }
    Utf8StringRoundTrip(s);
  }

  // ---------------------------------------------------------------------------
  // Splitting a URL as Python 2.7's urlparse.urlsplit does; urlparse adds
  // the split of the path parameters below

  /** The first index of `c` in `s`, or -1. */
  function FindChar(s: string, c: char): (r: int)
    ensures -1 <= r < |s|
    ensures r >= 0 ==> s[r] == c && c !in s[..r]
    ensures r == -1 <==> c !in s
  {
    if s == [] then -1
    else if s[0] == c then 0
    else
      var k := FindChar(s[1..], c);
      assert s == [s[0]] + s[1..];
      if k == -1 then -1
      else
        assert s[..k + 1] == [s[0]] + s[1..][..k];
        k + 1
  }

  /** The first index of a character of `cs` in `s`, or |s| when none occurs. */
  function FirstOfAny(s: string, cs: set<char>): (r: nat)
    ensures r <= |s|
    ensures r < |s| ==> s[r] in cs
    ensures forall j :: 0 <= j < r ==> s[j] !in cs
  {
    if s == [] || s[0] in cs then 0 else 1 + FirstOfAny(s[1..], cs)
  }

  predicate IsSchemeChar(c: char)
  {
    ('a' <= c <= 'z') || ('A' <= c <= 'Z') || ('0' <= c <= '9') || c == '+' || c == '-' || c == '.'
  }

  predicate AllSchemeChars(s: string)
  {
    forall i :: 0 <= i < |s| ==> IsSchemeChar(s[i])
  }

  predicate AllDigits(s: string)
  {
    forall i :: 0 <= i < |s| ==> IsDigit(s[i])
  }

  datatype SplitUrl = SplitUrl(scheme: string, netloc: string, path: string, query: string, fragment: string)

  /** The scheme part of urlsplit: everything before the first ':' when it is
      'http', or made of scheme characters and not followed by a port-like
      string of digits; lower-cased. */
  function SchemeSplit(url: string): (string, string)
  {
    var i := FindChar(url, ':');
    if i > 0 && (url[..i] == "http"
                 || (AllSchemeChars(url[..i]) && (url[i + 1..] == [] || !AllDigits(url[i + 1..]))))
    then (Lower(url[..i]), url[i + 1..])
    else ("", url)
  }

  /** The network location part of urlsplit: after a leading '//', up to the
      first '/', '?' or '#'; empty when the rest does not start with '//'. */
  function NetlocSplit(rest: string): (string, string)
  {
    if |rest| >= 2 && rest[..2] == "//" then
      var d := 2 + FirstOfAny(rest[2..], {'/', '?', '#'});
      (rest[2..d], rest[d..])
    else ("", rest)
  }

  /** Splits at the first occurrence of c: what comes before it and what
      after; the whole string and "" when c does not occur. */
  function SplitAt(s: string, c: char): (string, string)
  {
    var h := FindChar(s, c);
    if h >= 0 then (s[..h], s[h + 1..]) else (s, "")
  }

  /** urlsplit(url): scheme, network location, path, query (after the first
      '?') and fragment (after the first '#'). */
  function UrlSplit(url: string): SplitUrl
  {
    var (scheme, rest) := SchemeSplit(url);
    var (netloc, afterNetloc) := NetlocSplit(rest);
    var (beforeFragment, fragment) := SplitAt(afterNetloc, '#');
    var (path, query) := SplitAt(beforeFragment, '?');
    SplitUrl(scheme, netloc, path, query, fragment)
  }

  /** The schemes urlunsplit writes a '//' network location for. */
  const USES_NETLOC: set<string> := {
    "ftp", "http", "gopher", "nntp", "telnet", "imap", "wais", "file", "mms", "https", "shttp",
    "snews", "prospero", "rtsp", "rtspu", "rsync", "", "svn", "svn+ssh", "sftp", "nfs", "git",
    "git+ssh"}

  /** urlunsplit: the inverse of urlsplit, as Python 2.7 writes it. */
  function UrlUnsplit(p: SplitUrl): string
  {
    var path := p.path;
    var withNetloc :=
      if p.netloc != "" || (p.scheme != "" && p.scheme in USES_NETLOC && !(|path| >= 2 && path[..2] == "//"))
      then "//" + p.netloc + (if path != [] && path[0] != '/' then "/" + path else path)
      else path;
    var withScheme := if p.scheme != "" then p.scheme + ":" + withNetloc else withNetloc;
    var withQuery := if p.query != "" then withScheme + "?" + p.query else withScheme;
    if p.fragment != "" then withQuery + "#" + p.fragment else withQuery
  }

  /** The port of a network location: what follows its first ':', or "". */
  function PortOf(netloc: string): string
  {
    var i := FindChar(netloc, ':');
    if i >= 0 then netloc[i + 1..] else ""
  }

  // ---------------------------------------------------------------------------
  // urlparse and urlunparse: urlsplit with the parameters of the last path
  // segment split off

  /** The schemes whose paths urlparse splits parameters off. */
  const USES_PARAMS: set<string> := {
    "ftp", "hdl", "prospero", "http", "imap", "https", "shttp", "rtsp", "rtspu", "sip", "sips", "mms", "",
    "sftp", "tel"}

  /** The last index of `c` in `s`, or -1. */
  function LastIndexOf(s: string, c: char): (r: int)
    ensures -1 <= r < |s|
    ensures r >= 0 ==> s[r] == c && c !in s[r + 1..]
    ensures r == -1 <==> c !in s
  {
    if s == [] then -1
    else if s[|s| - 1] == c then |s| - 1
    else
      var init := s[..|s| - 1];
      assert s == init + [s[|s| - 1]];
      var k := LastIndexOf(init, c);
      assert k >= 0 ==> s[k + 1..] == init[k + 1..] + [s[|s| - 1]];
      k
  }

  /** _splitparams: the parameters start at the first ';' after the last
      '/', or at the first ';' of a path without '/'; a path without such a
      ';' has no parameters. */
  function SplitParams(path: string): (r: (string, string))
    ensures ';' !in path ==> r == (path, "")
    ensures r != (path, "") ==> path == r.0 + ";" + r.1
  {
    var slash := LastIndexOf(path, '/');
    var i := if slash >= 0 then (var k := FindChar(path[slash..], ';'); if k >= 0 then slash + k else -1)
             else FindChar(path, ';');
    if i < 0 then (path, "")
    else
      assert path[i] == ';';
      assert path == path[..i] + ";" + path[i + 1..];
      (path[..i], path[i + 1..])
  }

  /** The path urlunparse writes: the parameters after a ';' only when they
      are not empty. */
  function JoinParams(path: string, params: string): string
  {
    if params != "" then path + ";" + params else path
  }

  /** The six parts urlparse returns. */
  datatype ParsedUrl = ParsedUrl(scheme: string, netloc: string, path: string, params: string, query: string,
                                 fragment: string)

  /** urlparse(url): the parts of urlsplit, the path of a scheme that uses
      parameters losing them to a part of their own when it holds a ';'. */
  function UrlParse(url: string): (r: ParsedUrl)
    ensures var s := UrlSplit(url);
      && r.scheme == s.scheme && r.netloc == s.netloc && r.query == s.query && r.fragment == s.fragment
      && (r.path, r.params) == (if s.scheme in USES_PARAMS then SplitParams(s.path) else (s.path, ""))
  {
    var s := UrlSplit(url);
    var (path, params) := if s.scheme in USES_PARAMS && ';' in s.path then SplitParams(s.path) else (s.path, "");
    ParsedUrl(s.scheme, s.netloc, path, params, s.query, s.fragment)
  }

  /** urlunparse: urlunsplit of the parts, the parameters joined back to
      the path. */
  function UrlUnparse(p: ParsedUrl): string
  {
    UrlUnsplit(SplitUrl(p.scheme, p.netloc, JoinParams(p.path, p.params), p.query, p.fragment))
  }

  /** Joining the parameters back gives the path back, except that a ';'
      ending the path with nothing after it is dropped; a path starting
      with '/' still does. */
  lemma ParamsRejoined(path: string)
    ensures var (p, ps) := SplitParams(path);
      && (JoinParams(p, ps) == path || (ps == "" && path == p + ";"))
      && (path == [] || path[|path| - 1] != ';' ==> JoinParams(p, ps) == path)
      && (path != [] && path[0] == '/' ==> JoinParams(p, ps) != [] && JoinParams(p, ps)[0] == '/')
  {
    var (p, ps) := SplitParams(path);
    if (p, ps) != (path, "") && path != [] && path[0] == '/' {
      var slash := LastIndexOf(path, '/');
      assert slash >= 0;
      var k := FindChar(path[slash..], ';');
      assert k > 0;
      assert p == path[..slash + k];
    }
  }

  /** urlparse and urlunparse drop a ';' that ends the last path segment
      with nothing after it: "/segment;" comes back as "/segment". */
  lemma EmptyParamsDropped(segment: string)
    requires NoneOf(segment, {'/', ';'})
    ensures SplitParams("/" + segment + ";") == ("/" + segment, "")
    ensures JoinParams("/" + segment, "") == "/" + segment
  {
    var path := "/" + segment + ";";
    assert forall i :: 1 <= i < |path| ==> path[i] != '/' by {
      forall i | 1 <= i < |path| ensures path[i] != '/' {
        if i <= |segment| { assert path[i] == segment[i - 1]; }
      }
    }
    assert LastIndexOf(path, '/') == 0;
    assert path[0..] == path;
    assert ';' !in "/" + segment by {
      forall i | 0 <= i < |segment| + 1 ensures ("/" + segment)[i] != ';' {
        if i >= 1 { assert ("/" + segment)[i] == segment[i - 1]; }
      }
    }
    FindCharAfter("/" + segment, ";", ';');
    assert path[..|segment| + 1] == "/" + segment && path[|segment| + 2..] == "";
  }

  /** urlsplit raises ValueError ("Invalid IPv6 URL") when the network
      location holds a '[' but no ']', or a ']' but no '['. */
  predicate UrlParseRaises(url: string)
  {
    var n := UrlSplit(url).netloc;
    ('[' in n) != (']' in n)
  }

  /** is_valid_url, for a URL that urlparse does not raise on (see
      UrlParseRaises): scheme http or https, no port or one of the allowed
      ports (any port on the development server), and no fragment. The
      parameters urlparse splits off play no part. */
  function IsValidUrl(url: string, devEnv: bool): (r: bool)
    ensures r ==> (UrlSplit(url).scheme == "http" || UrlSplit(url).scheme == "https") && UrlSplit(url).fragment == ""
    ensures r && !devEnv ==> PortOf(UrlSplit(url).netloc) == "" || PortOf(UrlSplit(url).netloc) in Config.VALID_PORTS
  {
    var split := UrlSplit(url);
    var port := PortOf(split.netloc);
    && (split.scheme == "http" || split.scheme == "https")
    && (port == "" || devEnv || port in Config.VALID_PORTS)
    && split.fragment == ""
  }

  predicate NoneOf(s: string, cs: set<char>)
  {
    forall i :: 0 <= i < |s| ==> s[i] !in cs
  }

  lemma {:induction false} FindCharAfter(a: string, b: string, c: char)
    requires c !in a
    ensures FindChar(a + b, c) == (if c in b then |a| + FindChar(b, c) else -1)
  {
    if a == [] {
      assert a + b == b;
    } else {
      assert (a + b)[0] == a[0] && (a + b)[1..] == a[1..] + b;
      FindCharAfter(a[1..], b, c);
    }
  }

  lemma {:induction false} FirstOfAnyAfter(a: string, b: string, cs: set<char>)
    requires NoneOf(a, cs)
    requires b == [] || b[0] in cs
    ensures FirstOfAny(a + b, cs) == |a|
  {
    if a != [] {
      assert (a + b)[0] == a[0] && (a + b)[1..] == a[1..] + b;
      FirstOfAnyAfter(a[1..], b, cs);
    } else {
      assert a + b == b;
    }
  }

  lemma SchemeSplitHttp(scheme: string, rest: string)
    requires scheme == "http" || scheme == "https"
    requires rest == [] || rest[0] == '/'
    ensures SchemeSplit(scheme + ":" + rest) == (scheme, rest)
  {
    var url := scheme + ":" + rest;
    assert url == scheme + (":" + rest);
    FindCharAfter(scheme, ":" + rest, ':');
    var i := FindChar(url, ':');
    assert i == |scheme|;
    assert url[..i] == scheme && url[i + 1..] == rest;
    if scheme == "https" {
      HttpsIsScheme();
      if rest != [] {
        assert !IsDigit(rest[0]);
        assert !AllDigits(rest);
      }
    }
    SchemeTaken(url, i);
    LowerHttp();
  }

  /** A scheme accepted at the first ':' is split off and lower-cased. */
  lemma SchemeTaken(url: string, i: int)
    requires i == FindChar(url, ':') && i > 0
    requires url[..i] == "http" || (AllSchemeChars(url[..i]) && (url[i + 1..] == [] || !AllDigits(url[i + 1..])))
    ensures SchemeSplit(url) == (Lower(url[..i]), url[i + 1..])
  {
  }

  lemma HttpsIsScheme()
    ensures AllSchemeChars("https")
  {
  }

  lemma LowerHttp()
    ensures Lower("http") == "http" && Lower("https") == "https"
  {
  }

  lemma NetlocSplitOf(netloc: string, path: string)
    requires NoneOf(netloc, {'/', '?', '#'})
    requires path == [] || path[0] in {'/', '?', '#'}
    ensures NetlocSplit("//" + netloc + path) == (netloc, path)
  {
    var rest := "//" + netloc + path;
    assert rest[..2] == "//" && rest[2..] == netloc + path;
    FirstOfAnyAfter(netloc, path, {'/', '?', '#'});
    assert rest[2..2 + |netloc|] == netloc && rest[2 + |netloc|..] == path;
  }

  lemma SplitAtAbsent(s: string, c: char)
    requires c !in s
    ensures SplitAt(s, c) == (s, "")
  {
  }

  lemma ValidPortsAreDigits(port: string)
    requires port in Config.VALID_PORTS
    ensures NoneOf(port, {':', '/', '?', '#', '[', ']'})
  {
  }

  lemma PortOfHostPort(host: string, port: string)
    requires ':' !in host
    requires ':' !in port
    ensures PortOf(host + (if port == "" then "" else ":" + port)) == port
  {
    if port != "" {
      FindCharAfter(host, ":" + port, ':');
      assert (host + (":" + port))[|host| + 1..] == port;
    } else {
      assert host + "" == host;
    }
  }

  /** The URLs is_valid_url is meant to accept are accepted: an http or https
      URL with a host whose brackets are balanced, an allowed port or none,
      and a path without fragment; urlparse does not raise on it. */
  lemma ValidHttpUrl(scheme: string, host: string, port: string, path: string, devEnv: bool)
    requires scheme == "http" || scheme == "https"
    requires NoneOf(host, {':', '/', '?', '#'})
    requires ('[' in host) == (']' in host)
    requires port == "" || port in Config.VALID_PORTS
    requires path == [] || path[0] == '/'
    requires '#' !in path
    ensures var url := scheme + "://" + host + (if port == "" then "" else ":" + port) + path;
      IsValidUrl(url, devEnv) && !UrlParseRaises(url)
  {
    var portPart := if port == "" then "" else ":" + port;
    var netloc := host + portPart;
    var rest := "//" + netloc + path;
    var url := scheme + "://" + host + portPart + path;
    assert url == scheme + ":" + rest;
    SchemeSplitHttp(scheme, rest);
    if port != "" {
      ValidPortsAreDigits(port);
      assert NoneOf(netloc, {'/', '?', '#'}) by {
        forall i | 0 <= i < |netloc| ensures netloc[i] !in {'/', '?', '#'} {
          if i >= |host| + 1 { assert netloc[i] == port[i - |host| - 1]; }
        }
      }
    }
    NetlocSplitOf(netloc, path);
    SplitAtAbsent(path, '#');
    assert ':' !in port by { if port != "" { ValidPortsAreDigits(port); } }
    PortOfHostPort(host, port);
    assert UrlSplit(url).fragment == "";
    assert UrlSplit(url).netloc == netloc;
    BracketsOfHostPort(host, port);
  }

  /** An allowed port adds no bracket to the network location. */
  lemma BracketsOfHostPort(host: string, port: string)
    requires port == "" || port in Config.VALID_PORTS
    ensures var netloc := host + (if port == "" then "" else ":" + port);
      ('[' in netloc) == ('[' in host) && (']' in netloc) == (']' in host)
  {
    if port != "" {
      ValidPortsAreDigits(port);
      assert '[' !in ":" + port && ']' !in ":" + port;
    } else {
      assert host + "" == host;
    }
  }

  /** The path and query of an http or https URL. */
  function PathAndQuery(path: string, query: string): string
  {
    path + (if query == "" then "" else "?" + query)
  }

  lemma SplitAtQuery(path: string, query: string)
    requires '?' !in path
    ensures SplitAt(PathAndQuery(path, query), '?') == (path, query)
  {
    var tail := PathAndQuery(path, query);
    if query == "" {
      assert tail == path;
      SplitAtAbsent(path, '?');
    } else {
      FindCharAfter(path, "?" + query, '?');
      assert tail[..|path|] == path && tail[|path| + 1..] == query;
    }
  }

  /** An http or https URL with a query, split into its parts. */
  lemma SplitHttpUrl(scheme: string, netloc: string, path: string, query: string)
    requires scheme == "http" || scheme == "https"
    requires NoneOf(netloc, {'/', '?', '#'})
    requires path == [] || path[0] == '/'
    requires '?' !in path && '#' !in path && '#' !in query
    ensures UrlSplit(scheme + "://" + netloc + PathAndQuery(path, query))
            == SplitUrl(scheme, netloc, path, query, "")
  {
    var tail := PathAndQuery(path, query);
    var rest := "//" + netloc + tail;
    var url := scheme + "://" + netloc + tail;
    assert url == scheme + ":" + rest;
    SchemeSplitHttp(scheme, rest);
    assert SchemeSplit(url) == (scheme, rest);
    assert tail == [] || tail[0] in {'/', '?', '#'};
    NetlocSplitOf(netloc, tail);
    assert '#' !in tail;
    SplitAtAbsent(tail, '#');
    SplitAtQuery(path, query);
  }

  /** Reassembling those parts gives the URL back. */
  lemma UnsplitHttpUrl(scheme: string, netloc: string, path: string, query: string)
    requires scheme == "http" || scheme == "https"
    requires netloc != ""
    requires path == [] || path[0] == '/'
    ensures UrlUnsplit(SplitUrl(scheme, netloc, path, query, ""))
            == scheme + "://" + netloc + PathAndQuery(path, query)
  {
    var p := SplitUrl(scheme, netloc, path, query, "");
    var withNetloc := "//" + netloc + path;
    assert UrlUnsplit(p) == if query != "" then scheme + ":" + withNetloc + "?" + query else scheme + ":" + withNetloc;
    Regroup(scheme, netloc, path, query);
  }

  lemma Regroup(scheme: string, netloc: string, path: string, query: string)
    ensures scheme + ":" + ("//" + netloc + path) + "?" + query == scheme + "://" + netloc + (path + "?" + query)
    ensures scheme + ":" + ("//" + netloc + path) == scheme + "://" + netloc + (path + "")
  {
    assert ":" + "//" == "://";
    assert path + "" == path;
  }

  /** The fragment of u + "#" + f, read from any suffix that still holds the
      first '#'. */
  lemma FragmentOfSuffix(u: string, f: string, k: nat)
    requires '#' !in u && k <= |u|
    ensures SplitAt((u + "#" + f)[k..], '#').1 == f
  {
    var t := (u + "#" + f)[k..];
    assert t == u[k..] + ("#" + f);
    FindCharAfter(u[k..], "#" + f, '#');
    assert t[|u| - k + 1..] == f;
  }

  /** The scheme split leaves a suffix of the URL that still holds its first
      '#': it cuts at most up to the first ':', which comes before the '#'
      whenever a scheme is taken. */
  lemma SchemeRestKeepsFragment(u: string, f: string) returns (k: nat)
    requires '#' !in u
    ensures k <= |u| && SchemeSplit(u + "#" + f).1 == (u + "#" + f)[k..]
  {
    var url := u + "#" + f;
    assert url[|u|] == '#';
    var i := FindChar(url, ':');
    if i > 0 && (url[..i] == "http"
                 || (AllSchemeChars(url[..i]) && (url[i + 1..] == [] || !AllDigits(url[i + 1..])))) {
      k := i + 1;
    } else {
      k := 0;
    }
  }

  /** The network-location split also leaves a suffix that holds the '#'. */
  lemma NetlocRestKeepsFragment(u: string, f: string, k1: nat) returns (k: nat)
    requires '#' !in u && k1 <= |u|
    ensures k1 <= k <= |u| && NetlocSplit((u + "#" + f)[k1..]).1 == (u + "#" + f)[k..]
  {
    var url := u + "#" + f;
    var rest := url[k1..];
    assert rest[|u| - k1] == '#';
    if |rest| >= 2 && rest[..2] == "//" {
      assert |u| - k1 >= 2 by { assert rest[0] == '/' && rest[1] == '/'; }
      var d := FirstOfAny(rest[2..], {'/', '?', '#'});
      assert rest[2..][|u| - k1 - 2] == '#';
      assert d <= |u| - k1 - 2;
      assert rest[2 + d..] == url[k1 + 2 + d..];
      k := k1 + 2 + d;
    } else {
      k := k1;
    }
  }

  /** A non-empty fragment makes any URL invalid, however the rest parses. */
  lemma FragmentRejected(u: string, f: string, devEnv: bool)
    requires '#' !in u
    requires f != []
    ensures !IsValidUrl(u + "#" + f, devEnv)
  {
    var k1 := SchemeRestKeepsFragment(u, f);
    var k2 := NetlocRestKeepsFragment(u, f, k1);
    FragmentOfSuffix(u, f, k2);
  }
}
