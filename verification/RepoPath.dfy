/** safeRepoPath of internal/github/engine.go: the last check on a file path before it becomes
    part of a request URL, and the percent-encoding of its segments (section 2.1 of RFC 3986). */
module RepoPath {
  import opened Text

  /** A string is a sequence of bytes, as in Go. */
  predicate Bytes(s: string) { forall i :: 0 <= i < |s| ==> s[i] as int < 256 }

  predicate Ordinary(segment: string) { segment != "" && segment != "." && segment != ".." }

  /** No empty, "." or ".." segment; in particular not empty and not absolute. */
  predicate Clean(path: string) {
    forall i :: 0 <= i < |Split(path, '/')| ==> Ordinary(Split(path, '/')[i])
  }

  /** Some segment is empty, "." or "..". */
  predicate SpecialSegment(path: string) {
    "" in Split(path, '/') || "." in Split(path, '/') || ".." in Split(path, '/')
  }

  lemma CleanMeansNoSpecialSegment(path: string)
    ensures Clean(path) <==> !SpecialSegment(path)
  {
    var segments := Split(path, '/');
    assert forall i :: 0 <= i < |segments| ==> segments[i] in segments;
  }

  lemma CleanIsRelative(path: string)
    requires Clean(path)
    ensures path != "" && !HasPrefix(path, "/")
  {
    assert Ordinary(Split(path, '/')[0]);
    if path != "" && path[0] == '/' {
      assert false;
    }
  }

  // ---- url.PathEscape ------------------------------------------------------------------

  /** Bytes that url.PathEscape copies. */
  predicate Unescaped(c: char) {
    'a' <= c <= 'z' || 'A' <= c <= 'Z' || '0' <= c <= '9' ||
    c in {'-', '_', '.', '~', '$', '&', '+', '=', ':', '@'}
  }

  function HexDigit(n: nat): (c: char)
    requires n < 16
    ensures Unescaped(c) && HexValue(c) == n
  {
    if n < 10 then '0' + n as char else 'A' + (n - 10) as char
  }

  function HexValue(c: char): nat {
    if '0' <= c <= '9' then (c - '0') as int else if 'A' <= c <= 'F' then (c - 'A') as int + 10 else 0
  }

  /** A char above 255 is no byte and does not occur; it is left alone. */
  function EscapeByte(c: char): string {
    if Unescaped(c) || c as int >= 256 then [c] else ['%', HexDigit(c as int / 16), HexDigit(c as int % 16)]
  }

  function PathEscape(s: string): string {
    if s == [] then [] else EscapeByte(s[0]) + PathEscape(s[1..])
  }

  function Decoded(high: char, low: char): char { (HexValue(high) % 16 * 16 + HexValue(low) % 16) as char }

  /** The server's side: percent-decoding. */
  function Unescape(s: string): string {
    if s == [] then []
    else if s[0] == '%' && |s| >= 3 then
      [Decoded(s[1], s[2])] + Unescape(s[3..])
    else [s[0]] + Unescape(s[1..])
  }

  lemma HexRoundTrips(c: char)
    requires c as int < 256
    ensures Decoded(HexDigit(c as int / 16), HexDigit(c as int % 16)) == c
  {
  }

  lemma UnescapeByte(c: char, rest: string)
    requires c as int < 256
    ensures Unescape(EscapeByte(c) + rest) == [c] + Unescape(rest)
  {
    var whole := EscapeByte(c) + rest;
    if Unescaped(c) {
      assert whole[1..] == rest;
    } else {
      HexRoundTrips(c);
      assert whole[3..] == rest && whole[1] == HexDigit(c as int / 16) && whole[2] == HexDigit(c as int % 16);
    }
  }

  lemma {:induction false} UnescapeEscaped(s: string, rest: string)
    requires Bytes(s)
    ensures Unescape(PathEscape(s) + rest) == s + Unescape(rest)
  {
    if s == [] {
      assert PathEscape(s) + rest == rest;
    } else {
      var head, tail := s[0], s[1..];
      UnescapeEscaped(tail, rest);
      UnescapeByte(head, PathEscape(tail) + rest);
      Rebracket(EscapeByte(head), PathEscape(tail), rest);
      Rebracket([head], tail, Unescape(rest));
      assert s == [head] + tail;
    }
  }

  lemma Rebracket(a: string, b: string, c: string)
    ensures (a + b) + c == a + (b + c)
  {
  }

  lemma {:induction false} EscapedHasNoSlash(s: string)
    ensures '/' !in PathEscape(s)
    ensures PathEscape(s) == "" <==> s == ""
  {
    if s != [] {
      EscapedHasNoSlash(s[1..]);
      assert '/' !in EscapeByte(s[0]);
    }
  }

  /** The bytes a segment of a URL may contain as they are, in the source's library. */
  predicate PlainByte(c: char) {
    'a' <= c <= 'z' || 'A' <= c <= 'Z' || '0' <= c <= '9' ||
    c == '-' || c == '_' || c == '.' || c == '~' || c == '$' || c == '&' || c == '+' || c == '=' || c == ':' || c == '@'
  }

  /** An escaped segment has plain bytes and percent signs only; plain ones are taken over as they
      are, and any other byte becomes three. */
  lemma {:induction false} EscapedBytes(s: string)
    requires Bytes(s)
    ensures forall i :: 0 <= i < |PathEscape(s)| ==> PlainByte(PathEscape(s)[i]) || PathEscape(s)[i] == '%'
    ensures (forall i :: 0 <= i < |s| ==> PlainByte(s[i])) ==> PathEscape(s) == s
    ensures |s| == 1 && !PlainByte(s[0]) ==> |PathEscape(s)| == 3 && PathEscape(s)[0] == '%'
  {
    if s != [] {
      EscapedBytes(s[1..]);
      var head := EscapeByte(s[0]);
      assert forall i :: 0 <= i < |head| ==> PlainByte(head[i]) || head[i] == '%';
      assert s == [s[0]] + s[1..];
    }
  }

  /** Escaping cannot produce a special segment. */
  lemma EscapedStaysOrdinary(s: string)
    requires Bytes(s) && Ordinary(s)
    ensures Ordinary(PathEscape(s))
  {
    EscapedHasNoSlash(s);
    UnescapeEscaped(s, "");
    assert PathEscape(s) + "" == PathEscape(s);
    var dot, dots := ".", "..";
    assert dot[1..] == "" && Unescape(dot) == dot;
    assert dots[1..] == dot && Unescape(dots) == dots;
  }

  // ---- safeRepoPath -----------------------------------------------------------------------

  predicate AllBytes(segments: seq<string>) { forall i :: 0 <= i < |segments| ==> Bytes(segments[i]) }

  function EscapeAll(segments: seq<string>): (escaped: seq<string>)
    ensures |escaped| == |segments|
    ensures forall i :: 0 <= i < |segments| ==> escaped[i] == PathEscape(segments[i])
  {
    seq(|segments|, i requires 0 <= i < |segments| => PathEscape(segments[i]))
  }

  lemma {:induction false} SegmentsAreBytes(path: string)
    requires Bytes(path)
    ensures AllBytes(Split(path, '/'))
  {
    if path != [] {
      SegmentsAreBytes(path[1..]);
    }
  }

  function Escaped(path: string): string {
    Join(EscapeAll(Split(path, '/')), '/')
  }

  method EscapeSegments(segments: seq<string>) returns (r: Option<seq<string>>)
    ensures r.Some? <==> forall i :: 0 <= i < |segments| ==> Ordinary(segments[i])
    ensures r.Some? ==> r.value == EscapeAll(segments)
  {
    var escaped := [];
    for i := 0 to |segments|
      invariant |escaped| == i
      invariant forall j :: 0 <= j < i ==> Ordinary(segments[j]) && escaped[j] == PathEscape(segments[j])
    {
      if segments[i] == "" || segments[i] == "." || segments[i] == ".." { return None; }
      escaped := escaped + [PathEscape(segments[i])];
    }
    return Some(escaped);
  }

  method SafeRepoPath(path: string) returns (r: Option<string>)
    ensures r.Some? <==> Clean(path) && '\\' !in path
    ensures r.Some? ==> r.value == Escaped(path) && !SpecialSegment(path)
    ensures r.None? ==> '\\' in path || SpecialSegment(path)
  {
    CleanMeansNoSpecialSegment(path);
    if path == "" || '\\' in path || HasPrefix(path, "/") {
      if Clean(path) { CleanIsRelative(path); }
      return None;
    }
    var escaped := EscapeSegments(Split(path, '/'));
    r := if escaped.Some? then Some(Join(escaped.value, '/')) else None;
  }

  lemma UnescapeSegment(segment: string, rest: string)
    requires Bytes(segment)
    ensures Unescape(PathEscape(segment) + ['/'] + rest) == segment + ['/'] + Unescape(rest)
  {
    var more := ['/'] + rest;
    UnescapeEscaped(segment, more);
    assert more[1..] == rest;
    Rebracket(PathEscape(segment), ['/'], rest);
    Rebracket(segment, ['/'], Unescape(rest));
  }

  lemma {:induction false} UnescapeJoined(segments: seq<string>)
    requires |segments| >= 1 && AllBytes(segments)
    ensures Unescape(Join(EscapeAll(segments), '/')) == Join(segments, '/')
  {
    var escaped := EscapeAll(segments);
    if |segments| == 1 {
      UnescapeEscaped(segments[0], "");
      assert escaped[0] + "" == escaped[0];
    } else {
      assert escaped[1..] == EscapeAll(segments[1..]);
      UnescapeJoined(segments[1..]);
      UnescapeSegment(segments[0], Join(escaped[1..], '/'));
    }
  }

  /** Decoding the URL form gives the path back. */
  lemma EscapingRoundTrips(path: string)
    requires Bytes(path)
    ensures Unescape(Escaped(path)) == path
  {
    SegmentsAreBytes(path);
    UnescapeJoined(Split(path, '/'));
  }

  /** Different paths never share a URL. */
  lemma EscapingIsInjective(p: string, q: string)
    requires Bytes(p) && Bytes(q) && Escaped(p) == Escaped(q)
    ensures p == q
  {
    EscapingRoundTrips(p);
    EscapingRoundTrips(q);
  }

  lemma {:induction false} SplitJoined(parts: seq<string>, sep: char)
    requires |parts| >= 1 && forall i :: 0 <= i < |parts| ==> sep !in parts[i]
    ensures Split(Join(parts, sep), sep) == parts
  {
    SplitWithout(parts[0], sep);
    if |parts| == 1 {
      assert parts == [parts[0]];
    } else {
      SplitJoined(parts[1..], sep);
      SplitAppend(parts[0], sep, Join(parts[1..], sep));
      assert parts == [parts[0]] + parts[1..];
    }
  }

  /** The URL form has the segments of the path, each escaped on its own, and is itself clean:
      escaping opens no way out of the repository. */
  lemma EscapingKeepsSegments(path: string)
    requires Bytes(path) && Clean(path)
    ensures Clean(Escaped(path)) && |Split(Escaped(path), '/')| == |Split(path, '/')|
  {
    SegmentsAreBytes(path);
    var segments := Split(path, '/');
    var escaped := EscapeAll(segments);
    forall i | 0 <= i < |escaped| ensures '/' !in escaped[i] && Ordinary(escaped[i]) {
      EscapedHasNoSlash(segments[i]);
      EscapedStaysOrdinary(segments[i]);
    }
    SplitJoined(escaped, '/');
  }
}
