/**
 * The JavaScript string operations the request handlers rely on:
 * `\s` and `String.prototype.trim`, JavaScript truthiness of nullable
 * strings, `replace(/\/$/, '')` before joining a URL, and the decimal
 * rendering of a millisecond timestamp inside a template literal.
 */
module Strings {
  import opened Wrappers

  /** ECMAScript WhiteSpace and LineTerminator code points: what `\s` matches and what `trim()` removes. */
  predicate IsJsSpace(c: char)
  {
    || c == '\t' || c == '\n' || c == '\U{000B}' || c == '\U{000C}' || c == '\r' || c == ' '
    || c == '\U{00A0}' || c == '\U{1680}' || ('\U{2000}' <= c <= '\U{200A}')
    || c == '\U{2028}' || c == '\U{2029}' || c == '\U{202F}' || c == '\U{205F}'
    || c == '\U{3000}' || c == '\U{FEFF}'
  }

  predicate AllSpace(s: string)
  {
    forall i :: 0 <= i < |s| ==> IsJsSpace(s[i])
  }

  predicate NoSpace(s: string)
  {
    forall i :: 0 <= i < |s| ==> !IsJsSpace(s[i])
  }

  /** No whitespace at either end: what `trim()` returns. */
  predicate Trimmed(s: string)
  {
    s == [] || (!IsJsSpace(s[0]) && !IsJsSpace(s[|s| - 1]))
  }

  /** JavaScript (and Python) truthiness of a nullable string: neither null nor empty. */
  predicate Truthy(o: Option<string>)
  {
    o.Some? && o.value != ""
  }

  predicate StartsWith(s: string, prefix: string)
  {
    |prefix| <= |s| && s[..|prefix|] == prefix
  }

  predicate EndsWithSlash(s: string)
  {
    |s| > 0 && s[|s| - 1] == '/'
  }

  /** The number of whitespace characters `s` starts with. */
  function LeadingSpace(s: string): (n: nat)
    ensures n <= |s| && AllSpace(s[..n])
    ensures n < |s| ==> !IsJsSpace(s[n])
    decreases |s|
  {
    if s == [] || !IsJsSpace(s[0]) then 0
    else
      var n := 1 + LeadingSpace(s[1..]);
      assert s[..n] == [s[0]] + s[1..][..n - 1];
      n
  }

  /** The number of whitespace characters `s` ends with. */
  function TrailingSpace(s: string): (n: nat)
    ensures n <= |s|
    ensures forall i :: |s| - n <= i < |s| ==> IsJsSpace(s[i])
    ensures n < |s| ==> !IsJsSpace(s[|s| - n - 1])
    decreases |s|
  {
    if s == [] || !IsJsSpace(s[|s| - 1]) then 0
    else 1 + TrailingSpace(s[..|s| - 1])
  }

  /** A whitespace run followed by a non-whitespace character (or nothing) is all `trimStart` removes. */
  lemma {:induction false} TrimStartSkipsRun(w: string, b: string)
    requires AllSpace(w) && (b == [] || !IsJsSpace(b[0]))
    ensures TrimStart(w + b) == b
    decreases |w|
  {
    if w == [] {
      assert w + b == b;
    } else {
      assert (w + b)[1..] == w[1..] + b;
      TrimStartSkipsRun(w[1..], b);
    }
  }

  /** `s.trimStart()`. */
  function TrimStart(s: string): (r: string)
    ensures |r| <= |s| && r == s[|s| - |r|..]
    ensures AllSpace(s[..|s| - |r|])
    ensures r == [] || !IsJsSpace(r[0])
  {
    s[LeadingSpace(s)..]
  }

  /** `s` is `k` whitespace characters, then `r`, then only whitespace. */
  predicate SpaceAround(s: string, k: nat, r: string)
  {
    k + |r| <= |s| && AllSpace(s[..k]) && r == s[k..k + |r|] && AllSpace(s[k + |r|..])
  }

  /**
   * `k` leading and then `j` trailing whitespace characters cut off `s`
   * leave a trimmed slice, empty exactly when `s` is all whitespace.
   */
  lemma SpaceAroundSlice(s: string, k: nat, front: string, j: nat)
    requires k <= |s| && AllSpace(s[..k]) && (k < |s| ==> !IsJsSpace(s[k]))
    requires front == s[k..] && j <= |front|
    requires forall i :: |front| - j <= i < |front| ==> IsJsSpace(front[i])
    requires j < |front| ==> !IsJsSpace(front[|front| - j - 1])
    ensures var r := s[k..|s| - j];
            && Trimmed(r) && |r| <= |s|
            && SpaceAround(s, k, r)
            && (r == [] <==> AllSpace(s))
            && (Trimmed(s) ==> r == s)
  {
    var r := s[k..|s| - j];
    var tail := s[|s| - j..];
    forall i | 0 <= i < j
      ensures IsJsSpace(tail[i])
    {
      assert tail[i] == front[|front| - j + i];
    }
    if r == [] {
      assert s == s[..k] + tail;
    } else {
      assert r[0] == s[k] && r[|r| - 1] == front[|front| - j - 1];
    }
  }

  /**
   * `s.trim()`: the string without its leading and trailing whitespace:
   * the slice of `s` that follows its `k` leading whitespace characters,
   * with only whitespace after it.
   */
  function Trim(s: string): (r: string)
    ensures Trimmed(r) && |r| <= |s|
    ensures SpaceAround(s, LeadingSpace(s), r)
    ensures r == [] <==> AllSpace(s)
    ensures Trimmed(s) ==> r == s
  {
    var k := LeadingSpace(s);
    var j := TrailingSpace(s[k..]);
    SpaceAroundSlice(s, k, s[k..], j);
    s[k..|s| - j]
  }

  lemma TrimIdempotent(s: string)
    ensures Trim(Trim(s)) == Trim(s)
  {
  }

  /** `s.replace(/\/$/, '')`: at most one trailing slash is removed. */
  function StripTrailingSlash(s: string): (r: string)
    ensures EndsWithSlash(s) ==> s == r + "/"
    ensures !EndsWithSlash(s) ==> r == s
  {
    if EndsWithSlash(s) then s[..|s| - 1] else s
  }

  /** `${base.replace(/\/$/, '')}/${path}`: join a base URL and a path with exactly one separator. */
  function JoinUrl(base: string, path: string): (r: string)
    ensures |r| == |StripTrailingSlash(base)| + 1 + |path|
    ensures StartsWith(r, StripTrailingSlash(base) + "/")
    ensures r[|r| - |path|..] == path
  {
    StripTrailingSlash(base) + "/" + path
  }

  /**
   * A base that does not end in two slashes is joined without a doubled
   * separator: the part before the path ends in exactly one `/`.
   */
  lemma JoinUrlSingleSeparator(base: string, path: string)
    requires !(|base| >= 2 && base[|base| - 2..] == "//")
    ensures var r := JoinUrl(base, path);
            var k := |r| - |path|;
            k >= 1 && r[k - 1] == '/' && !EndsWithSlash(r[..k - 1])
  {
    var r := JoinUrl(base, path);
    assert r[..|r| - |path| - 1] == StripTrailingSlash(base);
  }

  predicate IsDigit(c: char)
  {
    '0' <= c <= '9'
  }

  predicate AllDigits(s: string)
  {
    forall i :: 0 <= i < |s| ==> IsDigit(s[i])
  }

  function DigitChar(d: nat): (c: char)
    requires d < 10
    ensures IsDigit(c) && c as int - '0' as int == d
  {
    ('0' as int + d) as char
  }

  /** `String(n)` for a non-negative integer, as a template literal renders `Date.now()`. */
  function NatToDecimal(n: nat): (r: string)
    ensures |r| >= 1 && AllDigits(r)
    ensures |r| > 1 ==> r[0] != '0'
    decreases n
  {
    if n < 10 then [DigitChar(n)] else NatToDecimal(n / 10) + [DigitChar(n % 10)]
  }

  /** The value of a string of decimal digits. */
  function DecimalValue(s: string): nat
    requires AllDigits(s)
  {
    if s == [] then 0 else DecimalValue(s[..|s| - 1]) * 10 + (s[|s| - 1] as int - '0' as int)
  }

  lemma {:induction false} DecimalRoundTrip(n: nat)
    ensures DecimalValue(NatToDecimal(n)) == n
    decreases n
  {
    if n >= 10 {
      var s := NatToDecimal(n);
      assert s[..|s| - 1] == NatToDecimal(n / 10);
      DecimalRoundTrip(n / 10);
    }
  }

  /** The characters `encodeURIComponent` leaves as they are. */
  predicate IsUriUnreserved(c: char)
  {
    ('A' <= c <= 'Z') || ('a' <= c <= 'z') || ('0' <= c <= '9') || c in "-_.!~*'()"
  }

  predicate AllUriUnreserved(s: string)
  {
    forall i :: 0 <= i < |s| ==> IsUriUnreserved(s[i])
  }

  /** The digits a percent-escape is read with. */
  predicate IsHexDigit(c: char)
  {
    ('0' <= c <= '9') || ('A' <= c <= 'F') || ('a' <= c <= 'f')
  }

  function HexValue(c: char): (d: nat)
    requires IsHexDigit(c)
    ensures d < 16
  {
    if c <= '9' then c as int - '0' as int
    else if c <= 'F' then c as int - 'A' as int + 10
    else c as int - 'a' as int + 10
  }

  /** An upper-case hexadecimal digit, as percent-escapes are written; it reads back as `d`. */
  function HexDigit(d: nat): (c: char)
    requires d < 16
    ensures IsUriUnreserved(c) && IsHexDigit(c) && HexValue(c) == d
  {
    if d < 10 then ('0' as int + d) as char else ('A' as int + d - 10) as char
  }

  /** The UTF-8 encoding of one Unicode scalar value. */
  function Utf8Bytes(c: char): (bs: seq<nat>)
    ensures 1 <= |bs| <= 4
    ensures forall i :: 0 <= i < |bs| ==> bs[i] < 256
    ensures c as int < 0x80 ==> bs == [c as int]
  {
    var cp := c as int;
    if cp < 0x80 then [cp]
    else if cp < 0x800 then [0xC0 + cp / 64, 0x80 + cp % 64]
    else if cp < 0x1_0000 then [0xE0 + cp / 4096, 0x80 + (cp / 64) % 64, 0x80 + cp % 64]
    else [0xF0 + cp / 262144, 0x80 + (cp / 4096) % 64, 0x80 + (cp / 64) % 64, 0x80 + cp % 64]
  }

  /** `%XX` for each byte. */
  function PercentEncode(bs: seq<nat>): (r: string)
    requires forall i :: 0 <= i < |bs| ==> bs[i] < 256
    ensures |r| == 3 * |bs|
    ensures forall i :: 0 <= i < |r| ==> r[i] == '%' || IsUriUnreserved(r[i])
    decreases |bs|
  {
    if bs == [] then []
    else ['%', HexDigit(bs[0] / 16), HexDigit(bs[0] % 16)] + PercentEncode(bs[1..])
  }

  /**
   * `encodeURIComponent(s)`: unreserved characters are kept, every other
   * character is replaced by the percent-escapes of its UTF-8 bytes. The
   * result holds only unreserved characters and `%`, so it cannot end a
   * query parameter (`&`, `#`) or start another one (`=`).
   */
  function EncodeUriComponent(s: string): (r: string)
    ensures forall i :: 0 <= i < |r| ==> r[i] == '%' || IsUriUnreserved(r[i])
    ensures AllUriUnreserved(s) ==> r == s
    decreases |s|
  {
    if s == [] then []
    else if IsUriUnreserved(s[0]) then [s[0]] + EncodeUriComponent(s[1..])
    else PercentEncode(Utf8Bytes(s[0])) + EncodeUriComponent(s[1..])
  }

  /** The UTF-8 encoding of a string, character by character. */
  function Utf8Encode(s: string): (bs: seq<nat>)
    ensures forall i :: 0 <= i < |bs| ==> bs[i] < 256
    decreases |s|
  {
    if s == [] then [] else Utf8Bytes(s[0]) + Utf8Encode(s[1..])
  }

  /**
   * `decodeURIComponent` up to the final UTF-8 decoding: each `%XX`
   * escape becomes the byte it names, every other character stands for
   * itself.
   */
  function PercentDecode(r: string): (bs: seq<nat>)
    decreases |r|
  {
    if r == [] then []
    else if |r| >= 3 && r[0] == '%' && IsHexDigit(r[1]) && IsHexDigit(r[2]) then
      [16 * HexValue(r[1]) + HexValue(r[2])] + PercentDecode(r[3..])
    else [r[0] as int] + PercentDecode(r[1..])
  }

  lemma ConcatAssoc<T>(x: seq<T>, y: seq<T>, z: seq<T>)
    ensures (x + y) + z == x + (y + z)
  {
  }

  lemma ConsConcat<T>(x: seq<T>, y: seq<T>)
    requires x != []
    ensures x + y == [x[0]] + (x[1..] + y)
  {
  }

  /** One escape decodes to the byte it was made from. */
  lemma EscapeDecodes(b: nat, tail: string)
    requires b < 256
    ensures PercentDecode(['%', HexDigit(b / 16), HexDigit(b % 16)] + tail) == [b] + PercentDecode(tail)
  {
    var r := ['%', HexDigit(b / 16), HexDigit(b % 16)] + tail;
    assert r[3..] == tail;
  }

  /** Decoding the escapes of some bytes gives the bytes back, whatever follows them. */
  lemma {:induction false} PercentEscapesDecode(bs: seq<nat>, rest: string)
    requires forall i :: 0 <= i < |bs| ==> bs[i] < 256
    ensures PercentDecode(PercentEncode(bs) + rest) == bs + PercentDecode(rest)
    decreases |bs|
  {
    if bs == [] {
      assert PercentEncode(bs) + rest == rest;
    } else {
      var b := bs[0];
      var escape := ['%', HexDigit(b / 16), HexDigit(b % 16)];
      var tail := PercentEncode(bs[1..]) + rest;
      assert PercentEncode(bs) == escape + PercentEncode(bs[1..]);
      ConcatAssoc(escape, PercentEncode(bs[1..]), rest);
      EscapeDecodes(b, tail);
      PercentEscapesDecode(bs[1..], rest);
      ConcatAssoc([b], bs[1..], PercentDecode(rest));
      assert [b] + bs[1..] == bs;
    }
  }

  /**
   * `encodeURIComponent` loses nothing: decoding its result gives the
   * UTF-8 bytes of the input, so two strings with different encodings
   * were different strings.
   */
  lemma {:induction false} EncodeUriComponentDecodes(s: string)
    ensures PercentDecode(EncodeUriComponent(s)) == Utf8Encode(s)
    decreases |s|
  {
    if s != [] {
      var rest := EncodeUriComponent(s[1..]);
      EncodeUriComponentDecodes(s[1..]);
      if IsUriUnreserved(s[0]) {
        assert EncodeUriComponent(s) == [s[0]] + rest;
        assert ([s[0]] + rest)[1..] == rest;
        assert Utf8Bytes(s[0]) == [s[0] as int];
      } else {
        PercentEscapesDecode(Utf8Bytes(s[0]), rest);
      }
    }
  }
}
