/** The few ECMAScript built-ins the dashboard's logic leans on, stated as functions:
    `x || fallback` on a string field, `Array.prototype.slice(0, n)`,
    `String.prototype.replace` with a string pattern (ECMA-262, 2022 edition, section
    22.1.3.18, with GetSubstitution from section 22.1.3.18.1) and `encodeURIComponent`
    (section 19.2.6.5), whose escapes are the percent-encoding of section 2.1 of RFC 3986
    applied to the UTF-8 octets of RFC 3629. Strings are sequences of Unicode scalar
    values. */
module Ecma {
  import opened Wrappers

  // ---------------------------------------------------------------------------
  // `v || fallback` on an optional string
  // ---------------------------------------------------------------------------

  /** `v || fallback` where `v` is a string field that may be missing: a missing field and
      the empty string are both falsy, so both give the fallback. */
  function Or(v: Option<string>, fallback: string): (r: string)
    ensures v.Some? && v.value != "" ==> r == v.value
    ensures v.None? || v.value == "" ==> r == fallback
    ensures fallback != "" ==> r != ""
  {
    if v.Some? && v.value != "" then v.value else fallback
  }

  // ---------------------------------------------------------------------------
  // Array.prototype.slice(0, n)
  // ---------------------------------------------------------------------------

  /** `s.slice(0, n)`: the first `n` elements, or all of them when there are fewer. */
  function Take<T>(s: seq<T>, n: nat): (r: seq<T>)
    ensures |r| == if |s| < n then |s| else n
    ensures r == s[..|r|]
  {
    if |s| < n then s else s[..n]
  }

  // ---------------------------------------------------------------------------
  // String.prototype.replace(pattern: string, replacement: string)
  // ---------------------------------------------------------------------------

  /** `pat` occurs in `s` starting at index `i`. */
  predicate OccursAt(s: string, pat: string, i: int)
  {
    0 <= i && i + |pat| <= |s| && s[i..i + |pat|] == pat
  }

  /** `pat` occurs somewhere in `s`. */
  predicate Contains(s: string, pat: string)
  {
    exists i :: 0 <= i <= |s| && OccursAt(s, pat, i)
  }

  /** StringIndexOf(s, pat, from): the first index at or after `from` where `pat` occurs. */
  function IndexOfFrom(s: string, pat: string, from: nat): (r: Option<nat>)
    requires from <= |s| + 1
    ensures r.Some? ==> from <= r.value && OccursAt(s, pat, r.value)
    ensures r.Some? ==> forall j :: from <= j < r.value ==> !OccursAt(s, pat, j)
    ensures r.None? ==> forall j :: from <= j <= |s| ==> !OccursAt(s, pat, j)
    decreases |s| + 1 - from
  {
    if from + |pat| > |s| then None
    else if s[from..from + |pat|] == pat then Some(from)
    else IndexOfFrom(s, pat, from + 1)
  }

  /** `s.indexOf(pat)` as an option: the first occurrence of `pat` in `s`. */
  function IndexOf(s: string, pat: string): (r: Option<nat>)
    ensures r.Some? ==> OccursAt(s, pat, r.value)
    ensures r.Some? ==> forall j :: 0 <= j < r.value ==> !OccursAt(s, pat, j)
    ensures r.None? <==> !Contains(s, pat)
  {
    IndexOfFrom(s, pat, 0)
  }

  /** GetSubstitution with no capture groups: in the replacement text `$$` stands for `$`,
      `$&` for the matched text, `` $` `` for the text before the match and `$'` for the
      text after it; every other character (a lone `$` included) stands for itself. */
  function Substitution(rep: string, matched: string, before: string, after: string): string
    decreases |rep|
  {
    if rep == [] then []
    else if |rep| >= 2 && rep[0] == '$' && rep[1] == '$' then "$" + Substitution(rep[2..], matched, before, after)
    else if |rep| >= 2 && rep[0] == '$' && rep[1] == '&' then matched + Substitution(rep[2..], matched, before, after)
    else if |rep| >= 2 && rep[0] == '$' && rep[1] == '`' then before + Substitution(rep[2..], matched, before, after)
    else if |rep| >= 2 && rep[0] == '$' && rep[1] == '\'' then after + Substitution(rep[2..], matched, before, after)
    else [rep[0]] + Substitution(rep[1..], matched, before, after)
  }

  /** A replacement text without `$` is inserted literally. */
  lemma {:induction false} SubstitutionLiteral(rep: string, matched: string, before: string, after: string)
    requires '$' !in rep
    ensures Substitution(rep, matched, before, after) == rep
    decreases |rep|
  {
    if rep != [] {
      assert rep[0] != '$';
      assert '$' !in rep[1..] by {
        forall k | 0 <= k < |rep[1..]| ensures rep[1..][k] != '$' {
          assert rep[1..][k] == rep[k + 1];
        }
      }
      SubstitutionLiteral(rep[1..], matched, before, after);
      assert rep == [rep[0]] + rep[1..];
    }
  }

  /** `s.replace(pat, rep)` with a string pattern: only the first occurrence is replaced. */
  function Replace(s: string, pat: string, rep: string): string
  {
    match IndexOf(s, pat)
    case None => s
    case Some(i) => s[..i] + Substitution(rep, pat, s[..i], s[i + |pat|..]) + s[i + |pat|..]
  }

  /** Replacing with a `$`-free text splices it in place of the first occurrence of the
      pattern (which IndexOf's contract characterises), and leaves a text without the
      pattern alone. */
  lemma ReplaceLiteral(s: string, pat: string, rep: string)
    requires '$' !in rep
    ensures Replace(s, pat, rep) ==
      match IndexOf(s, pat)
      case None => s
      case Some(i) => s[..i] + rep + s[i + |pat|..]
  {
    match IndexOf(s, pat)
    case None =>
    case Some(i) =>
      SubstitutionLiteral(rep, pat, s[..i], s[i + |pat|..]);
  }

  // ---------------------------------------------------------------------------
  // encodeURIComponent
  // ---------------------------------------------------------------------------

  /** The characters encodeURIComponent leaves alone: letters, digits and `-_.!~*'()`. */
  predicate Unreserved(c: char)
  {
    ('A' <= c <= 'Z') || ('a' <= c <= 'z') || ('0' <= c <= '9') ||
    c == '-' || c == '_' || c == '.' || c == '!' || c == '~' || c == '*' || c == '\'' || c == '(' || c == ')'
  }

  /** A byte value. */
  type Octet = b: int | 0 <= b < 256

  /** The UTF-8 encoding of one scalar value (RFC 3629, section 3). */
  function Utf8(c: char): (bytes: seq<Octet>)
    ensures 1 <= |bytes| <= 4
    ensures |bytes| == 1 <==> c as int < 0x80
  {
    var cp := c as int;
    if cp < 0x80 then [cp]
    else if cp < 0x800 then [0xC0 + cp / 64, 0x80 + cp % 64]
    else if cp < 0x10000 then [0xE0 + cp / 4096, 0x80 + (cp / 64) % 64, 0x80 + cp % 64]
    else [0xF0 + cp / 262144, 0x80 + (cp / 4096) % 64, 0x80 + (cp / 64) % 64, 0x80 + cp % 64]
  }

  /** An upper-case hexadecimal digit. */
  function HexDigit(n: int): (c: char)
    requires 0 <= n < 16
    ensures Unreserved(c)
  {
    if n < 10 then ('0' as int + n) as char else ('A' as int + n - 10) as char
  }

  /** `%XY` for each octet, with `XY` its value in upper-case hexadecimal. */
  function PercentEncode(bytes: seq<Octet>): (r: string)
    ensures |r| == 3 * |bytes|
    ensures forall k :: 0 <= k < |r| ==> Unreserved(r[k]) || r[k] == '%'
  {
    if bytes == [] then []
    else
      PercentTriple(bytes[0]) + PercentEncode(bytes[1..])
  }

  /** `%XY` for one octet. */
  function PercentTriple(b: Octet): (r: string)
    ensures |r| == 3 && r[0] == '%' && Unreserved(r[1]) && Unreserved(r[2])
  {
    ['%', HexDigit(b / 16), HexDigit(b % 16)]
  }

  /** One character as encodeURIComponent writes it. */
  function EncodeChar(c: char): (r: string)
    ensures forall k :: 0 <= k < |r| ==> Unreserved(r[k]) || r[k] == '%'
    ensures Unreserved(c) ==> r == [c]
  {
    if Unreserved(c) then [c] else PercentEncode(Utf8(c))
  }

  /** encodeURIComponent(s). The result consists of unreserved characters and `%` only. */
  function EncodeURIComponent(s: string): (r: string)
    ensures forall k :: 0 <= k < |r| ==> Unreserved(r[k]) || r[k] == '%'
    ensures |r| >= |s|
  {
    if s == [] then [] else EncodeChar(s[0]) + EncodeURIComponent(s[1..])
  }

  /** A text of unreserved characters comes out unchanged. */
  lemma {:induction false} EncodeUnreservedIdentity(s: string)
    requires forall k :: 0 <= k < |s| ==> Unreserved(s[k])
    ensures EncodeURIComponent(s) == s
  {
    if s != [] {
      EncodeUnreservedIdentity(s[1..]);
    }
  }

  /** The encoded text holds none of `$`, `{` and `}`. */
  lemma EncodedHasNoSpecials(s: string)
    ensures '$' !in EncodeURIComponent(s)
    ensures '{' !in EncodeURIComponent(s)
    ensures '}' !in EncodeURIComponent(s)
  {
    var r := EncodeURIComponent(s);
    forall k | 0 <= k < |r| ensures r[k] != '$' && r[k] != '{' && r[k] != '}' {
      assert Unreserved(r[k]) || r[k] == '%';
    }
  }

  // ---------------------------------------------------------------------------
  // The inverse: percent-decoding followed by UTF-8 decoding
  // ---------------------------------------------------------------------------

  /** The value of one hexadecimal digit, either case. */
  function HexValue(c: char): Option<int>
  {
    if '0' <= c <= '9' then Some(c as int - '0' as int)
    else if 'A' <= c <= 'F' then Some(c as int - 'A' as int + 10)
    else if 'a' <= c <= 'f' then Some(c as int - 'a' as int + 10)
    else None
  }

  /** The octets an encoded text stands for: `%XY` is the octet `XY`, any other ASCII
      character its own code; anything else is malformed. */
  function PercentDecode(e: string): Option<seq<Octet>>
  {
    if e == [] then Some([])
    else if e[0] == '%' then
      if |e| < 3 || HexValue(e[1]).None? || HexValue(e[2]).None? then None
      else match PercentDecode(e[3..])
        case None => None
        case Some(t) => Some([HexValue(e[1]).value * 16 + HexValue(e[2]).value] + t)
    else if e[0] as int < 0x80 then
      match PercentDecode(e[1..])
      case None => None
      case Some(t) => Some([e[0] as int] + t)
    else None
  }

  predicate IsContinuation(b: int) { 0x80 <= b < 0xC0 }

  predicate IsScalar(cp: int) { (0 <= cp < 0xD800) || (0xE000 <= cp < 0x11_0000) }

  /** Strict UTF-8 decoding (RFC 3629, section 3): no overlong forms, no surrogates, nothing
      above U+10FFFF. */
  function Utf8Decode(bs: seq<Octet>): Option<string>
    decreases |bs|
  {
    if bs == [] then Some([])
    else
      var b0: int := bs[0];
      if 0 <= b0 < 0x80 then Prepend(b0, Utf8Decode(bs[1..]))
      else if 0xC0 <= b0 < 0xE0 && |bs| >= 2 && IsContinuation(bs[1]) then
        var cp := (b0 - 0xC0) * 64 + (bs[1] as int - 0x80);
        if 0x80 <= cp then Prepend(cp, Utf8Decode(bs[2..])) else None
      else if 0xE0 <= b0 < 0xF0 && |bs| >= 3 && IsContinuation(bs[1]) && IsContinuation(bs[2]) then
        var cp := (b0 - 0xE0) * 4096 + (bs[1] as int - 0x80) * 64 + (bs[2] as int - 0x80);
        if 0x800 <= cp && IsScalar(cp) then Prepend(cp, Utf8Decode(bs[3..])) else None
      else if 0xF0 <= b0 < 0xF8 && |bs| >= 4 && IsContinuation(bs[1]) && IsContinuation(bs[2]) && IsContinuation(bs[3]) then
        var cp := (b0 - 0xF0) * 262144 + (bs[1] as int - 0x80) * 4096 + (bs[2] as int - 0x80) * 64 + (bs[3] as int - 0x80);
        if 0x1_0000 <= cp && IsScalar(cp) then Prepend(cp, Utf8Decode(bs[4..])) else None
      else None
  }

  /** Puts the character with code `cp` in front of a decoded rest, if the rest decoded. */
  function Prepend(cp: int, rest: Option<string>): Option<string>
    requires IsScalar(cp)
  {
    match rest
    case None => None
    case Some(t) => Some([cp as char] + t)
  }

  /** decodeURIComponent restricted to what encodeURIComponent produces. */
  function DecodeURIComponent(e: string): Option<string>
  {
    match PercentDecode(e)
    case None => None
    case Some(bs) => Utf8Decode(bs)
  }

  /** The concatenated UTF-8 encodings of the characters of `s`. */
  function Utf8All(s: string): seq<Octet>
  {
    if s == [] then [] else Utf8(s[0]) + Utf8All(s[1..])
  }

  lemma HexRoundTrip(n: int)
    requires 0 <= n < 16
    ensures HexValue(HexDigit(n)) == Some(n)
  {
  }

  /** Puts `bytes` in front of a decoded rest, if the rest decoded. */
  function PrependOctets(bytes: seq<Octet>, rest: Option<seq<Octet>>): Option<seq<Octet>>
  {
    match rest
    case None => None
    case Some(t) => Some(bytes + t)
  }

  /** Percent-decoding one `%XY` in front of `tail` gives the octet back. */
  lemma PercentDecodeOne(b: Octet, tail: string)
    ensures PercentDecode(PercentTriple(b) + tail) == PrependOctets([b], PercentDecode(tail))
  {
    var e := PercentTriple(b) + tail;
    HexRoundTrip(b / 16);
    HexRoundTrip(b % 16);
    assert e[3..] == tail;
  }

  /** The first octet's `%XY` comes first. */
  lemma PercentEncodeCons(bytes: seq<Octet>, rest: string)
    requires bytes != []
    ensures PercentEncode(bytes) + rest == PercentTriple(bytes[0]) + (PercentEncode(bytes[1..]) + rest)
  {
    var t, p := PercentTriple(bytes[0]), PercentEncode(bytes[1..]);
    assert PercentEncode(bytes) == t + p;
    ConcatAssoc(t, p, rest);
  }

  lemma ConcatAssoc<T>(a: seq<T>, b: seq<T>, c: seq<T>)
    ensures (a + b) + c == a + (b + c)
  {
  }

  lemma PrependOctetsTwice(a: seq<Octet>, b: seq<Octet>, r: Option<seq<Octet>>)
    ensures PrependOctets(a, PrependOctets(b, r)) == PrependOctets(a + b, r)
  {
    if r.Some? {
      ConcatAssoc(a, b, r.value);
    }
  }

  /** Percent-decoding `PercentEncode(bytes)` in front of `rest` gives `bytes` back. */
  lemma {:induction false} PercentDecodeEncoded(bytes: seq<Octet>, rest: string)
    ensures PercentDecode(PercentEncode(bytes) + rest) == PrependOctets(bytes, PercentDecode(rest))
  {
    if bytes != [] {
      var b := bytes[0];
      var tail := PercentEncode(bytes[1..]) + rest;
      PercentEncodeCons(bytes, rest);
      PercentDecodeOne(b, tail);
      PercentDecodeEncoded(bytes[1..], rest);
      PrependOctetsTwice([b], bytes[1..], PercentDecode(rest));
      assert [b] + bytes[1..] == bytes;
    } else {
      assert PercentEncode(bytes) + rest == rest;
      assert PercentDecode(rest).Some? ==> bytes + PercentDecode(rest).value == PercentDecode(rest).value;
    }
  }

  /** Percent-decoding an encoded text gives the UTF-8 octets of the original. */
  lemma {:induction false} PercentDecodeEncodeURIComponent(s: string)
    ensures PercentDecode(EncodeURIComponent(s)) == Some(Utf8All(s))
  {
    if s != [] {
      var c := s[0];
      var rest := EncodeURIComponent(s[1..]);
      PercentDecodeEncodeURIComponent(s[1..]);
      if Unreserved(c) {
        assert (EncodeChar(c) + rest)[1..] == rest;
      } else {
        PercentDecodeEncoded(Utf8(c), rest);
      }
    }
  }

  /** UTF-8 decoding one encoded character in front of `rest` gives that character back. */
  lemma Utf8DecodeOne(c: char, rest: seq<Octet>)
    ensures Utf8Decode(Utf8(c) + rest) == Prepend(c as int, Utf8Decode(rest))
  {
    var cp := c as int;
    if cp < 0x80 {
      assert (Utf8(c) + rest)[1..] == rest;
    } else if cp < 0x800 {
      Utf8DecodeTwo(c, rest);
    } else if cp < 0x10000 {
      Utf8DecodeThree(c, rest);
    } else {
      Utf8DecodeFour(c, rest);
    }
  }

  lemma Utf8DecodeTwo(c: char, rest: seq<Octet>)
    requires 0x80 <= c as int < 0x800
    ensures Utf8Decode(Utf8(c) + rest) == Prepend(c as int, Utf8Decode(rest))
  {
    var cp := c as int;
    var hi, lo := cp / 64, cp % 64;
    assert hi * 64 + lo == cp;
    var bs := [0xC0 + hi, 0x80 + lo] + rest;
    assert Utf8(c) + rest == bs;
    assert bs[2..] == rest;
  }

  lemma Utf8DecodeThree(c: char, rest: seq<Octet>)
    requires 0x800 <= c as int < 0x10000
    ensures Utf8Decode(Utf8(c) + rest) == Prepend(c as int, Utf8Decode(rest))
  {
    var cp := c as int;
    var q := cp / 64;
    var b0, b1, b2 := cp / 4096, q % 64, cp % 64;
    assert q * 64 + b2 == cp;
    assert q == b0 * 64 + b1 by {
      assert cp / 4096 == q / 64;
    }
    assert b0 * 4096 + b1 * 64 + b2 == cp;
    var bs := [0xE0 + b0, 0x80 + b1, 0x80 + b2] + rest;
    assert Utf8(c) + rest == bs;
    assert bs[3..] == rest;
  }

  lemma Utf8DecodeFour(c: char, rest: seq<Octet>)
    requires 0x10000 <= c as int
    ensures Utf8Decode(Utf8(c) + rest) == Prepend(c as int, Utf8Decode(rest))
  {
    var cp := c as int;
    var q := cp / 64;
    var r := cp / 4096;
    var b0, b1, b2, b3 := cp / 262144, r % 64, q % 64, cp % 64;
    assert q * 64 + b3 == cp;
    assert r == q / 64;
    assert q == r * 64 + b2;
    assert b0 == r / 64;
    assert r == b0 * 64 + b1;
    assert b0 * 262144 + b1 * 4096 + b2 * 64 + b3 == cp;
    var bs := [0xF0 + b0, 0x80 + b1, 0x80 + b2, 0x80 + b3] + rest;
    assert Utf8(c) + rest == bs;
    assert bs[4..] == rest;
  }

  lemma {:induction false} Utf8DecodeAll(s: string)
    ensures Utf8Decode(Utf8All(s)) == Some(s)
  {
    if s != [] {
      Utf8DecodeAll(s[1..]);
      Utf8DecodeOne(s[0], Utf8All(s[1..]));
      assert [s[0]] + s[1..] == s;
    }
  }

  /** The round trip: decoding what encodeURIComponent wrote gives the original text back,
      so the encoding loses nothing. */
  lemma EncodeURIComponentRoundTrip(s: string)
    ensures DecodeURIComponent(EncodeURIComponent(s)) == Some(s)
  {
    PercentDecodeEncodeURIComponent(s);
    Utf8DecodeAll(s);
  }
}
