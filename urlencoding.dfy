/** urllib.parse.urlencode as the library calls it: every key and value is
    rendered with str(), encoded to UTF-8 and percent-encoded as in section
    2.1 of RFC 3986; the unreserved characters of section 2.3 (letters,
    digits, '-', '.', '_', '~') are kept, and a space is written as '+'
    (quote_plus with no extra safe characters). Pairs are written k=v and
    joined with '&'.

    Beside the encoder this module defines a reference decoder
    (unquote_plus and a query-string parser) and proves that it undoes the
    encoder, so that the query string the library builds determines exactly
    the entries it was built from. */
module UrlEncoding {
  import opened Builtins

  type byte = b: int | 0 <= b < 256

  /** The unreserved characters of section 2.3 of RFC 3986. */
  predicate Unreserved(c: char) {
    ('A' <= c <= 'Z') || ('a' <= c <= 'z') || ('0' <= c <= '9') ||
    c == '-' || c == '.' || c == '_' || c == '~'
  }

  /** An upper-case hexadecimal digit, as quote writes it. */
  function HexDigit(n: nat): (c: char)
    requires n < 16
    ensures Unreserved(c)
  {
    if n < 10 then ('0' as int + n) as char else ('A' as int + n - 10) as char
  }

  predicate IsHex(c: char) {
    ('0' <= c <= '9') || ('A' <= c <= 'F') || ('a' <= c <= 'f')
  }

  function HexValue(c: char): (n: nat)
    requires IsHex(c)
    ensures n < 16
  {
    if '0' <= c <= '9' then c as int - '0' as int
    else if 'A' <= c <= 'F' then c as int - 'A' as int + 10
    else c as int - 'a' as int + 10
  }

  lemma HexRoundTrip(n: nat)
    requires n < 16
    ensures IsHex(HexDigit(n)) && HexValue(HexDigit(n)) == n
  {
  }

  /** The UTF-8 encoding of one Unicode scalar value. */
  function Utf8(c: char): (bs: seq<byte>)
    ensures 1 <= |bs| <= 4
  {
    var cp := c as int;
    if cp < 0x80 then [cp]
    else if cp < 0x800 then [0xC0 + cp / 64, 0x80 + cp % 64]
    else if cp < 0x10000 then [0xE0 + cp / 4096, 0x80 + (cp / 64) % 64, 0x80 + cp % 64]
    else [0xF0 + cp / 262144, 0x80 + (cp / 4096) % 64, 0x80 + (cp / 64) % 64, 0x80 + cp % 64]
  }

  /** "%XY" for one byte. */
  function Percent(b: byte): string {
    ['%', HexDigit(b / 16), HexDigit(b % 16)]
  }

  function PercentAll(bs: seq<byte>): (s: string)
    ensures |s| == 3 * |bs|
  {
    if bs == [] then "" else Percent(bs[0]) + PercentAll(bs[1..])
  }

  function QuoteChar(c: char): string {
    if Unreserved(c) then [c]
    else if c == ' ' then "+"
    else PercentAll(Utf8(c))
  }

  /** quote_plus(s, safe=''). */
  function QuotePlus(s: string): string {
    if s == [] then "" else QuoteChar(s[0]) + QuotePlus(s[1..])
  }

  /** The characters quote_plus can write. */
  predicate QuotedChar(c: char) {
    Unreserved(c) || c == '+' || c == '%'
  }

  lemma {:induction false} PercentAllChars(bs: seq<byte>)
    ensures forall i :: 0 <= i < |PercentAll(bs)| ==> QuotedChar(PercentAll(bs)[i])
  {
    if bs != [] {
      PercentAllChars(bs[1..]);
      var s := PercentAll(bs);
      forall i | 0 <= i < |s| ensures QuotedChar(s[i]) {
        if i >= 3 {
          assert s[i] == PercentAll(bs[1..])[i - 3];
        }
      }
    }
  }

  lemma QuoteCharChars(c: char)
    ensures forall i :: 0 <= i < |QuoteChar(c)| ==> QuotedChar(QuoteChar(c)[i])
  {
    PercentAllChars(Utf8(c));
  }

  lemma ConcatQuoted(a: string, b: string)
    requires forall i :: 0 <= i < |a| ==> QuotedChar(a[i])
    requires forall i :: 0 <= i < |b| ==> QuotedChar(b[i])
    ensures forall i :: 0 <= i < |a + b| ==> QuotedChar((a + b)[i])
  {
    forall i | 0 <= i < |a + b| ensures QuotedChar((a + b)[i]) {
      if i >= |a| {
        assert (a + b)[i] == b[i - |a|];
      }
    }
  }

  lemma {:induction false} QuotePlusChars(s: string)
    ensures forall i :: 0 <= i < |QuotePlus(s)| ==> QuotedChar(QuotePlus(s)[i])
  {
    if s != [] {
      QuotePlusChars(s[1..]);
      QuoteCharChars(s[0]);
      ConcatQuoted(QuoteChar(s[0]), QuotePlus(s[1..]));
    }
  }

  /** An encoded key or value never contains the pair and entry separators. */
  lemma QuotePlusHasNoSeparators(s: string)
    ensures '&' !in QuotePlus(s) && '=' !in QuotePlus(s)
  {
    QuotePlusChars(s);
  }

  // ---------------------------------------------------------------------
  // The reference decoder.

  /** The byte written as "%XY" at position i of s, or -1. */
  function TripleAt(s: string, i: nat): (b: int)
    ensures -1 <= b < 256
  {
    if i + 3 <= |s| && s[i] == '%' && IsHex(s[i + 1]) && IsHex(s[i + 2])
    then HexValue(s[i + 1]) * 16 + HexValue(s[i + 2])
    else -1
  }

  predicate IsCont(b: int) {
    0x80 <= b < 0xC0
  }

  predicate IsScalar(cp: int) {
    (0 <= cp < 0xD800) || (0xE000 <= cp < 0x110000)
  }

  /** Decodes one percent-encoded UTF-8 sequence at the start of s: the
      character and the number of characters of s it takes. */
  function DecodeAt(s: string): (r: Option<(char, nat)>)
    ensures r.Some? ==> 3 <= r.value.1 <= |s|
  {
    var b0 := TripleAt(s, 0);
    if 0 <= b0 < 0x80 then Some((b0 as char, 3))
    else if 0xC0 <= b0 < 0xE0 then
      var b1 := TripleAt(s, 3);
      var cp := (b0 - 0xC0) * 64 + (b1 - 0x80);
      if IsCont(b1) && IsScalar(cp) then Some((cp as char, 6)) else None
    else if 0xE0 <= b0 < 0xF0 then
      var b1, b2 := TripleAt(s, 3), TripleAt(s, 6);
      var cp := (b0 - 0xE0) * 4096 + (b1 - 0x80) * 64 + (b2 - 0x80);
      if IsCont(b1) && IsCont(b2) && IsScalar(cp) then Some((cp as char, 9)) else None
    else if 0xF0 <= b0 < 0xF8 then
      var b1, b2, b3 := TripleAt(s, 3), TripleAt(s, 6), TripleAt(s, 9);
      var cp := (b0 - 0xF0) * 262144 + (b1 - 0x80) * 4096 + (b2 - 0x80) * 64 + (b3 - 0x80);
      if IsCont(b1) && IsCont(b2) && IsCont(b3) && IsScalar(cp) then Some((cp as char, 12)) else None
    else None
  }

  /** unquote_plus on well-formed input: '+' is a space, a percent-encoded
      UTF-8 sequence is its character, anything else stands for itself. */
  function UnquotePlus(s: string): string
    decreases |s|
  {
    if s == [] then ""
    else if s[0] == '+' then " " + UnquotePlus(s[1..])
    else match DecodeAt(s)
      case Some((c, n)) => [c] + UnquotePlus(s[n..])
      case None => [s[0]] + UnquotePlus(s[1..])
  }

  lemma PercentAt(b: byte, rest: string)
    ensures TripleAt(Percent(b) + rest, 0) == b
  {
    HexRoundTrip(b / 16);
    HexRoundTrip(b % 16);
  }

  lemma {:induction false} TripleInPercentAll(bs: seq<byte>, k: nat, rest: string)
    requires k < |bs|
    ensures TripleAt(PercentAll(bs) + rest, 3 * k) == bs[k]
  {
    if k == 0 {
      assert PercentAll(bs) + rest == Percent(bs[0]) + (PercentAll(bs[1..]) + rest);
      PercentAt(bs[0], PercentAll(bs[1..]) + rest);
    } else {
      TripleInPercentAll(bs[1..], k - 1, rest);
      var t := PercentAll(bs[1..]) + rest;
      assert PercentAll(bs) + rest == Percent(bs[0]) + t;
      TripleShift(Percent(bs[0]), t, 3 * (k - 1));
    }
  }

  /** A triple read after a three-character prefix is the triple read from
      the rest. */
  lemma TripleShift(p: string, t: string, i: nat)
    requires |p| == 3
    ensures TripleAt(p + t, 3 + i) == TripleAt(t, i)
  {
    if i + 3 <= |t| {
      assert (p + t)[3 + i] == t[i];
      assert (p + t)[3 + i + 1] == t[i + 1];
      assert (p + t)[3 + i + 2] == t[i + 2];
    }
  }

  lemma Utf8Decodes(c: char, rest: string)
    requires !Unreserved(c) && c != ' '
    ensures DecodeAt(PercentAll(Utf8(c)) + rest) == Some((c, 3 * |Utf8(c)|))
  {
    var bs := Utf8(c);
    var s := PercentAll(bs) + rest;
    forall k | 0 <= k < |bs| ensures TripleAt(s, 3 * k) == bs[k] {
      TripleInPercentAll(bs, k, rest);
    }
    assert TripleAt(s, 0) == bs[0];
    if |bs| == 2 {
      assert TripleAt(s, 3) == bs[1];
      Decode2(s, c);
    } else if |bs| == 3 {
      assert TripleAt(s, 3) == bs[1];
      assert TripleAt(s, 6) == bs[2];
      Decode3(s, c);
    } else if |bs| == 4 {
      assert TripleAt(s, 3) == bs[1];
      assert TripleAt(s, 6) == bs[2];
      assert TripleAt(s, 9) == bs[3];
      Decode4(s, c);
    }
  }

  lemma Decode2(s: string, c: char)
    requires 0x80 <= c as int < 0x800
    requires TripleAt(s, 0) == 0xC0 + c as int / 64 && TripleAt(s, 3) == 0x80 + c as int % 64
    ensures DecodeAt(s) == Some((c, 6))
  {
    var cp := c as int;
    assert (cp / 64) * 64 + cp % 64 == cp;
  }

  lemma Decode3(s: string, c: char)
    requires 0x800 <= c as int < 0x10000
    requires TripleAt(s, 0) == 0xE0 + c as int / 4096
    requires TripleAt(s, 3) == 0x80 + (c as int / 64) % 64 && TripleAt(s, 6) == 0x80 + c as int % 64
    ensures DecodeAt(s) == Some((c, 9))
  {
    Split4096(c as int);
  }

  lemma Decode4(s: string, c: char)
    requires 0x10000 <= c as int
    requires TripleAt(s, 0) == 0xF0 + c as int / 262144 && TripleAt(s, 3) == 0x80 + (c as int / 4096) % 64
    requires TripleAt(s, 6) == 0x80 + (c as int / 64) % 64 && TripleAt(s, 9) == 0x80 + c as int % 64
    ensures DecodeAt(s) == Some((c, 12))
  {
    Split4096(c as int);
    Split262144(c as int);
  }

  lemma Split4096(cp: nat)
    ensures (cp / 4096) * 4096 + ((cp / 64) % 64) * 64 + cp % 64 == cp
  {
    var q := cp / 64;
    assert q * 64 + cp % 64 == cp;
    assert (q / 64) * 64 + q % 64 == q;
    assert cp / 4096 == q / 64;
  }

  lemma Split262144(cp: nat)
    requires cp < 0x110000
    ensures cp / 262144 < 8
    ensures (cp / 262144) * 262144 + ((cp / 4096) % 64) * 4096 + ((cp / 64) % 64) * 64 + cp % 64 == cp
  {
    var q := cp / 4096;
    Split4096(cp);
    assert (q / 64) * 64 + q % 64 == q;
    assert cp / 262144 == q / 64;
    assert (cp / 4096) * 4096 + ((cp / 64) % 64) * 64 + cp % 64 == cp;
  }

  lemma QuoteCharDecodes(c: char, rest: string)
    ensures UnquotePlus(QuoteChar(c) + rest) == [c] + UnquotePlus(rest)
  {
    var s := QuoteChar(c) + rest;
    if Unreserved(c) {
      assert s[1..] == rest;
      assert TripleAt(s, 0) == -1;
    } else if c == ' ' {
      assert s[1..] == rest;
    } else {
      Utf8Decodes(c, rest);
      assert s[0] == '%';
      assert s[3 * |Utf8(c)|..] == rest;
    }
  }

  /** unquote_plus(quote_plus(s)) == s. */
  lemma {:induction false} QuotePlusRoundTrip(s: string)
    ensures UnquotePlus(QuotePlus(s)) == s
  {
    if s != [] {
      QuoteCharDecodes(s[0], QuotePlus(s[1..]));
      QuotePlusRoundTrip(s[1..]);
      assert [s[0]] + s[1..] == s;
    }
  }

  // ---------------------------------------------------------------------
  // Query strings.

  /** str(k) and str(v) of each entry, quoted and written k=v. */
  function EncodeEntry(e: (string, Value)): string {
    QuotePlus(e.0) + "=" + QuotePlus(Str(e.1))
  }

  function EncodeEntries(d: Dict): (r: seq<string>)
    ensures |r| == |d|
    ensures forall i :: 0 <= i < |d| ==> r[i] == EncodeEntry(d[i])
  {
    if d == [] then [] else [EncodeEntry(d[0])] + EncodeEntries(d[1..])
  }

  /** urlencode(d) on an insertion-ordered dictionary. */
  function UrlEncode(d: Dict): string {
    Join(EncodeEntries(d), '&')
  }

  /** The entries of d with their values rendered by str(), which is what a
      server reading the query string receives. */
  function Rendered(d: Dict): (r: seq<(string, string)>)
    ensures |r| == |d|
    ensures forall i :: 0 <= i < |d| ==> r[i] == (d[i].0, Str(d[i].1))
  {
    if d == [] then [] else [(d[0].0, Str(d[0].1))] + Rendered(d[1..])
  }

  function ParseEntry(p: string): (string, string) {
    var kv := Split(p, '=');
    (UnquotePlus(kv[0]), if |kv| > 1 then UnquotePlus(kv[1]) else "")
  }

  /** parse_qsl-style reading of a query string (exact for the strings
      urlencode produces). */
  function ParseQuery(q: string): seq<(string, string)> {
    if q == "" then []
    else
      var parts := Split(q, '&');
      seq(|parts|, i requires 0 <= i < |parts| => ParseEntry(parts[i]))
  }

  lemma EntryRoundTrip(e: (string, Value))
    ensures ParseEntry(EncodeEntry(e)) == (e.0, Str(e.1))
  {
    var k, v := QuotePlus(e.0), QuotePlus(Str(e.1));
    QuotePlusHasNoSeparators(e.0);
    QuotePlusHasNoSeparators(Str(e.1));
    assert EncodeEntry(e) == Join([k, v], '=');
    SplitJoin([k, v], '=');
    QuotePlusRoundTrip(e.0);
    QuotePlusRoundTrip(Str(e.1));
  }

  /** Reading back the query string urlencode wrote gives every entry, in
      order, with its str()-rendered value. */
  lemma UrlEncodeRoundTrip(d: Dict)
    ensures ParseQuery(UrlEncode(d)) == Rendered(d)
  {
    var es := EncodeEntries(d);
    if d != [] {
      forall i | 0 <= i < |es| ensures '&' !in es[i] {
        QuotePlusHasNoSeparators(d[i].0);
        QuotePlusHasNoSeparators(Str(d[i].1));
        assert '&' !in "=";
      }
      SplitJoin(es, '&');
      assert '=' in es[0];
      assert Join(es, '&') != "";
      forall i | 0 <= i < |d| ensures ParseEntry(es[i]) == (d[i].0, Str(d[i].1)) {
        EntryRoundTrip(d[i]);
      }
    }
  }
}
