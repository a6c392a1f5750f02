/**
 * UTF-8 (section 3 of RFC 3629), decoding that ignores errors, and the byte-limited
 * truncation of history excerpts. A Dafny `char` is a Unicode scalar value.
 */
module Utf8 {
  type Byte = b: int | 0 <= b < 256

  function EncodeChar(c: char): (r: seq<Byte>)
    ensures 1 <= |r| <= 4
  {
    var n := c as int;
    if n < 0x80 then [n]
    else if n < 0x800 then [0xC0 + n / 64, 0x80 + n % 64]
    else if n < 0x10000 then [0xE0 + n / 4096, 0x80 + n / 64 % 64, 0x80 + n % 64]
    else [0xF0 + n / 262144, 0x80 + n / 4096 % 64, 0x80 + n / 64 % 64, 0x80 + n % 64]
  }

  function Encode(s: string): seq<Byte> {
    if s == [] then [] else EncodeChar(s[0]) + Encode(s[1..])
  }

  /** `len(s.encode("utf-8"))` */
  function Size(s: string): nat {
    |Encode(s)|
  }

  predicate IsTail(b: Byte) {
    0x80 <= b <= 0xBF
  }

  /** The length of the well-formed sequence that `bs` starts with, or 0 (section 4 of RFC 3629). */
  function HeadLength(bs: seq<Byte>): (r: nat)
    ensures r <= |bs| && r <= 4
  {
    if |bs| == 0 then 0
    else if bs[0] < 0x80 then 1
    else if |bs| >= 2 && 0xC2 <= bs[0] <= 0xDF && IsTail(bs[1]) then 2
    else if |bs| >= 3 && 0xE0 <= bs[0] <= 0xEF && IsTail(bs[1]) && IsTail(bs[2])
            && (bs[0] == 0xE0 ==> bs[1] >= 0xA0) && (bs[0] == 0xED ==> bs[1] <= 0x9F) then 3
    else if |bs| >= 4 && 0xF0 <= bs[0] <= 0xF4 && IsTail(bs[1]) && IsTail(bs[2]) && IsTail(bs[3])
            && (bs[0] == 0xF0 ==> bs[1] >= 0x90) && (bs[0] == 0xF4 ==> bs[1] <= 0x8F) then 4
    else 0
  }

  function CodePoint(bs: seq<Byte>): int
    requires HeadLength(bs) > 0
  {
    var k := HeadLength(bs);
    if k == 1 then bs[0]
    else if k == 2 then (bs[0] as int - 0xC0) * 64 + (bs[1] as int - 0x80)
    else if k == 3 then (bs[0] as int - 0xE0) * 4096 + (bs[1] as int - 0x80) * 64 + (bs[2] as int - 0x80)
    else (bs[0] as int - 0xF0) * 262144 + (bs[1] as int - 0x80) * 4096 + (bs[2] as int - 0x80) * 64 + (bs[3] as int - 0x80)
  }

  /** `bs.decode("utf-8", errors="ignore")`: bytes that start no well-formed sequence are dropped. */
  function DecodeIgnoringErrors(bs: seq<Byte>): string {
    if bs == [] then []
    else if HeadLength(bs) == 0 then DecodeIgnoringErrors(bs[1..])
    else [CodePoint(bs) as char] + DecodeIgnoringErrors(bs[HeadLength(bs)..])
  }

  function Truncate(value: string, maximumBytes: nat): string {
    var encoded := Encode(value);
    if |encoded| <= maximumBytes then value else DecodeIgnoringErrors(encoded[..maximumBytes])
  }

  lemma DigitsRecombine(n: nat)
    ensures n == n / 64 * 64 + n % 64
    ensures n == n / 4096 * 4096 + n / 64 % 64 * 64 + n % 64
    ensures n == n / 262144 * 262144 + n / 4096 % 64 * 4096 + n / 64 % 64 * 64 + n % 64
  {
    assert n / 4096 == n / 64 / 64;
    assert n / 262144 == n / 4096 / 64;
  }

  lemma EncodedHead(c: char, rest: seq<Byte>)
    ensures HeadLength(EncodeChar(c) + rest) == |EncodeChar(c)|
    ensures CodePoint(EncodeChar(c) + rest) == c as int
  {
    var n := c as int;
    var bs := EncodeChar(c) + rest;
    DigitsRecombine(n);
    if n >= 0x10000 {
      assert bs[0] == 0xF0 + n / 262144 && bs[1] == 0x80 + n / 4096 % 64 && bs[2] == 0x80 + n / 64 % 64;
      assert n / 262144 == n / 4096 / 64;
    } else if n >= 0x800 {
      assert bs[0] == 0xE0 + n / 4096 && bs[1] == 0x80 + n / 64 % 64 && bs[2] == 0x80 + n % 64;
    } else if n >= 0x80 {
      assert bs[0] == 0xC0 + n / 64 && bs[1] == 0x80 + n % 64;
    }
  }

  lemma {:induction false} TailsDecodeToNothing(bs: seq<Byte>)
    requires forall i :: 0 <= i < |bs| ==> IsTail(bs[i])
    ensures DecodeIgnoringErrors(bs) == []
  {
    if bs == [] {
    } else {
      assert IsTail(bs[0]);
      TailsDecodeToNothing(bs[1..]);
    }
  }

  /** A cut inside a multi-byte sequence leaves bytes that decode to nothing. */
  lemma CutHeadDecodesToNothing(c: char, m: nat)
    requires m < |EncodeChar(c)|
    ensures DecodeIgnoringErrors(EncodeChar(c)[..m]) == []
  {
    var e := EncodeChar(c);
    if m > 0 {
      TailsDecodeToNothing(e[1..m]);
      assert e[..m][1..] == e[1..m];
      assert HeadLength(e[..m]) == 0;
    }
  }

  lemma {:induction false} DecodeInvertsEncode(s: string)
    ensures DecodeIgnoringErrors(Encode(s)) == s
  {
    if s == [] {
    } else {
      EncodedHead(s[0], Encode(s[1..]));
      DecodeInvertsEncode(s[1..]);
      assert Encode(s)[|EncodeChar(s[0])|..] == Encode(s[1..]);
    }
  }

  /** `k` is the length of the longest prefix of `s` whose encoding fits in `limit` bytes. */
  ghost predicate LongestFittingPrefix(s: string, limit: nat, k: nat) {
    && k <= |s|
    && Size(s[..k]) <= limit
    && forall j :: k < j <= |s| ==> Size(s[..j]) > limit
  }

  lemma {:induction false} CutEncodingDecodes(s: string, m: nat) returns (k: nat)
    requires m <= Size(s)
    ensures LongestFittingPrefix(s, m, k)
    ensures DecodeIgnoringErrors(Encode(s)[..m]) == s[..k]
  {
    if s == [] {
      k := 0;
    } else {
      var e := EncodeChar(s[0]);
      var rest := Encode(s[1..]);
      if m < |e| {
        assert Encode(s)[..m] == e[..m];
        CutHeadDecodesToNothing(s[0], m);
        k := 0;
        forall j | 0 < j <= |s| ensures Size(s[..j]) > m {
          assert s[..j][0] == s[0];
        }
      } else {
        var k' := CutEncodingDecodes(s[1..], m - |e|);
        k := k' + 1;
        assert Encode(s)[..m] == e + rest[..m - |e|];
        EncodedHead(s[0], rest[..m - |e|]);
        assert (e + rest[..m - |e|])[|e|..] == rest[..m - |e|];
        assert s[..k] == [s[0]] + s[1..][..k'];
        forall j | 0 < j <= |s| ensures Size(s[..j]) == |e| + Size(s[1..][..j - 1]) {
          assert s[..j][1..] == s[1..][..j - 1];
        }
      }
    }
  }

  /** Truncation returns the longest prefix, in whole code points, that fits the byte limit. */
  lemma TruncateIsLongestFittingPrefix(value: string, maximumBytes: nat)
    ensures exists k: nat :: LongestFittingPrefix(value, maximumBytes, k) && Truncate(value, maximumBytes) == value[..k]
  {
    if Size(value) <= maximumBytes {
      assert value[..|value|] == value;
      assert LongestFittingPrefix(value, maximumBytes, |value|);
    } else {
      var k := CutEncodingDecodes(value, maximumBytes);
    }
  }

  lemma {:induction false} SizeAppend(a: string, b: string)
    ensures Size(a + b) == Size(a) + Size(b)
  {
    if a == [] {
      assert a + b == b;
    } else {
      SizeAppend(a[1..], b);
      assert (a + b)[1..] == a[1..] + b;
    }
  }

  lemma {:induction false} EncodeAppend(a: string, b: string)
    ensures Encode(a + b) == Encode(a) + Encode(b)
  {
    hide EncodeChar;
    if a == [] {
      assert a + b == b;
    } else {
      EncodeAppend(a[1..], b);
      assert (a + b)[1..] == a[1..] + b;
    }
  }

  lemma EncodeOne(c: char)
    ensures Encode([c]) == EncodeChar(c)
  {
    assert [c][1..] == [];
  }

  /** The examples of section 7 of RFC 3629 that have two, three and four octets. */
  lemma StandardExamples()
    ensures Encode("\U{0391}") == [0xCE, 0x91]
    ensures Encode("\U{2262}") == [0xE2, 0x89, 0xA2]
    ensures Encode("\U{233B4}") == [0xF0, 0xA3, 0x8E, 0xB4]
    ensures Encode("A\U{2262}\U{0391}.") == [0x41, 0xE2, 0x89, 0xA2, 0xCE, 0x91, 0x2E]
  {
    EncodeOne('\U{0391}');
    EncodeOne('\U{2262}');
    EncodeOne('\U{233B4}');
    EncodeOne('A');
    EncodeOne('.');
    EncodeAppend("A\U{2262}\U{0391}", ".");
    EncodeAppend("A\U{2262}", "\U{0391}");
    EncodeAppend("A", "\U{2262}");
  }
}
