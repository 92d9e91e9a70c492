/** utf8ToMojibake of listbin.go: UTF-8 text (section 3 of RFC 3629) re-encoded byte by byte as if
    its bytes were Latin-1 code points. A Go string is a byte string; ranging over it decodes runes,
    one replacement rune for each byte that starts no well-formed sequence. */
module Mojibake {
  import opened Varint

  type Bytes = seq<Byte>
  type Rune = r: int | 0 <= r <= 0x10FFFF

  const RUNE_ERROR: Rune := 0xFFFD

  /** Unicode scalar values: everything but the surrogates. */
  predicate Scalar(r: Rune) {
    !(0xD800 <= r <= 0xDFFF)
  }

  function EncodeRune(r: Rune): (s: Bytes)
    ensures 1 <= |s| <= 4
  {
    if r < 0x80 then [r]
    else if r < 0x800 then [0xC0 + r / 64, 0x80 + r % 64]
    else if r < 0x10000 then [0xE0 + r / 4096, 0x80 + r / 64 % 64, 0x80 + r % 64]
    else [0xF0 + r / 262144, 0x80 + r / 4096 % 64, 0x80 + r / 64 % 64, 0x80 + r % 64]
  }

  predicate Tail(b: Byte) {
    0x80 <= b < 0xC0
  }

  /** Second bytes a three-byte sequence may have after b: no overlong forms, no surrogates. */
  predicate SecondOfThree(b: Byte, c: Byte) {
    (if b == 0xE0 then 0xA0 else 0x80) <= c < (if b == 0xED then 0xA0 else 0xC0)
  }

  /** Second bytes a four-byte sequence may have after b: no overlong forms, nothing past U+10FFFF. */
  predicate SecondOfFour(b: Byte, c: Byte) {
    (if b == 0xF0 then 0x90 else 0x80) <= c < (if b == 0xF4 then 0x90 else 0xC0)
  }

  /** Length of the well-formed sequence at the start of s, 0 when there is none. */
  function WellFormedWidth(s: Bytes): (n: nat)
    ensures n <= |s| && n <= 4
  {
    if |s| >= 1 && s[0] < 0x80 then 1
    else if |s| >= 2 && 0xC2 <= s[0] < 0xE0 && Tail(s[1]) then 2
    else if |s| >= 3 && 0xE0 <= s[0] < 0xF0 && SecondOfThree(s[0], s[1]) && Tail(s[2]) then 3
    else if |s| >= 4 && 0xF0 <= s[0] < 0xF5 && SecondOfFour(s[0], s[1]) && Tail(s[2]) && Tail(s[3]) then 4
    else 0
  }

  /** Appends the six payload bits of a tail byte. */
  function Join(high: int, b: Byte): int {
    high * 64 + (b - 0x80)
  }

  /** The first rune of s and how many bytes it takes. */
  function DecodeRune(s: Bytes): (d: (Rune, nat))
    requires s != []
    ensures 1 <= d.1 <= |s|
  {
    var n := WellFormedWidth(s);
    if n == 0 then (RUNE_ERROR, 1)
    else if n == 1 then (s[0], 1)
    else if n == 2 then (Join(s[0] - 0xC0, s[1]), 2)
    else if n == 3 then (Join(Join(s[0] - 0xE0, s[1]), s[2]), 3)
    else (Join(Join(Join(s[0] - 0xF0, s[1]), s[2]), s[3]), 4)
  }

  function Runes(s: Bytes): seq<Rune> {
    if s == [] then [] else [DecodeRune(s).0] + Runes(s[DecodeRune(s).1..])
  }

  function Utf8(rs: seq<Rune>): Bytes {
    if rs == [] then [] else EncodeRune(rs[0]) + Utf8(rs[1..])
  }

  ghost predicate Valid(s: Bytes) {
    exists rs: seq<Rune> :: (forall r :: r in rs ==> Scalar(r)) && Utf8(rs) == s
  }

  predicate Ascii(s: Bytes) {
    forall i :: 0 <= i < |s| ==> s[i] < 0x80
  }

  // ---- Runes and their encodings ----

  lemma Digits(r: Rune)
    ensures r == r / 64 * 64 + r % 64
    ensures r / 64 == r / 4096 * 64 + r / 64 % 64
    ensures r / 4096 == r / 262144 * 64 + r / 4096 % 64
  {
  }

  lemma JoinSplits(high: nat, b: Byte)
    requires Tail(b)
    ensures Join(high, b) / 64 == high && Join(high, b) % 64 == b - 0x80
  {
  }

  lemma {:induction false} DecodeEncoded(r: Rune, rest: Bytes)
    requires Scalar(r)
    ensures DecodeRune(EncodeRune(r) + rest) == (r, |EncodeRune(r)|)
  {
    Digits(r);
    var e := EncodeRune(r);
    var s := e + rest;
    assert forall k :: 0 <= k < |e| ==> s[k] == e[k];
    if r < 0x80 {
      assert WellFormedWidth(s) == 1;
    } else if r < 0x800 {
      assert WellFormedWidth(s) == 2;
    } else if r < 0x10000 {
      assert WellFormedWidth(s) == 3;
      assert Join(s[0] - 0xE0, s[1]) == r / 64;
    } else {
      assert WellFormedWidth(s) == 4;
      assert Join(s[0] - 0xF0, s[1]) == r / 4096;
      assert Join(r / 4096, s[2]) == r / 64;
    }
  }

  lemma {:induction false} EncodeDecoded(s: Bytes)
    requires s != []
    ensures Scalar(DecodeRune(s).0)
    ensures WellFormedWidth(s) != 0 ==> EncodeRune(DecodeRune(s).0) == s[..DecodeRune(s).1]
  {
    var n := WellFormedWidth(s);
    if n == 2 {
      JoinSplits(s[0] - 0xC0, s[1]);
    } else if n == 3 {
      DecodedThree(s);
    } else if n == 4 {
      DecodedFour(s);
    }
  }

  lemma {:induction false} DecodedThree(s: Bytes)
    requires WellFormedWidth(s) == 3
    ensures Scalar(DecodeRune(s).0) && EncodeRune(DecodeRune(s).0) == s[..3]
  {
    hide Join;
    var h := s[0] - 0xE0;
    JoinOfTail(h, s[1]);
    JoinOfTail(Join(h, s[1]), s[2]);
    JoinSplits(h, s[1]);
    JoinSplits(Join(h, s[1]), s[2]);
    Digits(Join(Join(h, s[1]), s[2]));
  }

  lemma {:induction false} DecodedFour(s: Bytes)
    requires WellFormedWidth(s) == 4
    ensures Scalar(DecodeRune(s).0) && EncodeRune(DecodeRune(s).0) == s[..4]
  {
    hide Join;
    var h := s[0] - 0xF0;
    var i, j, r := Join(h, s[1]), Join(Join(h, s[1]), s[2]), Join(Join(Join(h, s[1]), s[2]), s[3]);
    JoinOfTail(h, s[1]);
    JoinOfTail(i, s[2]);
    JoinOfTail(j, s[3]);
    JoinSplits(h, s[1]);
    JoinSplits(i, s[2]);
    JoinSplits(j, s[3]);
    Digits(r);
    assert r >= 0x10000;
    assert r / 64 == j && r / 4096 == i && r / 262144 == h;
    assert EncodeRune(r) == [s[0], s[1], s[2], s[3]];
  }

  lemma JoinOfTail(high: int, b: Byte)
    ensures Join(high, b) == high * 64 + (b - 0x80)
  {
  }

  lemma {:induction false} RunesUtf8(rs: seq<Rune>)
    requires forall r :: r in rs ==> Scalar(r)
    ensures Runes(Utf8(rs)) == rs
  {
    hide EncodeRune, DecodeRune;
    if rs != [] {
      var e, rest := EncodeRune(rs[0]), Utf8(rs[1..]);
      DecodeEncoded(rs[0], rest);
      assert (e + rest)[|e|..] == rest;
      RunesUtf8(rs[1..]);
    }
  }

  lemma {:induction false} RunesScalar(s: Bytes)
    ensures forall r :: r in Runes(s) ==> Scalar(r)
    decreases |s|
  {
    hide DecodeRune;
    if s != [] {
      EncodeDecoded(s);
      RunesScalar(s[DecodeRune(s).1..]);
    }
  }

  lemma {:induction false} Utf8Concat(a: seq<Rune>, b: seq<Rune>)
    ensures Utf8(a + b) == Utf8(a) + Utf8(b)
  {
    hide EncodeRune;
    if a == [] {
      assert [] + b == b;
    } else {
      assert (a + b)[1..] == a[1..] + b;
      Utf8Concat(a[1..], b);
    }
  }

  lemma {:induction false} Utf8Ascii(s: Bytes)
    requires Ascii(s)
    ensures Utf8(s) == s
  {
    if s != [] {
      Utf8Ascii(s[1..]);
    }
  }

  lemma {:induction false} RunesAscii(s: Bytes)
    ensures Ascii(s) <==> forall r :: r in Runes(s) ==> r < 0x80
    ensures Ascii(s) ==> Runes(s) == s
    decreases |s|
  {
    if s != [] {
      var (r, n) := DecodeRune(s);
      var tail := s[n..];
      RunesAscii(tail);
      assert Runes(s) == [r] + Runes(tail);
      assert r in Runes(s);
      assert forall x :: x in Runes(tail) ==> x in Runes(s);
      if s[0] < 0x80 {
        assert s == [s[0]] + tail;
      } else {
        BigStart(s);
      }
    }
  }

  lemma {:induction false} BigStart(s: Bytes)
    requires s != [] && s[0] >= 0x80
    ensures DecodeRune(s).0 >= 0x80
  {
  }

  // ---- The code ----

  /** The UTF-8 bytes of the input's runes, encoded again as if each byte were a code point. */
  function MojibakeOf(s: Bytes): Bytes {
    Utf8(Utf8(Runes(s)))
  }

  method WriteBytes(out: Bytes, buf: Bytes) returns (b: Bytes)
    ensures b == out + Utf8(buf)
  {
    b := out;
    var i := 0;
    assert buf[..0] == [];
    while i < |buf|
      invariant i <= |buf| && b == out + Utf8(buf[..i])
    {
      b := b + EncodeRune(buf[i]);
      assert buf[..i + 1] == buf[..i] + [buf[i]];
      Utf8Concat(buf[..i], [buf[i]]);
      i := i + 1;
    }
    assert buf[..i] == buf;
  }

  method Utf8ToMojibake(s: Bytes) returns (out: Bytes)
    ensures out == MojibakeOf(s)
  {
    hide EncodeRune, DecodeRune;
    var b: Bytes := [];
    var changed := false;
    var i := 0;
    ghost var rs: seq<Rune> := [];
    assert s[0..] == s;
    while i < |s|
      invariant i <= |s|
      invariant Runes(s) == rs + Runes(s[i..])
      invariant b == Utf8(Utf8(rs))
      invariant changed <==> exists r :: r in rs && r >= 0x80
      decreases |s| - i
    {
      var (r, n) := DecodeRune(s[i..]);
      Utf8Single(r);
      Utf8Concat(rs, [r]);
      Utf8Concat(Utf8(rs), EncodeRune(r));
      assert r in rs + [r];
      assert forall x :: x in rs + [r] <==> x in rs || x == r;
      if r >= 0x80 {
        b := WriteBytes(b, EncodeRune(r));
        changed := true;
      } else {
        Utf8OfSmall(r);
        b := b + EncodeRune(r);
      }
      assert s[i..][n..] == s[i + n..];
      assert rs + ([r] + Runes(s[i + n..])) == rs + [r] + Runes(s[i + n..]);
      rs := rs + [r];
      i := i + n;
    }
    assert s[i..] == [];
    assert Runes(s) == rs;
    if !changed {
      RunesAscii(s);
      Utf8Ascii(s);
      return s;
    }
    return b;
  }

  lemma Utf8Single(r: Rune)
    ensures Utf8([r]) == EncodeRune(r)
  {
    assert [r][1..] == [];
  }

  lemma Utf8OfSmall(r: Rune)
    requires r < 0x80
    ensures Utf8(EncodeRune(r)) == EncodeRune(r)
  {
    assert [r][1..] == [];
  }

  // ---- What the output is ----

  /** For every input the output's code points are the UTF-8 bytes of the input's runes, all below 256. */
  lemma {:induction false} OutputCodePoints(s: Bytes)
    ensures Runes(MojibakeOf(s)) == Utf8(Runes(s))
    ensures forall r :: r in Runes(MojibakeOf(s)) ==> r < 256
  {
    var bytes := Utf8(Runes(s));
    RunesUtf8(bytes);
  }

  /** Valid text is exactly the text that decoding and encoding gives back. */
  lemma {:induction false} ValidRoundTrip(s: Bytes)
    ensures Valid(s) <==> Utf8(Runes(s)) == s
  {
    RunesScalar(s);
    if Valid(s) {
      var rs: seq<Rune> :| (forall r :: r in rs ==> Scalar(r)) && Utf8(rs) == s;
      RunesUtf8(rs);
    }
  }

  /** Read as bytes, the output's code points give the input back exactly when the input is valid UTF-8. */
  lemma {:induction false} Invertible(s: Bytes)
    ensures Valid(s) <==> Runes(MojibakeOf(s)) == s
  {
    OutputCodePoints(s);
    ValidRoundTrip(s);
  }

  lemma {:induction false} Injective(s: Bytes, t: Bytes)
    requires Valid(s) && Valid(t) && MojibakeOf(s) == MojibakeOf(t)
    ensures s == t
  {
    Invertible(s);
    Invertible(t);
  }

  /** Two invalid strings with one output: off valid text the map does not invert. */
  lemma InvalidCollide()
    ensures MojibakeOf([0xFF]) == MojibakeOf([0xFE]) && !Valid([0xFF]) && !Valid([0xFE])
  {
    ErrorByte(0xFF);
    ErrorByte(0xFE);
    ValidRoundTrip([0xFF]);
    ValidRoundTrip([0xFE]);
    assert EncodeRune(RUNE_ERROR) == [0xEF, 0xBF, 0xBD];
  }

  lemma ErrorByte(b: Byte)
    requires b >= 0xF5
    ensures Runes([b]) == [RUNE_ERROR]
    ensures Utf8(Runes([b])) == EncodeRune(RUNE_ERROR)
  {
    assert [b][1..] == [];
    assert [RUNE_ERROR][1..] == [];
  }

  lemma {:induction false} Utf8Length(rs: seq<Rune>)
    ensures |Utf8(rs)| >= |rs|
    ensures |Utf8(rs)| == |rs| ==> forall r :: r in rs ==> r < 0x80
  {
    if rs != [] {
      Utf8Length(rs[1..]);
      assert rs == [rs[0]] + rs[1..];
    }
  }

  /** The map is the identity precisely on ASCII. */
  lemma {:induction false} IdentityOnAscii(s: Bytes)
    ensures MojibakeOf(s) == s <==> Ascii(s)
  {
    RunesAscii(s);
    if Ascii(s) {
      Utf8Ascii(s);
    } else if MojibakeOf(s) == s {
      OutputCodePoints(s);
      Utf8Length(Runes(s));
    }
  }

  /** The encoding in figures: one byte below 128, two below 2048, three below 65536, four from there on. The first
      byte tells the length, the others are tails, and the payloads, six bits a tail, make up the rune. */
  lemma EncodingFigures(r: Rune)
    ensures var e := EncodeRune(r);
            && |e| == (if r < 128 then 1 else if r < 2048 then 2 else if r < 65536 then 3 else 4)
            && (forall i :: 1 <= i < |e| ==> 128 <= e[i] < 192)
            && (|e| == 1 ==> e[0] == r)
            && (|e| == 2 ==> 194 <= e[0] < 224 && r == 64 * (e[0] as int - 192) + (e[1] as int - 128))
            && (|e| == 3 ==> 224 <= e[0] < 240 && r == 4096 * (e[0] as int - 224) + 64 * (e[1] as int - 128) + (e[2] as int - 128))
            && (|e| == 4 ==> 240 <= e[0] < 245 &&
                             r == 262144 * (e[0] as int - 240) + 4096 * (e[1] as int - 128) + 64 * (e[2] as int - 128) + (e[3] as int - 128))
  {
    Digits(r);
  }

  /** An accented letter, C3 A9, comes out as the two letters its bytes are in Latin-1; a byte that starts nothing comes
      out as the three of the replacement character. */
  lemma SampleTexts()
    ensures MojibakeOf([0x61, 0xC3, 0xA9]) == [0x61, 0xC3, 0x83, 0xC2, 0xA9]
    ensures MojibakeOf([0xFF]) == [0xC3, 0xAF, 0xC2, 0xBF, 0xC2, 0xBD]
  {
    assert [0x61, 0xC3, 0xA9][1..] == [0xC3, 0xA9] && [0xC3, 0xA9][2..] == [];
    assert DecodeRune([0xC3, 0xA9]) == (0xE9, 2);
    assert Runes([0xC3, 0xA9]) == [0xE9] + [];
    assert Runes([0x61, 0xC3, 0xA9]) == [0x61, 0xE9];
    Utf8Single(0xE9);
    assert [0x61, 0xE9][1..] == [0xE9];
    assert Utf8([0x61, 0xE9]) == [0x61, 0xC3, 0xA9];
    Twice(0xC3, 0xA9);
    assert Utf8([0x61, 0xC3, 0xA9]) == [0x61] + Utf8([0xC3, 0xA9]);
    ErrorByte(0xFF);
    assert EncodeRune(RUNE_ERROR) == [0xEF, 0xBF, 0xBD];
    Twice(0xBF, 0xBD);
    assert [0xEF, 0xBF, 0xBD][1..] == [0xBF, 0xBD];
    assert Utf8([0xEF, 0xBF, 0xBD]) == [0xC3, 0xAF] + Utf8([0xBF, 0xBD]);
  }

  lemma Twice(a: Byte, b: Byte)
    ensures Utf8([a, b]) == EncodeRune(a) + EncodeRune(b)
  {
    assert [a, b][1..] == [b];
    Utf8Single(b);
  }
}
