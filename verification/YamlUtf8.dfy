/** Bytes, Unicode characters and UTF-8 as the YAML engine handles them: bit masks
    on octets are written as ranges and remainders. */
module YamlUtf8 {
  import opened Bytes

  /** A Unicode scalar value. */
  type rune = v: int | 0 <= v < 0xD800 || 0xE000 <= v <= 0x10FFFF

  /** The UTF-8 form of a character (section 3 of RFC 3629). */
  function Encode(r: rune): (s: seq<byte>)
    ensures 1 <= |s| <= 4
  {
    if r <= 0x7F then [r]
    else if r <= 0x7FF then [0xC0 + r / 64, 0x80 + r % 64]
    else if r <= 0xFFFF then [0xE0 + r / 4096, 0x80 + r / 64 % 64, 0x80 + r % 64]
    else [0xF0 + r / 262144, 0x80 + r / 4096 % 64, 0x80 + r / 64 % 64, 0x80 + r % 64]
  }

  function EncodeAll(rs: seq<rune>): seq<byte> {
    if rs == [] then [] else Encode(rs[0]) + EncodeAll(rs[1..])
  }

  /** Width of the character that starts with octet `b`; 0 if none does. */
  function Width(b: byte): nat {
    if b < 0x80 then 1
    else if 0xC0 <= b < 0xE0 then 2
    else if 0xE0 <= b < 0xF0 then 3
    else if 0xF0 <= b < 0xF8 then 4
    else 0
  }

  /** The value bits of a leading octet. */
  function Lead(b: byte): nat {
    if b < 0x80 then b
    else if 0xC0 <= b < 0xE0 then b - 0xC0
    else if 0xE0 <= b < 0xF0 then b - 0xE0
    else if 0xF0 <= b < 0xF8 then b - 0xF0
    else 0
  }

  /** The value of a leading octet and its continuation octets. */
  function Decoded(s: seq<byte>): nat
    requires s != []
  {
    if |s| == 1 then Lead(s[0]) else Decoded(s[..|s| - 1]) * 64 + s[|s| - 1] % 64
  }

  lemma DecodedMore(s: seq<byte>, b: byte)
    requires s != []
    ensures Decoded(s + [b]) == Decoded(s) * 64 + b % 64
  {
    assert (s + [b])[..|s|] == s;
  }

  lemma DecodedIs(s: seq<byte>)
    requires 1 <= |s| <= 4
    ensures |s| == 1 ==> Decoded(s) == Lead(s[0])
    ensures |s| == 2 ==> Decoded(s) == Lead(s[0]) * 64 + s[1] % 64
    ensures |s| == 3 ==> Decoded(s) == (Lead(s[0]) * 64 + s[1] % 64) * 64 + s[2] % 64
    ensures |s| == 4 ==> Decoded(s) == ((Lead(s[0]) * 64 + s[1] % 64) * 64 + s[2] % 64) * 64 + s[3] % 64
  {
    if |s| > 1 {
      DecodedIs(s[..|s| - 1]);
    }
  }

  lemma ThreeOctets(r: nat)
    ensures (r / 4096 * 64 + r / 64 % 64) * 64 + r % 64 == r
  {
    assert r / 4096 == (r / 64) / 64;
  }

  lemma FourOctets(r: nat)
    ensures ((r / 262144 * 64 + r / 4096 % 64) * 64 + r / 64 % 64) * 64 + r % 64 == r
  {
    assert r / 262144 == (r / 4096) / 64;
    assert r / 262144 * 64 + r / 4096 % 64 == r / 4096;
    ThreeOctets(r);
  }

  lemma TailBits(x: nat)
    ensures (0x80 + x % 64) % 64 == x % 64
  {
  }

  lemma FourDecode(r: rune)
    requires r > 0xFFFF
    ensures Width(Encode(r)[0]) == 4 == |Encode(r)| && Decoded(Encode(r)) == r
  {
    DecodedIs(Encode(r));
    hide Decoded;
    TailBits(r / 4096);
    TailBits(r / 64);
    TailBits(r);
    FourOctets(r);
  }

  lemma ThreeDecode(r: rune)
    requires 0x7FF < r <= 0xFFFF
    ensures Width(Encode(r)[0]) == 3 == |Encode(r)| && Decoded(Encode(r)) == r
  {
    DecodedIs(Encode(r));
    hide Decoded;
    TailBits(r / 64);
    TailBits(r);
    ThreeOctets(r);
  }

  /** Encoding and decoding are inverse. */
  lemma EncodeDecodes(r: rune)
    ensures Width(Encode(r)[0]) == |Encode(r)| && Decoded(Encode(r)) == r
  {
    if r > 0xFFFF {
      FourDecode(r);
    } else if r > 0x7FF {
      ThreeDecode(r);
    } else {
      DecodedIs(Encode(r));
    }
    hide Decoded;
  }

  lemma {:induction false} EncodeAllAppend(a: seq<rune>, b: seq<rune>)
    ensures EncodeAll(a + b) == EncodeAll(a) + EncodeAll(b)
  {
    if a == [] {
      assert a + b == b;
    } else {
      assert (a + b)[1..] == a[1..] + b;
      EncodeAllAppend(a[1..], b);
    }
  }

  // -------------------------------------------------- tests on a byte buffer

  /** `b[i..]` starts with the octets `s`. */
  predicate Has(b: seq<byte>, i: nat, s: seq<byte>) {
    i + |s| <= |b| && b[i..i + |s|] == s
  }

  /** Every character is complete and something follows it, as in a buffer that ends in NUL. */
  ghost predicate Complete(b: seq<byte>) {
    && b != [] && b[|b| - 1] == 0
    && forall i | 0 <= i < |b| - 1 :: i + Width(b[i]) < |b|
  }

  predicate IsBreak(b: seq<byte>, i: nat)
    requires i < |b| && i + Width(b[i]) <= |b|
  {
    || b[i] == 0x0D || b[i] == 0x0A
    || (b[i] == 0xC2 && b[i + 1] == 0x85)
    || (b[i] == 0xE2 && b[i + 1] == 0x80 && b[i + 2] == 0xA8)
    || (b[i] == 0xE2 && b[i + 1] == 0x80 && b[i + 2] == 0xA9)
  }

  predicate IsBlank(b: seq<byte>, i: nat)
    requires i < |b|
  {
    b[i] == 0x20 || b[i] == 0x09
  }

  predicate IsBlankZ(b: seq<byte>, i: nat)
    requires i < |b| && i + Width(b[i]) <= |b|
  {
    IsBlank(b, i) || IsBreak(b, i) || b[i] == 0
  }

  /** Can be written without an escape, as far as its first octets tell. */
  predicate IsPrintable(b: seq<byte>, i: nat)
    requires i < |b| && i + Width(b[i]) <= |b|
  {
    || b[i] == 0x0A
    || 0x20 <= b[i] <= 0x7E
    || (b[i] == 0xC2 && b[i + 1] >= 0xA0)
    || 0xC2 < b[i] < 0xED
    || (b[i] == 0xED && b[i + 1] < 0xA0)
    || b[i] == 0xEE
    || (b[i] == 0xEF && !(b[i + 1] == 0xBB && b[i + 2] == 0xBF)
        && !(b[i + 1] == 0xBF && (b[i + 2] == 0xBE || b[i + 2] == 0xBF)))
  }

  // the same tests on characters

  predicate BreakRune(r: rune) {
    r == 0x0D || r == 0x0A || r == 0x85 || r == 0x2028 || r == 0x2029
  }

  predicate PrintableRune(r: rune) {
    r == 0x0A || 0x20 <= r <= 0x7E || 0xA0 <= r <= 0xD7FF || (0xE000 <= r <= 0xFFFD && r != 0xFEFF)
  }

  lemma OctetsOf(b: seq<byte>, i: nat, r: rune)
    requires Has(b, i, Encode(r))
    ensures i < |b| && b[i] == Encode(r)[0] && i + Width(b[i]) <= |b| && Width(b[i]) == |Encode(r)|
    ensures |Encode(r)| >= 2 ==> b[i + 1] == Encode(r)[1]
    ensures |Encode(r)| >= 3 ==> b[i + 2] == Encode(r)[2]
  {
    var s := Encode(r);
    EncodeDecodes(r);
    assert b[i] == b[i..i + |s|][0];
    assert |s| >= 2 ==> b[i + 1] == b[i..i + |s|][1];
    assert |s| >= 3 ==> b[i + 2] == b[i..i + |s|][2];
    hide Decoded, Encode;
  }

  /** On an encoded character the tests on octets say what the tests on characters say. */
  lemma BreaksAgree(b: seq<byte>, i: nat, r: rune)
    requires Has(b, i, Encode(r))
    ensures i < |b| && b[i] == Encode(r)[0] && i + Width(b[i]) <= |b| && Width(b[i]) == |Encode(r)|
    ensures IsBreak(b, i) <==> BreakRune(r)
    ensures b[i] < 0x80 <==> r < 0x80
    ensures r < 0x80 ==> b[i] == r
  {
    OctetsOf(b, i, r);
    hide Has, Decoded;
  }

  lemma PrintablesAgree(b: seq<byte>, i: nat, r: rune)
    requires Has(b, i, Encode(r))
    ensures i < |b| && i + Width(b[i]) <= |b|
    ensures IsPrintable(b, i) <==> PrintableRune(r)
  {
    OctetsOf(b, i, r);
    hide Has, Decoded;
  }
}
