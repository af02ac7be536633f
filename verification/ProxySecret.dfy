/** Proxy secrets and their link form (td/mtproto/ProxySecret.cpp), with the hexadecimal and base64url coders it uses
    (tdutils/td/utils/misc.cpp, tdutils/td/utils/base64.cpp). Characters are their byte values. */
module ProxySecret {
  import opened Bytes

  const MAX_DOMAIN_LENGTH := 182

  // ------------------------------------------------------------ hexadecimal

  /** The digits 0-9 and a-f. */
  function HexDigit(v: nat): byte
    requires v < 16
  {
    if v < 10 then 0x30 + v else 0x61 + (v - 10)
  }

  /** c | 0x20. */
  function Lower(c: byte): nat { if c / 32 % 2 == 1 then c else c + 32 }

  function HexToInt(c: byte): (v: nat)
    ensures v <= 16
  {
    if 0x30 <= c <= 0x39 then c - 0x30
    else if 0x61 <= Lower(c) <= 0x66 then Lower(c) - 0x61 + 10
    else 16
  }

  function HexEncode(s: seq<byte>): (r: seq<byte>)
    ensures |r| == 2 * |s|
  {
    if s == [] then [] else [HexDigit(s[0] / 16), HexDigit(s[0] % 16)] + HexEncode(s[1..])
  }

  function HexPairs(h: seq<byte>): Option<seq<byte>>
    requires |h| % 2 == 0
  {
    if h == [] then Some([])
    else
      var high, low := HexToInt(h[0]), HexToInt(h[1]);
      if high == 16 || low == 16 then None
      else
        var rest := HexPairs(h[2..]);
        if rest.None? then None else Some([high * 16 + low] + rest.value)
  }

  function HexDecode(h: seq<byte>): Option<seq<byte>> {
    if |h| % 2 != 0 then None else HexPairs(h)
  }

  lemma HexDigitBack(v: nat)
    requires v < 16
    ensures HexToInt(HexDigit(v)) == v
  {}

  lemma {:induction false} HexRoundTrip(s: seq<byte>)
    ensures HexDecode(HexEncode(s)) == Some(s)
  {
    if s == [] {
    } else {
      var h := HexEncode(s);
      HexDigitBack(s[0] / 16);
      HexDigitBack(s[0] % 16);
      assert h[2..] == HexEncode(s[1..]);
      HexRoundTrip(s[1..]);
      assert s[0] / 16 * 16 + s[0] % 16 == s[0];
      assert [s[0]] + s[1..] == s;
    }
  }

  // ------------------------------------------------------------ base64url

  /** A-Z, a-z, 0-9, minus and underscore. */
  function Char64(v: nat): byte
    requires v < 64
  {
    if v < 26 then 0x41 + v
    else if v < 52 then 0x61 + (v - 26)
    else if v < 62 then 0x30 + (v - 52)
    else if v == 62 then 0x2d
    else 0x5f
  }

  /** 64 for a character outside the alphabet. */
  function Value64(c: byte): (v: nat)
    ensures v <= 64
  {
    if 0x41 <= c <= 0x5a then c - 0x41
    else if 0x61 <= c <= 0x7a then c - 0x61 + 26
    else if 0x30 <= c <= 0x39 then c - 0x30 + 52
    else if c == 0x2d then 62
    else if c == 0x5f then 63
    else 64
  }

  lemma Char64Back(v: nat)
    requires v < 64
    ensures Value64(Char64(v)) == v && Char64(v) != 0x3d
  {}

  function Word(a: int, b: int, d: int): int { 65536 * a + 256 * b + d }

  /** Up to three bytes as two to four characters. */
  function Encode3(s: seq<byte>): seq<byte>
    requires 1 <= |s| <= 3
  {
    var c := Word(s[0], if |s| > 1 then s[1] else 0, if |s| > 2 then s[2] else 0);
    [Char64(c / 262144), Char64(c / 4096 % 64)] +
    (if |s| > 1 then [Char64(c / 64 % 64)] else []) + (if |s| > 2 then [Char64(c % 64)] else [])
  }

  function Base64Encode(s: seq<byte>): seq<byte> {
    if s == [] then []
    else if |s| <= 3 then Encode3(s)
    else Encode3(s[..3]) + Base64Encode(s[3..])
  }

  /** Two to four characters back to bytes; the unused low bits must be zero. */
  function Decode4(b: seq<byte>): Option<seq<byte>>
    requires 2 <= |b| <= 4
  {
    var v0, v1 := Value64(b[0]), Value64(b[1]);
    var v2 := if |b| > 2 then Value64(b[2]) else 0;
    var v3 := if |b| > 3 then Value64(b[3]) else 0;
    if v0 == 64 || v1 == 64 || v2 == 64 || v3 == 64 then None
    else
      var c := 262144 * v0 + 4096 * v1 + 64 * v2 + v3;
      if |b| == 2 then if c % 65536 != 0 then None else Some([c / 65536 % 256])
      else if |b| == 3 then if c % 256 != 0 then None else Some([c / 65536 % 256, c / 256 % 256])
      else Some([c / 65536 % 256, c / 256 % 256, c % 256])
  }

  function DecodeGroups(b: seq<byte>): Option<seq<byte>>
    requires |b| % 4 != 1
  {
    if b == [] then Some([])
    else if |b| <= 4 then Decode4(b)
    else
      assert |b[4..]| % 4 == |b| % 4;
      var first, rest := Decode4(b[..4]), DecodeGroups(b[4..]);
      if first.None? || rest.None? then None else Some(first.value + rest.value)
  }

  function DropPadding(b: seq<byte>): seq<byte> {
    if b != [] && b[|b| - 1] == 0x3d then DropPadding(b[..|b| - 1]) else b
  }

  function Base64Decode(b: seq<byte>): Option<seq<byte>> {
    var d := DropPadding(b);
    var padding := |b| - |d|;
    if padding >= 3 || (padding > 0 && |b| % 4 != 0) || |d| % 4 == 1 then None else DecodeGroups(d)
  }

  lemma By256(c: int, q: int, r: int)
    requires c == 256 * q + r && 0 <= r < 256
    ensures c / 256 == q && c % 256 == r
  {}

  lemma By65536(c: int, q: int, r: int)
    requires c == 65536 * q + r && 0 <= r < 65536
    ensures c / 65536 == q && c % 65536 == r
  {}

  lemma By64(c: int)
    ensures c == 64 * (c / 64) + c % 64 && 0 <= c % 64 < 64
  {}

  lemma By4096(c: int, q: int, r: int)
    requires c == 4096 * q + r && 0 <= r < 4096
    ensures c / 4096 == q
  {}

  lemma By262144(c: int, q: int, r: int)
    requires c == 262144 * q + r && 0 <= r < 262144
    ensures c / 262144 == q
  {}

  /** The four six-bit parts make up the word. */
  lemma Sextets(c: int)
    requires 0 <= c < 0x100_0000
    ensures 0 <= c / 262144 < 64 && 0 <= c / 4096 && 0 <= c / 64
    ensures 262144 * (c / 262144) + 4096 * (c / 4096 % 64) + 64 * (c / 64 % 64) + c % 64 == c
  {
    var x := c / 64;
    By64(c);
    By64(x);
    var y := x / 64;
    By64(y);
    var z := y / 64;
    By4096(c, y, 64 * (x % 64) + c % 64);
    By262144(c, z, 4096 * (y % 64) + 64 * (x % 64) + c % 64);
  }

  lemma Octets(a: byte, b: byte, d: byte)
    ensures var c := Word(a, b, d);
            0 <= c < 0x100_0000 && c / 65536 % 256 == a && c / 256 % 256 == b && c % 256 == d
  {
    var c := Word(a, b, d);
    By256(c, 256 * (a as int) + b, d);
    By256(256 * (a as int) + b, a, b);
    By65536(c, a, 256 * (b as int) + d);
  }

  lemma Group3RoundTrip(s: seq<byte>)
    requires 1 <= |s| <= 3
    ensures |Encode3(s)| == |s| + 1 && Decode4(Encode3(s)) == Some(s)
    ensures Encode3(s)[|s|] != 0x3d
  {
    var a, b, d := s[0], if |s| > 1 then s[1] else 0, if |s| > 2 then s[2] else 0;
    assert s == if |s| == 1 then [a] else if |s| == 2 then [a, b] else [a, b, d];
    if |s| == 1 {
      OneByte(a);
    } else if |s| == 2 {
      TwoBytes(a, b);
    } else {
      ThreeBytes(a, b, d);
    }
    hide *;
  }

  /** Decoding characters of known values. */
  lemma DecodeValues(v0: nat, v1: nat, v2: nat, v3: nat)
    requires v0 < 64 && v1 < 64 && v2 < 64 && v3 < 64
    ensures var c := 262144 * v0 + 4096 * v1 + 64 * v2 + v3;
            Decode4([Char64(v0), Char64(v1), Char64(v2), Char64(v3)]) == Some([c / 65536 % 256, c / 256 % 256, c % 256]) &&
            (v3 == 0 && c % 256 == 0 ==>
               Decode4([Char64(v0), Char64(v1), Char64(v2)]) == Some([c / 65536 % 256, c / 256 % 256])) &&
            (v2 == 0 && v3 == 0 && c % 65536 == 0 ==> Decode4([Char64(v0), Char64(v1)]) == Some([c / 65536 % 256]))
  {
    Char64Back(v0);
    Char64Back(v1);
    Char64Back(v2);
    Char64Back(v3);
    hide Char64;
    hide Value64;
  }

  lemma EncodeValues(a: byte, b: byte, d: byte, n: nat)
    requires 1 <= n <= 3 && (n < 3 ==> d == 0) && (n < 2 ==> b == 0)
    ensures var c := Word(a, b, d);
            0 <= c / 262144 < 64 && 0 <= c / 4096 && 0 <= c / 64 &&
            Encode3([a, b, d][..n]) == [Char64(c / 262144), Char64(c / 4096 % 64), Char64(c / 64 % 64), Char64(c % 64)][..n + 1]
  {
    Octets(a, b, d);
    Sextets(Word(a, b, d));
    hide Char64;
    hide Word;
  }

  lemma OneByte(a: byte)
    ensures var e := Encode3([a]); |e| == 2 && Decode4(e) == Some([a]) && e[1] != 0x3d
  {
    hide *;
    var c := Word(a, 0, 0);
    EncodeValues(a, 0, 0, 1);
    assert [a, 0, 0][..1] == [a];
    var v0, v1, v2, v3 := c / 262144, c / 4096 % 64, c / 64 % 64, c % 64;
    assert [Char64(v0), Char64(v1), Char64(v2), Char64(v3)][..2] == [Char64(v0), Char64(v1)];
    DecodeValues(v0, v1, v2, v3);
    Char64Back(c / 4096 % 64);
    LowSextets(a, 0, 1);
    Sextets(c);
    Octets(a, 0, 0);
  }

  lemma TwoBytes(a: byte, b: byte)
    ensures var e := Encode3([a, b]); |e| == 3 && Decode4(e) == Some([a, b]) && e[2] != 0x3d
  {
    hide *;
    var c := Word(a, b, 0);
    EncodeValues(a, b, 0, 2);
    assert [a, b, 0][..2] == [a, b];
    var v0, v1, v2, v3 := c / 262144, c / 4096 % 64, c / 64 % 64, c % 64;
    assert [Char64(v0), Char64(v1), Char64(v2), Char64(v3)][..3] == [Char64(v0), Char64(v1), Char64(v2)];
    DecodeValues(v0, v1, v2, v3);
    Char64Back(c / 64 % 64);
    LowSextets(a, b, 2);
    Octets(a, b, 0);
    Sextets(c);
  }

  lemma ThreeBytes(a: byte, b: byte, d: byte)
    ensures var e := Encode3([a, b, d]); |e| == 4 && Decode4(e) == Some([a, b, d]) && e[3] != 0x3d
  {
    hide *;
    var c := Word(a, b, d);
    EncodeValues(a, b, d, 3);
    assert [a, b, d][..3] == [a, b, d];
    var v0, v1, v2, v3 := c / 262144, c / 4096 % 64, c / 64 % 64, c % 64;
    assert [Char64(v0), Char64(v1), Char64(v2), Char64(v3)][..4] == [Char64(v0), Char64(v1), Char64(v2), Char64(v3)];
    DecodeValues(v0, v1, v2, v3);
    Char64Back(c % 64);
    Octets(a, b, d);
    Sextets(c);
  }

  /** The characters that are left out would be zero. */
  lemma LowSextets(a: byte, b: byte, n: nat)
    ensures n == 1 ==> Word(a, 0, 0) % 64 == 0 && Word(a, 0, 0) / 64 % 64 == 0 && Word(a, 0, 0) % 65536 == 0
    ensures n == 2 ==> Word(a, b, 0) % 64 == 0 && Word(a, b, 0) % 256 == 0
  {
    var i, j: int := a, b;
    if n == 1 {
      Times64(1024 * i);
      Times64(16 * i);
      assert Word(a, 0, 0) == 64 * (1024 * i) && 1024 * i == 64 * (16 * i);
      By65536(Word(a, 0, 0), i, 0);
    } else {
      Times64(1024 * i + 4 * j);
      assert Word(a, b, 0) == 64 * (1024 * i + 4 * j);
      By256(Word(a, b, 0), 256 * i + j, 0);
    }
    hide Word;
  }

  lemma Times64(q: int)
    ensures 64 * q / 64 == q && 64 * q % 64 == 0
  {}

  lemma {:induction false} GroupsRoundTrip(s: seq<byte>)
    ensures var b := Base64Encode(s);
            |b| % 4 != 1 && DecodeGroups(b) == Some(s) && (b != [] ==> b[|b| - 1] != 0x3d) && (|s| > 3 ==> |b| > 4) &&
            (s != [] ==> |b| >= 2)
  {
    hide Encode3;
    hide Decode4;
    if 1 <= |s| <= 3 {
      Group3RoundTrip(s);
    } else if |s| > 3 {
      Group3RoundTrip(s[..3]);
      GroupsRoundTrip(s[3..]);
      var b := Base64Encode(s);
      assert b[..4] == Encode3(s[..3]) && b[4..] == Base64Encode(s[3..]);
      assert s[..3] + s[3..] == s;
    }
  }

  lemma Base64RoundTrip(s: seq<byte>)
    ensures Base64Decode(Base64Encode(s)) == Some(s)
  {
    GroupsRoundTrip(s);
    hide Base64Encode;
    hide DecodeGroups;
  }

  // ------------------------------------------------------------ secrets

  function FromBinary(raw: seq<byte>, truncate: bool): Option<seq<byte>> {
    if |raw| > 17 + MAX_DOMAIN_LENGTH && !truncate then None
    else
      var s := if |raw| > 17 + MAX_DOMAIN_LENGTH then raw[..17 + MAX_DOMAIN_LENGTH] else raw;
      if |s| == 16 || (|s| == 17 && s[0] == 0xdd) || (|s| >= 18 && s[0] == 0xee) then Some(s) else None
  }

  predicate EmulatesTls(s: seq<byte>) { |s| >= 17 && s[0] == 0xee }

  function FromLink(link: seq<byte>, truncate: bool): Option<seq<byte>> {
    var h := HexDecode(link);
    var d := if h.None? then Base64Decode(link) else h;
    if d.None? then None else FromBinary(d.value, truncate)
  }

  function EncodedSecret(s: seq<byte>): seq<byte> {
    if EmulatesTls(s) then Base64Encode(s) else HexEncode(s)
  }

  /** The second character of a TLS secret lies between g and v, so the hexadecimal decoder, which is tried first,
      refuses the link. */
  lemma TlsIsNotHex(s: seq<byte>)
    requires |s| >= 3 && s[0] == 0xee
    ensures HexDecode(Base64Encode(s)).None?
  {
    var b := Base64Encode(s);
    var t := s[..3];
    Group3RoundTrip(t);
    assert b[..2] == Encode3(t)[..2] by { if |s| == 3 { assert t == s; } }
    var c := Word(0xee, t[1], t[2]);
    SecondSextet(t[1], t[2]);
    assert Encode3(t)[1] == Char64(c / 4096 % 64);
    assert b[1] == b[..2][1] == Encode3(t)[..2][1];
    assert HexToInt(b[1]) == 16;
    GroupsRoundTrip(s);
    hide Base64Encode;
    hide Encode3;
  }

  lemma SecondSextet(b: byte, d: byte)
    ensures 32 <= Word(0xee, b, d) / 4096 % 64 < 48
  {
    var c := Word(0xee, b, d);
    var h := (b as int) / 16;
    assert (b as int) == 16 * h + (b as int) % 16;
    By4096(c, 64 * 59 + 32 + h, 256 * ((b as int) % 16) + d);
  }

  /** Every secret that is accepted is read back from its link, with either setting of the truncation flag. */
  lemma LinkRoundTrip(raw: seq<byte>, truncate: bool, truncate2: bool)
    requires FromBinary(raw, truncate).Some?
    ensures var s := FromBinary(raw, truncate).value; FromLink(EncodedSecret(s), truncate2) == Some(s)
  {
    hide Base64Encode;
    hide Base64Decode;
    hide HexEncode;
    hide HexDecode;
    var s := FromBinary(raw, truncate).value;
    if EmulatesTls(s) {
      TlsIsNotHex(s);
      Base64RoundTrip(s);
    } else {
      HexRoundTrip(s);
    }
  }
}
