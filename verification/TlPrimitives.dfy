/** The TL encodings of integers and strings (tdutils/td/utils/tl_storers.h and tl_parsers.h). */
module TlPrimitives {
  import opened Bytes

  function Zeros(n: nat): (s: seq<byte>)
    ensures |s| == n
  {
    seq(n, i => 0)
  }

  /** Bytes that round `n` up to a multiple of four. */
  function Pad4(n: nat): (k: nat)
    ensures k < 4 && (n + k) % 4 == 0
  {
    if n % 4 == 0 then 0 else 4 - n % 4
  }

  function StringPrefix(n: nat): seq<byte>
    requires n < 0x1_0000_0000
  {
    if n < 254 then [n]
    else if n < 0x100_0000 then [254] + Le(n, 3)
    else [255] + Le(n, 4) + [0, 0, 0]
  }

  /** Strings of 2^32 bytes or more are a fatal error of the storer. */
  function StoreString(s: seq<byte>): (r: seq<byte>)
    requires |s| < 0x1_0000_0000
    ensures |r| % 4 == 0 && |r| >= 4
  {
    var p := StringPrefix(|s|);
    p + s + Zeros(Pad4(|p| + |s|))
  }

  function FetchString(b: seq<byte>): Option<(seq<byte>, seq<byte>)> {
    if |b| < 4 then None
    else if b[0] < 254 then
      var n: nat := b[0];
      Cut(b, 1, n, 4 + n / 4 * 4)
    else if b[0] == 254 then
      var n := FromLe(b[1..4]);
      Cut(b, 4, n, 4 + (n + 3) / 4 * 4)
    else if |b| < 8 then None
    else
      var n := FromLe(b[1..8]);
      Cut(b, 8, n, 8 + (n + 3) / 4 * 4)
  }

  /** `n` bytes from `at`, and what follows position `end`. */
  function Cut(b: seq<byte>, at: nat, n: nat, end: nat): Option<(seq<byte>, seq<byte>)>
    requires at + n <= end
  {
    if |b| < end then None else Some((b[at..at + n], b[end..]))
  }

  lemma CutAppended(p: seq<byte>, s: seq<byte>, pad: seq<byte>, rest: seq<byte>)
    ensures Cut(p + s + pad + rest, |p|, |s|, |p| + |s| + |pad|) == Some((s, rest))
  {
    var b := p + s + pad + rest;
    assert b[|p|..|p| + |s|] == s;
    assert b[|p| + |s| + |pad|..] == rest;
  }

  lemma FromLePadded(s: seq<byte>)
    ensures FromLe(s + [0, 0, 0]) == FromLe(s)
    decreases |s|
  {
    if s == [] {
      var z: seq<byte> := [0, 0, 0];
      assert z[1..] == [0, 0] && z[1..][1..] == [0] && z[1..][1..][1..] == [];
      assert s + z == z;
    } else {
      FromLePadded(s[1..]);
      assert (s + [0, 0, 0])[1..] == s[1..] + [0, 0, 0];
    }
  }

  /** Where the string ends, as the reader computes it. */
  lemma EndOfString(n: nat)
    ensures 4 + n / 4 * 4 == 1 + n + Pad4(1 + n)
    ensures 4 + (n + 3) / 4 * 4 == 4 + n + Pad4(4 + n)
    ensures 8 + (n + 3) / 4 * 4 == 8 + n + Pad4(8 + n)
  {}

  lemma PrefixRoundTrip(n: nat, tail: seq<byte>)
    requires 254 <= n < 0x1_0000_0000
    ensures var b := StringPrefix(n) + tail;
            if n < 0x100_0000 then b[0] == 254 && FromLe(b[1..4]) == n
            else b[0] == 255 && FromLe(b[1..8]) == n
  {
    var b := StringPrefix(n) + tail;
    if n < 0x100_0000 {
      assert Pow256(3) == 0x100_0000;
      LeRoundTrip(n, 3);
      assert b[1..4] == Le(n, 3);
    } else {
      Le32RoundTrip(n);
      FromLePadded(Le(n, 4));
      assert b[1..8] == Le(n, 4) + [0, 0, 0];
    }
  }

  /** What store_string writes, fetch_string reads back, leaving whatever follows. */
  lemma StringRoundTrip(s: seq<byte>, rest: seq<byte>)
    requires |s| < 0x1_0000_0000
    ensures FetchString(StoreString(s) + rest) == Some((s, rest))
  {
    var p := StringPrefix(|s|);
    var pad := Zeros(Pad4(|p| + |s|));
    var b := StoreString(s) + rest;
    assert b == p + s + pad + rest;
    assert b == p + (s + pad + rest);
    CutAppended(p, s, pad, rest);
    EndOfString(|s|);
    if |s| >= 254 {
      PrefixRoundTrip(|s|, s + pad + rest);
    }
  }
}
