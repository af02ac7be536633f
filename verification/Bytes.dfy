/** Bytes, fixed-width integers and bitwise xor shared by the codecs. */
module Bytes {

  type byte = x: int | 0 <= x < 256
  type uint32 = x: int | 0 <= x < 0x1_0000_0000

  datatype Option<+T> = None | Some(value: T)

  function Pow256(k: nat): (r: nat)
    ensures r > 0
  {
    if k == 0 then 1 else 256 * Pow256(k - 1)
  }

  /** The `k` low bytes of `n`, least significant first (what memcpy of an integer writes). */
  function Le(n: nat, k: nat): (s: seq<byte>)
    ensures |s| == k
    decreases n + k
  {
    if k == 0 then [] else [n % 256] + Le(n / 256, k - 1)
  }

  function FromLe(s: seq<byte>): (n: nat)
    ensures n < Pow256(|s|)
  {
    if s == [] then 0 else s[0] + 256 * FromLe(s[1..])
  }

  lemma {:induction false} LeRoundTrip(n: nat, k: nat)
    requires n < Pow256(k)
    ensures FromLe(Le(n, k)) == n
    decreases k
  {
    if k == 0 {
    } else {
      LeRoundTrip(n / 256, k - 1);
      assert Le(n, k)[1..] == Le(n / 256, k - 1);
    }
  }

  lemma {:induction false} FromLeRoundTrip(s: seq<byte>)
    ensures Le(FromLe(s), |s|) == s
  {
    if s == [] {
    } else {
      FromLeRoundTrip(s[1..]);
      var n := FromLe(s);
      assert n % 256 == s[0] && n / 256 == FromLe(s[1..]);
    }
  }

  /** The two widths the wire formats use. */
  lemma Le32RoundTrip(n: nat)
    requires n < 0x1_0000_0000
    ensures FromLe(Le(n, 4)) == n
  {
    assert Pow256(4) == 256 * Pow256(3) && Pow256(2) == 256 * Pow256(1);
    LeRoundTrip(n, 4);
  }

  lemma Le64RoundTrip(n: nat)
    requires n < 0x1_0000_0000_0000_0000
    ensures FromLe(Le(n, 8)) == n
  {
    assert Pow256(8) == 256 * Pow256(7) && Pow256(6) == 256 * Pow256(5);
    assert Pow256(4) == 256 * Pow256(3) && Pow256(2) == 256 * Pow256(1);
    LeRoundTrip(n, 8);
  }

  function Pow2(k: nat): (r: nat)
    ensures r > 0
  {
    if k == 0 then 1 else 2 * Pow2(k - 1)
  }

  /** Bitwise exclusive or of the `k` low bits of `a` and `b`. */
  function Xor(a: nat, b: nat, k: nat): (r: nat)
    ensures r < Pow2(k)
    decreases a + b + k
  {
    if k == 0 then 0 else (if a % 2 == b % 2 then 0 else 1) + 2 * Xor(a / 2, b / 2, k - 1)
  }

  lemma XorStep(a: nat, b: nat, k: nat)
    requires k > 0
    ensures Xor(a, b, k) % 2 == (if a % 2 == b % 2 then 0 else 1)
    ensures Xor(a, b, k) / 2 == Xor(a / 2, b / 2, k - 1)
  {}

  lemma {:induction false} XorTwice(a: nat, b: nat, k: nat)
    requires a < Pow2(k)
    ensures Xor(Xor(a, b, k), b, k) == a
    decreases k
  {
    if k == 0 {
    } else {
      XorTwice(a / 2, b / 2, k - 1);
      XorStep(a, b, k);
      XorStep(Xor(a, b, k), b, k);
    }
  }

  function XorByte(a: byte, b: byte): (r: byte) {
    assert Pow2(8) == 2 * Pow2(7) && Pow2(6) == 2 * Pow2(5) && Pow2(4) == 2 * Pow2(3) && Pow2(2) == 2 * Pow2(1);
    Xor(a, b, 8)
  }

  lemma XorByteTwice(a: byte, b: byte)
    ensures XorByte(XorByte(a, b), b) == a
  {
    assert Pow2(8) == 2 * Pow2(7) && Pow2(6) == 2 * Pow2(5) && Pow2(4) == 2 * Pow2(3) && Pow2(2) == 2 * Pow2(1);
    XorTwice(a, b, 8);
  }

  lemma SubSlice(s: seq<byte>, h: nat, n: nat, a: nat, b: nat)
    requires h + n <= |s| && a <= b <= n
    ensures s[h..h + n][a..b] == s[h + a..h + b]
  {
    var t := s[h..h + n];
    forall i | 0 <= i < b - a ensures t[a..b][i] == s[h + a..h + b][i] {
      assert t[a..b][i] == t[a + i] && t[a + i] == s[h + a + i];
    }
  }

  /** Copies `src` into the array at `at`. */
  method CopyInto(dest: array<byte>, at: nat, src: seq<byte>)
    requires at + |src| <= dest.Length
    modifies dest
    ensures dest[at..at + |src|] == src
    ensures dest[..at] == old(dest[..at]) && dest[at + |src|..] == old(dest[at + |src|..])
  {
    for i := 0 to |src|
      invariant forall j :: 0 <= j < i ==> dest[at + j] == src[j]
      invariant forall j :: 0 <= j < at || at + |src| <= j < dest.Length ==> dest[j] == old(dest[j])
    {
      dest[at + i] := src[i];
    }
  }
}
