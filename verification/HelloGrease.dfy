/** The random values that keep servers tolerant, and that with them no extension appears twice (Grease::init and
    TlsHello::get_default of td/mtproto/TlsInit.cpp; section 4.2 of RFC 8446). */
module HelloGrease {
  import opened Bytes
  import opened TlPrimitives
  import opened TlsHello
  import opened DefaultHello
  import opened HelloExtensions

  /** The high half of a random byte, and a low half of 0x0a. */
  function HighHalf(r: byte): (g: byte)
    ensures g % 16 == 10
  {
    r / 16 * 16 + 10
  }

  function GreaseAt(random: seq<byte>, i: nat): byte
    requires i < |random|
  {
    var g := HighHalf(random[i]);
    if i % 2 == 1 && g == HighHalf(random[i - 1]) then XorByte(g, 0x10) else g
  }

  function GreaseFrom(random: seq<byte>): (g: seq<byte>)
    ensures |g| == |random|
  {
    seq(|random|, i requires 0 <= i < |random| => GreaseAt(random, i))
  }

  /** Grease::init, given the random bytes in the buffer. */
  method InitGrease(res: array<byte>)
    modifies res
    ensures res[..] == GreaseFrom(old(res[..]))
  {
    hide HighHalf;
    hide XorByte;
    ghost var random := res[..];
    for i := 0 to res.Length
      invariant forall k :: 0 <= k < i ==> res[k] == HighHalf(random[k])
      invariant forall k :: i <= k < res.Length ==> res[k] == random[k]
    {
      res[i] := HighHalf(res[i]);
    }
    var i := 1;
    while i < res.Length
      invariant i % 2 == 1
      invariant forall k :: 0 <= k < res.Length ==>
                  res[k] == if k < i - 1 then GreaseAt(random, k) else HighHalf(random[k])
      decreases res.Length - i
    {
      if res[i] == res[i - 1] {
        res[i] := XorByte(res[i], 0x10);
      }
      i := i + 2;
    }
  }

  /** Flipping bit 4. */
  lemma FlipBit(g: byte)
    requires g % 16 == 10
    ensures XorByte(g, 0x10) % 16 == 10 && XorByte(g, 0x10) != g
  {
    hide *;
    var k := g / 16;
    assert g == 16 * k + 10;
    XorIs(g);
    FlipHalf(k);
    LowHalf(Xor(k, 1, 4));
  }

  lemma LowHalf(z: nat)
    ensures (16 * z + 10) % 16 == 10
  {}

  lemma XorIs(g: byte)
    ensures XorByte(g, 0x10) == Xor(g, 16, 8)
  {
    hide Xor;
  }

  lemma FlipHalf(k: nat)
    ensures Xor(16 * k + 10, 16, 8) == 16 * Xor(k, 1, 4) + 10 && Xor(k, 1, 4) != k
  {
    hide *;
    XorBits(8 * k + 5, 0, 8, 0, 7);
    XorBits(4 * k + 2, 1, 4, 0, 6);
    XorBits(2 * k + 1, 0, 2, 0, 5);
    XorBits(k, 1, 1, 0, 4);
    XorStep(k, 1, 4);
  }

  lemma XorBits(q: nat, r: nat, p: nat, s: nat, k: nat)
    requires r < 2 && s < 2
    ensures Xor(2 * q + r, 2 * p + s, k + 1) == (if r == s then 0 else 1) + 2 * Xor(q, p, k)
  {
    var a, b := 2 * q + r, 2 * p + s;
    assert a / 2 == q && b / 2 == p && a % 2 == r && b % 2 == s;
  }

  /** Every grease byte ends in 0x0a, and the bytes of a pair differ. */
  lemma GreaseIs(random: seq<byte>)
    ensures forall i :: 0 <= i < |random| ==> GreaseFrom(random)[i] % 16 == 10
    ensures forall i :: 0 <= i < |random| && i % 2 == 1 ==> GreaseFrom(random)[i] != GreaseFrom(random)[i - 1]
  {
    hide XorByte;
    forall i | 0 <= i < |random| ensures GreaseFrom(random)[i] % 16 == 10 {
      FlipBit(HighHalf(random[i]));
    }
    forall i | 0 <= i < |random| && i % 2 == 1 ensures GreaseFrom(random)[i] != GreaseFrom(random)[i - 1] {
      FlipBit(HighHalf(random[i]));
    }
  }

  // ------------------------------------------------------------ no extension appears twice

  /** A number for every type of extension, growing along the list; `g` is the first grease. */
  function Rank(kind: seq<byte>, g: byte): nat {
    if |kind| != 2 then 17
    else if kind[0] == kind[1] then if kind[0] == g then 0 else if kind[0] == 0 then 1 else 15
    else if kind[0] == 0xff then 3
    else
      match kind[1]
      case 0x17 => 2
      case 0x0a => 4
      case 0x0b => 5
      case 0x23 => 6
      case 0x10 => 7
      case 0x05 => 8
      case 0x0d => 9
      case 0x12 => 10
      case 0x33 => 11
      case 0x2d => 12
      case 0x2b => 13
      case 0x1b => 14
      case 0x15 => 16
      case _ => 17
  }

  ghost predicate Rising(xs: seq<Extension>, g: byte, lo: nat, hi: nat) {
    (forall i :: 0 <= i < |xs| ==> lo <= Rank(xs[i].kind, g) < hi) &&
    forall i, j :: 0 <= i < j < |xs| ==> Rank(xs[i].kind, g) < Rank(xs[j].kind, g)
  }

  lemma RisingBoth(xs: seq<Extension>, ys: seq<Extension>, g: byte, lo: nat, mid: nat, hi: nat)
    requires Rising(xs, g, lo, mid) && Rising(ys, g, mid, hi) && lo <= mid <= hi
    ensures Rising(xs + ys, g, lo, hi)
  {
    hide Rank;
  }

  /** With initialised grease the extensions that a server reads have pairwise different types. */
  lemma ExtensionsDiffer(darwin: bool, c: Context, random: seq<byte>, key: seq<byte>, padding: nat)
    requires |random| == 7 && c.grease == GreaseFrom(random)
    ensures var xs := Expected(darwin, c, key, padding);
            forall i, j :: 0 <= i < j < |xs| ==> xs[i].kind != xs[j].kind
  {
    GreaseIs(random);
    var g := c.grease[2];
    assert g % 16 == 10 && c.grease[3] != g && c.grease[3] % 16 == 10;
    hide GreaseFrom;
    hide Rank;
    hide Rising;
    hide GroupExtensions;
    hide ProtocolExtensions;
    hide KeyExtensions;
    var front := [Extension(Greased(c, 2), []), Extension([0x00, 0x00], NameData(c))];
    var gs, ps, ks := GroupExtensions(darwin, c), ProtocolExtensions(darwin), KeyExtensions(darwin, c, key);
    var pad := [Extension([0x00, 0x15], Zeros(padding))];
    assert Expected(darwin, c, key, padding) == front + gs + ps + ks + pad;
    EdgesRise(c, padding);
    GroupsRise(darwin, c, g);
    ProtocolsRise(darwin, g);
    KeysRise(darwin, c, key);
    hide *;
    RisingBoth(front, gs, g, 0, 2, 5);
    RisingBoth(front + gs, ps, g, 0, 5, 11);
    RisingBoth(front + gs + ps, ks, g, 0, 11, 16);
    RisingBoth(front + gs + ps + ks, pad, g, 0, 16, 17);
    RisingDiffer(front + gs + ps + ks + pad, g);
  }

  /** The hello that is sent: what a server reads from it, for every domain and all random bytes, are extensions of
      pairwise different types. */
  lemma SentExtensionsDiffer(darwin: bool, c: Context, random: seq<byte>, blank: seq<byte>, mac: seq<byte>)
    requires |random| == 7 && c.grease == GreaseFrom(random) && |blank| == 517 && |mac| == 32
    ensures StoreAll(Store(blank, 0, []), Full(Default(darwin), c), c).Some?
    ensures |StoreAll(Store(blank, 0, []), Full(Default(darwin), c), c).value.data| == 517
    ensures var sent := Patch(StoreAll(Store(blank, 0, []), Full(Default(darwin), c), c).value.data, 11, mac);
            var read := ReadExtensions(sent[Extensions(darwin)..]);
            read.Some? &&
            forall i, j :: 0 <= i < j < |read.value| ==> read.value[i].kind != read.value[j].kind
  {
    hide *;
    DefaultHelloReads(darwin, c, blank, mac);
    ExtensionsAt(darwin);
    SizeFits(darwin, c);
    ExtensionsDiffer(darwin, c, random, Drawn(c.noise, KeyAt(darwin, TailAt(darwin, c)), 32), 515 - SizeOf(darwin, c));
  }

  lemma SizeFits(darwin: bool, c: Context)
    ensures SizeOf(darwin, c) <= 515
  {}

  lemma RisingDiffer(xs: seq<Extension>, g: byte)
    requires Rising(xs, g, 0, 17)
    ensures forall i, j :: 0 <= i < j < |xs| ==> xs[i].kind != xs[j].kind
  {
    hide Rank;
    forall i, j | 0 <= i < j < |xs| ensures xs[i].kind != xs[j].kind {
      assert Rank(xs[i].kind, g) < Rank(xs[j].kind, g);
    }
  }

  lemma EdgesRise(c: Context, padding: nat)
    requires |c.grease| == 7 && c.grease[2] % 16 == 10
    ensures Rising([Extension(Greased(c, 2), []), Extension([0x00, 0x00], NameData(c))], c.grease[2], 0, 2)
    ensures Rising([Extension([0x00, 0x15], Zeros(padding))], c.grease[2], 16, 17)
  {
    hide NameData;
    hide Zeros;
  }

  lemma GroupsRise(darwin: bool, c: Context, g: byte)
    requires |c.grease| == 7
    ensures Rising(GroupExtensions(darwin, c), g, 2, 5)
  {
    var gs := GroupExtensions(darwin, c);
    assert |gs| == 3 && gs[0].kind == [0x00, 0x17] && gs[1].kind == [0xff, 0x01] && gs[2].kind == [0x00, 0x0a];
    hide GroupExtensions;
  }

  lemma ProtocolsRise(darwin: bool, g: byte)
    ensures Rising(ProtocolExtensions(darwin), g, 5, 11)
  {
    var formats, tickets := [Extension([0x00, 0x0b], [0x01, 0x00])], if darwin then [] else [Extension([0x00, 0x23], [])];
    var rest := [Extension([0x00, 0x10], ALPN), Extension([0x00, 0x05], [0x01, 0x00, 0x00, 0x00, 0x00]),
                 Extension([0x00, 0x0d], Signatures(darwin)), Extension([0x00, 0x12], [])];
    assert ProtocolExtensions(darwin) == formats + tickets + rest;
    hide ALPN;
    hide Signatures;
    assert Rising(formats, g, 5, 6) && Rising(tickets, g, 6, 7);
    assert Rising(rest, g, 7, 11);
    hide *;
    RisingBoth(formats, tickets, g, 5, 6, 7);
    RisingBoth(formats + tickets, rest, g, 5, 7, 11);
  }

  lemma KeysRise(darwin: bool, c: Context, key: seq<byte>)
    requires |c.grease| == 7 && c.grease[3] % 16 == 10 && c.grease[3] != c.grease[2]
    ensures Rising(KeyExtensions(darwin, c, key), c.grease[2], 11, 16)
  {
    var g := c.grease[2];
    var ks := KeyExtensions(darwin, c, key);
    var compress := if darwin then [] else [Extension([0x00, 0x1b], [0x02, 0x00, 0x02])];
    var last := [Extension(Greased(c, 3), [0x00])];
    assert ks == ks[..3] + compress + last;
    assert ks[0].kind == [0x00, 0x33] && ks[1].kind == [0x00, 0x2d] && ks[2].kind == [0x00, 0x2b];
    hide KeyExtensions;
    assert Rising(ks[..3], g, 11, 14) && Rising(compress, g, 14, 15) && Rising(last, g, 15, 16);
    hide *;
    RisingBoth(ks[..3], compress, g, 11, 14, 15);
    RisingBoth(ks[..3] + compress, last, g, 11, 15, 16);
  }
}
