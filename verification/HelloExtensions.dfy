/** The hello that is sent, read as a server reads it: its cipher suites and the list of its extensions
    (TlsHello::get_default of td/mtproto/TlsInit.cpp; section 4 of RFC 8446). */
module HelloExtensions {
  import opened Bytes
  import opened TlPrimitives
  import opened TlsHello
  import opened DefaultHello

  datatype Extension = Extension(kind: seq<byte>, data: seq<byte>)

  /** Type, length and data, until nothing is left. */
  function ReadExtensions(b: seq<byte>): Option<seq<Extension>>
    decreases |b|
  {
    if b == [] then Some([])
    else if |b| < 4 || |b| < 4 + BigEndian(b[2..4]) then None
    else
      var n := 4 + BigEndian(b[2..4]);
      var rest := ReadExtensions(b[n..]);
      if rest.None? then None else Some([Extension(b[..2], b[4..n])] + rest.value)
  }

  function Written(x: Extension): seq<byte> { x.kind + Be16(|x.data|) + x.data }

  function WrittenAll(xs: seq<Extension>): seq<byte> {
    if xs == [] then [] else Written(xs[0]) + WrittenAll(xs[1..])
  }

  ghost predicate Sized(xs: seq<Extension>) {
    forall i :: 0 <= i < |xs| ==> |xs[i].kind| == 2 && |xs[i].data| < 0x1_0000
  }

  lemma {:induction false} ReadsWritten(xs: seq<Extension>)
    requires Sized(xs)
    ensures ReadExtensions(WrittenAll(xs)) == Some(xs)
  {
    if xs == [] {
    } else {
      ReadsWritten(xs[1..]);
      ReadsOne(xs[0], WrittenAll(xs[1..]));
      assert [xs[0]] + xs[1..] == xs;
    }
  }

  lemma ReadsOne(x: Extension, rest: seq<byte>)
    requires |x.kind| == 2 && |x.data| < 0x1_0000 && ReadExtensions(rest).Some?
    ensures ReadExtensions(Written(x) + rest) == Some([x] + ReadExtensions(rest).value)
  {
    hide *;
    var b, n := Written(x) + rest, |x.data|;
    WrittenParts(x, rest);
    LengthReads(n);
    ReadStep(b, n);
  }

  lemma LengthReads(n: nat)
    requires n < 0x1_0000
    ensures BigEndian(Be16(n)) == n
  {
    hide BigEndian;
    BigEndianOf(n / 256 % 256, n % 256, 0);
  }

  lemma ReadStep(b: seq<byte>, n: nat)
    requires |b| >= 4 + n && BigEndian(b[2..4]) == n && ReadExtensions(b[4 + n..]).Some?
    ensures ReadExtensions(b) == Some([Extension(b[..2], b[4..4 + n])] + ReadExtensions(b[4 + n..]).value)
  {
    hide BigEndian;
  }

  lemma WrittenParts(x: Extension, rest: seq<byte>)
    requires |x.kind| == 2
    ensures var b, n := Written(x) + rest, |x.data|;
            |b| == 4 + n + |rest| && b[..2] == x.kind && b[2..4] == Be16(n) && b[4..4 + n] == x.data && b[4 + n..] == rest
  {
    hide Be16;
  }

  lemma {:induction false} WrittenSplit(xs: seq<Extension>, ys: seq<Extension>)
    ensures WrittenAll(xs + ys) == WrittenAll(xs) + WrittenAll(ys)
  {
    hide *;
    if xs == [] {
      assert xs + ys == ys;
      NothingWritten();
      assert [] + WrittenAll(ys) == WrittenAll(ys);
    } else {
      WrittenSplit(xs[1..], ys);
      assert (xs + ys)[1..] == xs[1..] + ys && (xs + ys)[0] == xs[0];
      WrittenStep(xs);
      WrittenStep(xs + ys);
      Regroup3(Written(xs[0]), WrittenAll(xs[1..]), WrittenAll(ys));
    }
  }

  lemma NothingWritten()
    ensures WrittenAll([]) == []
  {}

  lemma WrittenStep(xs: seq<Extension>)
    requires xs != []
    ensures WrittenAll(xs) == Written(xs[0]) + WrittenAll(xs[1..])
  {
    hide Written;
  }

  lemma WrittenOne(x: Extension)
    ensures WrittenAll([x]) == Written(x)
  {
    assert [x][1..] == [];
    assert Written(x) + [] == Written(x);
  }

  // ------------------------------------------------------------ the extensions of the default hello

  function Greased(c: Context, i: nat): seq<byte>
    requires i < |c.grease|
  {
    [c.grease[i], c.grease[i]]
  }

  /** Server name: a list of one host name. */
  function NameData(c: Context): (r: seq<byte>)
    ensures |r| == |c.Domain()| + 5
  {
    Be16(|c.Domain()| + 3) + [0x00] + Be16(|c.Domain()|) + c.Domain()
  }

  /** Extended master secret, renegotiation, and the groups. */
  function GroupExtensions(darwin: bool, c: Context): seq<Extension>
    requires |c.grease| == 7
  {
    [Extension([0x00, 0x17], []), Extension([0xff, 0x01], [0x00]),
     Extension([0x00, 0x0a], [0x00, if darwin then 0x0a else 0x08] + (Greased(c, 4) + Curves(darwin)))]
  }

  /** Point formats, session tickets, protocols, certificate status, signatures and certificate timestamps. */
  function ProtocolExtensions(darwin: bool): seq<Extension> {
    [Extension([0x00, 0x0b], [0x01, 0x00])] +
    (if darwin then [] else [Extension([0x00, 0x23], [])]) +
    [Extension([0x00, 0x10], ALPN), Extension([0x00, 0x05], [0x01, 0x00, 0x00, 0x00, 0x00]),
     Extension([0x00, 0x0d], Signatures(darwin)), Extension([0x00, 0x12], [])]
  }

  /** Key share, key exchange modes, versions, certificate compression and a last grease. */
  function KeyExtensions(darwin: bool, c: Context, key: seq<byte>): seq<Extension>
    requires |c.grease| == 7
  {
    [Extension([0x00, 0x33], [0x00, 0x29] + (Greased(c, 4) + (SHARE + key))),
     Extension([0x00, 0x2d], [0x01, 0x01]),
     Extension([0x00, 0x2b], [0x0a] + (Greased(c, 6) + VERSIONS))] +
    (if darwin then [] else [Extension([0x00, 0x1b], [0x02, 0x00, 0x02])]) +
    [Extension(Greased(c, 3), [0x00])]
  }

  function Expected(darwin: bool, c: Context, key: seq<byte>, padding: nat): seq<Extension>
    requires |c.grease| == 7
  {
    [Extension(Greased(c, 2), []), Extension([0x00, 0x00], NameData(c))] + GroupExtensions(darwin, c) +
    ProtocolExtensions(darwin) + KeyExtensions(darwin, c, key) + [Extension([0x00, 0x15], Zeros(padding))]
  }

  // ------------------------------------------------------------ the bytes that are sent

  ghost function BytesOf(ops: seq<Op>, c: Context, at: nat): seq<byte>
    requires AllFlat(ops, c)
    decreases |ops|
  {
    if ops == [] then []
    else
      var b := Content(ops[0], c, at).value;
      b + BytesOf(ops[1..], c, at + |b|)
  }

  /** Operations without scopes append their contents. */
  lemma {:induction false} FlatRenderIs(t: seq<byte>, ops: seq<Op>, c: Context)
    requires AllFlat(ops, c)
    ensures RenderAll([t], ops, c) == Some([t + BytesOf(ops, c, |t|)])
    decreases |ops|
  {
    if ops == [] {
      assert t + [] == t;
    } else {
      FlatFirst(ops, c);
      hide *;
      FlatRenderStep(t, ops, c);
      assert ops[0..] == ops;
      BytesStep(ops, c, |t|, 0);
      var b := Content(ops[0], c, |t|).value;
      FlatRenderIs(t + b, ops[1..], c);
      Regroup3(t, b, BytesOf(ops[1..], c, |t| + |b|));
    }
  }

  lemma FlatFirst(ops: seq<Op>, c: Context)
    requires AllFlat(ops, c) && ops != []
    ensures Flat(ops[0], c) && AllFlat(ops[1..], c)
  {
    hide Flat;
  }

  lemma Regroup3(a: seq<byte>, b: seq<byte>, e: seq<byte>)
    ensures a + b + e == a + (b + e)
  {}

  lemma FlatRenderStep(t: seq<byte>, ops: seq<Op>, c: Context)
    requires ops != [] && Flat(ops[0], c)
    ensures Content(ops[0], c, |t|).Some?
    ensures RenderAll([t], ops, c) == RenderAll([t + Content(ops[0], c, |t|).value], ops[1..], c)
  {
    var b := Content(ops[0], c, |t|).value;
    assert Total([t]) == |t| && [t][..0] + [t + b] == [t + b];
    assert Render([t], ops[0], c) == Some([t + b]);
    hide Render;
    hide Content;
  }

  lemma BytesStep(ops: seq<Op>, c: Context, at: nat, i: nat)
    requires AllFlat(ops, c) && i < |ops|
    ensures AllFlat(ops[i..], c) && AllFlat(ops[i + 1..], c) && Content(ops[i], c, at).Some?
    ensures var b := Content(ops[i], c, at).value;
            BytesOf(ops[i..], c, at) == b + BytesOf(ops[i + 1..], c, at + |b|)
  {
    assert ops[i..][1..] == ops[i + 1..];
  }

  lemma StrBytes(ops: seq<Op>, c: Context, at: nat, i: nat, b: seq<byte>)
    requires AllFlat(ops, c) && i < |ops| && ops[i] == Str(b)
    ensures AllFlat(ops[i..], c) && AllFlat(ops[i + 1..], c)
    ensures BytesOf(ops[i..], c, at) == b + BytesOf(ops[i + 1..], c, at + |b|)
  {
    ContentOfStr(b, c, at);
    hide *;
    BytesStep(ops, c, at, i);
  }

  lemma ContentOfStr(b: seq<byte>, c: Context, at: nat)
    ensures Content(Str(b), c, at) == Some(b)
  {}

  lemma GreaseBytes(ops: seq<Op>, c: Context, at: nat, i: nat, k: nat)
    requires AllFlat(ops, c) && i < |ops| && ops[i] == Grease(k) && k < |c.grease|
    ensures AllFlat(ops[i..], c) && AllFlat(ops[i + 1..], c)
    ensures BytesOf(ops[i..], c, at) == Greased(c, k) + BytesOf(ops[i + 1..], c, at + 2)
  {
    BytesStep(ops, c, at, i);
    hide BytesOf;
  }

  lemma KeyBytes(ops: seq<Op>, c: Context, at: nat, i: nat)
    requires AllFlat(ops, c) && i < |ops| && ops[i].Key?
    ensures AllFlat(ops[i..], c) && AllFlat(ops[i + 1..], c)
    ensures BytesOf(ops[i..], c, at) == Drawn(c.noise, at, 32) + BytesOf(ops[i + 1..], c, at + 32)
  {
    BytesStep(ops, c, at, i);
    hide BytesOf;
  }

  lemma RenderOne(stack: seq<seq<byte>>, ops: seq<Op>, i: nat, c: Context)
    requires i < |ops| && Render(stack, ops[i], c).Some?
    ensures RenderAll(stack, ops[i..], c) == RenderAll(Render(stack, ops[i], c).value, ops[i + 1..], c)
  {
    hide Render;
    assert ops[i..][1..] == ops[i + 1..];
  }

  /** The nested scopes of the server name. */
  lemma NameRender(t: seq<byte>, c: Context)
    ensures RenderAll([t], ServerName(), c) == Some([t + (Be16(|NameData(c)|) + NameData(c))])
  {
    ServerNameIs();
    hide ServerName;
    hide RenderAll;
    hide Be16;
    var ops, d := ServerName(), c.Domain();
    var none: seq<byte> := [];
    var list := [0x00] + Be16(|d|) + d;
    assert ops[0..] == ops && ops[8..] == [];
    NameRenderOpens(t, ops, c);
    NameRenderCloses(t, ops, c);
    assert none + Be16(|list|) + list == NameData(c);
    assert t + Be16(|NameData(c)|) + NameData(c) == t + (Be16(|NameData(c)|) + NameData(c));
  }

  lemma NameRenderOpens(t: seq<byte>, ops: seq<Op>, c: Context)
    requires |ops| == 8 && ops[0].BeginScope? && ops[1].BeginScope? && ops[2] == Str([0x00]) && ops[3].BeginScope?
    requires ops[4].Domain?
    ensures RenderAll([t], ops[0..], c) == RenderAll([t, [], [0x00], c.Domain()], ops[5..], c)
  {
    hide RenderAll;
    var d := c.Domain();
    var none: seq<byte> := [];
    assert none + [0x00] == [0x00] && none + d == d;
    var s1: seq<seq<byte>> := [t, []];
    var s2: seq<seq<byte>> := [t, [], []];
    var s3: seq<seq<byte>> := [t, [], [0x00]];
    var s4: seq<seq<byte>> := [t, [], [0x00], []];
    var s5: seq<seq<byte>> := [t, [], [0x00], d];
    assert [t] + [none] == s1 && s1 + [none] == s2 && s3 + [none] == s4;
    assert s2[..2] + [none + [0x00]] == s3;
    assert s4[..3] + [none + d] == s5;
    assert Render([t], ops[0], c) == Some(s1);
    assert Render(s1, ops[1], c) == Some(s2);
    assert Render(s2, ops[2], c) == Some(s3);
    assert Render(s3, ops[3], c) == Some(s4);
    assert Render(s4, ops[4], c) == Some(s5);
    hide Render;
    RenderOne([t], ops, 0, c);
    RenderOne(s1, ops, 1, c);
    RenderOne(s2, ops, 2, c);
    RenderOne(s3, ops, 3, c);
    RenderOne(s4, ops, 4, c);
  }

  lemma NameRenderCloses(t: seq<byte>, ops: seq<Op>, c: Context)
    requires |ops| == 8 && ops[5].EndScope? && ops[6].EndScope? && ops[7].EndScope?
    ensures var d := c.Domain();
            var list := [0x00] + Be16(|d|) + d;
            var data := [] + Be16(|list|) + list;
            RenderAll([t, [], [0x00], d], ops[5..], c) == Some([t + Be16(|data|) + data])
  {
    hide RenderAll;
    hide Be16;
    var d := c.Domain();
    var list := [0x00] + Be16(|d|) + d;
    var data := [] + Be16(|list|) + list;
    var s5: seq<seq<byte>> := [t, [], [0x00], d];
    var s6: seq<seq<byte>> := [t, [], list];
    var s7: seq<seq<byte>> := [t, data];
    var s8: seq<seq<byte>> := [t + Be16(|data|) + data];
    assert s5[..2] + [list] == s6;
    assert s6[..1] + [data] == s7;
    assert s7[..0] + [t + Be16(|data|) + data] == s8;
    assert Render(s5, ops[5], c) == Some(s6);
    assert Render(s6, ops[6], c) == Some(s7);
    assert Render(s7, ops[7], c) == Some(s8);
    hide Render;
    RenderOne(s5, ops, 5, c);
    RenderOne(s6, ops, 6, c);
    RenderOne(s7, ops, 7, c);
    assert ops[8..] == [];
    RenderNone(s8, c);
  }

  lemma RenderNone(stack: seq<seq<byte>>, c: Context)
    ensures RenderAll(stack, [], c) == Some(stack)
  {}

  lemma PaddingRender(t: seq<byte>, n: nat, c: Context)
    requires n <= 515
    ensures RenderAll([t], Padding(n), c) == Some([t + (Be16(515 - n) + Zeros(515 - n))])
  {
    hide RenderAll;
    hide Be16;
    var ops, z := Padding(n), Zeros(515 - n);
    var none: seq<byte> := [];
    var s1: seq<seq<byte>> := [t, []];
    var s2: seq<seq<byte>> := [t, z];
    var s3: seq<seq<byte>> := [t + Be16(|z|) + z];
    assert [t] + [none] == s1 && none + z == z && s1[..1] + [none + z] == s2 && s2[..0] + [t + Be16(|z|) + z] == s3;
    assert Render([t], ops[0], c) == Some(s1);
    assert Render(s1, ops[1], c) == Some(s2);
    assert Render(s2, ops[2], c) == Some(s3);
    hide Render;
    RenderOne([t], ops, 0, c);
    RenderOne(s1, ops, 1, c);
    RenderOne(s2, ops, 2, c);
    assert ops[0..] == ops && ops[3..] == [];
    RenderNone(s3, c);
    assert t + Be16(|z|) + z == t + (Be16(|z|) + z);
  }

  // ------------------------------------------------------------ the fixed strings hold whole extensions

  const MODES: seq<byte> := [0x00, 0x2d, 0x00, 0x02, 0x01, 0x01, 0x00, 0x2b, 0x00, 0x0b, 0x0a]
  const LAST: seq<byte> := [0x00, 0x01, 0x00, 0x00, 0x15]

  /** The key is drawn at the offset where it is written. */
  function KeyAt(darwin: bool, at: nat): nat { at + 15 + 2 + (if darwin then 79 else 75) + 2 + 7 }

  lemma TailIs(darwin: bool)
    ensures var ops := Tail(darwin);
            |ops| == 11 && ops[0] == Str(Groups(darwin)) && ops[1] == Grease(4) && ops[2] == Str(Protocols(darwin)) &&
            ops[3] == Grease(4) && ops[4] == Str(SHARE) && ops[5] == Key && ops[6] == Str(MODES) &&
            ops[7] == Grease(6) && ops[8] == Str(Versions(darwin)) && ops[9] == Grease(3) && ops[10] == Str(LAST)
  {
    hide Groups;
    hide Protocols;
    hide Versions;
  }

  lemma TailBytes(darwin: bool, c: Context, at: nat)
    requires |c.grease| == 7
    ensures AllFlat(Tail(darwin), c)
    ensures var key := Drawn(c.noise, KeyAt(darwin, at), 32);
            BytesOf(Tail(darwin), c, at) ==
            Groups(darwin) + (Greased(c, 4) + (Protocols(darwin) + ShareBytes(darwin, c, key)))
  {
    TailIs(darwin);
    TailSizes(darwin, c);
    hide Tail;
    hide Groups;
    hide Protocols;
    hide BytesOf;
    hide ShareBytes;
    hide AllFlat;
    hide Size;
    hide Greased;
    hide Drawn;
    var ops := Tail(darwin);
    assert ops[0..] == ops;
    StrBytes(ops, c, at, 0, Groups(darwin));
    GreaseBytes(ops, c, at + 15, 1, 4);
    StrBytes(ops, c, at + 17, 2, Protocols(darwin));
    ShareBytesAre(darwin, c, at + 17 + |Protocols(darwin)|);
  }

  function ShareBytes(darwin: bool, c: Context, key: seq<byte>): seq<byte>
    requires |c.grease| == 7
  {
    Greased(c, 4) + (SHARE + (key + LastBytes(darwin, c)))
  }

  lemma ShareBytesAre(darwin: bool, c: Context, at: nat)
    requires |c.grease| == 7
    ensures AllFlat(Tail(darwin)[3..], c)
    ensures BytesOf(Tail(darwin)[3..], c, at) == ShareBytes(darwin, c, Drawn(c.noise, at + 9, 32))
  {
    TailIs(darwin);
    TailSizes(darwin, c);
    hide Tail;
    hide BytesOf;
    hide LastBytes;
    hide AllFlat;
    hide Size;
    hide Greased;
    hide Drawn;
    var ops := Tail(darwin);
    GreaseBytes(ops, c, at, 3, 4);
    StrBytes(ops, c, at + 2, 4, SHARE);
    KeyBytes(ops, c, at + 9, 5);
    LastBytesAre(darwin, c, at + 41);
  }

  function LastBytes(darwin: bool, c: Context): seq<byte>
    requires |c.grease| == 7
  {
    MODES + (Greased(c, 6) + (Versions(darwin) + (Greased(c, 3) + LAST)))
  }

  lemma LastBytesAre(darwin: bool, c: Context, at: nat)
    requires |c.grease| == 7
    ensures AllFlat(Tail(darwin)[6..], c) && BytesOf(Tail(darwin)[6..], c, at) == LastBytes(darwin, c)
  {
    TailIs(darwin);
    TailSizes(darwin, c);
    hide Tail;
    hide Versions;
    hide BytesOf;
    var ops := Tail(darwin);
    hide AllFlat;
    hide Size;
    hide Greased;
    var v := |Versions(darwin)|;
    StrBytes(ops, c, at, 6, MODES);
    GreaseBytes(ops, c, at + 11, 7, 6);
    StrBytes(ops, c, at + 13, 8, Versions(darwin));
    GreaseBytes(ops, c, at + 13 + v, 9, 3);
    StrBytes(ops, c, at + 15 + v, 10, LAST);
    assert ops[11..] == [] && LAST + [] == LAST;
    NoBytes(c, at + 20 + v);
  }

  lemma NoBytes(c: Context, at: nat)
    ensures AllFlat([], c) && BytesOf([], c, at) == []
  {}

  lemma WrittenThree(x: Extension, y: Extension, z: Extension)
    ensures WrittenAll([x, y, z]) == Written(x) + Written(y) + Written(z)
  {
    hide Written;
    WrittenOne(z);
    assert [x, y, z][1..] == [y, z] && [y, z][1..] == [z];
    assert Written(x) + (Written(y) + Written(z)) == Written(x) + Written(y) + Written(z);
  }

  /** Groups, a grease and the first curves are three extensions; then the rest of the protocols string begins. */
  lemma GroupsWritten(darwin: bool, c: Context, rest: seq<byte>)
    requires |c.grease| == 7
    ensures Groups(darwin) + (Greased(c, 4) + (Curves(darwin) + rest)) == WrittenAll(GroupExtensions(darwin, c)) + rest
  {
    var xs := GroupExtensions(darwin, c);
    var g, curves := Greased(c, 4), Curves(darwin);
    var inner := [0x00, if darwin then 0x0a else 0x08];
    WrittenThree(xs[0], xs[1], xs[2]);
    assert Written(xs[0]) == [0x00, 0x17, 0x00, 0x00];
    assert Written(xs[1]) == [0xff, 0x01, 0x00, 0x01, 0x00];
    GroupsSplit(darwin);
    assert Written(xs[2]) == [0x00, 0x0a] + [0x00, if darwin then 0x0c else 0x0a] + (inner + (g + curves));
    hide Written;
    hide Groups;
    hide Curves;
    hide WrittenAll;
    Regroup(Written(xs[0]), Written(xs[1]), [0x00, 0x0a] + [0x00, if darwin then 0x0c else 0x0a], inner, g, curves, rest);
  }

  lemma GroupsSplit(darwin: bool)
    ensures Groups(darwin) ==
            [0x00, 0x17, 0x00, 0x00] + [0xff, 0x01, 0x00, 0x01, 0x00] +
            ([0x00, 0x0a] + [0x00, if darwin then 0x0c else 0x0a]) + [0x00, if darwin then 0x0a else 0x08]
  {}

  lemma Regroup(a: seq<byte>, b: seq<byte>, h: seq<byte>, i: seq<byte>, g: seq<byte>, k: seq<byte>, rest: seq<byte>)
    ensures a + b + h + i + (g + (k + rest)) == a + b + (h + (i + (g + k))) + rest
  {}

  lemma ProtocolsAre(darwin: bool)
    ensures WrittenAll(ProtocolExtensions(darwin)) ==
            FORMATS + Tickets(darwin) +
            (([0x00, 0x10, 0x00, 0x0e] + ALPN) + STATUS +
             ([0x00, 0x0d, 0x00, if darwin then 0x18 else 0x12] + Signatures(darwin)) + STAMPS)
  {
    var formats, tickets := Extension([0x00, 0x0b], [0x01, 0x00]), Extension([0x00, 0x23], []);
    var alpn, status := Extension([0x00, 0x10], ALPN), Extension([0x00, 0x05], [0x01, 0x00, 0x00, 0x00, 0x00]);
    var signatures, stamps := Extension([0x00, 0x0d], Signatures(darwin)), Extension([0x00, 0x12], []);
    var optional := if darwin then [] else [tickets];
    assert ProtocolExtensions(darwin) == [formats] + optional + ([alpn, status, signatures] + [stamps]);
    assert Written(formats) == FORMATS;
    assert Written(tickets) == [0x00, 0x23, 0x00, 0x00];
    assert Written(status) == STATUS;
    assert Written(stamps) == STAMPS;
    assert Written(alpn) == [0x00, 0x10, 0x00, 0x0e] + ALPN;
    assert Written(signatures) == [0x00, 0x0d, 0x00, if darwin then 0x18 else 0x12] + Signatures(darwin);
    hide *;
    TicketsWritten(darwin, tickets);
    WrittenThree(alpn, status, signatures);
    WrittenOne(formats);
    WrittenOne(stamps);
    WrittenSplit([formats] + optional, [alpn, status, signatures] + [stamps]);
    WrittenSplit([alpn, status, signatures], [stamps]);
    WrittenSplit([formats], optional);
  }

  lemma TicketsWritten(darwin: bool, tickets: Extension)
    requires Written(tickets) == [0x00, 0x23, 0x00, 0x00]
    ensures WrittenAll(if darwin then [] else [tickets]) == Tickets(darwin)
  {
    WrittenOne(tickets);
  }

  /** After the curves, the protocols string holds whole extensions up to the start of the key share. */
  lemma ProtocolsWritten(darwin: bool)
    ensures Protocols(darwin) == Curves(darwin) + (WrittenAll(ProtocolExtensions(darwin)) + SHARE_START)
  {
    hide Curves;
    hide FORMATS;
    hide Tickets;
    hide ALPN;
    hide STATUS;
    hide Signatures;
    hide STAMPS;
    hide SHARE_START;
    hide WrittenAll;
    hide ProtocolExtensions;
    ProtocolsAre(darwin);
    Regroup2(Curves(darwin), FORMATS, Tickets(darwin), [0x00, 0x10, 0x00, 0x0e] + ALPN, STATUS,
             [0x00, 0x0d, 0x00, if darwin then 0x18 else 0x12] + Signatures(darwin), STAMPS, SHARE_START);
  }

  lemma Regroup2(a: seq<byte>, b: seq<byte>, d: seq<byte>, e: seq<byte>, f: seq<byte>, g: seq<byte>, h: seq<byte>,
                 i: seq<byte>)
    ensures a + b + d + e + f + g + h + i == a + (b + d + (e + f + g + h) + i)
  {
    var x := e + f + g + h;
    assert a + b + d + e + f + g + h == a + b + d + x;
    assert a + b + d + x + i == a + (b + d + x + i);
  }

  function Compress(darwin: bool): seq<byte> { if darwin then [] else [0x00, 0x1b, 0x00, 0x03, 0x02, 0x00, 0x02] }

  /** The last operations hold three whole extensions, or four, after the key. */
  lemma LastWritten(darwin: bool, c: Context)
    requires |c.grease| == 7
    ensures var versions := Extension([0x00, 0x2b], [0x0a] + (Greased(c, 6) + VERSIONS));
            LastBytes(darwin, c) ==
            Written(Extension([0x00, 0x2d], [0x01, 0x01])) + (Written(versions) +
            (Compress(darwin) + (Written(Extension(Greased(c, 3), [0x00])) + [0x00, 0x15])))
  {
    var v := VERSIONS;
    var g, g3 := Greased(c, 6), Greased(c, 3);
    var versions, grease := Extension([0x00, 0x2b], [0x0a] + (g + v)), Extension(g3, [0x00]);
    var modes := Extension([0x00, 0x2d], [0x01, 0x01]);
    assert Written(modes) == [0x00, 0x2d, 0x00, 0x02, 0x01, 0x01];
    assert Written(versions) == [0x00, 0x2b, 0x00, 0x0b] + ([0x0a] + (g + v));
    assert Written(grease) == g3 + [0x00, 0x01, 0x00];
    assert LAST == [0x00, 0x01, 0x00] + [0x00, 0x15];
    assert MODES == Written(modes) + [0x00, 0x2b, 0x00, 0x0b] + [0x0a];
    assert Versions(darwin) == v + Compress(darwin);
    hide Written;
    hide MODES;
    hide LAST;
    hide Versions;
    hide Compress;
    hide Greased;
    LastRegroup(Written(modes), [0x00, 0x2b, 0x00, 0x0b], [0x0a], g, v, Compress(darwin), g3, [0x00, 0x01, 0x00], [0x00, 0x15]);
  }

  lemma LastRegroup(m: seq<byte>, h: seq<byte>, i: seq<byte>, g: seq<byte>, v: seq<byte>, z: seq<byte>, k: seq<byte>,
                    o: seq<byte>, p: seq<byte>)
    ensures m + h + i + (g + (v + z + (k + (o + p)))) == m + (h + (i + (g + v)) + (z + (k + o + p)))
  {
    var x := z + (k + o + p);
    assert v + z + (k + (o + p)) == v + x;
    assert m + h + i + (g + (v + x)) == m + (h + (i + (g + v)) + x);
  }

  lemma ShareWritten(c: Context, key: seq<byte>)
    requires |c.grease| == 7 && |key| == 32
    ensures Written(Extension([0x00, 0x33], [0x00, 0x29] + (Greased(c, 4) + (SHARE + key)))) ==
            SHARE_START + (Greased(c, 4) + (SHARE + key))
  {
    var rest := Greased(c, 4) + (SHARE + key);
    assert |rest| == 41;
    assert SHARE_START == [0x00, 0x33] + [0x00, 0x2b] + [0x00, 0x29] && Be16(43) == [0x00, 0x2b];
    hide SHARE_START;
    assert [0x00, 0x33] + [0x00, 0x2b] + ([0x00, 0x29] + rest) == [0x00, 0x33] + [0x00, 0x2b] + [0x00, 0x29] + rest;
  }

  /** From the start of the key share to the kind of the padding. */
  lemma KeysWritten(darwin: bool, c: Context, key: seq<byte>)
    requires |c.grease| == 7 && |key| == 32
    ensures SHARE_START + ShareBytes(darwin, c, key) == WrittenAll(KeyExtensions(darwin, c, key)) + [0x00, 0x15]
  {
    var share := Extension([0x00, 0x33], [0x00, 0x29] + (Greased(c, 4) + (SHARE + key)));
    var modes := Extension([0x00, 0x2d], [0x01, 0x01]);
    var versions := Extension([0x00, 0x2b], [0x0a] + (Greased(c, 6) + VERSIONS));
    var compress := Extension([0x00, 0x1b], [0x02, 0x00, 0x02]);
    var grease := Extension(Greased(c, 3), [0x00]);
    var optional := if darwin then [] else [compress];
    assert KeyExtensions(darwin, c, key) == [share, modes, versions] + (optional + [grease]);
    assert ShareBytes(darwin, c, key) == Greased(c, 4) + (SHARE + (key + LastBytes(darwin, c)));
    hide *;
    ShareWritten(c, key);
    LastWritten(darwin, c);
    CompressWritten(darwin, compress);
    WrittenSplit([share, modes, versions], optional + [grease]);
    WrittenSplit(optional, [grease]);
    WrittenThree(share, modes, versions);
    WrittenOne(grease);
    KeysRegroup(SHARE_START, Greased(c, 4), SHARE, key, Written(modes), Written(versions), Compress(darwin),
                Written(grease), [0x00, 0x15]);
  }

  lemma CompressWritten(darwin: bool, compress: Extension)
    requires compress == Extension([0x00, 0x1b], [0x02, 0x00, 0x02])
    ensures WrittenAll(if darwin then [] else [compress]) == Compress(darwin)
  {
    WrittenOne(compress);
    assert Written(compress) == [0x00, 0x1b, 0x00, 0x03, 0x02, 0x00, 0x02];
  }

  lemma KeysRegroup(s: seq<byte>, g: seq<byte>, h: seq<byte>, key: seq<byte>, m: seq<byte>, v: seq<byte>, z: seq<byte>,
                    e: seq<byte>, p: seq<byte>)
    ensures s + (g + (h + (key + (m + (v + (z + (e + p))))))) == s + (g + (h + key)) + m + v + (z + e) + p
  {
    var x := m + (v + (z + (e + p)));
    assert s + (g + (h + (key + x))) == s + (g + (h + key)) + x;
    assert x == m + v + (z + e) + p;
  }

  // ------------------------------------------------------------ reading the hello

  lemma TailWritten(darwin: bool, c: Context, at: nat)
    requires |c.grease| == 7
    ensures AllFlat(Tail(darwin), c)
    ensures var key := Drawn(c.noise, KeyAt(darwin, at), 32);
            BytesOf(Tail(darwin), c, at) ==
            WrittenAll(GroupExtensions(darwin, c)) +
            (WrittenAll(ProtocolExtensions(darwin)) + (WrittenAll(KeyExtensions(darwin, c, key)) + [0x00, 0x15]))
  {
    hide *;
    var key := Drawn(c.noise, KeyAt(darwin, at), 32);
    TailBytes(darwin, c, at);
    ProtocolsWritten(darwin);
    KeysWritten(darwin, c, key);
    var ps, share := WrittenAll(ProtocolExtensions(darwin)), ShareBytes(darwin, c, key);
    assert Curves(darwin) + (ps + SHARE_START) + share == Curves(darwin) + (ps + (SHARE_START + share));
    GroupsWritten(darwin, c, ps + (SHARE_START + share));
  }

  /** Where the bytes before the padding end, and where the operations after the server name begin. */
  function SizeOf(darwin: bool, c: Context): nat { (if darwin then 314 else 295) + |c.Domain()| }
  function TailAt(darwin: bool, c: Context): nat { Extensions(darwin) + 13 + |c.Domain()| }

  lemma MiddleBytes(darwin: bool, c: Context, at: nat)
    requires |c.grease| == 7
    ensures AllFlat(Middle(darwin), c)
    ensures BytesOf(Middle(darwin), c, at) == Suites(darwin) + (Greased(c, 2) + [0x00, 0x00, 0x00, 0x00])
  {
    MiddleSizes(darwin, c);
    var ops := Middle(darwin);
    assert |ops| == 3 && ops[0] == Str(Suites(darwin)) && ops[1] == Grease(2) && ops[2] == Str([0x00, 0x00, 0x00, 0x00]);
    hide Middle;
    hide Suites;
    hide BytesOf;
    hide AllFlat;
    hide Greased;
    hide Size;
    var s := |Suites(darwin)|;
    assert ops[0..] == ops && ops[3..] == [];
    StrBytes(ops, c, at, 0, Suites(darwin));
    GreaseBytes(ops, c, at + s, 1, 2);
    StrBytes(ops, c, at + s + 2, 2, [0x00, 0x00, 0x00, 0x00]);
    NoBytes(c, at + s + 6);
    assert [0x00, 0x00, 0x00, 0x00] + [] == [0x00, 0x00, 0x00, 0x00];
  }

  /** The four parts of the default hello and the padding, one after the other. */
  lemma PartsRendered(darwin: bool, c: Context, n: nat, h: seq<byte>)
    requires |c.grease| == 7 && n <= 515 && RenderAll([[]], Head(darwin), c) == Some([h]) && |h| == 80
    ensures var t1 := h + (Suites(darwin) + (Greased(c, 2) + [0x00, 0x00, 0x00, 0x00]));
            var t2 := t1 + (Be16(|NameData(c)|) + NameData(c));
            AllFlat(Tail(darwin), c) &&
            RenderAll([[]], Default(darwin) + Padding(n), c) ==
            Some([t2 + BytesOf(Tail(darwin), c, |t2|) + (Be16(515 - n) + Zeros(515 - n))])
  {
    hide *;
    var t1 := h + (Suites(darwin) + (Greased(c, 2) + [0x00, 0x00, 0x00, 0x00]));
    var t2 := t1 + (Be16(|NameData(c)|) + NameData(c));
    MiddleBytes(darwin, c, 80);
    TailSize(darwin, c);
    var t3 := t2 + BytesOf(Tail(darwin), c, |t2|);
    FlatRenderIs(h, Middle(darwin), c);
    NameRender(t1, c);
    FlatRenderIs(t2, Tail(darwin), c);
    PaddingRender(t3, n, c);
    DefaultIs(darwin);
    var a, b, e := Middle(darwin), ServerName(), Tail(darwin);
    assert Head(darwin) + (a + (b + e)) + Padding(n) == Head(darwin) + (a + (b + (e + Padding(n))));
    RenderSplit([[]], Head(darwin), a + (b + (e + Padding(n))), c);
    RenderSplit([h], a, b + (e + Padding(n)), c);
    RenderSplit([t1], b, e + Padding(n), c);
    RenderSplit([t2], e, Padding(n), c);
  }

  lemma ExpectedWritten(darwin: bool, c: Context, key: seq<byte>, p: nat)
    requires |c.grease| == 7
    ensures WrittenAll(Expected(darwin, c, key, p)) ==
            Written(Extension(Greased(c, 2), [])) + Written(Extension([0x00, 0x00], NameData(c))) +
            WrittenAll(GroupExtensions(darwin, c)) + WrittenAll(ProtocolExtensions(darwin)) +
            WrittenAll(KeyExtensions(darwin, c, key)) + Written(Extension([0x00, 0x15], Zeros(p)))
  {
    var x, y, z := Extension(Greased(c, 2), []), Extension([0x00, 0x00], NameData(c)), Extension([0x00, 0x15], Zeros(p));
    var gs, ps, ks := GroupExtensions(darwin, c), ProtocolExtensions(darwin), KeyExtensions(darwin, c, key);
    assert Expected(darwin, c, key, p) == [x] + [y] + gs + ps + ks + [z];
    hide *;
    WrittenOne(x);
    WrittenOne(y);
    WrittenOne(z);
    WrittenSplit([x], [y]);
    WrittenSplit([x] + [y], gs);
    WrittenSplit([x] + [y] + gs, ps);
    WrittenSplit([x] + [y] + gs + ps, ks);
    WrittenSplit([x] + [y] + gs + ps + ks, [z]);
  }

  lemma EdgesWritten(c: Context, p: nat)
    requires |c.grease| == 7
    ensures Written(Extension(Greased(c, 2), [])) == Greased(c, 2) + [0x00, 0x00]
    ensures Written(Extension([0x00, 0x00], NameData(c))) == [0x00, 0x00] + (Be16(|NameData(c)|) + NameData(c))
    ensures Written(Extension([0x00, 0x15], Zeros(p))) == [0x00, 0x15] + (Be16(p) + Zeros(p))
  {
    assert Be16(0) == [0x00, 0x00];
    hide Be16;
    assert Greased(c, 2) + [0x00, 0x00] + [] == Greased(c, 2) + [0x00, 0x00];
    assert [0x00, 0x00] + Be16(|NameData(c)|) + NameData(c) == [0x00, 0x00] + (Be16(|NameData(c)|) + NameData(c));
    assert [0x00, 0x15] + Be16(p) + Zeros(p) == [0x00, 0x15] + (Be16(p) + Zeros(p));
  }

  lemma BlockRegroup(h: seq<byte>, s: seq<byte>, g: seq<byte>, o: seq<byte>, n: seq<byte>, gs: seq<byte>, ps: seq<byte>,
                     ks: seq<byte>, k: seq<byte>, z: seq<byte>)
    ensures h + (s + (g + (o + o))) + n + (gs + (ps + (ks + k))) + z ==
            h + s + (g + o + (o + n) + gs + ps + ks + (k + z))
  {
    assert h + (s + (g + (o + o))) + n == h + s + (g + o + (o + n));
    var x := h + s;
    var y := g + o + (o + n);
    assert x + y + (gs + (ps + (ks + k))) + z == x + (y + gs + ps + ks + (k + z));
  }

  /** What follows the length of the extensions is the expected list, written out. */
  lemma BlockWritten(darwin: bool, c: Context, d: seq<byte>)
    requires |c.grease| == 7
    requires RenderAll([[]], Default(darwin) + Padding(SizeOf(darwin, c)), c) == Some([d]) && SizeOf(darwin, c) <= 515
    ensures var key := Drawn(c.noise, KeyAt(darwin, TailAt(darwin, c)), 32);
            var e := Extensions(darwin);
            |d| >= e && d[e..] == WrittenAll(Expected(darwin, c, key, 515 - SizeOf(darwin, c)))
  {
    hide *;
    var h := HeadRendered(darwin, c);
    var n := SizeOf(darwin, c);
    var key := Drawn(c.noise, KeyAt(darwin, TailAt(darwin, c)), 32);
    var t2 := h + (Suites(darwin) + (Greased(c, 2) + [0x00, 0x00, 0x00, 0x00])) + (Be16(|NameData(c)|) + NameData(c));
    TailStarts(darwin, c, h);
    PartsRendered(darwin, c, n, h);
    TailWritten(darwin, c, |t2|);
    ExpectedWritten(darwin, c, key, 515 - n);
    EdgesWritten(c, 515 - n);
    assert [0x00, 0x00, 0x00, 0x00] == [0x00, 0x00] + [0x00, 0x00];
    BlockRegroup(h, Suites(darwin), Greased(c, 2), [0x00, 0x00], Be16(|NameData(c)|) + NameData(c),
                 WrittenAll(GroupExtensions(darwin, c)), WrittenAll(ProtocolExtensions(darwin)),
                 WrittenAll(KeyExtensions(darwin, c, key)), [0x00, 0x15], Be16(515 - n) + Zeros(515 - n));
    Dropped(h + Suites(darwin), WrittenAll(Expected(darwin, c, key, 515 - n)), d);
  }

  lemma Dropped(a: seq<byte>, b: seq<byte>, d: seq<byte>)
    requires d == a + b
    ensures d[|a|..] == b
  {}

  lemma HeadRendered(darwin: bool, c: Context) returns (h: seq<byte>)
    requires |c.grease| == 7
    ensures RenderAll([[]], Head(darwin), c) == Some([h]) && |h| == 80
  {
    hide *;
    HeadSize(darwin, c);
    FlatRender([], Head(darwin), c);
    h := RenderAll([[]], Head(darwin), c).value[0];
    assert RenderAll([[]], Head(darwin), c).value == [h];
  }

  lemma TailStarts(darwin: bool, c: Context, h: seq<byte>)
    requires |c.grease| == 7 && |h| == 80
    ensures |h + (Suites(darwin) + (Greased(c, 2) + [0x00, 0x00, 0x00, 0x00])) + (Be16(|NameData(c)|) + NameData(c))| ==
            TailAt(darwin, c)
    ensures |h + Suites(darwin)| == Extensions(darwin)
  {
    hide Suites;
    hide Be16;
    hide NameData;
  }

  lemma SizedBoth(xs: seq<Extension>, ys: seq<Extension>)
    requires Sized(xs) && Sized(ys)
    ensures Sized(xs + ys)
  {}

  lemma ExpectedSized(darwin: bool, c: Context, key: seq<byte>, p: nat)
    requires |c.grease| == 7 && |key| == 32 && p <= 515
    ensures Sized(Expected(darwin, c, key, p))
  {
    var x := [Extension(Greased(c, 2), []), Extension([0x00, 0x00], NameData(c))];
    var gs, ps, ks := GroupExtensions(darwin, c), ProtocolExtensions(darwin), KeyExtensions(darwin, c, key);
    var z := [Extension([0x00, 0x15], Zeros(p))];
    assert Sized(x) && Sized(z);
    assert Sized(gs);
    ProtocolsSized(darwin);
    KeysSized(darwin, c, key);
    hide Sized;
    hide GroupExtensions;
    hide ProtocolExtensions;
    hide KeyExtensions;
    SizedBoth(x, gs);
    SizedBoth(x + gs, ps);
    SizedBoth(x + gs + ps, ks);
    SizedBoth(x + gs + ps + ks, z);
  }

  lemma ProtocolsSized(darwin: bool)
    ensures Sized(ProtocolExtensions(darwin))
  {
    hide Signatures;
    var a, b := [Extension([0x00, 0x0b], [0x01, 0x00])], if darwin then [] else [Extension([0x00, 0x23], [])];
    assert |ALPN| == 14;
    hide ALPN;
    SizedBoth(a, b);
  }

  lemma KeysSized(darwin: bool, c: Context, key: seq<byte>)
    requires |c.grease| == 7 && |key| == 32
    ensures Sized(KeyExtensions(darwin, c, key))
  {}

  /** The extensions read as the expected list. */
  lemma BlockReads(darwin: bool, c: Context, d: seq<byte>)
    requires |c.grease| == 7
    requires RenderAll([[]], Default(darwin) + Padding(SizeOf(darwin, c)), c) == Some([d]) && SizeOf(darwin, c) <= 515
    ensures var key := Drawn(c.noise, KeyAt(darwin, TailAt(darwin, c)), 32);
            var e := Extensions(darwin);
            |d| >= e && ReadExtensions(d[e..]) == Some(Expected(darwin, c, key, 515 - SizeOf(darwin, c)))
  {
    hide *;
    var key := Drawn(c.noise, KeyAt(darwin, TailAt(darwin, c)), 32);
    BlockWritten(darwin, c, d);
    ExpectedSized(darwin, c, key, 515 - SizeOf(darwin, c));
    ReadsWritten(Expected(darwin, c, key, 515 - SizeOf(darwin, c)));
  }

  function SuiteLength(darwin: bool): seq<byte> { [0x00, if darwin then 0x36 else 0x20] }

  lemma HeadBytes(darwin: bool, c: Context)
    requires |c.grease| == 7
    ensures AllFlat(Head(darwin), c)
    ensures BytesOf(Head(darwin), c, 0) ==
            RecordStart() + (Zeros(32) + ([0x20] + (Drawn(c.noise, 44, 32) + (SuiteLength(darwin) + Greased(c, 0)))))
  {
    HeadSizes(darwin, c);
    var ops := Head(darwin);
    assert ops[0] == Str(RecordStart()) && ops[1] == Zero(32) && ops[2] == Str([0x20]) && ops[3] == Random(32) &&
           ops[4] == Str(SuiteLength(darwin)) && ops[5] == Grease(0);
    ContentOfDraws(c, 11, 44);
    hide Head;
    hide RecordStart;
    hide BytesOf;
    hide AllFlat;
    hide Greased;
    hide Drawn;
    hide Zeros;
    hide Size;
    hide Content;
    assert ops[0..] == ops && ops[6..] == [];
    StrBytes(ops, c, 0, 0, RecordStart());
    BytesStep(ops, c, 11, 1);
    StrBytes(ops, c, 43, 2, [0x20]);
    BytesStep(ops, c, 44, 3);
    StrBytes(ops, c, 76, 4, SuiteLength(darwin));
    GreaseBytes(ops, c, 78, 5, 0);
    NoBytes(c, 80);
    assert Greased(c, 0) + [] == Greased(c, 0);
  }

  lemma ContentOfDraws(c: Context, i: nat, j: nat)
    ensures Content(Zero(32), c, i) == Some(Zeros(32)) && Content(Random(32), c, j) == Some(Drawn(c.noise, j, 32))
  {}

  /** The fixed bytes around the session identifier and the cipher suites. */
  lemma SuitesFixed(darwin: bool, c: Context, more: seq<Op>, d: seq<byte>)
    requires |c.grease| == 7 && RenderAll([[]], Default(darwin) + more, c) == Some([d])
    ensures var e := Extensions(darwin);
            |d| >= e && d[43..44] == [0x20] && d[76..78] == SuiteLength(darwin) && d[e - 4..e - 2] == [0x01, 0x00]
  {
    hide *;
    FixedParts(darwin, c, more, d);
    SuitesClose(darwin);
    HeadBytes(darwin, c);
    FlatRenderIs([], Head(darwin), c);
    var h := BytesOf(Head(darwin), c, 0);
    assert [] + h == h;
    DefaultIs(darwin);
    var rest := Middle(darwin) + (ServerName() + Tail(darwin));
    assert Head(darwin) + rest + more == Head(darwin) + (rest + more);
    RenderSplit([[]], Head(darwin), rest + more, c);
    RenderGrows([h], rest + more, c);
    HeadSlices(darwin, c, h, d);
    SuitesSlices(darwin, d);
  }

  lemma HeadSlices(darwin: bool, c: Context, h: seq<byte>, d: seq<byte>)
    requires |c.grease| == 7 && h <= d
    requires h == RecordStart() + (Zeros(32) + ([0x20] + (Drawn(c.noise, 44, 32) + (SuiteLength(darwin) + Greased(c, 0)))))
    ensures |d| >= 80 && d[43..44] == [0x20] && d[76..78] == SuiteLength(darwin)
  {
    hide *;
    var a, k, l, g := RecordStart() + Zeros(32), Drawn(c.noise, 44, 32), SuiteLength(darwin), Greased(c, 0);
    assert |l| == 2 && |g| == 2 by { SuiteLengthIs(darwin); TwoBytes(c); }
    assert h == a + ([0x20] + (k + (l + g)));
    MiddleOf(a, [0x20], k + (l + g));
    assert a + ([0x20] + (k + (l + g))) == a + [0x20] + k + (l + g);
    MiddleOf(a + [0x20] + k, l, g);
    PrefixSlice(h, d, 43, 44);
    PrefixSlice(h, d, 76, 78);
  }

  lemma TwoBytes(c: Context)
    requires |c.grease| == 7
    ensures |Greased(c, 0)| == 2
  {}

  lemma MiddleOf(a: seq<byte>, b: seq<byte>, e: seq<byte>)
    ensures (a + (b + e))[|a|..|a| + |b|] == b
  {}

  lemma PrefixSlice(h: seq<byte>, d: seq<byte>, i: nat, j: nat)
    requires h <= d && i <= j <= |h|
    ensures d[i..j] == h[i..j]
  {
    assert d == h + d[|h|..];
  }

  lemma SuitesClose(darwin: bool)
    ensures var e := Extensions(darwin); Suites(darwin)[e - 84..e - 82] == [0x01, 0x00]
  {}

  lemma SuitesSlices(darwin: bool, d: seq<byte>)
    requires |d| >= Extensions(darwin) && d[80..Extensions(darwin)] == Suites(darwin)
    requires Suites(darwin)[Extensions(darwin) - 84..Extensions(darwin) - 82] == [0x01, 0x00]
    ensures d[Extensions(darwin) - 4..Extensions(darwin) - 2] == [0x01, 0x00]
  {
    hide Suites;
    var e := Extensions(darwin);
    SubSlice(d, 80, e - 80, e - 84, e - 82);
  }

  lemma FarFromHash(d: seq<byte>, sent: seq<byte>, i: nat, j: nat)
    requires |d| == |sent| && 43 <= i <= j <= |d| && sent[43..] == d[43..]
    ensures sent[i..j] == d[i..j]
  {
    assert sent[43..][i - 43..j - 43] == sent[i..j] && d[43..][i - 43..j - 43] == d[i..j];
  }

  /** The hello that is sent, for every domain and all random and grease bytes: a session identifier of 32 bytes, the
      cipher suites of the announced length followed by one compression method, and extensions that read as the
      expected list and end exactly at the end of the hello. */
  lemma DefaultHelloReads(darwin: bool, c: Context, blank: seq<byte>, mac: seq<byte>)
    requires |c.grease| == 7 && |blank| == 517 && |mac| == 32
    ensures StoreAll(Store(blank, 0, []), Full(Default(darwin), c), c).Some?
    ensures |StoreAll(Store(blank, 0, []), Full(Default(darwin), c), c).value.data| == 517
    ensures var sent := Patch(StoreAll(Store(blank, 0, []), Full(Default(darwin), c), c).value.data, 11, mac);
            var e := Extensions(darwin);
            var key := Drawn(c.noise, KeyAt(darwin, TailAt(darwin, c)), 32);
            sent[43] == 32 && BigEndian(sent[76..78]) == e - 4 - 78 && sent[e - 4..e - 2] == [0x01, 0x00] &&
            ReadExtensions(sent[e..]) == Some(Expected(darwin, c, key, 515 - SizeOf(darwin, c)))
  {
    hide *;
    FullRendered(darwin, c, blank);
    var d := StoreAll(Store(blank, 0, []), Full(Default(darwin), c), c).value.data;
    var e := Extensions(darwin);
    BlockReads(darwin, c, d);
    SuitesFixed(darwin, c, Padding(SizeOf(darwin, c)), d);
    var sent := Patch(d, 11, mac);
    PatchParts(d, 11, mac);
    ExtensionsAt(darwin);
    FarFromHash(d, sent, 43, 44);
    FarFromHash(d, sent, 76, 78);
    FarFromHash(d, sent, e - 4, e - 2);
    FarFromHash(d, sent, e, 517);
    assert sent[e..517] == sent[e..] && d[e..517] == d[e..];
    assert sent[43..44][0] == sent[43];
    SuiteLengthIs(darwin);
  }

  lemma FullRendered(darwin: bool, c: Context, blank: seq<byte>)
    requires |c.grease| == 7 && |blank| == 517
    ensures SizeOf(darwin, c) <= 515 && StoreAll(Store(blank, 0, []), Full(Default(darwin), c), c).Some?
    ensures var d := StoreAll(Store(blank, 0, []), Full(Default(darwin), c), c).value.data;
            |d| == 517 && RenderAll([[]], Default(darwin) + Padding(SizeOf(darwin, c)), c) == Some([d])
  {
    hide MeasureAll;
    hide Default;
    hide StoreAll;
    hide RenderAll;
    DefaultMeasure(darwin, c);
    DefaultAccepted(darwin, c);
    HelloIsRendered(Default(darwin), c, blank);
  }

  lemma ExtensionsAt(darwin: bool)
    ensures Extensions(darwin) == if darwin then 136 else 114
  {}

  lemma SuiteLengthIs(darwin: bool)
    ensures |SuiteLength(darwin)| == 2 && BigEndian(SuiteLength(darwin)) == Extensions(darwin) - 4 - 78
  {
    BigEndianOf(0, if darwin then 0x36 else 0x20, 0);
  }
}
