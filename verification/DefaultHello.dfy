/** The hello that is actually sent: its operations are accepted for every domain, and the lengths written out in
    its fixed strings are the true ones (TlsHello::get_default of td/mtproto/TlsInit.cpp). */
module DefaultHello {
  import opened Bytes
  import opened TlsHello

  function RecordStart(): (r: seq<byte>)
    ensures |r| == 11
  {
    [0x16, 0x03, 0x01, 0x02, 0x00, 0x01, 0x00, 0x01, 0xfc, 0x03, 0x03]
  }

  /** Cipher suites, compression, and the length of all extensions. */
  function Suites(darwin: bool): (r: seq<byte>)
    ensures |r| == if darwin then 56 else 34
  {
    if darwin then
      [0x13, 0x01, 0x13, 0x02, 0x13, 0x03, 0xc0, 0x2c, 0xc0, 0x2b, 0xcc, 0xa9, 0xc0, 0x30, 0xc0, 0x2f, 0xcc, 0xa8,
       0xc0, 0x24, 0xc0, 0x23, 0xc0, 0x0a, 0xc0, 0x09, 0xc0, 0x28, 0xc0, 0x27, 0xc0, 0x14, 0xc0, 0x13, 0x00, 0x9d,
       0x00, 0x9c, 0x00, 0x3d, 0x00, 0x3c, 0x00, 0x35, 0x00, 0x2f, 0xc0, 0x08, 0xc0, 0x12, 0x00, 0x0a, 0x01, 0x00,
       0x01, 0x7d]
    else
      [0x13, 0x01, 0x13, 0x02, 0x13, 0x03, 0xc0, 0x2b, 0xc0, 0x2f, 0xc0, 0x2c, 0xc0, 0x30, 0xcc, 0xa9, 0xcc, 0xa8,
       0xc0, 0x13, 0xc0, 0x14, 0x00, 0x9c, 0x00, 0x9d, 0x00, 0x2f, 0x00, 0x35, 0x01, 0x00, 0x01, 0x93]
  }

  function Groups(darwin: bool): (r: seq<byte>)
    ensures |r| == 15
  {
    [0x00, 0x17, 0x00, 0x00, 0xff, 0x01, 0x00, 0x01, 0x00, 0x00, 0x0a, 0x00] +
    (if darwin then [0x0c, 0x00, 0x0a] else [0x0a, 0x00, 0x08])
  }

  /** The pieces of the next string: the rest of the groups, whole extensions, and the start of the key share. */
  function Curves(darwin: bool): (r: seq<byte>)
    ensures |r| == if darwin then 8 else 6
  {
    [0x00, 0x1d, 0x00, 0x17, 0x00, 0x18] + if darwin then [0x00, 0x19] else []
  }

  const FORMATS: seq<byte> := [0x00, 0x0b, 0x00, 0x02, 0x01, 0x00]
  const STATUS: seq<byte> := [0x00, 0x05, 0x00, 0x05, 0x01, 0x00, 0x00, 0x00, 0x00]
  const STAMPS: seq<byte> := [0x00, 0x12, 0x00, 0x00]
  const SHARE_START: seq<byte> := [0x00, 0x33, 0x00, 0x2b, 0x00, 0x29]
  const ALPN: seq<byte> := [0x00, 0x0c, 0x02, 0x68, 0x32, 0x08, 0x68, 0x74, 0x74, 0x70, 0x2f, 0x31, 0x2e, 0x31]

  function Tickets(darwin: bool): (r: seq<byte>)
    ensures |r| == if darwin then 0 else 4
  {
    if darwin then [] else [0x00, 0x23, 0x00, 0x00]
  }

  function Signatures(darwin: bool): (r: seq<byte>)
    ensures |r| == if darwin then 24 else 18
  {
    if darwin then
      [0x00, 0x16, 0x04, 0x03, 0x08, 0x04, 0x04, 0x01, 0x05, 0x03, 0x02, 0x03, 0x08, 0x05, 0x08, 0x05, 0x05, 0x01,
       0x08, 0x06, 0x06, 0x01, 0x02, 0x01]
    else
      [0x00, 0x10, 0x04, 0x03, 0x08, 0x04, 0x04, 0x01, 0x05, 0x03, 0x08, 0x05, 0x05, 0x01, 0x08, 0x06, 0x06, 0x01]
  }

  function Protocols(darwin: bool): (r: seq<byte>)
    ensures |r| == if darwin then 79 else 75
  {
    Curves(darwin) + FORMATS + Tickets(darwin) + ([0x00, 0x10, 0x00, 0x0e] + ALPN) + STATUS +
    ([0x00, 0x0d, 0x00, if darwin then 0x18 else 0x12] + Signatures(darwin)) + STAMPS + SHARE_START
  }

  /** The start of the key share's only real entry, and the protocol versions. */
  const SHARE: seq<byte> := [0x00, 0x01, 0x00, 0x00, 0x1d, 0x00, 0x20]
  const VERSIONS: seq<byte> := [0x03, 0x04, 0x03, 0x03, 0x03, 0x02, 0x03, 0x01]

  function Versions(darwin: bool): (r: seq<byte>)
    ensures |r| == if darwin then 8 else 15
  {
    VERSIONS +
    (if darwin then [] else [0x00, 0x1b, 0x00, 0x03, 0x02, 0x00, 0x02])
  }

  function Head(darwin: bool): seq<Op> {
    [Str(RecordStart()), Zero(32), Str([0x20]), Random(32), Str([0x00, if darwin then 0x36 else 0x20]), Grease(0)]
  }
  function Middle(darwin: bool): seq<Op> { [Str(Suites(darwin)), Grease(2), Str([0x00, 0x00, 0x00, 0x00])] }
  function ServerName(): seq<Op> {
    [BeginScope, BeginScope, Str([0x00]), BeginScope, Op.Domain, EndScope, EndScope, EndScope]
  }
  function Tail(darwin: bool): seq<Op> {
    [Str(Groups(darwin)), Grease(4), Str(Protocols(darwin)), Grease(4),
     Str(SHARE), Key,
     Str([0x00, 0x2d, 0x00, 0x02, 0x01, 0x01, 0x00, 0x2b, 0x00, 0x0b, 0x0a]), Grease(6), Str(Versions(darwin)),
     Grease(3), Str([0x00, 0x01, 0x00, 0x00, 0x15])]
  }

  function Default(darwin: bool): seq<Op> { Head(darwin) + (Middle(darwin) + (ServerName() + Tail(darwin))) }

  // ------------------------------------------------------------ runs of operations without scopes

  predicate Flat(op: Op, c: Context) {
    match op
    case BeginScope => false
    case EndScope => false
    case Random(n) => 0 < n <= 1024
    case Zero(n) => 0 < n <= 1024
    case Grease(i) => 0 <= i < |c.grease|
    case _ => true
  }

  function Size(op: Op, c: Context): nat
    requires Flat(op, c)
  {
    match op
    case Str(data) => |data|
    case Random(n) => n
    case Zero(n) => n
    case Domain => |c.Domain()|
    case Grease(_) => 2
    case Key => 32
  }

  ghost predicate AllFlat(ops: seq<Op>, c: Context) { forall i :: 0 <= i < |ops| ==> Flat(ops[i], c) }

  ghost function Sizes(ops: seq<Op>, c: Context): nat
    requires AllFlat(ops, c)
  {
    if ops == [] then 0 else Size(ops[0], c) + Sizes(ops[1..], c)
  }

  lemma {:induction false} FlatMeasure(m: Measure, ops: seq<Op>, c: Context)
    requires m.ok && AllFlat(ops, c)
    ensures MeasureAll(m, ops, c) == m.(size := m.size + Sizes(ops, c)) && Scopes(m, ops, c) == []
    decreases |ops|
  {
    if ops == [] {
    } else {
      FlatMeasure(MeasureOp(m, ops[0], c), ops[1..], c);
    }
  }

  lemma {:induction false} FlatRender(t: seq<byte>, ops: seq<Op>, c: Context)
    requires AllFlat(ops, c)
    ensures var r := RenderAll([t], ops, c);
            r.Some? && |r.value| == 1 && t <= r.value[0] && |r.value[0]| == |t| + Sizes(ops, c)
    decreases |ops|
  {
    if ops == [] {
    } else {
      var b := Content(ops[0], c, Total([t])).value;
      assert [t][..0] + [t + b] == [t + b];
      FlatRender(t + b, ops[1..], c);
    }
  }

  lemma SizesStep(ops: seq<Op>, c: Context, i: nat)
    requires AllFlat(ops, c) && i < |ops|
    ensures AllFlat(ops[i..], c) && AllFlat(ops[i + 1..], c)
    ensures Sizes(ops[i..], c) == Size(ops[i], c) + Sizes(ops[i + 1..], c)
  {
    assert ops[i..][1..] == ops[i + 1..];
  }

  lemma NoSize(c: Context)
    ensures AllFlat([], c) && Sizes([], c) == 0
  {}

  lemma HeadSizes(darwin: bool, c: Context)
    requires |c.grease| == 7
    ensures |Head(darwin)| == 6 && AllFlat(Head(darwin), c)
    ensures var ops := Head(darwin);
            Size(ops[0], c) == 11 && Size(ops[1], c) == 32 && Size(ops[2], c) == 1 && Size(ops[3], c) == 32 &&
            Size(ops[4], c) == 2 && Size(ops[5], c) == 2
  {
    hide RecordStart;
  }

  lemma HeadSize(darwin: bool, c: Context)
    requires |c.grease| == 7
    ensures AllFlat(Head(darwin), c) && Sizes(Head(darwin), c) == 80
  {
    HeadSizes(darwin, c);
    hide *;
    var ops := Head(darwin);
    SizesStep(ops, c, 0);
    SizesStep(ops, c, 1);
    SizesStep(ops, c, 2);
    SizesStep(ops, c, 3);
    SizesStep(ops, c, 4);
    SizesStep(ops, c, 5);
    assert ops[0..] == ops && ops[6..] == [];
    NoSize(c);
  }

  lemma MiddleSizes(darwin: bool, c: Context)
    requires |c.grease| == 7
    ensures |Middle(darwin)| == 3 && AllFlat(Middle(darwin), c)
    ensures var ops := Middle(darwin);
            Size(ops[0], c) == (if darwin then 56 else 34) && Size(ops[1], c) == 2 && Size(ops[2], c) == 4
  {
    hide Suites;
  }

  lemma MiddleSize(darwin: bool, c: Context)
    requires |c.grease| == 7
    ensures AllFlat(Middle(darwin), c) && Sizes(Middle(darwin), c) == if darwin then 62 else 40
  {
    MiddleSizes(darwin, c);
    hide *;
    var ops := Middle(darwin);
    SizesStep(ops, c, 0);
    SizesStep(ops, c, 1);
    SizesStep(ops, c, 2);
    assert ops[0..] == ops && ops[3..] == [];
    NoSize(c);
  }

  lemma TailSizes(darwin: bool, c: Context)
    requires |c.grease| == 7
    ensures |Tail(darwin)| == 11 && AllFlat(Tail(darwin), c)
    ensures var ops := Tail(darwin);
            Size(ops[0], c) == 15 && Size(ops[1], c) == 2 && Size(ops[2], c) == (if darwin then 79 else 75) && Size(ops[3], c) == 2 &&
            Size(ops[4], c) == 7 && Size(ops[5], c) == 32 && Size(ops[6], c) == 11 && Size(ops[7], c) == 2 &&
            Size(ops[8], c) == (if darwin then 8 else 15) && Size(ops[9], c) == 2 && Size(ops[10], c) == 5
  {
    hide Groups;
    hide Protocols;
    hide Versions;
  }

  lemma SizesOfFour(ops: seq<Op>, c: Context, i: nat)
    requires AllFlat(ops, c) && i + 4 <= |ops|
    ensures AllFlat(ops[i..], c) && AllFlat(ops[i + 4..], c)
    ensures Sizes(ops[i..], c) ==
            Size(ops[i], c) + Size(ops[i + 1], c) + Size(ops[i + 2], c) + Size(ops[i + 3], c) + Sizes(ops[i + 4..], c)
  {
    hide Sizes;
    hide Size;
    SizesStep(ops, c, i);
    SizesStep(ops, c, i + 1);
    SizesStep(ops, c, i + 2);
    SizesStep(ops, c, i + 3);
  }

  lemma TailSize(darwin: bool, c: Context)
    requires |c.grease| == 7
    ensures AllFlat(Tail(darwin), c) && Sizes(Tail(darwin), c) == if darwin then 165 else 168
  {
    TailSizes(darwin, c);
    hide *;
    var ops := Tail(darwin);
    SizesOfFour(ops, c, 0);
    SizesOfFour(ops, c, 4);
    SizesStep(ops, c, 8);
    SizesStep(ops, c, 9);
    SizesStep(ops, c, 10);
    assert ops[0..] == ops && ops[11..] == [];
    NoSize(c);
  }

  lemma MeasureStep(m: Measure, ops: seq<Op>, c: Context, i: nat)
    requires i < |ops|
    ensures MeasureAll(m, ops[i..], c) == MeasureAll(MeasureOp(m, ops[i], c), ops[i + 1..], c)
  {
    assert ops[i..][1..] == ops[i + 1..];
  }

  lemma ServerNameIs()
    ensures var s := ServerName();
            |s| == 8 && s[0].BeginScope? && s[1].BeginScope? && s[2] == Str([0x00]) && s[3].BeginScope? &&
            s[4].Domain? && s[5].EndScope? && s[6].EndScope? && s[7].EndScope?
  {}

  lemma ServerNameMeasure(m: Measure, c: Context)
    requires m.ok && m.scopes == []
    ensures MeasureAll(m, ServerName(), c) == m.(size := m.size + 7 + |c.Domain()|)
  {
    ServerNameIs();
    hide ServerName;
    hide MeasureAll;
    var ops := ServerName();
    var n := m.size;
    var d := n + 7 + |c.Domain()|;
    var m4 := Measure(n + 7, true, [n + 2, n + 4, n + 7]);
    NameOpens(m, ops, c);
    NameCloses(n, ops, c);
    assert ops[0..] == ops;
  }

  lemma NameOpens(m: Measure, ops: seq<Op>, c: Context)
    requires m.ok && m.scopes == [] && |ops| == 8
    requires ops[0].BeginScope? && ops[1].BeginScope? && ops[2] == Str([0x00]) && ops[3].BeginScope?
    ensures MeasureAll(m, ops[0..], c) ==
            MeasureAll(Measure(m.size + 7, true, [m.size + 2, m.size + 4, m.size + 7]), ops[4..], c)
  {
    hide MeasureAll;
    var m1 := MeasureOp(m, ops[0], c);
    var m2 := MeasureOp(m1, ops[1], c);
    var m3 := MeasureOp(m2, ops[2], c);
    assert MeasureOp(m3, ops[3], c).scopes == [m.size + 2, m.size + 4, m.size + 7];
    MeasureStep(m, ops, c, 0);
    MeasureStep(m1, ops, c, 1);
    MeasureStep(m2, ops, c, 2);
    MeasureStep(m3, ops, c, 3);
  }

  lemma NameCloses(n: nat, ops: seq<Op>, c: Context)
    requires |ops| == 8 && ops[4].Domain? && ops[5].EndScope? && ops[6].EndScope? && ops[7].EndScope?
    ensures MeasureAll(Measure(n + 7, true, [n + 2, n + 4, n + 7]), ops[4..], c) ==
            Measure(n + 7 + |c.Domain()|, true, [])
  {
    hide MeasureAll;
    var m4 := Measure(n + 7, true, [n + 2, n + 4, n + 7]);
    var m5 := MeasureOp(m4, ops[4], c);
    var m6 := MeasureOp(m5, ops[5], c);
    assert m6.scopes == [n + 2, n + 4];
    var m7 := MeasureOp(m6, ops[6], c);
    assert m7.scopes == [n + 2];
    var m8 := MeasureOp(m7, ops[7], c);
    assert m8.scopes == [];
    MeasureStep(m4, ops, c, 4);
    MeasureStep(m5, ops, c, 5);
    MeasureStep(m6, ops, c, 6);
    MeasureStep(m7, ops, c, 7);
    assert ops[8..] == [];
    NothingToMeasure(m8, c);
  }

  lemma NothingToMeasure(m: Measure, c: Context)
    ensures MeasureAll(m, [], c) == m
  {}

  /** Where the extensions begin. */
  function Extensions(darwin: bool): nat { if darwin then 136 else 114 }

  lemma DefaultMeasure(darwin: bool, c: Context)
    requires |c.grease| == 7
    ensures MeasureAll(START, Default(darwin), c) == Measure((if darwin then 314 else 295) + |c.Domain()|, true, [])
  {
    hide *;
    HeadSize(darwin, c);
    MiddleSize(darwin, c);
    TailSize(darwin, c);
    StartIs();
    FlatMeasure(START, Head(darwin), c);
    var a := MeasureAll(START, Head(darwin), c);
    FlatMeasure(a, Middle(darwin), c);
    var b := MeasureAll(a, Middle(darwin), c);
    ServerNameMeasure(b, c);
    var d := MeasureAll(b, ServerName(), c);
    FlatMeasure(d, Tail(darwin), c);
    MeasureSplit(START, Head(darwin), Middle(darwin) + (ServerName() + Tail(darwin)), c);
    MeasureSplit(a, Middle(darwin), ServerName() + Tail(darwin), c);
    MeasureSplit(b, ServerName(), Tail(darwin), c);
    DefaultIs(darwin);
  }

  lemma StartIs()
    ensures START.ok && START.size == 0 && START.scopes == []
  {}

  lemma DefaultIs(darwin: bool)
    ensures Default(darwin) == Head(darwin) + (Middle(darwin) + (ServerName() + Tail(darwin)))
  {}

  /** The default hello is accepted for every domain. */
  lemma DefaultAccepted(darwin: bool, c: Context)
    requires |c.grease| == 7
    ensures Length(Default(darwin), c) == Some(517)
  {
    DefaultMeasure(darwin, c);
    PaddingMeasure(MeasureAll(START, Default(darwin), c), c);
    hide MeasureAll;
    hide MeasureOp;
    hide Default;
  }

  // ------------------------------------------------------------ the lengths in its fixed strings

  lemma {:induction false} RenderSplit(stack: seq<seq<byte>>, a: seq<Op>, b: seq<Op>, c: Context)
    ensures RenderAll(stack, a + b, c) ==
            if RenderAll(stack, a, c).None? then None else RenderAll(RenderAll(stack, a, c).value, b, c)
    decreases |a|
  {
    hide Render;
    if a == [] {
      assert a + b == b;
    } else {
      assert (a + b)[1..] == a[1..] + b;
      if Render(stack, a[0], c).Some? {
        RenderSplit(Render(stack, a[0], c).value, a[1..], b, c);
      }
    }
  }

  /** What is collected outside all scopes only grows. */
  lemma {:induction false} RenderGrows(stack: seq<seq<byte>>, ops: seq<Op>, c: Context)
    requires stack != [] && RenderAll(stack, ops, c).Some?
    ensures var r := RenderAll(stack, ops, c).value; r != [] && stack[0] <= r[0]
    decreases |ops|
  {
    if ops == [] {
    } else {
      var t := Render(stack, ops[0], c).value;
      assert t != [] && stack[0] <= t[0] by { RenderStep(stack, ops[0], c); }
      hide Render;
      RenderGrows(t, ops[1..], c);
    }
  }

  lemma RenderStep(stack: seq<seq<byte>>, op: Op, c: Context)
    requires stack != [] && Render(stack, op, c).Some?
    ensures var t := Render(stack, op, c).value; t != [] && stack[0] <= t[0]
  {
    hide Content;
    hide Total;
  }

  /** Rendering starts with the record header, and the suites end where the extensions begin. */
  lemma FixedParts(darwin: bool, c: Context, more: seq<Op>, d: seq<byte>)
    requires |c.grease| == 7 && RenderAll([[]], Default(darwin) + more, c) == Some([d])
    ensures RecordStart() <= d && |d| >= Extensions(darwin) && d[80..Extensions(darwin)] == Suites(darwin)
  {
    hide RenderAll;
    hide Render;
    hide Suites;
    hide RecordStart;
    hide ServerName;
    hide Tail;
    HeadSize(darwin, c);
    FlatRender([], Head(darwin), c);
    var h := RenderAll([[]], Head(darwin), c).value[0];
    assert RenderAll([[]], Head(darwin), c).value == [h];
    HeadStarts(darwin, c);
    var rest := Middle(darwin) + (ServerName() + Tail(darwin)) + more;
    hide Head;
    assert Default(darwin) + more == Head(darwin) + rest;
    RenderSplit([[]], Head(darwin), rest, c);
    assert rest[0] == Str(Suites(darwin)) && rest != [];
    RenderStr(h, rest, Suites(darwin), c);
    RenderGrows([h + Suites(darwin)], rest[1..], c);
    assert (h + Suites(darwin))[80..Extensions(darwin)] == Suites(darwin);
  }

  lemma RenderStr(t: seq<byte>, ops: seq<Op>, b: seq<byte>, c: Context)
    requires ops != [] && ops[0] == Str(b)
    ensures RenderAll([t], ops, c) == RenderAll([t + b], ops[1..], c)
  {
    assert [t][..0] + [t + b] == [t + b];
  }

  lemma HeadStarts(darwin: bool, c: Context)
    requires |c.grease| == 7 && RenderAll([[]], Head(darwin), c).Some?
    ensures var r := RenderAll([[]], Head(darwin), c).value; r != [] && RecordStart() <= r[0]
  {
    hide RecordStart;
    var ops := Head(darwin);
    assert ops != [] && ops[0] == Str(RecordStart());
    hide Head;
    RenderStr([], ops, RecordStart(), c);
    assert [] + RecordStart() == RecordStart();
    RenderGrows([RecordStart()], ops[1..], c);
  }

  lemma {:induction false} ScopesSplit(m: Measure, a: seq<Op>, b: seq<Op>, c: Context)
    ensures Scopes(m, a + b, c) == Scopes(m, a, c) + Scopes(MeasureAll(m, a, c), b, c)
    decreases |a|
  {
    hide MeasureOp;
    if a == [] {
      assert a + b == b;
      assert [] + Scopes(m, b, c) == Scopes(m, b, c);
    } else {
      assert (a + b)[1..] == a[1..] + b;
      ScopesSplit(MeasureOp(m, a[0], c), a[1..], b, c);
    }
  }

  /** Scopes that are opened from offset 43 on have their lengths from offset 43 on. */
  lemma {:induction false} ScopesAbove(m: Measure, ops: seq<Op>, c: Context)
    requires m.size >= 43 && forall i :: 0 <= i < |m.scopes| ==> m.scopes[i] >= 45
    ensures forall i :: 0 <= i < |Scopes(m, ops, c)| ==> Scopes(m, ops, c)[i].0 >= 43
    decreases |ops|
  {
    if ops == [] {
    } else {
      ScopesAbove(MeasureOp(m, ops[0], c), ops[1..], c);
    }
  }

  /** The number that the bytes are, most significant first. */
  function BigEndian(s: seq<byte>): nat {
    if s == [] then 0 else 256 * BigEndian(s[..|s| - 1]) + s[|s| - 1]
  }

  lemma BigEndianOf(a: byte, b: byte, d: byte)
    ensures BigEndian([a, b]) == 256 * a + b && BigEndian([a, b, d]) == 65536 * a + 256 * b + d
  {
    assert [a, b, d][..2] == [a, b] && [a, b][..1] == [a] && [a][..0] == [];
    assert BigEndian([a]) == 256 * BigEndian([]) + a;
    assert BigEndian([a, b]) == 256 * BigEndian([a]) + b;
    assert BigEndian([a, b, d]) == 256 * BigEndian([a, b]) + d;
  }

  /** The hello that is sent, for every domain, every grease and random bytes and every hash: 517 bytes, every scope
      with its right length, and the three lengths written out in the fixed strings - of the record, of the
      handshake message and of the extensions - equal to the bytes that follow them. */
  lemma DefaultHelloLengths(darwin: bool, c: Context, blank: seq<byte>, mac: seq<byte>)
    requires |c.grease| == 7 && |blank| == 517 && |mac| == 32
    ensures StoreAll(Store(blank, 0, []), Full(Default(darwin), c), c).Some?
    ensures |StoreAll(Store(blank, 0, []), Full(Default(darwin), c), c).value.data| == 517
    ensures var sent := Patch(StoreAll(Store(blank, 0, []), Full(Default(darwin), c), c).value.data, 11, mac);
            var e := Extensions(darwin);
            Right(sent, Scopes(START, Full(Default(darwin), c), c)) &&
            BigEndian(sent[3..5]) == 517 - 5 && BigEndian(sent[6..9]) == 517 - 9 && BigEndian(sent[e - 2..e]) == 517 - e
  {
    hide MeasureAll;
    hide MeasureOp;
    hide Default;
    hide StoreAll;
    hide RenderAll;
    hide Scopes;
    hide Right;
    var ops := Default(darwin);
    DefaultAccepted(darwin, c);
    HelloIsRendered(ops, c, blank);
    HelloScopesRight(ops, c, blank);
    var d := StoreAll(Store(blank, 0, []), Full(ops, c), c).value.data;
    FixedParts(darwin, c, Padding(MeasureAll(START, ops, c).size), d);
    DefaultScopesHigh(darwin, c);
    var scopes := Scopes(START, Full(ops, c), c);
    HashSparesScopes(d, scopes);
    var sent := Patch(d, 11, mac);
    var e := Extensions(darwin);
    assert Right(sent, scopes);
    FixedLengths(darwin, d, mac);
  }

  lemma FixedLengths(darwin: bool, d: seq<byte>, mac: seq<byte>)
    requires |d| == 517 && |mac| == 32 && RecordStart() <= d && d[80..Extensions(darwin)] == Suites(darwin)
    ensures var sent := Patch(d, 11, mac);
            var e := Extensions(darwin);
            BigEndian(sent[3..5]) == 517 - 5 && BigEndian(sent[6..9]) == 517 - 9 && BigEndian(sent[e - 2..e]) == 517 - e
  {
    hide BigEndian;
    var sent := Patch(d, 11, mac);
    var e := Extensions(darwin);
    PatchParts(d, 11, mac);
    SuitesEnd(darwin);
    assert sent[..11] == RecordStart();
    assert sent[3..5] == sent[..11][3..5] == [2, 0];
    assert sent[6..9] == sent[..11][6..9] == [0, 1, 0xfc];
    assert sent[e - 2..e] == sent[43..][e - 45..e - 43];
    assert d[e - 2..e] == d[43..][e - 45..e - 43];
    assert d[e - 2..e] == d[80..e][e - 82..e - 80];
    BigEndianOf(2, 0, 0);
    BigEndianOf(0, 1, 0xfc);
    BigEndianOf(1, if darwin then 0x7d else 0x93, 0);
  }

  lemma SuitesEnd(darwin: bool)
    ensures var e := Extensions(darwin);
            Suites(darwin)[e - 82..e - 80] == [1, if darwin then 0x7d else 0x93]
  {}

  lemma DefaultScopesHigh(darwin: bool, c: Context)
    requires |c.grease| == 7
    ensures var scopes := Scopes(START, Full(Default(darwin), c), c);
            forall i :: 0 <= i < |scopes| ==> scopes[i].0 + 2 <= 11 || 43 <= scopes[i].0
  {
    hide *;
    HeadSize(darwin, c);
    StartIs();
    FlatMeasure(START, Head(darwin), c);
    FullIs(darwin, c);
    var rest := Full(Default(darwin), c)[|Head(darwin)|..];
    ScopesSplit(START, Head(darwin), rest, c);
    var m := MeasureAll(START, Head(darwin), c);
    ScopesAbove(m, rest, c);
  }

  lemma FullIs(darwin: bool, c: Context)
    ensures var n := |Head(darwin)|;
            |Full(Default(darwin), c)| >= n && Full(Default(darwin), c) == Head(darwin) + Full(Default(darwin), c)[n..]
  {
    hide Head;
    hide Middle;
    hide ServerName;
    hide Tail;
    hide MeasureAll;
  }
}
