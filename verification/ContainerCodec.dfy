/** The bytes of messages and containers, and the parser that takes them apart again
    (do_store in td/mtproto/CryptoStorer.h; parse_message, on_packet_container and on_main_packet in
    td/mtproto/SessionConnection.cpp). */
module ContainerCodec {
  import opened Bytes
  import opened TlPrimitives
  import opened AuthData
  import opened CryptoStorer

  /** One message on the wire. */
  datatype Frame = Frame(id: nat, seqNo: nat, body: seq<byte>)
  {
    /** The values fit their fields: 64, 32 and 32 bits. */
    predicate Fits() {
      id < 0x1_0000_0000_0000_0000 && seqNo < 0x1_0000_0000 && |body| < 0x1_0000_0000
    }
  }

  const CONTAINER_ID: nat := 0x73f1f8dc
  const VECTOR_ID: nat := 0x1cb5c415

  // ------------------------------------------------------------ storing

  function Int32(x: int): (r: seq<byte>)
    ensures |r| == 4
  {
    Le(x % 0x1_0000_0000, 4)
  }

  function Int64(x: int): (r: seq<byte>)
    ensures |r| == 8
  {
    Le(x % 0x1_0000_0000_0000_0000, 8)
  }

  function IdList(ids: seq<int>): (r: seq<byte>)
    ensures |r| == 8 * |ids|
  {
    if ids == [] then [] else Int64(ids[0]) + IdList(ids[1..])
  }

  function IdVector(ids: seq<int>): (r: seq<byte>)
    ensures |r| == 8 + 8 * |ids|
  {
    Int32(VECTOR_ID) + Int32(|ids|) + IdList(ids)
  }

  function QueryBody(q: Query, header: seq<byte>): seq<byte>
    requires |q.packet| < 0x1_0000_0000
  {
    header + (if q.invokeAfterId != 0 then Int32(0xcb9f372d) + Int64(q.invokeAfterId) else []) +
    if q.gzipFlag then Int32(0x3072cfa1) + StoreString(q.packet) else q.packet
  }

  predicate Storable(p: Payload) {
    p.QueryData? ==> |p.query.packet| < 0x1_0000_0000
  }

  function Body(p: Payload, header: seq<byte>): seq<byte>
    requires Storable(p)
  {
    match p
    case QueryData(q) => QueryBody(q, header)
    case Ack(ids) => Int32(0x62d6b459) + IdVector(ids)
    case Ping(id, timeout) => Int32(0xf3427b8c) + Int64(id) + Int32(timeout)
    case HttpWait(delay, after, wait) => Int32(0x9299359f) + Int32(delay) + Int32(after) + Int32(wait)
    case GetFutureSalts(n) => Int32(0xb921bd04) + Int32(n)
    case StateRequest(ids) => Int32(0xda69fb52) + IdVector(ids)
    case ResendRequest(ids) => Int32(0x7d861a08) + IdVector(ids)
    case DropAnswer(id) => Int32(0x58e4a740) + Int64(id)
    case DestroyKey => Int32(0xd1435160)
  }

  /** A body is a whole number of words, except for an unpacked query with odd-sized data or header. */
  lemma BodyAligned(p: Payload, header: seq<byte>)
    requires Storable(p)
    ensures |Body(p, header)| % 4 == 0 <==>
            (p.QueryData? ==> (|header| + if p.query.gzipFlag then 0 else |p.query.packet|) % 4 == 0)
  {
    hide Body;
    hide QueryBody;
    if p.QueryData? {
      QueryAligned(p.query, header);
      BodyOfQuery(p, header);
    } else {
      ServiceBody(p, header);
    }
  }

  lemma BodyOfQuery(p: Payload, header: seq<byte>)
    requires Storable(p) && p.QueryData?
    ensures Body(p, header) == QueryBody(p.query, header)
  {
    hide QueryBody;
  }

  lemma Words(n: nat)
    ensures 4 * n % 4 == 0
  {}

  lemma ServiceBody(p: Payload, header: seq<byte>)
    requires Storable(p) && !p.QueryData?
    ensures |Body(p, header)| % 4 == 0
  {
    hide Int32;
    hide Int64;
    hide IdVector;
    var n := if p.Ack? || p.StateRequest? || p.ResendRequest? then 3 + 2 * |p.ids|
             else if p.Ping? || p.HttpWait? then 4 else if p.DropAnswer? then 3 else if p.GetFutureSalts? then 2 else 1;
    assert |Body(p, header)| == 4 * n;
    hide Body;
    Words(n);
  }

  lemma WordsAdd(a: nat, b: nat)
    requires b % 4 == 0
    ensures (a + b) % 4 == a % 4
  {
    assert b == 4 * (b / 4) && a + b == 4 * (a / 4 + b / 4) + a % 4;
  }

  lemma QueryAligned(q: Query, header: seq<byte>)
    requires |q.packet| < 0x1_0000_0000
    ensures |QueryBody(q, header)| % 4 == (|header| + if q.gzipFlag then 0 else |q.packet|) % 4
  {
    hide Int32;
    hide Int64;
    hide StoreString;
    var invoke := if q.invokeAfterId != 0 then 12 else 0;
    if q.gzipFlag {
      var n := |StoreString(q.packet)|;
      assert |QueryBody(q, header)| == |header| + invoke + 4 + n;
      WordsAdd(|header| + invoke + 4, n);
      WordsAdd(|header|, invoke + 4);
    } else {
      assert |QueryBody(q, header)| == |header| + |q.packet| + invoke;
      WordsAdd(|header| + |q.packet|, invoke);
    }
  }

  function EncodeFrame(f: Frame): seq<byte> {
    Le(f.id, 8) + Le(f.seqNo, 4) + Le(|f.body|, 4) + f.body
  }

  function EncodeFrames(fs: seq<Frame>): seq<byte> {
    if fs == [] then [] else EncodeFrame(fs[0]) + EncodeFrames(fs[1..])
  }

  /** ContainerImpl: the constructor, `cnt_`, and the messages. */
  function ContainerBody(fs: seq<Frame>): seq<byte> {
    Le(CONTAINER_ID, 4) + Le(|fs|, 4) + EncodeFrames(fs)
  }

  function FramesOf(ms: seq<Message>, header: seq<byte>): seq<Frame>
    requires forall i :: 0 <= i < |ms| ==> Storable(ms[i].payload) && ms[i].id >= 0 && ms[i].seqNo >= 0
  {
    seq(|ms|, i requires 0 <= i < |ms| => Frame(ms[i].id, ms[i].seqNo, Body(ms[i].payload, header)))
  }

  // ------------------------------------------------------------ parsing

  /** A message from the front of `b`, and what follows it. */
  function ParseMessage(b: seq<byte>): Option<(Frame, seq<byte>)> {
    if |b| < 16 then None
    else
      var n := FromLe(b[12..16]);
      if n % 4 != 0 || |b| < 16 + n then None
      else Some((Frame(FromLe(b[..8]), FromLe(b[8..12]), b[16..16 + n]), b[16 + n..]))
  }

  function ParseMany(b: seq<byte>, n: nat): Option<seq<Frame>> {
    if n == 0 then Some([])
    else
      var r := ParseMessage(b);
      if r.None? then None
      else
        var rest := ParseMany(r.value.1, n - 1);
        if rest.None? then None else Some([r.value.0] + rest.value)
  }

  /** The signed 32-bit number that fetch_int returns. */
  function Signed32(n: nat): int {
    if n < 0x8000_0000 then n else n - 0x1_0000_0000
  }

  /** on_packet_container, given the bytes after the constructor: bytes after the last message are ignored. */
  function ParseContainer(b: seq<byte>): Option<seq<Frame>> {
    if |b| < 4 then None
    else
      var size := Signed32(FromLe(b[..4]));
      ParseMany(b[4..], if size < 0 then 0 else size)
  }

  // ------------------------------------------------------------ round trips

  /** parse_message undoes the storer exactly when the body is a whole number of words. */
  lemma FrameRoundTrip(f: Frame, rest: seq<byte>)
    requires f.Fits()
    ensures ParseMessage(EncodeFrame(f) + rest) == if |f.body| % 4 == 0 then Some((f, rest)) else None
  {
    hide Le;
    hide FromLe;
    var b := EncodeFrame(f) + rest;
    var x, y, z := Le(f.id, 8), Le(f.seqNo, 4), Le(|f.body|, 4);
    assert b == x + y + z + f.body + rest;
    Le64RoundTrip(f.id);
    Le32RoundTrip(f.seqNo);
    Le32RoundTrip(|f.body|);
    assert b[..8] == x && b[8..12] == y && b[12..16] == z;
    assert b[16..16 + |f.body|] == f.body && b[16 + |f.body|..] == rest;
  }

  /** The other direction: what parse_message accepts is exactly a stored message and what follows it. */
  lemma ParsedIsStored(b: seq<byte>)
    requires ParseMessage(b).Some?
    ensures var (f, rest) := ParseMessage(b).value; f.Fits() && |f.body| % 4 == 0 && b == EncodeFrame(f) + rest
  {
    hide Le;
    hide FromLe;
    FromLeRoundTrip(b[..8]);
    FromLeRoundTrip(b[8..12]);
    FromLeRoundTrip(b[12..16]);
    var n := FromLe(b[12..16]);
    FieldBounds(b[..8], b[8..12], b[12..16]);
    assert b == b[..8] + b[8..12] + b[12..16] + b[16..16 + n] + b[16 + n..];
  }

  lemma FieldBounds(id: seq<byte>, seqNo: seq<byte>, size: seq<byte>)
    requires |id| == 8 && |seqNo| == 4 && |size| == 4
    ensures FromLe(id) < 0x1_0000_0000_0000_0000 && FromLe(seqNo) < 0x1_0000_0000 && FromLe(size) < 0x1_0000_0000
  {
    assert Pow256(8) == 256 * Pow256(7) && Pow256(6) == 256 * Pow256(5);
    assert Pow256(4) == 256 * Pow256(3) && Pow256(2) == 256 * Pow256(1);
  }

  /** A list of parsed messages is exactly what was stored, followed by what is ignored. */
  lemma {:induction false} ParsedAreStored(b: seq<byte>, n: nat)
    requires ParseMany(b, n).Some?
    ensures var fs := ParseMany(b, n).value; |fs| == n && EncodeFrames(fs) <= b
    decreases n
  {
    hide EncodeFrame;
    hide ParseMessage;
    if n == 0 {
    } else {
      var (f, rest) := ParseMessage(b).value;
      ParsedIsStored(b);
      ParsedAreStored(rest, n - 1);
      var fs := ParseMany(rest, n - 1).value;
      assert ([f] + fs)[1..] == fs;
    }
  }

  lemma {:induction false} FramesRoundTrip(fs: seq<Frame>, rest: seq<byte>)
    requires forall f :: f in fs ==> f.Fits() && |f.body| % 4 == 0
    ensures ParseMany(EncodeFrames(fs) + rest, |fs|) == Some(fs)
  {
    hide EncodeFrame;
    hide ParseMessage;
    if fs == [] {
    } else {
      FramesSplit(fs, rest);
      FrameRoundTrip(fs[0], EncodeFrames(fs[1..]) + rest);
      FramesRoundTrip(fs[1..], rest);
      assert fs == [fs[0]] + fs[1..];
      hide EncodeFrames;
    }
  }

  lemma FramesSplit(fs: seq<Frame>, rest: seq<byte>)
    requires fs != []
    ensures EncodeFrames(fs) + rest == EncodeFrame(fs[0]) + (EncodeFrames(fs[1..]) + rest)
  {
    hide EncodeFrame;
    var a, b := EncodeFrame(fs[0]), EncodeFrames(fs[1..]);
    assert a + b + rest == a + (b + rest);
  }

  /** on_packet_container recovers the stored list, whatever bytes follow, unless one body is not a whole
      number of words; then it fails. */
  lemma {:induction false} ContainerRoundTrip(fs: seq<Frame>, rest: seq<byte>)
    requires |fs| < 0x8000_0000 && forall f :: f in fs ==> f.Fits()
    ensures var b := (ContainerBody(fs) + rest)[4..];
            ParseContainer(b) == if forall f :: f in fs ==> |f.body| % 4 == 0 then Some(fs) else None
  {
    var b := (ContainerBody(fs) + rest)[4..];
    assert b == Le(|fs|, 4) + EncodeFrames(fs) + rest;
    assert b[..4] == Le(|fs|, 4) && b[4..] == EncodeFrames(fs) + rest;
    Le32RoundTrip(|fs|);
    hide EncodeFrames;
    hide FromLe;
    if forall f :: f in fs ==> |f.body| % 4 == 0 {
      FramesRoundTrip(fs, rest);
    } else {
      var k :| 0 <= k < |fs| && |fs[k].body| % 4 != 0;
      FramesFail(fs, rest, k);
    }
  }

  lemma {:induction false} FramesFail(fs: seq<Frame>, rest: seq<byte>, k: nat)
    requires k < |fs| && |fs[k].body| % 4 != 0 && forall f :: f in fs ==> f.Fits()
    ensures ParseMany(EncodeFrames(fs) + rest, |fs|) == None
    decreases k
  {
    hide EncodeFrame;
    hide ParseMessage;
    var tail := EncodeFrames(fs[1..]) + rest;
    assert EncodeFrames(fs) + rest == EncodeFrame(fs[0]) + tail;
    FrameRoundTrip(fs[0], tail);
    if k == 0 {
    } else {
      FramesFail(fs[1..], rest, k - 1);
    }
  }

  /** The fields of the messages hold their values. */
  ghost predicate Sendable(ms: seq<Message>, header: seq<byte>) {
    forall i :: 0 <= i < |ms| ==>
                  Storable(ms[i].payload) && 0 <= ms[i].id < 0x1_0000_0000_0000_0000 &&
                  0 <= ms[i].seqNo < 0x1_0000_0000 && |Body(ms[i].payload, header)| < 0x1_0000_0000
  }

  predicate QueryFits(q: Query, header: seq<byte>) {
    (|header| + if q.gzipFlag then 0 else |q.packet|) % 4 == 0
  }

  lemma {:induction false} CollectedQueries(ps: seq<Payload>, q: Query)
    ensures q in Collect(ps, QueryOf) <==> QueryData(q) in ps
  {
    if ps == [] {
    } else {
      var n := |ps| - 1;
      CollectedQueries(ps[..n], q);
      assert ps == ps[..n] + [ps[n]];
    }
  }

  /** The container that flush_packet builds is taken apart again by the receiver into the same identifiers, sequence
      numbers and bodies, exactly when the queries in it are whole numbers of words; and it announces as many
      messages as it holds. */
  lemma PacketRoundTrip(p: Parts, a: Auth, now: real, e: Entropy, header: seq<byte>, rest: seq<byte>)
    requires !p.Empty() && AuthOk(a)
    requires Sendable(Build(p, a, now, e).packet.Messages(), header) && Count(p) < 0x8000_0000
    ensures var ms := Build(p, a, now, e).packet.Messages();
            |ms| == Count(p) &&
            ParseContainer((ContainerBody(FramesOf(ms, header)) + rest)[4..]) ==
            if forall q :: q in p.queries ==> QueryFits(q, header) then Some(FramesOf(ms, header)) else None
  {
    hide *;
    var ms := Build(p, a, now, e).packet.Messages();
    BuildCarries(p, a, now, e);
    SendableIs(ms, header);
    var fs := FramesOf(ms, header);
    ContainerRoundTrip(fs, rest);
    FramesAligned(ms, header, p.queries);
  }

  lemma SendableIs(ms: seq<Message>, header: seq<byte>)
    requires Sendable(ms, header)
    ensures forall i :: 0 <= i < |ms| ==> Storable(ms[i].payload) && ms[i].id >= 0 && ms[i].seqNo >= 0
    ensures |FramesOf(ms, header)| == |ms| && forall f :: f in FramesOf(ms, header) ==> f.Fits()
  {
    hide Body;
  }

  lemma FramesAligned(ms: seq<Message>, header: seq<byte>, queries: seq<Query>)
    requires Sendable(ms, header) && Collect(PayloadsOf(ms), QueryOf) == queries
    ensures (forall f :: f in FramesOf(ms, header) ==> |f.body| % 4 == 0) <==>
            (forall q :: q in queries ==> QueryFits(q, header))
  {
    hide Body;
    hide Collect;
    var fs := FramesOf(ms, header);
    forall i | 0 <= i < |ms|
      ensures |fs[i].body| % 4 == 0 <==> (ms[i].payload.QueryData? ==> QueryFits(ms[i].payload.query, header))
    {
      BodyAligned(ms[i].payload, header);
    }
    var ps := PayloadsOf(ms);
    forall q ensures q in queries <==> QueryData(q) in ps { CollectedQueries(ps, q); }
    if forall f :: f in fs ==> |f.body| % 4 == 0 {
      forall q | q in queries ensures QueryFits(q, header) {
        var i :| 0 <= i < |ps| && ps[i] == QueryData(q);
        assert fs[i] in fs && ms[i].payload == QueryData(q);
      }
    }
    if forall q :: q in queries ==> QueryFits(q, header) {
      forall i | 0 <= i < |fs| ensures |fs[i].body| % 4 == 0 {
        if ms[i].payload.QueryData? {
          assert ps[i] == QueryData(ms[i].payload.query);
          assert QueryData(ms[i].payload.query) in ps;
        }
      }
    }
  }

  // ------------------------------------------------------------ the parser object

  /** TlParser: `left` is the unread data; after an error it is empty and reads give zeros. */
  class TlParser {
    var left: seq<byte>
    var error: bool

    constructor (data: seq<byte>)
      ensures left == data && !error
    {
      left, error := data, false;
    }

    method CheckLen(n: nat) returns (ok: bool)
      modifies this
      ensures ok == (|old(left)| >= n)
      ensures if ok then unchanged(this) else error && left == []
    {
      ok := |left| >= n;
      if !ok {
        left, error := [], true;
      }
    }

    method FetchInt() returns (x: int)
      modifies this
      ensures if |old(left)| < 4 then error && left == [] && x == 0
              else left == old(left)[4..] && error == old(error) && x == Signed32(FromLe(old(left)[..4]))
    {
      var ok := CheckLen(4);
      x := 0;
      if ok {
        x := Signed32(FromLe(left[..4]));
        left := left[4..];
      }
    }

    /** parse_message with crypto_flag set. */
    method ParseNext() returns (r: Option<Frame>)
      requires !error
      modifies this
      ensures r == (match ParseMessage(old(left)) case None => None case Some(p) => Some(p.0))
      ensures r.Some? ==> !error && left == ParseMessage(old(left)).value.1
    {
      var ok := CheckLen(16);
      if !ok {
        return None;
      }
      var id, seqNo, n := FromLe(left[..8]), FromLe(left[8..12]), FromLe(left[12..16]);
      ghost var all := left;
      left := left[16..];
      if n % 4 != 0 {
        return None;
      }
      ok := CheckLen(n);
      if !ok {
        return None;
      }
      assert all[16..][..n] == all[16..16 + n] && all[16..][n..] == all[16 + n..];
      r := Some(Frame(id, seqNo, left[..n]));
      left := left[n..];
    }
  }

  /** on_packet_container. */
  method OnPacketContainer(b: seq<byte>) returns (r: Option<seq<Frame>>)
    ensures r == ParseContainer(b)
  {
    var parser := new TlParser(b);
    var size := parser.FetchInt();
    if parser.error {
      return None;
    }
    var i, frames := 0, [];
    AfterNone(ParseContainer(b));
    while i < size
      invariant 0 <= i && (i <= size || i == 0) && !parser.error
      invariant ParseContainer(b) == After(frames, ParseMany(parser.left, if size < i then 0 else size - i))
    {
      AfterOne(frames, parser.left, size - i);
      var f := parser.ParseNext();
      if f.None? {
        return None;
      }
      frames := frames + [f.value];
      i := i + 1;
    }
    assert frames + [] == frames;
    r := Some(frames);
  }

  function After(done: seq<Frame>, r: Option<seq<Frame>>): Option<seq<Frame>> {
    if r.None? then None else Some(done + r.value)
  }

  lemma AfterNone(r: Option<seq<Frame>>)
    ensures After([], r) == r
  {
    if r.Some? { assert [] + r.value == r.value; }
  }

  lemma AfterOne(done: seq<Frame>, b: seq<byte>, n: nat)
    requires n > 0
    ensures After(done, ParseMany(b, n)) ==
            (match ParseMessage(b)
             case None => None
             case Some(p) => After(done + [p.0], ParseMany(p.1, n - 1)))
  {
    var r := ParseMessage(b);
    if r.Some? && ParseMany(r.value.1, n - 1).Some? {
      var fs := ParseMany(r.value.1, n - 1).value;
      assert done + ([r.value.0] + fs) == done + [r.value.0] + fs;
    }
  }
}
