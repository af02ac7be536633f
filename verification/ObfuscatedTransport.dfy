/** The obfuscated transport: framing, a stream cipher and emulated TLS records on the way out, and the same in
    reverse on the way in (td/mtproto/TcpTransport.cpp, td/mtproto/TlsReaderByteFlow.cpp). */
module ObfuscatedTransport {
  import opened Bytes
  import opened Framing

  const MAX_TLS_PACKET_LENGTH := 2878
  const CHANGE_CIPHER_SPEC: seq<byte> := [0x14, 0x03, 0x03, 0x00, 0x01, 0x01]

  type KeyStream = nat -> byte

  /** AES-CTR from position `pos`: xor with the key stream. */
  function Cipher(ks: KeyStream, pos: nat, s: seq<byte>): (r: seq<byte>)
    ensures |r| == |s|
  {
    seq(|s|, i requires 0 <= i < |s| => XorByte(s[i], ks(pos + i)))
  }

  lemma CipherTwice(ks: KeyStream, pos: nat, s: seq<byte>)
    ensures Cipher(ks, pos, Cipher(ks, pos, s)) == s
  {
    hide XorByte;
    var r := Cipher(ks, pos, Cipher(ks, pos, s));
    forall i | 0 <= i < |s| ensures r[i] == s[i] { XorByteTwice(s[i], ks(pos + i)); }
  }

  lemma CipherSplit(ks: KeyStream, pos: nat, a: seq<byte>, b: seq<byte>)
    ensures Cipher(ks, pos, a + b) == Cipher(ks, pos, a) + Cipher(ks, pos + |a|, b)
  {
    hide XorByte;
    var l, r := Cipher(ks, pos, a + b), Cipher(ks, pos, a) + Cipher(ks, pos + |a|, b);
    forall i | 0 <= i < |l| ensures l[i] == r[i] {
      if i >= |a| {
        assert (a + b)[i] == b[i - |a|] && pos + i == pos + |a| + (i - |a|);
      }
    }
  }

  // ------------------------------------------------------------ sending

  /** header_, is_first_tls_packet_, the position of output_state_ and what went to output_. */
  datatype Sender = Sender(header: seq<byte>, first: bool, pos: nat, output: seq<byte>)

  function TlsRecord(payload: seq<byte>): seq<byte> {
    [0x17, 0x03, 0x03, |payload| / 256 % 256, |payload| % 256] + payload
  }

  /** One record: the header goes in front of the first payload, ChangeCipherSpec in front of the first record. */
  function Emit(o: Sender, part: seq<byte>): Sender {
    Sender([], false, o.pos,
           o.output + (if o.first then CHANGE_CIPHER_SPEC else []) + TlsRecord(o.header + part))
  }

  function EmitSplit(o: Sender, bytes: seq<byte>): Sender
    requires |o.header| < MAX_TLS_PACKET_LENGTH
    decreases |bytes|
  {
    if bytes == [] then o
    else
      var room := MAX_TLS_PACKET_LENGTH - |o.header|;
      var n := if |bytes| <= room then |bytes| else room;
      EmitSplit(Emit(o, bytes[..n]), bytes[n..])
  }

  function EmitTls(o: Sender, bytes: seq<byte>): Sender
    requires |o.header| < MAX_TLS_PACKET_LENGTH
  {
    if |bytes| + |o.header| > MAX_TLS_PACKET_LENGTH then EmitSplit(o, bytes) else Emit(o, bytes)
  }

  function EmitMain(o: Sender, bytes: seq<byte>): Sender {
    o.(header := [], output := o.output + o.header + bytes)
  }

  function Send(ks: KeyStream, tls: bool, o: Sender, m: seq<byte>, pad: seq<byte>): Sender
    requires |o.header| < MAX_TLS_PACKET_LENGTH && Framed(Intermediate, m, pad).Some?
  {
    var f := Framed(Intermediate, m, pad).value;
    var e := Cipher(ks, o.pos, f);
    var u := o.(pos := o.pos + |f|);
    if tls then EmitTls(u, e) else EmitMain(u, e)
  }

  class Transport {
    const keyStream: KeyStream
    const tls: bool
    var header: seq<byte>
    var first: bool
    var pos: nat
    var output: seq<byte>

    ghost function View(): Sender
      reads this
    {
      Sender(header, first, pos, output)
    }

    /** After init: 64 bytes of header, and the key stream has moved past them. */
    constructor (keyStream: KeyStream, tls: bool, header: seq<byte>)
      requires |header| == 64
      ensures View() == Sender(header, true, 64, []) && this.keyStream == keyStream && this.tls == tls
    {
      this.keyStream, this.tls := keyStream, tls;
      this.header, first, pos, output := header, true, 64, [];
    }

    method DoWriteRecord(part: seq<byte>)
      requires |header| + |part| <= MAX_TLS_PACKET_LENGTH
      modifies this
      ensures View() == Emit(old(View()), part)
    {
      var payload := header + part;
      header := [];
      var size := |payload|;
      var record := [0x17, 0x03, 0x03, size / 256 % 256, size % 256] + payload;
      if first {
        first := false;
        record := CHANGE_CIPHER_SPEC + record;
        assert old(output) + record == old(output) + CHANGE_CIPHER_SPEC + TlsRecord(payload);
      } else {
        assert old(output) + record == old(output) + [] + TlsRecord(payload);
      }
      output := output + record;
    }

    method DoWriteTls(bytes: seq<byte>)
      requires |header| < MAX_TLS_PACKET_LENGTH
      modifies this
      ensures View() == EmitTls(old(View()), bytes)
    {
      hide Emit;
      if |bytes| + |header| > MAX_TLS_PACKET_LENGTH {
        var slice := bytes;
        while slice != []
          invariant |header| < MAX_TLS_PACKET_LENGTH
          invariant EmitSplit(View(), slice) == EmitSplit(old(View()), bytes)
          decreases |slice|
        {
          var room := MAX_TLS_PACKET_LENGTH - |header|;
          var n := if |slice| <= room then |slice| else room;
          ghost var o := View();
          EmitClears(o, slice[..n]);
          DoWriteRecord(slice[..n]);
          slice := slice[n..];
        }
        return;
      }
      DoWriteRecord(bytes);
    }

    method Write(m: seq<byte>, pad: seq<byte>)
      requires |header| < MAX_TLS_PACKET_LENGTH && |m| % 4 == 0 && |m| < 0x100_0000 && |pad| < 16
      modifies this
      ensures View() == Send(keyStream, tls, old(View()), m, pad)
    {
      hide EmitTls;
      var framed := Le(|m| + |pad|, 4) + m + pad;
      var bytes := Cipher(keyStream, pos, framed);
      pos := pos + |framed|;
      if tls {
        DoWriteTls(bytes);
      } else {
        output := output + header + bytes;
        header := [];
      }
    }
  }

  lemma EmitClears(o: Sender, part: seq<byte>)
    ensures Emit(o, part).header == []
  {}

  /** `o` has sent `text` behind the header `h`, in records with the payloads `ps`. */
  ghost predicate Carries(o: Sender, h: seq<byte>, text: seq<byte>, ps: seq<seq<byte>>) {
    (forall i :: 0 <= i < |ps| ==> |ps[i]| <= MAX_TLS_PACKET_LENGTH) &&
    if o.first then ps == [] && text == [] && o.header == h && o.output == []
    else o.header == [] && o.output == CHANGE_CIPHER_SPEC + Records(ps) && Concat(ps) == h + text
  }

  function Records(ps: seq<seq<byte>>): seq<byte> {
    if ps == [] then [] else TlsRecord(ps[0]) + Records(ps[1..])
  }

  lemma {:induction false} RecordsAppend(ps: seq<seq<byte>>, p: seq<byte>)
    ensures Records(ps + [p]) == Records(ps) + TlsRecord(p)
    ensures Concat(ps + [p]) == Concat(ps) + p
  {
    hide TlsRecord;
    if ps == [] {
      assert [p][1..] == [];
      assert TlsRecord(p) + [] == TlsRecord(p) && p + [] == p && [] + p == p && [] + TlsRecord(p) == TlsRecord(p);
      assert ps + [p] == [p];
    } else {
      assert (ps + [p])[1..] == ps[1..] + [p];
      RecordsAppend(ps[1..], p);
      assert TlsRecord(ps[0]) + (Records(ps[1..]) + TlsRecord(p)) == TlsRecord(ps[0]) + Records(ps[1..]) + TlsRecord(p);
      assert ps[0] + (Concat(ps[1..]) + p) == ps[0] + Concat(ps[1..]) + p;
    }
  }

  lemma EmitCarries(o: Sender, h: seq<byte>, text: seq<byte>, ps: seq<seq<byte>>, part: seq<byte>)
    requires Carries(o, h, text, ps) && |o.header| + |part| <= MAX_TLS_PACKET_LENGTH
    ensures Carries(Emit(o, part), h, text + part, ps + [o.header + part])
  {
    hide TlsRecord;
    RecordsAppend(ps, o.header + part);
    hide Records;
    hide Concat;
    var q := o.header + part;
    if o.first {
      assert Concat(ps) == [] && Records(ps) == [] by { NoRecords(); }
      assert [] + q == h + ([] + part);
      assert [] + CHANGE_CIPHER_SPEC + TlsRecord(q) == CHANGE_CIPHER_SPEC + ([] + TlsRecord(q));
    } else {
      assert h + text + q == h + (text + part);
      assert o.output + [] == o.output;
      assert CHANGE_CIPHER_SPEC + Records(ps) + TlsRecord(q) == CHANGE_CIPHER_SPEC + (Records(ps) + TlsRecord(q));
    }
  }

  lemma NoRecords()
    ensures Concat([]) == [] && Records([]) == []
  {}

  lemma {:induction false} SplitCarries(o: Sender, h: seq<byte>, text: seq<byte>, ps: seq<seq<byte>>, bytes: seq<byte>)
    returns (qs: seq<seq<byte>>)
    requires Carries(o, h, text, ps) && |o.header| < MAX_TLS_PACKET_LENGTH
    ensures Carries(EmitSplit(o, bytes), h, text + bytes, qs) && EmitSplit(o, bytes).pos == o.pos
    decreases |bytes|
  {
    if bytes == [] {
      assert text + bytes == text;
      qs := ps;
    } else {
      var room := MAX_TLS_PACKET_LENGTH - |o.header|;
      var n := if |bytes| <= room then |bytes| else room;
      EmitCarries(o, h, text, ps, bytes[..n]);
      EmitClears(o, bytes[..n]);
      qs := SplitCarries(Emit(o, bytes[..n]), h, text + bytes[..n], ps + [o.header + bytes[..n]], bytes[n..]);
      assert text + bytes[..n] + bytes[n..] == text + bytes;
    }
  }

  lemma SendCarries(ks: KeyStream, o: Sender, h: seq<byte>, text: seq<byte>, ps: seq<seq<byte>>, m: seq<byte>, pad: seq<byte>)
    returns (qs: seq<seq<byte>>)
    requires Carries(o, h, text, ps) && |o.header| < MAX_TLS_PACKET_LENGTH && Framed(Intermediate, m, pad).Some?
    ensures var f := Framed(Intermediate, m, pad).value;
            var u := Send(ks, true, o, m, pad);
            Carries(u, h, text + Cipher(ks, o.pos, f), qs) && u.pos == o.pos + |f| && u.header == [] && !u.first
  {
    hide Cipher;
    hide Framed;
    var f := Framed(Intermediate, m, pad).value;
    var e := Cipher(ks, o.pos, f);
    var u := o.(pos := o.pos + |f|);
    if |e| + |u.header| > MAX_TLS_PACKET_LENGTH {
      qs := SplitCarries(u, h, text, ps, e);
      SplitStarts(u, e);
    } else {
      EmitCarries(u, h, text, ps, e);
      qs := ps + [u.header + e];
    }
  }

  lemma {:induction false} SplitStarts(o: Sender, bytes: seq<byte>)
    requires |o.header| < MAX_TLS_PACKET_LENGTH && bytes != []
    ensures EmitSplit(o, bytes).header == [] && !EmitSplit(o, bytes).first
    decreases |bytes|
  {
    var room := MAX_TLS_PACKET_LENGTH - |o.header|;
    var n := if |bytes| <= room then |bytes| else room;
    if bytes[n..] == [] {
    } else {
      SplitStarts(Emit(o, bytes[..n]), bytes[n..]);
    }
  }

  ghost function SendAll(ks: KeyStream, o: Sender, ms: seq<(seq<byte>, seq<byte>)>): Sender
    requires |o.header| < MAX_TLS_PACKET_LENGTH && Writable(Intermediate, ms)
    decreases |ms|
  {
    if ms == [] then o
    else
      var u := Send(ks, true, o, ms[0].0, ms[0].1);
      if |u.header| < MAX_TLS_PACKET_LENGTH then SendAll(ks, u, ms[1..]) else u
  }

  /** Whatever is sent, the output is one ChangeCipherSpec followed by records of at most 2878 bytes, and their
      payloads together are the header and then the encrypted frames. */
  lemma {:induction false} SendAllCarries(ks: KeyStream, o: Sender, h: seq<byte>, text: seq<byte>, ps: seq<seq<byte>>,
                                          ms: seq<(seq<byte>, seq<byte>)>)
    returns (qs: seq<seq<byte>>)
    requires Carries(o, h, text, ps) && |o.header| < MAX_TLS_PACKET_LENGTH && Writable(Intermediate, ms)
    ensures Carries(SendAll(ks, o, ms), h, text + Cipher(ks, o.pos, Stream(Intermediate, ms)), qs)
    ensures ms != [] ==> !SendAll(ks, o, ms).first
    decreases |ms|
  {
    hide Send;
    hide Carries;
    hide Framed;
    if ms == [] {
      assert Cipher(ks, o.pos, []) == [] && text + [] == text;
      qs := ps;
    } else {
      var f := Framed(Intermediate, ms[0].0, ms[0].1).value;
      var u := Send(ks, true, o, ms[0].0, ms[0].1);
      var e := Cipher(ks, o.pos, f);
      var rs := SendCarries(ks, o, h, text, ps, ms[0].0, ms[0].1);
      qs := SendAllCarries(ks, u, h, text + e, rs, ms[1..]);
      CipherSplit(ks, o.pos, f, Stream(Intermediate, ms[1..]));
      assert text + e + Cipher(ks, u.pos, Stream(Intermediate, ms[1..])) ==
             text + (e + Cipher(ks, u.pos, Stream(Intermediate, ms[1..])));
      if ms[1..] == [] { assert SendAll(ks, u, ms[1..]) == u; }
    }
  }

  // ------------------------------------------------------------ receiving

  /** The bytes of the messages among the items. */
  function Payload(items: seq<Item>): seq<byte> {
    if items == [] then []
    else (if items[0].Message? then items[0].bytes else []) + Payload(items[1..])
  }

  lemma {:induction false} PayloadAppend(a: seq<Item>, b: seq<Item>)
    ensures Payload(a + b) == Payload(a) + Payload(b)
  {
    if a == [] {
      assert a + b == b && [] + Payload(b) == Payload(b);
    } else {
      assert (a + b)[1..] == a[1..] + b;
      PayloadAppend(a[1..], b);
      var x := if a[0].Message? then a[0].bytes else [];
      assert x + (Payload(a[1..]) + Payload(b)) == x + Payload(a[1..]) + Payload(b);
    }
  }

  /** Unread bytes of the TLS reader, the position of the cipher and unread plain bytes. */
  datatype Receiver = Receiver(records: seq<byte>, pos: nat, plain: seq<byte>)

  /** read_next until it asks for more: records are opened, their payload decrypted, frames cut. */
  function Receive(ks: KeyStream, r: Receiver, chunk: seq<byte>): (seq<Item>, Receiver) {
    var (parts, left) := Drain(Tls, r.records + chunk);
    var bytes := Payload(parts);
    var (items, plain) := Drain(Intermediate, r.plain + Cipher(ks, r.pos, bytes));
    (items, Receiver(left, r.pos + |bytes|, plain))
  }

  function ReceiveAll(ks: KeyStream, r: Receiver, chunks: seq<seq<byte>>): (seq<Item>, Receiver)
    decreases |chunks|
  {
    if chunks == [] then ([], r)
    else
      var (a, u) := Receive(ks, r, chunks[0]);
      var (b, w) := ReceiveAll(ks, u, chunks[1..]);
      (a + b, w)
  }

  ghost predicate Idle(r: Receiver) { !Step(Tls, r.records).Took? && !Step(Intermediate, r.plain).Took? }

  lemma ReceiveTwice(ks: KeyStream, r: Receiver, s: seq<byte>, t: seq<byte>)
    ensures var (a, u) := Receive(ks, r, s);
            var (b, w) := Receive(ks, u, t);
            Receive(ks, r, s + t) == (a + b, w)
  {
    hide Drain;
    hide Step;
    hide Cipher;
    var (parts, left) := Drain(Tls, r.records + s);
    var (more, last) := Drain(Tls, left + t);
    DrainSplit(Tls, r.records + s, t);
    assert r.records + (s + t) == r.records + s + t;
    PayloadAppend(parts, more);
    CipherSplit(ks, r.pos, Payload(parts), Payload(more));
    var e, f := Cipher(ks, r.pos, Payload(parts)), Cipher(ks, r.pos + |Payload(parts)|, Payload(more));
    DrainSplit(Intermediate, r.plain + e, f);
    assert r.plain + (e + f) == r.plain + e + f;
  }

  /** The whole receiving side delivers the same items, and ends in the same state, for every split. */
  lemma {:induction false} ReceiveSplit(ks: KeyStream, r: Receiver, chunks: seq<seq<byte>>)
    requires Idle(r)
    ensures ReceiveAll(ks, r, chunks) == Receive(ks, r, Concat(chunks))
    decreases |chunks|
  {
    hide Drain;
    hide Step;
    hide Cipher;
    if chunks == [] {
      assert r.records + [] == r.records && r.plain + Cipher(ks, r.pos, []) == r.plain;
      DrainNothing(Tls, r.records);
      DrainNothing(Intermediate, r.plain);
    } else {
      var (a, u) := Receive(ks, r, chunks[0]);
      ReceiveSplit(ks, u, chunks[1..]);
      ReceiveTwice(ks, r, chunks[0], Concat(chunks[1..]));
    }
  }

  lemma {:induction false} RecordsReadBack(ps: seq<seq<byte>>)
    requires forall i :: 0 <= i < |ps| ==> |ps[i]| <= MAX_TLS_PACKET_LENGTH
    ensures var (items, left) := Drain(Tls, Records(ps)); left == [] && Payload(items) == Concat(ps)
  {
    hide Step;
    hide TlsRecord;
    hide Drain;
    if ps == [] {
      NothingToOpen();
    } else {
      RecordsReadBack(ps[1..]);
      OneRecord(ps[0], Records(ps[1..]));
      var (items, left) := Drain(Tls, Records(ps[1..]));
      assert ([Message(ps[0])] + items)[1..] == items;
    }
  }

  lemma NothingToOpen()
    ensures Drain(Tls, []) == ([], [])
  {}

  lemma OneRecord(p: seq<byte>, t: seq<byte>)
    requires |p| <= MAX_TLS_PACKET_LENGTH
    ensures var (items, left) := Drain(Tls, t); Drain(Tls, TlsRecord(p) + t) == ([Message(p)] + items, left)
  {
    TlsReadBack(p, t);
    hide Step;
    assert |p| / 256 % 256 == |p| / 256;
  }

  /** Sending and receiving undo each other through all three layers: after the ChangeCipherSpec, the records
      open to the 64 header bytes and then the encrypted frames, which decrypt and cut back into the messages. */
  lemma SentIsReceived(ks: KeyStream, h: seq<byte>, pos: nat, ms: seq<(seq<byte>, seq<byte>)>)
    requires |h| < MAX_TLS_PACKET_LENGTH && Writable(Intermediate, ms) && ms != []
    ensures var sent := SendAll(ks, Sender(h, true, pos, []), ms).output;
            CHANGE_CIPHER_SPEC <= sent &&
            var (items, left) := Drain(Tls, sent[6..]);
            left == [] && h <= Payload(items) &&
            Drain(Intermediate, Cipher(ks, pos, Payload(items)[|h|..])) == (Messages(Intermediate, ms), [])
  {
    hide Drain;
    hide Cipher;
    hide Step;
    hide SendAll;
    var o := Sender(h, true, pos, []);
    var ps := SendAllCarries(ks, o, h, [], [], ms);
    var text := Cipher(ks, pos, Stream(Intermediate, ms));
    assert [] + text == text;
    var sent := SendAll(ks, o, ms).output;
    assert sent[6..] == Records(ps);
    RecordsReadBack(ps);
    assert (h + text)[|h|..] == text;
    CipherTwice(ks, pos, Stream(Intermediate, ms));
    StreamReadBack(Intermediate, ms);
  }

  /** A peer that sends no header is read back by the receiving side however its stream is split. */
  lemma EverySplitIsReceived(ks: KeyStream, ms: seq<(seq<byte>, seq<byte>)>, chunks: seq<seq<byte>>)
    requires Writable(Intermediate, ms) && ms != []
    requires CHANGE_CIPHER_SPEC + Concat(chunks) == SendAll(ks, Sender([], true, 0, []), ms).output
    ensures ReceiveAll(ks, Receiver([], 0, []), chunks).0 == Messages(Intermediate, ms)
  {
    hide Drain;
    hide Cipher;
    hide SendAll;
    SentIsReceived(ks, [], 0, ms);
    var sent := SendAll(ks, Sender([], true, 0, []), ms).output;
    assert sent[6..] == Concat(chunks);
    ReceiveSplit(ks, Receiver([], 0, []), chunks);
    var (items, left) := Drain(Tls, Concat(chunks));
    assert [] + Concat(chunks) == Concat(chunks);
    assert Payload(items)[0..] == Payload(items);
    assert [] + Cipher(ks, 0, Payload(items)) == Cipher(ks, 0, Payload(items));
  }

  // ------------------------------------------------------------ the readers

  class ByteStream {
    var bytes: seq<byte>

    constructor (bytes: seq<byte>)
      ensures this.bytes == bytes
    {
      this.bytes := bytes;
    }

    method CutHead(n: nat) returns (head: seq<byte>)
      requires n <= |bytes|
      modifies this
      ensures head == old(bytes)[..n] && bytes == old(bytes)[n..]
    {
      head, bytes := bytes[..n], bytes[n..];
    }
  }

  /** How a reader reports one attempt: a size to wait for, or an item and the shortened stream. */
  ghost predicate Reports(l: Layer, was: seq<byte>, now: seq<byte>, need: nat, item: Option<Item>) {
    match Step(l, was)
    case Need(n) => need == n && item.None? && now == was
    case Took(i, rest) => need == 0 && item == Some(i) && now == rest
    case Broken => need == 0 && item.None? && now == was
  }

  method ReadIntermediate(stream: ByteStream) returns (need: nat, item: Option<Item>)
    modifies stream
    ensures Reports(Intermediate, old(stream.bytes), stream.bytes, need, item)
  {
    hide FromLe;
    if |stream.bytes| < 4 {
      return 4, None;
    }
    var size := FromLe(stream.bytes[..4]);
    if size >= 0x8000_0000 {
      var _ := stream.CutHead(4);
      return 0, Some(QuickAck(size));
    }
    if |stream.bytes| < size + 4 {
      return size + 4, None;
    }
    ghost var was := stream.bytes;
    var _ := stream.CutHead(4);
    var message := stream.CutHead(size);
    assert message == was[4..4 + size];
    return 0, Some(Message(message));
  }

  method ReadAbridged(stream: ByteStream) returns (need: nat, item: Option<Item>)
    modifies stream
    ensures Reports(Abridged, old(stream.bytes), stream.bytes, need, item)
  {
    hide FromLe;
    if stream.bytes == [] {
      return 1, None;
    }
    var header, size := 1, 4 * (stream.bytes[0] as int);
    if stream.bytes[0] >= 0x7f {
      if |stream.bytes| < 4 {
        return 4, None;
      }
      header, size := 4, 4 * (FromLe(stream.bytes[..4]) / 256);
    }
    if |stream.bytes| < header + size {
      return header + size, None;
    }
    ghost var was := stream.bytes;
    var _ := stream.CutHead(header);
    var message := stream.CutHead(size);
    assert message == was[header..header + size];
    return 0, Some(Message(message));
  }

  /** One round of the record de-framer: the payload moves from the input to the output. */
  method TlsLoop(input: ByteStream, output: ByteStream) returns (again: bool, need: nat)
    requires input != output
    modifies input, output
    ensures match Step(Tls, old(input.bytes))
            case Took(Message(p), rest) => again && input.bytes == rest && output.bytes == old(output.bytes) + p
            case Need(n) => !again && need == n && input.bytes == old(input.bytes) && output.bytes == old(output.bytes)
            case _ => !again && need == 0 && input.bytes == old(input.bytes) && output.bytes == old(output.bytes)
  {
    if |input.bytes| < 5 {
      return false, 5;
    }
    if input.bytes[..3] != [0x17, 0x03, 0x03] {
      return false, 0;
    }
    var size := 256 * (input.bytes[3] as int) + input.bytes[4];
    if |input.bytes| - 5 < size {
      return false, 5 + size;
    }
    ghost var was := input.bytes;
    var _ := input.CutHead(5);
    var payload := input.CutHead(size);
    assert payload == was[5..5 + size];
    output.bytes := output.bytes + payload;
    return true, 0;
  }

  method TlsWakeup(input: ByteStream, output: ByteStream)
    requires input != output
    modifies input, output
    ensures var (items, left) := Drain(Tls, old(input.bytes));
            input.bytes == left && output.bytes == old(output.bytes) + Payload(items)
  {
    hide Step;
    ghost var done: seq<Item> := [];
    assert [] + Drain(Tls, input.bytes).0 == Drain(Tls, input.bytes).0;
    var again := true;
    while again
      invariant var (items, left) := Drain(Tls, old(input.bytes));
                Drain(Tls, input.bytes).1 == left && done + Drain(Tls, input.bytes).0 == items
      invariant output.bytes == old(output.bytes) + Payload(done)
      invariant !again ==> !Step(Tls, input.bytes).Took?
      decreases again, |input.bytes|
    {
      ghost var s := input.bytes;
      StepProgress(Tls, s);
      TlsTakesMessages(s);
      var need;
      again, need := TlsLoop(input, output);
      if again {
        ghost var item := Step(Tls, s).item;
        PayloadAppend(done, [item]);
        assert Payload([item]) == item.bytes + Payload([]);
        assert done + ([item] + Drain(Tls, input.bytes).0) == done + [item] + Drain(Tls, input.bytes).0;
        done := done + [item];
      }
    }
    DrainNothing(Tls, input.bytes);
    assert done + [] == done;
  }

  lemma TlsTakesMessages(s: seq<byte>)
    ensures Step(Tls, s).Took? ==> Step(Tls, s).item.Message?
  {}
}
