/** Cutting a byte stream into messages: intermediate and abridged framing (td/mtproto/TcpTransport.cpp) and
    emulated TLS records (td/mtproto/TlsReaderByteFlow.cpp). */
module Framing {
  import opened Bytes

  datatype Layer = Intermediate | Abridged | Tls

  datatype Item = Message(bytes: seq<byte>) | QuickAck(token: nat)

  /** One attempt: an item and what follows it, a request for at least `size` bytes in all, or a broken stream. */
  datatype Progress = Took(item: Item, rest: seq<byte>) | Need(size: nat) | Broken

  /** What the first bytes say: wait for more of them, a broken stream, an acknowledgement, or a frame. */
  datatype Header = Wait(bytes: nat) | Bad | Ack(token: nat) | Body(at: nat, size: nat)

  function Look(l: Layer, s: seq<byte>): Header {
    match l
    case Intermediate =>
      if |s| < 4 then Wait(4)
      else
        var size := FromLe(s[..4]);
        if size >= 0x8000_0000 then Ack(size) else Body(4, size)
    case Abridged =>
      if s == [] then Wait(1)
      else if s[0] < 0x7f then Body(1, 4 * (s[0] as int))
      else if |s| < 4 then Wait(4)
      else Body(4, 4 * (FromLe(s[..4]) / 256))
    case Tls =>
      if |s| < 5 then Wait(5)
      else if s[..3] != [0x17, 0x03, 0x03] then Bad
      else Body(5, 256 * (s[3] as int) + s[4])
  }

  function Step(l: Layer, s: seq<byte>): Progress {
    LookBounds(l, s);
    match Look(l, s)
    case Wait(n) => Need(n)
    case Bad => Broken
    case Ack(token) => Took(QuickAck(token), s[4..])
    case Body(at, size) =>
      if |s| < at + size then Need(at + size) else Took(Message(s[at..at + size]), s[at + size..])
  }

  lemma LookBounds(l: Layer, s: seq<byte>)
    ensures match Look(l, s)
            case Wait(n) => n > |s|
            case Bad => |s| >= 5
            case Ack(_) => |s| >= 4
            case Body(at, _) => 1 <= at <= |s|
  {
    hide FromLe;
  }

  lemma LookStable(l: Layer, s: seq<byte>, t: seq<byte>)
    ensures !Look(l, s).Wait? || |s + t| < Look(l, s).bytes ==> Look(l, s + t) == Look(l, s)
  {
    hide FromLe;
    var u := s + t;
    if |s| >= 4 { assert u[..4] == s[..4]; }
    if |s| >= 3 { assert u[..3] == s[..3]; }
  }

  /** An incomplete frame asks for more than is there, and an item is cut off the front. */
  lemma StepProgress(l: Layer, s: seq<byte>)
    ensures Step(l, s).Need? ==> Step(l, s).size > |s|
    ensures Step(l, s).Took? ==> |Step(l, s).rest| < |s| && Step(l, s).rest == s[|s| - |Step(l, s).rest|..]
  {
    hide Look;
    LookBounds(l, s);
  }

  /** What is decided stays decided when more bytes arrive, and nothing is decided before the size asked for. */
  lemma StepStable(l: Layer, s: seq<byte>, t: seq<byte>)
    ensures match Step(l, s)
            case Took(item, rest) => Step(l, s + t) == Took(item, rest + t)
            case Broken => Step(l, s + t) == Broken
            case Need(n) => |s + t| < n ==> Step(l, s + t) == Need(n)
  {
    hide Look;
    LookBounds(l, s);
    LookStable(l, s, t);
    var u := s + t;
    match Look(l, s)
    case Ack(_) => assert u[4..] == s[4..] + t;
    case Body(at, size) =>
      if |s| >= at + size {
        assert u[at..at + size] == s[at..at + size] && u[at + size..] == s[at + size..] + t;
      }
    case _ =>
  }

  /** Reading on until nothing more can be taken. */
  function Drain(l: Layer, s: seq<byte>): (r: (seq<Item>, seq<byte>))
    ensures !Step(l, r.1).Took?
    decreases |s|
  {
    StepProgress(l, s);
    match Step(l, s)
    case Took(item, rest) => var (items, left) := Drain(l, rest); ([item] + items, left)
    case _ => ([], s)
  }

  lemma {:induction false} DrainSplit(l: Layer, s: seq<byte>, t: seq<byte>)
    ensures var (a, r) := Drain(l, s);
            var (b, q) := Drain(l, r + t);
            Drain(l, s + t) == (a + b, q)
    decreases |s|
  {
    hide Step;
    StepProgress(l, s);
    StepStable(l, s, t);
    match Step(l, s)
    case Took(item, rest) =>
      DrainSplit(l, rest, t);
      var (a, r) := Drain(l, rest);
      var (b, q) := Drain(l, r + t);
      assert [item] + (a + b) == [item] + a + b;
    case _ =>
      var (b, q) := Drain(l, s + t);
      assert [] + b == b;
  }

  lemma DrainNothing(l: Layer, s: seq<byte>)
    requires !Step(l, s).Took?
    ensures Drain(l, s) == ([], s)
  {}

  function Concat(chunks: seq<seq<byte>>): seq<byte> {
    if chunks == [] then [] else chunks[0] + Concat(chunks[1..])
  }

  /** The reader's life: each chunk that arrives is appended to what was left, and read as far as possible. */
  function Arrive(l: Layer, left: seq<byte>, chunks: seq<seq<byte>>): (seq<Item>, seq<byte>)
    decreases |chunks|
  {
    if chunks == [] then ([], left)
    else
      var (a, r) := Drain(l, left + chunks[0]);
      var (b, q) := Arrive(l, r, chunks[1..]);
      (a + b, q)
  }

  /** However the stream is split, the same items are delivered and the same bytes are left. */
  lemma {:induction false} SplitDoesNotMatter(l: Layer, left: seq<byte>, chunks: seq<seq<byte>>)
    requires !Step(l, left).Took?
    ensures Arrive(l, left, chunks) == Drain(l, left + Concat(chunks))
    decreases |chunks|
  {
    hide Step;
    hide Drain;
    if chunks == [] {
      assert left + [] == left;
      DrainNothing(l, left);
    } else {
      var (a, r) := Drain(l, left + chunks[0]);
      SplitDoesNotMatter(l, r, chunks[1..]);
      DrainSplit(l, left + chunks[0], Concat(chunks[1..]));
      assert left + Concat(chunks) == left + chunks[0] + Concat(chunks[1..]);
    }
  }

  // ------------------------------------------------------------ writing

  /** write_prepare_inplace without a quick acknowledgement; None where a CHECK fails. */
  function Framed(l: Layer, m: seq<byte>, pad: seq<byte>): Option<seq<byte>> {
    match l
    case Intermediate =>
      if |m| % 4 != 0 || |m| >= 0x100_0000 then None else Some(Le(|m| + |pad|, 4) + m + pad)
    case Abridged =>
      var size := |m| / 4;
      if size % 4 != 0 || size >= 0x100_0000 then None
      else if size >= 0x7f then Some(Le(0x7f + size * 256, 4) + m) else Some([size] + m)
    case Tls =>
      if |m| > 2878 then None else Some([0x17, 0x03, 0x03, |m| / 256, |m| % 256] + m)
  }

  /** Padding exists only in the intermediate format; it is delivered with the message. */
  function Delivered(l: Layer, m: seq<byte>, pad: seq<byte>): seq<byte> { if l.Intermediate? then m + pad else m }

  lemma FrameReadBack(l: Layer, m: seq<byte>, pad: seq<byte>, t: seq<byte>)
    requires Framed(l, m, pad).Some? && |pad| < 16
    ensures Step(l, Framed(l, m, pad).value + t) == Took(Message(Delivered(l, m, pad)), t) <==>
            (l.Abridged? ==> |m| % 4 == 0)
  {
    match l
    case Intermediate => IntermediateReadBack(m, pad, t);
    case Abridged => AbridgedReadBack(m, t);
    case Tls => TlsReadBack(m, t);
  }

  lemma IntermediateReadBack(m: seq<byte>, pad: seq<byte>, t: seq<byte>)
    requires |m| + |pad| < 0x8000_0000
    ensures Step(Intermediate, Le(|m| + |pad|, 4) + m + pad + t) == Took(Message(m + pad), t)
  {
    var h := Le(|m| + |pad|, 4);
    var s := h + m + pad + t;
    Le32RoundTrip(|m| + |pad|);
    assert s == h + (m + pad + t);
    assert s[..4] == h;
    assert s[4..4 + |m| + |pad|] == m + pad && s[4 + |m| + |pad|..] == t;
  }

  lemma TlsReadBack(m: seq<byte>, t: seq<byte>)
    requires |m| < 0x1_0000
    ensures Step(Tls, [0x17, 0x03, 0x03, |m| / 256, |m| % 256] + m + t) == Took(Message(m), t)
  {
    var s := [0x17, 0x03, 0x03, |m| / 256, |m| % 256] + m + t;
    assert s[..3] == [0x17, 0x03, 0x03];
    assert s[5..5 + |m|] == m && s[5 + |m|..] == t;
  }

  /** The abridged header counts words, so a message whose size is not a multiple of 4 loses its end to the next
      frame, although the writer's checks let it through. */
  lemma AbridgedReadBack(m: seq<byte>, t: seq<byte>)
    requires Framed(Abridged, m, []).Some?
    ensures Step(Abridged, Framed(Abridged, m, []).value + t) == Took(Message(m), t) <==> |m| % 4 == 0
  {
    var n := |m| / 4;
    var f := Framed(Abridged, m, []).value;
    var s := f + t;
    var h := |f| - |m|;
    AbridgedLook(m, t);
    hide Look;
    assert s[h..h + 4 * n] == m[..4 * n];
    if |m| % 4 == 0 {
      assert 4 * n == |m|;
      assert m[..4 * n] == m && s[h + 4 * n..] == t;
    } else {
      assert |s[h..h + 4 * n]| < |m|;
    }
  }

  lemma AbridgedLook(m: seq<byte>, t: seq<byte>)
    requires Framed(Abridged, m, []).Some?
    ensures var f := Framed(Abridged, m, []).value; Look(Abridged, f + t) == Body(|f| - |m|, 4 * (|m| / 4))
  {
    hide Le;
    hide FromLe;
    var n := |m| / 4;
    var s := Framed(Abridged, m, []).value + t;
    if n >= 0x7f {
      var w := 0x7f + n * 256;
      Le32RoundTrip(w);
      LowByte(w);
      assert s[..4] == Le(w, 4);
      assert s[0] == s[..4][0];
      assert w / 256 == n;
    } else {
      assert s[0] == n;
    }
  }

  lemma LowByte(w: nat)
    ensures Le(w, 4)[0] == w % 256
  {}

  lemma AbridgedLosesBytes()
    ensures Framed(Abridged, [1], []) == Some([0, 1]) && Step(Abridged, [0, 1]) == Took(Message([]), [1])
  {
    assert [0] + [1] == [0, 1];
    assert Look(Abridged, [0, 1]) == Body(1, 0);
    var s: seq<byte> := [0, 1];
    assert s[1..1] == [] && s[1..] == [1];
  }

  /** A list of messages, each with its padding, as one stream. */
  ghost function Stream(l: Layer, ms: seq<(seq<byte>, seq<byte>)>): seq<byte>
    requires forall i :: 0 <= i < |ms| ==> Framed(l, ms[i].0, ms[i].1).Some?
  {
    if ms == [] then [] else Framed(l, ms[0].0, ms[0].1).value + Stream(l, ms[1..])
  }

  ghost predicate Writable(l: Layer, ms: seq<(seq<byte>, seq<byte>)>) {
    forall i :: 0 <= i < |ms| ==>
                  Framed(l, ms[i].0, ms[i].1).Some? && |ms[i].1| < 16 && (l.Abridged? ==> |ms[i].0| % 4 == 0)
  }

  ghost function Messages(l: Layer, ms: seq<(seq<byte>, seq<byte>)>): seq<Item> {
    seq(|ms|, i requires 0 <= i < |ms| => Message(Delivered(l, ms[i].0, ms[i].1)))
  }

  /** For every list of messages and every split of the stream into chunks, the same messages come out and
      nothing is left. */
  lemma {:induction false} StreamReadBack(l: Layer, ms: seq<(seq<byte>, seq<byte>)>)
    requires Writable(l, ms)
    ensures Drain(l, Stream(l, ms)) == (Messages(l, ms), [])
  {
    hide Step;
    hide Framed;
    hide Delivered;
    if ms == [] {
      NothingInStream(l);
    } else {
      StreamReadBack(l, ms[1..]);
      FrameReadBack(l, ms[0].0, ms[0].1, Stream(l, ms[1..]));
      assert Messages(l, ms) == [Message(Delivered(l, ms[0].0, ms[0].1))] + Messages(l, ms[1..]);
    }
  }

  lemma NothingInStream(l: Layer)
    ensures !Step(l, []).Took? && Drain(l, []) == ([], [])
  {}

  lemma EverySplitDelivers(l: Layer, ms: seq<(seq<byte>, seq<byte>)>, chunks: seq<seq<byte>>)
    requires Writable(l, ms) && Concat(chunks) == Stream(l, ms)
    ensures Arrive(l, [], chunks) == (Messages(l, ms), [])
  {
    SplitDoesNotMatter(l, [], chunks);
    StreamReadBack(l, ms);
    assert [] + Concat(chunks) == Stream(l, ms);
  }
}
