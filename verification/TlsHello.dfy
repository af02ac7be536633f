/** The two-pass writer of the emulated ClientHello: a length pass over a list of operations, and a store pass that
    back-patches the length of every scope (td/mtproto/TlsInit.cpp). */
module TlsHello {
  import opened Bytes
  import opened TlPrimitives
  import ProxySecret

  datatype Op =
    | Str(data: seq<byte>) | Random(length: int) | Zero(length: int) | Domain | Grease(seed: int) | Key
    | BeginScope | EndScope

  /** The domain, the grease bytes, and the random bytes by the offset they are written to. */
  datatype Context = Context(domain: seq<byte>, grease: seq<byte>, noise: nat -> byte)
  {
    function Domain(): seq<byte> {
      if |domain| <= ProxySecret.MAX_DOMAIN_LENGTH then domain else domain[..ProxySecret.MAX_DOMAIN_LENGTH]
    }
  }

  function Drawn(noise: nat -> byte, at: nat, n: nat): (r: seq<byte>)
    ensures |r| == n
  {
    seq(n, i requires 0 <= i < n => noise(at + i))
  }

  // ------------------------------------------------------------ the length pass

  datatype Measure = Measure(size: nat, ok: bool, scopes: seq<nat>)

  function MeasureOp(m: Measure, op: Op, c: Context): Measure {
    if !m.ok then m
    else
      match op
      case Str(data) => m.(size := m.size + |data|)
      case Random(n) => if n <= 0 || n > 1024 then m.(ok := false) else m.(size := m.size + n)
      case Zero(n) => if n <= 0 || n > 1024 then m.(ok := false) else m.(size := m.size + n)
      case Domain => m.(size := m.size + |c.Domain()|)
      case Grease(i) => if i < 0 || i >= |c.grease| then m.(ok := false) else m.(size := m.size + 2)
      case Key => m.(size := m.size + 32)
      case BeginScope => Measure(m.size + 2, true, m.scopes + [m.size + 2])
      case EndScope =>
        if m.scopes == [] then m.(ok := false)
        else
          var n := |m.scopes| - 1;
          var t := m.(scopes := m.scopes[..n]);
          if m.size - m.scopes[n] >= 0x4000 then t.(ok := false) else t
  }

  function MeasureAll(m: Measure, ops: seq<Op>, c: Context): Measure
    decreases |ops|
  {
    if ops == [] then m else MeasureAll(MeasureOp(m, ops[0], c), ops[1..], c)
  }

  /** The operations that finish adds: a scope of zeros that fills up to 517 bytes. */
  function Padding(size: nat): seq<Op> { [BeginScope, Zero(515 - size), EndScope] }

  function Finish(m: Measure, c: Context): Option<nat> {
    if m.size > 514 || m.size < 43 || !m.ok then None
    else
      var t := MeasureAll(m, Padding(m.size), c);
      if t.scopes != [] || !t.ok then None else Some(t.size)
  }

  const START := Measure(0, true, [])

  function Length(ops: seq<Op>, c: Context): Option<nat> { Finish(MeasureAll(START, ops, c), c) }

  // ------------------------------------------------------------ the store pass

  datatype Store = Store(data: seq<byte>, offset: nat, scopes: seq<nat>)

  /** The bytes an operation puts at offset `at`; none for the scope marks. */
  function Content(op: Op, c: Context, at: nat): Option<seq<byte>> {
    match op
    case Str(data) => Some(data)
    case Random(n) => if n < 0 then None else Some(Drawn(c.noise, at, n))
    case Zero(n) => if n < 0 then None else Some(Zeros(n))
    case Domain => Some(c.Domain())
    case Grease(i) => if i < 0 || i >= |c.grease| then None else Some([c.grease[i], c.grease[i]])
    case Key => Some(Drawn(c.noise, at, 32))
    case _ => Some([])
  }

  function Patch(d: seq<byte>, at: nat, b: seq<byte>): (r: seq<byte>)
    requires at + |b| <= |d|
    ensures |r| == |d|
  {
    d[..at] + b + d[at + |b|..]
  }

  function Be16(n: nat): (r: seq<byte>)
    ensures |r| == 2
  {
    [n / 256 % 256, n % 256]
  }

  /** None where a CHECK fails or the destination is too short. */
  function StoreOp(s: Store, op: Op, c: Context): Option<Store> {
    match op
    case BeginScope =>
      if s.offset + 2 > |s.data| then None else Some(s.(offset := s.offset + 2, scopes := s.scopes + [s.offset]))
    case EndScope =>
      if s.scopes == [] then None
      else
        var n := |s.scopes| - 1;
        var b := s.scopes[n];
        if s.offset < b + 2 || s.offset - b - 2 >= 0x4000 || s.offset > |s.data| then None
        else Some(s.(data := Patch(s.data, b, Be16(s.offset - b - 2)), scopes := s.scopes[..n]))
    case _ =>
      var b := Content(op, c, s.offset);
      if b.None? || s.offset + |b.value| > |s.data| then None
      else Some(s.(data := Patch(s.data, s.offset, b.value), offset := s.offset + |b.value|))
  }

  function StoreAll(s: Store, ops: seq<Op>, c: Context): Option<Store>
    decreases |ops|
  {
    if ops == [] then Some(s)
    else
      var t := StoreOp(s, ops[0], c);
      if t.None? then None else StoreAll(t.value, ops[1..], c)
  }

  // ------------------------------------------------------------ what the bytes should be

  /** Rendering without offsets: each open scope collects its content, and closing it puts the content's length in
      front. The last element is the innermost open scope. */
  function Render(stack: seq<seq<byte>>, op: Op, c: Context): Option<seq<seq<byte>>> {
    if stack == [] then None
    else
      var n := |stack| - 1;
      match op
      case BeginScope => Some(stack + [[]])
      case EndScope =>
        if n == 0 then None
        else Some(stack[..n - 1] + [stack[n - 1] + Be16(|stack[n]|) + stack[n]])
      case _ =>
        var b := Content(op, c, Total(stack));
        if b.None? then None else Some(stack[..n] + [stack[n] + b.value])
  }

  function RenderAll(stack: seq<seq<byte>>, ops: seq<Op>, c: Context): Option<seq<seq<byte>>>
    decreases |ops|
  {
    if ops == [] then Some(stack)
    else
      var t := Render(stack, ops[0], c);
      if t.None? then None else RenderAll(t.value, ops[1..], c)
  }

  /** The offset reached: all collected content and two bytes for every open scope. */
  function Total(stack: seq<seq<byte>>): nat {
    if stack == [] then 0
    else |stack[|stack| - 1]| + (if |stack| == 1 then 0 else 2 + Total(stack[..|stack| - 1]))
  }

  /** `d` up to `offset` is what is collected, with room for the length of every open scope. */
  ghost predicate Holds(d: seq<byte>, offset: nat, scopes: seq<nat>, stack: seq<seq<byte>>)
    decreases |stack|
  {
    stack != [] && |scopes| == |stack| - 1 && offset <= |d| &&
    var n := |stack| - 1;
    var t := stack[n];
    offset >= |t| && d[offset - |t|..offset] == t &&
    if n == 0 then offset == |t|
    else
      var b := offset - |t| - 2;
      b >= 0 && scopes[n - 1] == b && Holds(d, b, scopes[..n - 1], stack[..n])
  }

  /** Only the bytes below the offset matter. */
  lemma {:induction false} HoldsBelow(d: seq<byte>, e: seq<byte>, offset: nat, scopes: seq<nat>, stack: seq<seq<byte>>)
    requires Holds(d, offset, scopes, stack) && offset <= |e| && e[..offset] == d[..offset]
    ensures Holds(e, offset, scopes, stack)
    decreases |stack|
  {
    var n := |stack| - 1;
    var t := stack[n];
    assert e[..offset][offset - |t|..] == d[..offset][offset - |t|..];
    if n == 0 {
    } else {
      var b := offset - |t| - 2;
      assert e[..offset][..b] == d[..offset][..b];
      HoldsBelow(d, e, b, scopes[..n - 1], stack[..n]);
    }
  }

  lemma {:induction false} HoldsTotal(d: seq<byte>, offset: nat, scopes: seq<nat>, stack: seq<seq<byte>>)
    requires Holds(d, offset, scopes, stack)
    ensures Total(stack) == offset
    decreases |stack|
  {
    var n := |stack| - 1;
    if n == 0 {
    } else {
      HoldsTotal(d, offset - |stack[n]| - 2, scopes[..n - 1], stack[..n]);
    }
  }

  /** The state of the length pass is that of the store pass. */
  ghost predicate Measures(m: Measure, s: Store) {
    m.ok && m.size == s.offset && |m.scopes| == |s.scopes| &&
    forall i :: 0 <= i < |m.scopes| ==> m.scopes[i] == s.scopes[i] + 2
  }

  /** The innermost content may grow. */
  lemma HoldsTop(d: seq<byte>, offset: nat, scopes: seq<nat>, stack: seq<seq<byte>>, o: nat, t: seq<byte>)
    requires Holds(d, offset, scopes, stack) && o <= |d| && o >= |t|
    requires o - |t| == offset - |stack[|stack| - 1]| && d[o - |t|..o] == t
    ensures Holds(d, o, scopes, stack[..|stack| - 1] + [t])
  {
    var n := |stack| - 1;
    assert (stack[..n] + [t])[..n] == stack[..n];
  }

  lemma HoldsAppend(s: Store, stack: seq<seq<byte>>, b: seq<byte>)
    requires Holds(s.data, s.offset, s.scopes, stack) && stack != []
    requires s.offset + |b| <= |s.data|
    ensures Holds(Patch(s.data, s.offset, b), s.offset + |b|, s.scopes,
                  stack[..|stack| - 1] + [stack[|stack| - 1] + b])
  {
    hide *;
    var d := Patch(s.data, s.offset, b);
    PatchStarts(s.data, s.offset, b);
    HoldsGrown(s.data, d, s.offset, s.scopes, stack, b);
  }

  lemma HoldsGrown(d: seq<byte>, e: seq<byte>, offset: nat, scopes: seq<nat>, stack: seq<seq<byte>>, b: seq<byte>)
    requires Holds(d, offset, scopes, stack) && stack != [] && offset <= |d|
    requires offset + |b| <= |e| && e[..offset] == d[..offset] && e[offset..offset + |b|] == b
    ensures Holds(e, offset + |b|, scopes, stack[..|stack| - 1] + [stack[|stack| - 1] + b])
  {
    hide *;
    HoldsBelow(d, e, offset, scopes, stack);
    HoldsMeans(e, offset, scopes, stack);
    var t, o := stack[|stack| - 1], offset + |b|;
    Joined(e, offset - |t|, offset, o, t, b);
    HoldsTop(e, offset, scopes, stack, o, t + b);
  }

  lemma HoldsMeans(d: seq<byte>, offset: nat, scopes: seq<nat>, stack: seq<seq<byte>>)
    requires Holds(d, offset, scopes, stack)
    ensures stack != [] && |scopes| == |stack| - 1 && offset <= |d|
    ensures var t := stack[|stack| - 1]; |t| <= offset && d[offset - |t|..offset] == t
  {}

  lemma PatchParts(d: seq<byte>, at: nat, b: seq<byte>)
    requires at + |b| <= |d|
    ensures var r := Patch(d, at, b);
            r[..at] == d[..at] && r[at..at + |b|] == b && r[at + |b|..] == d[at + |b|..]
  {}

  lemma PatchStarts(d: seq<byte>, at: nat, b: seq<byte>)
    requires at + |b| <= |d|
    ensures Patch(d, at, b)[..at] == d[..at] && Patch(d, at, b)[at..at + |b|] == b
  {
    PatchParts(d, at, b);
    hide *;
  }

  lemma Joined(d: seq<byte>, i: nat, j: nat, k: nat, a: seq<byte>, b: seq<byte>)
    requires i <= j <= k <= |d| && d[i..j] == a && d[j..k] == b
    ensures d[i..k] == a + b
  {}

  lemma HoldsBegin(s: Store, stack: seq<seq<byte>>)
    requires Holds(s.data, s.offset, s.scopes, stack) && s.offset + 2 <= |s.data|
    ensures Holds(s.data, s.offset + 2, s.scopes + [s.offset], stack + [[]])
  {
    assert (stack + [[]])[..|stack|] == stack;
    assert (s.scopes + [s.offset])[..|stack| - 1] == s.scopes;
  }

  lemma HoldsEnd(s: Store, stack: seq<seq<byte>>)
    requires Holds(s.data, s.offset, s.scopes, stack) && |stack| > 1
    ensures var n := |stack| - 1;
            var b := s.scopes[n - 1];
            s.offset == b + 2 + |stack[n]| &&
            Holds(Patch(s.data, b, Be16(|stack[n]|)), s.offset, s.scopes[..n - 1],
                  stack[..n - 1] + [stack[n - 1] + Be16(|stack[n]|) + stack[n]])
  {
    hide *;
    HoldsOpen(s.data, s.offset, s.scopes, stack);
    var n := |stack| - 1;
    var t := stack[n];
    var b := s.scopes[n - 1];
    PatchParts(s.data, b, Be16(|t|));
    var d := Patch(s.data, b, Be16(|t|));
    Shifted(s.data, d, b + 2, s.offset);
    HoldsClosed(s.data, d, b, s.scopes[..n - 1], stack[..n], Be16(|t|), t);
    assert stack[..n][..n - 1] == stack[..n - 1] && stack[..n][n - 1] == stack[n - 1];
  }

  lemma HoldsOpen(d: seq<byte>, offset: nat, scopes: seq<nat>, stack: seq<seq<byte>>)
    requires Holds(d, offset, scopes, stack) && |stack| > 1
    ensures |scopes| == |stack| - 1
    ensures var n := |stack| - 1;
            var b := scopes[n - 1];
            offset == b + 2 + |stack[n]| && offset <= |d| && d[b + 2..offset] == stack[n] &&
            Holds(d, b, scopes[..n - 1], stack[..n])
  {}

  lemma Shifted(d: seq<byte>, e: seq<byte>, i: nat, j: nat)
    requires i <= j <= |d| && |e| == |d| && e[i..] == d[i..]
    ensures e[i..j] == d[i..j]
  {
    assert e[i..][..j - i] == e[i..j] && d[i..][..j - i] == d[i..j];
  }

  /** The enclosing content grows by the length and the content of a closed scope. */
  lemma HoldsClosed(d: seq<byte>, e: seq<byte>, offset: nat, scopes: seq<nat>, stack: seq<seq<byte>>, l: seq<byte>,
                    t: seq<byte>)
    requires Holds(d, offset, scopes, stack) && stack != [] && offset <= |d|
    requires offset + |l| + |t| <= |e| && e[..offset] == d[..offset]
    requires e[offset..offset + |l|] == l && e[offset + |l|..offset + |l| + |t|] == t
    ensures Holds(e, offset + |l| + |t|, scopes, stack[..|stack| - 1] + [stack[|stack| - 1] + l + t])
  {
    hide *;
    Joined(e, offset, offset + |l|, offset + |l| + |t|, l, t);
    HoldsGrown(d, e, offset, scopes, stack, l + t);
    assert stack[|stack| - 1] + (l + t) == stack[|stack| - 1] + l + t;
  }

  /** What the length pass accepts the store pass can write, and it writes what the rendering says. */
  lemma OpAgrees(m: Measure, s: Store, stack: seq<seq<byte>>, op: Op, c: Context)
    requires Measures(m, s) && Holds(s.data, s.offset, s.scopes, stack)
    requires MeasureOp(m, op, c).ok && MeasureOp(m, op, c).size <= |s.data|
    ensures StoreOp(s, op, c).Some? && Render(stack, op, c).Some?
    ensures var t := StoreOp(s, op, c).value;
            Measures(MeasureOp(m, op, c), t) && Holds(t.data, t.offset, t.scopes, Render(stack, op, c).value) &&
            |t.data| == |s.data|
  {
    HoldsTotal(s.data, s.offset, s.scopes, stack);
    assert stack != [] && |s.scopes| == |stack| - 1;
    if op.BeginScope? {
      BeginAgrees(m, s, stack, c);
    } else if op.EndScope? {
      EndAgrees(m, s, stack, c);
    } else {
      ContentMeasured(m, op, c, s.offset);
      HoldsAppend(s, stack, Content(op, c, s.offset).value);
      hide Content;
      hide MeasureOp;
    }
    hide Holds;
    hide Patch;
    hide Total;
  }

  lemma BeginAgrees(m: Measure, s: Store, stack: seq<seq<byte>>, c: Context)
    requires Measures(m, s) && Holds(s.data, s.offset, s.scopes, stack)
    requires MeasureOp(m, BeginScope, c).size <= |s.data|
    ensures StoreOp(s, BeginScope, c).Some? && Render(stack, BeginScope, c).Some?
    ensures var t := StoreOp(s, BeginScope, c).value;
            Measures(MeasureOp(m, BeginScope, c), t) && |t.data| == |s.data| &&
            Holds(t.data, t.offset, t.scopes, Render(stack, BeginScope, c).value)
  {
    HoldsBegin(s, stack);
    assert stack != [];
    hide Holds;
  }

  lemma EndAgrees(m: Measure, s: Store, stack: seq<seq<byte>>, c: Context)
    requires Measures(m, s) && Holds(s.data, s.offset, s.scopes, stack) && MeasureOp(m, EndScope, c).ok
    ensures StoreOp(s, EndScope, c).Some? && Render(stack, EndScope, c).Some?
    ensures var t := StoreOp(s, EndScope, c).value;
            Measures(MeasureOp(m, EndScope, c), t) && |t.data| == |s.data| &&
            Holds(t.data, t.offset, t.scopes, Render(stack, EndScope, c).value)
  {
    assert |s.scopes| == |stack| - 1 && s.offset <= |s.data|;
    HoldsEnd(s, stack);
    hide Holds;
    hide Patch;
    hide Be16;
  }

  lemma ContentMeasured(m: Measure, op: Op, c: Context, at: nat)
    requires m.ok && MeasureOp(m, op, c).ok && !op.BeginScope? && !op.EndScope?
    ensures Content(op, c, at).Some? && MeasureOp(m, op, c) == m.(size := m.size + |Content(op, c, at).value|)
  {}

  lemma OpGrows(m: Measure, op: Op, c: Context)
    ensures MeasureOp(m, op, c).ok ==> m.ok
    ensures MeasureOp(m, op, c).size >= m.size
  {}

  lemma {:induction false} AllGrows(m: Measure, ops: seq<Op>, c: Context)
    ensures MeasureAll(m, ops, c).ok ==> m.ok
    ensures MeasureAll(m, ops, c).size >= m.size
    decreases |ops|
  {
    hide MeasureOp;
    if ops == [] {
    } else {
      OpGrows(m, ops[0], c);
      AllGrows(MeasureOp(m, ops[0], c), ops[1..], c);
    }
  }

  lemma {:induction false} AllAgree(m: Measure, s: Store, stack: seq<seq<byte>>, ops: seq<Op>, c: Context)
    requires Measures(m, s) && Holds(s.data, s.offset, s.scopes, stack)
    requires MeasureAll(m, ops, c).ok && MeasureAll(m, ops, c).size <= |s.data|
    ensures StoreAll(s, ops, c).Some? && RenderAll(stack, ops, c).Some?
    ensures var t := StoreAll(s, ops, c).value;
            Measures(MeasureAll(m, ops, c), t) && Holds(t.data, t.offset, t.scopes, RenderAll(stack, ops, c).value) &&
            |t.data| == |s.data|
    decreases |ops|
  {
    hide MeasureOp;
    hide StoreOp;
    hide Render;
    hide Holds;
    hide Measures;
    if ops == [] {
    } else {
      AllGrows(MeasureOp(m, ops[0], c), ops[1..], c);
      OpAgrees(m, s, stack, ops[0], c);
      AllAgree(MeasureOp(m, ops[0], c), StoreOp(s, ops[0], c).value, Render(stack, ops[0], c).value, ops[1..], c);
    }
  }

  // ------------------------------------------------------------ the whole hello

  function Full(ops: seq<Op>, c: Context): seq<Op> { ops + Padding(MeasureAll(START, ops, c).size) }

  lemma {:induction false} MeasureSplit(m: Measure, a: seq<Op>, b: seq<Op>, c: Context)
    ensures MeasureAll(m, a + b, c) == MeasureAll(MeasureAll(m, a, c), b, c)
    decreases |a|
  {
    hide MeasureOp;
    if a == [] {
      assert a + b == b;
    } else {
      assert (a + b)[1..] == a[1..] + b;
      MeasureSplit(MeasureOp(m, a[0], c), a[1..], b, c);
    }
  }

  lemma PaddingMeasure(m: Measure, c: Context)
    requires m.ok && 43 <= m.size <= 514
    ensures MeasureAll(m, Padding(m.size), c) == m.(size := 517)
  {
    var p := Padding(m.size);
    var a := MeasureOp(m, p[0], c);
    var b := MeasureOp(a, p[1], c);
    assert p[1..] == [p[1], p[2]] && p[1..][1..] == [p[2]] && [p[2]][1..] == [];
    assert MeasureAll(m, p, c) == MeasureAll(a, p[1..], c) == MeasureAll(b, [p[2]], c) == MeasureOp(b, p[2], c);
    assert (m.scopes + [m.size + 2])[..|m.scopes|] == m.scopes;
  }

  /** A list of operations that the length pass accepts makes a hello of exactly 517 bytes, and the store pass
      writes its rendering: every scope preceded by the two-byte length of its content. */
  lemma HelloIsRendered(ops: seq<Op>, c: Context, blank: seq<byte>)
    requires Length(ops, c).Some? && |blank| == 517
    ensures Length(ops, c) == Some(517)
    ensures StoreAll(Store(blank, 0, []), Full(ops, c), c).Some?
    ensures var t := StoreAll(Store(blank, 0, []), Full(ops, c), c).value;
            t.offset == |t.data| == 517 && t.scopes == [] && RenderAll([[]], Full(ops, c), c) == Some([t.data])
  {
    hide MeasureAll;
    hide MeasureOp;
    hide StoreAll;
    hide RenderAll;
    var m := MeasureAll(START, ops, c);
    PaddingMeasure(m, c);
    MeasureSplit(START, ops, Padding(m.size), c);
    var s := Store(blank, 0, []);
    assert Holds(blank, 0, [], [[]]);
    AllAgree(START, s, [[]], Full(ops, c), c);
    var t := StoreAll(s, Full(ops, c), c).value;
    var stack := RenderAll([[]], Full(ops, c), c).value;
    assert |stack| == 1 && stack[0] == t.data[..517] && t.data[..517] == t.data;
    assert stack == [stack[0]];
  }

  // ------------------------------------------------------------ scope lengths after the hash

  /** Where the scopes begin and end, in the order in which they are closed. */
  function Scopes(m: Measure, ops: seq<Op>, c: Context): seq<(nat, nat)>
    decreases |ops|
  {
    if ops == [] then []
    else
      (if ops[0].EndScope? && m.scopes != [] && m.scopes[|m.scopes| - 1] >= 2
       then [(m.scopes[|m.scopes| - 1] - 2, m.size)] else []) +
      Scopes(MeasureOp(m, ops[0], c), ops[1..], c)
  }

  /** The two bytes at the beginning of each scope are the length of the rest of it. */
  predicate Right(d: seq<byte>, scopes: seq<(nat, nat)>) {
    forall i :: 0 <= i < |scopes| ==> RightScope(d, scopes[i])
  }

  predicate RightScope(d: seq<byte>, scope: (nat, nat)) {
    scope.0 + 2 <= scope.1 <= |d| && d[scope.0] == (scope.1 - scope.0 - 2) / 256 % 256 &&
    d[scope.0 + 1] == (scope.1 - scope.0 - 2) % 256
  }

  /** The closed scopes lie below the offset and away from the headers of the open ones, which are in order. */
  ghost predicate Apart(s: Store, closed: seq<(nat, nat)>) {
    (forall i :: 0 <= i < |closed| ==> closed[i].0 + 2 <= closed[i].1 <= s.offset) &&
    (forall j :: 0 <= j < |s.scopes| ==> s.scopes[j] + 2 <= s.offset) &&
    (forall j, k :: 0 <= j < k < |s.scopes| ==> s.scopes[j] + 2 <= s.scopes[k]) &&
    (forall i, j :: 0 <= i < |closed| && 0 <= j < |s.scopes| ==>
                      s.scopes[j] + 2 <= closed[i].0 || closed[i].1 <= s.scopes[j])
  }

  lemma PatchKeepsScope(d: seq<byte>, at: nat, b: seq<byte>, scope: (nat, nat))
    requires at + |b| <= |d| && RightScope(d, scope) && (scope.0 + 2 <= at || at + |b| <= scope.0)
    ensures RightScope(Patch(d, at, b), scope)
  {}

  lemma StoreKeepsRight(s: Store, closed: seq<(nat, nat)>, op: Op, c: Context)
    requires StoreOp(s, op, c).Some? && Right(s.data, closed) && Apart(s, closed) && !op.EndScope?
    ensures var t := StoreOp(s, op, c).value; Right(t.data, closed) && Apart(t, closed)
  {
    hide RightScope;
    hide Patch;
    if !op.BeginScope? {
      var b := Content(op, c, s.offset).value;
      forall i | 0 <= i < |closed| ensures RightScope(Patch(s.data, s.offset, b), closed[i]) {
        PatchKeepsScope(s.data, s.offset, b, closed[i]);
      }
    }
  }

  lemma EndKeepsRight(s: Store, closed: seq<(nat, nat)>, c: Context)
    requires StoreOp(s, EndScope, c).Some? && Right(s.data, closed) && Apart(s, closed)
    ensures var t := StoreOp(s, EndScope, c).value;
            var u := closed + [(s.scopes[|s.scopes| - 1], s.offset)];
            Right(t.data, u) && Apart(t, u)
  {
    var n := |s.scopes| - 1;
    var b := s.scopes[n];
    var l := Be16(s.offset - b - 2);
    var d := Patch(s.data, b, l);
    assert RightScope(d, (b, s.offset)) by { assert d[b] == l[0] && d[b + 1] == l[1]; }
    hide RightScope;
    hide Patch;
    hide Be16;
    forall i | 0 <= i < |closed| ensures RightScope(d, closed[i]) {
      PatchKeepsScope(s.data, b, l, closed[i]);
    }
  }

  lemma {:induction false} AllRight(m: Measure, s: Store, closed: seq<(nat, nat)>, ops: seq<Op>, c: Context)
    requires Measures(m, s) && StoreAll(s, ops, c).Some? && MeasureAll(m, ops, c).ok
    requires Right(s.data, closed) && Apart(s, closed)
    requires MeasureAll(m, ops, c).size <= |s.data|
    ensures Right(StoreAll(s, ops, c).value.data, closed + Scopes(m, ops, c))
    decreases |ops|
  {
    hide Right;
    hide Apart;
    hide MeasureOp;
    hide StoreOp;
    if ops == [] {
      assert closed + [] == closed;
    } else {
      var t := StoreOp(s, ops[0], c).value;
      var p := MeasureOp(m, ops[0], c);
      AllGrows(p, ops[1..], c);
      StoreMeasures(m, s, ops[0], c);
      if ops[0].EndScope? {
        EndKeepsRight(s, closed, c);
        var pair := (s.scopes[|s.scopes| - 1], s.offset);
        AllRight(p, t, closed + [pair], ops[1..], c);
        assert closed + [pair] + Scopes(p, ops[1..], c) == closed + ([pair] + Scopes(p, ops[1..], c));
      } else {
        StoreKeepsRight(s, closed, ops[0], c);
        AllRight(p, t, closed, ops[1..], c);
        assert [] + Scopes(p, ops[1..], c) == Scopes(p, ops[1..], c);
      }
    }
  }

  lemma StoreMeasures(m: Measure, s: Store, op: Op, c: Context)
    requires Measures(m, s) && StoreOp(s, op, c).Some? && MeasureOp(m, op, c).ok
    ensures Measures(MeasureOp(m, op, c), StoreOp(s, op, c).value)
    ensures |StoreOp(s, op, c).value.data| == |s.data|
    ensures op.EndScope? ==> s.scopes != [] && m.scopes != []
  {
    hide Patch;
  }

  /** Before the hash is put in, every scope of an accepted hello has the right length. */
  lemma HelloScopesRight(ops: seq<Op>, c: Context, blank: seq<byte>)
    requires Length(ops, c).Some? && |blank| == 517
    ensures StoreAll(Store(blank, 0, []), Full(ops, c), c).Some?
    ensures Right(StoreAll(Store(blank, 0, []), Full(ops, c), c).value.data, Scopes(START, Full(ops, c), c))
  {
    HelloIsRendered(ops, c, blank);
    hide StoreAll;
    hide Scopes;
    hide MeasureAll;
    hide MeasureOp;
    var m := MeasureAll(START, ops, c);
    PaddingMeasure(m, c);
    MeasureSplit(START, ops, Padding(m.size), c);
    AllRight(START, Store(blank, 0, []), [], Full(ops, c), c);
    assert [] + Scopes(START, Full(ops, c), c) == Scopes(START, Full(ops, c), c);
  }

  /** The hash overwrites bytes 11 to 42. All scope lengths survive every hash exactly when no length field lies
      there. */
  lemma HashSparesScopes(d: seq<byte>, scopes: seq<(nat, nat)>)
    requires |d| == 517 && Right(d, scopes)
    ensures (forall mac: seq<byte> :: |mac| == 32 ==> Right(Patch(d, 11, mac), scopes)) <==>
            (forall i :: 0 <= i < |scopes| ==> scopes[i].0 + 2 <= 11 || 43 <= scopes[i].0)
  {
    if forall i :: 0 <= i < |scopes| ==> scopes[i].0 + 2 <= 11 || 43 <= scopes[i].0 {
      forall mac: seq<byte> | |mac| == 32 ensures Right(Patch(d, 11, mac), scopes) {
        forall i | 0 <= i < |scopes| ensures RightScope(Patch(d, 11, mac), scopes[i]) {
          PatchKeepsScope(d, 11, mac, scopes[i]);
        }
      }
    } else {
      var i :| 0 <= i < |scopes| && !(scopes[i].0 + 2 <= 11 || 43 <= scopes[i].0);
      var at := if scopes[i].0 < 11 then 11 else scopes[i].0;
      var other: byte := if d[at] == 0 then 1 else 0;
      var mac: seq<byte> := seq(32, k => other);
      assert Patch(d, 11, mac)[at] == mac[at - 11] == other;
      assert !RightScope(Patch(d, 11, mac), scopes[i]);
      assert !Right(Patch(d, 11, mac), scopes);
    }
  }

  // ------------------------------------------------------------ in place

  class TlsHelloCalcLength {
    var size: nat
    var ok: bool
    var scopes: seq<nat>

    ghost function View(): Measure
      reads this
    {
      Measure(size, ok, scopes)
    }

    constructor ()
      ensures View() == START
    {
      size, ok, scopes := 0, true, [];
    }

    method DoOp(op: Op, c: Context)
      modifies this
      ensures View() == MeasureOp(old(View()), op, c)
    {
      if !ok {
        return;
      }
      match op
      case Str(data) => size := size + |data|;
      case Random(n) => AddLength(n);
      case Zero(n) => AddLength(n);
      case Domain => size := size + |c.Domain()|;
      case Grease(i) =>
        if i < 0 || i >= |c.grease| {
          ok := false;
        } else {
          size := size + 2;
        }
      case Key => size := size + 32;
      case BeginScope =>
        size := size + 2;
        scopes := scopes + [size];
      case EndScope =>
        if scopes == [] {
          ok := false;
          return;
        }
        var begin := scopes[|scopes| - 1];
        scopes := scopes[..|scopes| - 1];
        if size - begin >= 0x4000 {
          ok := false;
        }
    }

    method AddLength(n: int)
      modifies this
      ensures scopes == old(scopes)
      ensures if n <= 0 || n > 1024 then !ok && size == old(size) else ok == old(ok) && size == old(size) + n
    {
      if n <= 0 || n > 1024 {
        ok := false;
      } else {
        size := size + n;
      }
    }

    method FinishLength(c: Context) returns (r: Option<nat>)
      modifies this
      ensures r == Finish(old(View()), c)
    {
      if size > 514 || size < 43 || !ok {
        return None;
      }
      ghost var m := View();
      var pad := Padding(size);
      assert pad[..3] == pad;
      for i := 0 to 3
        invariant View() == MeasureAll(m, pad[..i], c)
      {
        MeasureSplit(m, pad[..i], [pad[i]], c);
        assert pad[..i + 1] == pad[..i] + [pad[i]];
        assert [pad[i]][1..] == [];
        DoOp(pad[i], c);
      }
      r := if scopes != [] || !ok then None else Some(size);
    }
  }

  class TlsHelloStore {
    const data: array<byte>
    var offset: nat
    var scopes: seq<nat>

    ghost function View(): Store
      reads this, data
    {
      Store(data[..], offset, scopes)
    }

    constructor (n: nat)
      ensures fresh(data) && View() == Store(Zeros(n), 0, [])
    {
      data := new byte[n](i => 0);
      offset, scopes := 0, [];
    }

    /** Callable whenever its checks hold, which the length pass guarantees. */
    method DoOp(op: Op, c: Context)
      requires StoreOp(View(), op, c).Some?
      modifies this, data
      ensures View() == StoreOp(old(View()), op, c).value
    {
      ghost var d := data[..];
      match op
      case BeginScope =>
        scopes := scopes + [offset];
        offset := offset + 2;
      case EndScope =>
        var begin := scopes[|scopes| - 1];
        scopes := scopes[..|scopes| - 1];
        WriteAt(begin, Be16(offset - begin - 2));
      case _ =>
        var bytes := Content(op, c, offset).value;
        WriteAt(offset, bytes);
        offset := offset + |bytes|;
    }

    method WriteAt(at: nat, bytes: seq<byte>)
      requires at + |bytes| <= data.Length
      modifies data
      ensures data[..] == Patch(old(data[..]), at, bytes)
    {
      ghost var d := data[..];
      CopyInto(data, at, bytes);
      assert data[..] == data[..at] + data[at..at + |bytes|] + data[at + |bytes|..];
      assert data[..at] == d[..at] && data[at + |bytes|..] == d[at + |bytes|..];
    }

    method DoAll(ops: seq<Op>, c: Context)
      requires StoreAll(View(), ops, c).Some?
      modifies this, data
      ensures View() == StoreAll(old(View()), ops, c).value
    {
      hide StoreOp;
      ghost var s := View();
      assert ops[0..] == ops;
      for i := 0 to |ops|
        invariant StoreAll(View(), ops[i..], c) == StoreAll(s, ops, c)
      {
        assert ops[i..][1..] == ops[i + 1..];
        DoOp(ops[i], c);
      }
    }

    /** The padding scope, then the keyed hash of everything, with the time folded into its last four bytes. */
    method FinishStore(c: Context, hmac: seq<byte> -> seq<byte>, time: seq<byte>)
      requires data.Length >= 43 && |time| == 4 && (forall b :: |hmac(b)| == 32)
      requires offset <= 514 && StoreAll(View(), Padding(offset), c).Some?
      modifies this, data
      ensures var d := StoreAll(old(View()), Padding(old(offset)), c).value.data;
              |d| == data.Length && data[..] == Patch(d, 11, Stamp(hmac(d), time))
    {
      hide StoreAll;
      DoAll(Padding(offset), c);
      var hash := hmac(data[..]);
      WriteAt(11, Stamp(hash, time));
    }
  }

  function Stamp(hash: seq<byte>, time: seq<byte>): (r: seq<byte>)
    requires |hash| == 32 && |time| == 4
    ensures |r| == 32
  {
    hash[..28] + [XorByte(hash[28], time[0]), XorByte(hash[29], time[1]), XorByte(hash[30], time[2]),
                  XorByte(hash[31], time[3])]
  }

  lemma {:induction false} StoreSplit(s: Store, a: seq<Op>, b: seq<Op>, c: Context)
    ensures StoreAll(s, a + b, c) ==
            if StoreAll(s, a, c).None? then None else StoreAll(StoreAll(s, a, c).value, b, c)
    decreases |a|
  {
    hide StoreOp;
    if a == [] {
      assert a + b == b;
    } else {
      assert (a + b)[1..] == a[1..] + b;
      if StoreOp(s, a[0], c).Some? {
        StoreSplit(StoreOp(s, a[0], c).value, a[1..], b, c);
      }
    }
  }

  method CalcLength(ops: seq<Op>, c: Context) returns (r: Option<nat>)
    ensures r == Length(ops, c)
  {
    hide MeasureOp;
    var counter := new TlsHelloCalcLength();
    assert ops[0..] == ops;
    for i := 0 to |ops|
      invariant MeasureAll(counter.View(), ops[i..], c) == MeasureAll(START, ops, c)
    {
      assert ops[i..][1..] == ops[i + 1..];
      counter.DoOp(ops[i], c);
    }
    r := counter.FinishLength(c);
  }

  /** generate_header: both passes; where the source stops on a rejected list the result is None. */
  method GenerateHeader(ops: seq<Op>, c: Context, hmac: seq<byte> -> seq<byte>, time: seq<byte>)
    returns (r: Option<seq<byte>>)
    requires |time| == 4 && (forall b :: |hmac(b)| == 32)
    ensures r.Some? <==> Length(ops, c).Some?
    ensures r.Some? ==> |r.value| == 517 && StoreAll(Store(Zeros(517), 0, []), Full(ops, c), c).Some?
    ensures r.Some? ==>
              var d := StoreAll(Store(Zeros(517), 0, []), Full(ops, c), c).value.data;
              |d| == 517 && r.value == Patch(d, 11, Stamp(hmac(d), time))
  {
    hide Stamp;
    hide StoreAll;
    hide StoreOp;
    hide MeasureAll;
    hide MeasureOp;
    hide RenderAll;
    var length := CalcLength(ops, c);
    if length.None? {
      return None;
    }
    HelloIsRendered(ops, c, Zeros(517));
    StoreSplit(Store(Zeros(517), 0, []), ops, Padding(MeasureAll(START, ops, c).size), c);
    StoredSize(ops, c);
    var storer := new TlsHelloStore(length.value);
    storer.DoAll(ops, c);
    storer.FinishStore(c, hmac, time);
    r := Some(storer.data[..]);
  }

  /** Both passes arrive at the same offset. */
  lemma StoredSize(ops: seq<Op>, c: Context)
    requires Length(ops, c).Some? && StoreAll(Store(Zeros(517), 0, []), ops, c).Some?
    ensures StoreAll(Store(Zeros(517), 0, []), ops, c).value.offset == MeasureAll(START, ops, c).size
  {
    hide StoreOp;
    hide MeasureOp;
    hide Render;
    var s := Store(Zeros(517), 0, []);
    assert Holds(s.data, 0, [], [[]]);
    AllAgree(START, s, [[]], ops, c);
  }
}
