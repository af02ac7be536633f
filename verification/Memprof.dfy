/** The memory profiler's table of call sites: lock-free insertion by compare-and-swap, and the accounting of live
    blocks (memprof/memprof.cpp). */
module Memprof {

  const WORD := 0x1_0000_0000_0000_0000
  const FACTOR := 0x4372897893428797

  /** get_hash over the first entries of a backtrace. */
  function Hash(h: nat, bt: seq<nat>): nat
    decreases |bt|
  {
    if bt == [] then h else Hash((h * FACTOR + bt[0]) % WORD, bt[1..])
  }

  /** The backtrace that stands for all unknown ones has a non-zero hash, whatever number of entries is hashed. */
  lemma UnknownIsNotZero(n: nat)
    ensures Hash(7, [1] + Nulls(n)) != 0
  {
    var bt := [1] + Nulls(n);
    assert bt[0] == 1 && bt[1..] == Nulls(n);
    var h := (7 * FACTOR + 1) % WORD;
    assert h % 4 == 2;
    StaysTwo(h, n);
  }

  function Nulls(n: nat): (r: seq<nat>)
    ensures |r| == n
  {
    if n == 0 then [] else [0] + Nulls(n - 1)
  }

  lemma {:induction false} StaysTwo(h: nat, n: nat)
    requires h % 4 == 2
    ensures Hash(h, Nulls(n)) % 4 == 2
    decreases n
  {
    if n == 0 {
    } else {
      var m := (h * FACTOR + 0) % WORD;
      assert Nulls(n)[1..] == Nulls(n - 1);
      TimesFactor(h);
      StaysTwo(m, n - 1);
    }
  }

  lemma TimesFactor(h: nat)
    requires h % 4 == 2
    ensures (h * FACTOR + 0) % WORD % 4 == 2
  {
    var q, f := h / 4, FACTOR / 4;
    assert h == 4 * q + 2 && FACTOR == 4 * f + 3;
    TwoTimesThree(q, f);
    LowBits(h * FACTOR);
  }

  lemma Mod4(a: nat, b: nat)
    ensures (4 * a + b) % 4 == b % 4
  {}

  lemma TwoTimesThree(q: nat, f: nat)
    ensures (4 * q + 2) * (4 * f + 3) % 4 == 2
  {
    var w := 4 * f + 3;
    var qw := q * w;
    assert (4 * q + 2) * w == 4 * qw + 2 * w;
    assert 2 * w == 4 * (2 * f + 1) + 2;
    Mod4(qw + 2 * f + 1, 2);
  }

  lemma LowBits(x: nat)
    ensures x % WORD % 4 == x % 4
  {
    var k, r := x / WORD, x % WORD;
    assert x == k * WORD + r;
    Mod4(k * 0x4000_0000_0000_0000, r);
  }

  // ------------------------------------------------------------ probing

  /** The slot `d` places after `s`, going round. */
  function Path(s: nat, d: nat, n: nat): (p: nat)
    requires s < n && d < n
    ensures p < n
  {
    if s + d < n then s + d else s + d - n
  }

  function Dist(s: nat, p: nat, n: nat): (d: nat)
    requires s < n && p < n
    ensures d < n && Path(s, d, n) == p
  {
    if p >= s then p - s else p + n - s
  }

  lemma OnePlace(s: nat, d: nat, n: nat)
    requires s < n && d < n
    ensures Dist(s, Path(s, d, n), n) == d
  {}

  /** Every key is reachable: all slots on its way are taken. */
  ghost predicate Linear(t: seq<nat>) {
    forall p, e :: 0 <= p < |t| && t[p] != 0 && 0 <= e < Dist(t[p] % |t|, p, |t|) ==> t[Path(t[p] % |t|, e, |t|)] != 0
  }

  ghost predicate Unique(t: seq<nat>) {
    forall p, q :: 0 <= p < q < |t| && t[p] != 0 ==> t[p] != t[q]
  }

  /** A search for `h` has passed `d` slots: all taken, by other keys. */
  ghost predicate Passed(t: seq<nat>, h: nat, d: nat)
    requires |t| > 0
  {
    d <= |t| && forall e :: 0 <= e < d ==> t[Path(h % |t|, e, |t|)] != 0 && t[Path(h % |t|, e, |t|)] != h
  }

  /** Slots never lose or change their key. */
  ghost predicate Grows(t: seq<nat>, u: seq<nat>) {
    |t| == |u| && forall p :: 0 <= p < |t| && t[p] != 0 ==> u[p] == t[p]
  }

  /** Taking the first free slot on the way of a key keeps the table sound: no other slot holds the key. */
  lemma InsertKeeps(t: seq<nat>, h: nat, d: nat)
    requires |t| > 0 && Linear(t) && Unique(t) && h != 0 && d < |t| && Passed(t, h, d)
    requires t[Path(h % |t|, d, |t|)] == 0
    ensures var u := t[Path(h % |t|, d, |t|) := h];
            Linear(u) && Unique(u) && Grows(t, u)
  {
    var n := |t|;
    var s := h % n;
    var p := Path(s, d, n);
    var u := t[p := h];
    OnePlace(s, d, n);
    forall q | 0 <= q < n && q != p ensures t[q] != h {
      var e := Dist(s, q, n);
      if e < d {
        assert t[Path(s, e, n)] != h;
      } else {
        assert e != d;
        assert t[q] != 0 && d < Dist(t[q] % n, q, n) ==> t[Path(t[q] % n, d, n)] != 0;
      }
    }
    forall q, e | 0 <= q < n && u[q] != 0 && 0 <= e < Dist(u[q] % n, q, n) ensures u[Path(u[q] % n, e, n)] != 0 {
      if q == p {
        assert t[Path(s, e, n)] != 0;
      } else {
        assert t[Path(t[q] % n, e, n)] != 0;
      }
    }
  }

  lemma GrowthKeepsPassed(t: seq<nat>, u: seq<nat>, h: nat, d: nat)
    requires |t| > 0 && Grows(t, u) && Passed(t, h, d)
    ensures Passed(u, h, d)
  {
    forall e | 0 <= e < d ensures u[Path(h % |u|, e, |u|)] != 0 && u[Path(h % |u|, e, |u|)] != h {
      var p := Path(h % |t|, e, |t|);
      assert t[p] != 0 && t[p] != h;
    }
  }

  // ------------------------------------------------------------ all interleavings

  /** Where a thread is in malloc: probing at place `d`, having seen a free slot there, about to claim it, having
      claimed it but not counted it, or about to account for its block. */
  datatype Thread =
    | Idle
    | Probing(h: nat, d: nat, force: bool, bytes: nat)
    | Seen(h: nat, d: nat, force: bool, bytes: nat)
    | Claiming(h: nat, d: nat, force: bool, bytes: nat)
    | Counting(pos: nat, bytes: nat)
    | Adding(pos: nat, bytes: nat)
    | Aborted

  datatype Block = Block(pos: nat, size: nat)

  /** `answers` records, for every look-up that did not fall back, its hash and the slot it got. */
  datatype State = State(table: seq<nat>, sizes: seq<nat>, count: nat, threads: seq<Thread>, blocks: seq<Block>,
                         answers: seq<(nat, nat)>)

  datatype Step = Malloc(t: nat, h: nat, bytes: nat) | Go(t: nat) | Free(t: nat, block: nat)

  ghost predicate Enabled(s: State, step: Step) {
    step.t < |s.threads| &&
    match step
    case Malloc(t, _, _) => s.threads[t].Idle?
    case Go(t) => !s.threads[t].Idle? && !s.threads[t].Aborted?
    case Free(t, i) => s.threads[t].Idle? && i < |s.blocks|
  }

  function With(s: State, t: nat, th: Thread): State
    requires t < |s.threads|
  {
    s.(threads := s.threads[t := th])
  }

  function Answered(s: State, force: bool, h: nat, pos: nat): State {
    if force then s else s.(answers := s.answers + [(h, pos)])
  }

  /** One load of a slot. A thread that has passed every slot only runs on into the abort of its second wrap. */
  function Load(s: State, t: nat, th: Thread): State
    requires t < |s.threads| && th.Probing? && |s.table| > 0
  {
    var n := |s.table|;
    if th.d >= n then With(s, t, Aborted)
    else
      var p := Path(th.h % n, th.d, n);
      if s.table[p] == 0 then With(s, t, Seen(th.h, th.d, th.force, th.bytes))
      else if s.table[p] == th.h then Answered(With(s, t, Adding(p, th.bytes)), th.force, th.h, p)
      else With(s, t, Probing(th.h, th.d + 1, th.force, th.bytes))
  }

  /** The test of ht_size, with the fall-back to the slot for unknown call sites. */
  function Test(s: State, t: nat, th: Thread, unknown: nat): State
    requires t < |s.threads| && th.Seen?
  {
    if s.count > |s.table| / 2 then
      if th.force then
        if s.count * 10 < |s.table| * 7 then With(s, t, Claiming(th.h, th.d, th.force, th.bytes)) else With(s, t, Aborted)
      else With(s, t, Probing(unknown, 0, true, th.bytes))
    else With(s, t, Claiming(th.h, th.d, th.force, th.bytes))
  }

  function Claim(s: State, t: nat, th: Thread): State
    requires t < |s.threads| && th.Claiming? && |s.table| > 0
  {
    var n := |s.table|;
    if th.d >= n then With(s, t, Aborted)
    else
      var p := Path(th.h % n, th.d, n);
      if s.table[p] == 0
      then Answered(With(s.(table := s.table[p := th.h]), t, Counting(p, th.bytes)), th.force, th.h, p)
      else With(s, t, Probing(th.h, th.d, th.force, th.bytes))
  }

  function AddTo(sizes: seq<nat>, p: nat, n: nat): seq<nat> {
    if p < |sizes| then sizes[p := sizes[p] + n] else sizes
  }

  function Without(bs: seq<Block>, i: nat): seq<Block>
    requires i < |bs|
  {
    bs[..i] + bs[i + 1..]
  }

  ghost function Apply(s: State, step: Step, unknown: nat): State
    requires Enabled(s, step) && |s.table| > 0
  {
    match step
    case Malloc(t, h, bytes) => With(s, t, Probing(h, 0, false, bytes))
    case Free(t, i) =>
      var b := s.blocks[i];
      if b.pos >= |s.sizes| || s.sizes[b.pos] < b.size then With(s, t, Aborted)
      else s.(sizes := s.sizes[b.pos := s.sizes[b.pos] - b.size], blocks := Without(s.blocks, i))
    case Go(t) =>
      match s.threads[t]
      case Probing(_, _, _, _) => Load(s, t, s.threads[t])
      case Seen(_, _, _, _) => Test(s, t, s.threads[t], unknown)
      case Claiming(_, _, _, _) => Claim(s, t, s.threads[t])
      case Counting(pos, bytes) => With(s.(count := s.count + 1), t, Adding(pos, bytes))
      case Adding(pos, bytes) =>
        With(s.(sizes := AddTo(s.sizes, pos, bytes), blocks := s.blocks + [Block(pos, bytes)]), t, Idle)
      case _ => s
  }

  /** The bytes of the live blocks of a slot. */
  function SumAt(bs: seq<Block>, p: nat): nat {
    if bs == [] then 0 else SumAt(bs[..|bs| - 1], p) + if bs[|bs| - 1].pos == p then bs[|bs| - 1].size else 0
  }

  ghost predicate ThreadOk(t: seq<nat>, th: Thread)
    requires |t| > 0
  {
    match th
    case Probing(h, d, _, _) => Passed(t, h, d)
    case Seen(h, d, _, _) => Passed(t, h, d)
    case Claiming(h, d, _, _) => Passed(t, h, d)
    case Counting(pos, _) => pos < |t|
    case Adding(pos, _) => pos < |t|
    case _ => true
  }

  ghost predicate TableOk(s: State) {
    |s.table| > 0 && Linear(s.table) && Unique(s.table) &&
    (forall i :: 0 <= i < |s.threads| ==> ThreadOk(s.table, s.threads[i])) &&
    (forall i :: 0 <= i < |s.answers| && s.answers[i].0 != 0 ==>
                   s.answers[i].1 < |s.table| && s.table[s.answers[i].1] == s.answers[i].0)
  }

  /** Each slot's size is the sum of its live blocks. */
  ghost predicate Balanced(s: State) {
    |s.sizes| == |s.table| &&
    (forall i :: 0 <= i < |s.blocks| ==> s.blocks[i].pos < |s.sizes|) &&
    forall p :: 0 <= p < |s.sizes| ==> s.sizes[p] == SumAt(s.blocks, p)
  }

  lemma ThreadGrows(t: seq<nat>, u: seq<nat>, th: Thread)
    requires |t| > 0 && Grows(t, u) && ThreadOk(t, th)
    ensures ThreadOk(u, th)
  {
    match th
    case Probing(h, d, _, _) => GrowthKeepsPassed(t, u, h, d);
    case Seen(h, d, _, _) => GrowthKeepsPassed(t, u, h, d);
    case Claiming(h, d, _, _) => GrowthKeepsPassed(t, u, h, d);
    case _ =>
  }

  lemma SetThread(s: State, t: nat, th: Thread)
    requires TableOk(s) && t < |s.threads| && ThreadOk(s.table, th)
    ensures TableOk(With(s, t, th))
  {
    hide Linear;
    hide Unique;
    hide ThreadOk;
  }

  lemma AnswerKeeps(s: State, force: bool, h: nat, p: nat)
    requires TableOk(s) && (h != 0 ==> p < |s.table| && s.table[p] == h)
    ensures TableOk(Answered(s, force, h, p))
  {
    hide Linear;
    hide Unique;
    hide ThreadOk;
  }

  lemma LoadKeeps(s: State, t: nat)
    requires TableOk(s) && t < |s.threads| && s.threads[t].Probing?
    ensures TableOk(Load(s, t, s.threads[t])) && Grows(s.table, Load(s, t, s.threads[t]).table)
  {
    var th := s.threads[t];
    var n := |s.table|;
    assert ThreadOk(s.table, th);
    if th.d < n {
      var p := Path(th.h % n, th.d, n);
      if s.table[p] == 0 {
        SetThread(s, t, Seen(th.h, th.d, th.force, th.bytes));
      } else if s.table[p] == th.h {
        SetThread(s, t, Adding(p, th.bytes));
        AnswerKeeps(With(s, t, Adding(p, th.bytes)), th.force, th.h, p);
      } else {
        assert ThreadOk(s.table, Probing(th.h, th.d + 1, th.force, th.bytes));
        SetThread(s, t, Probing(th.h, th.d + 1, th.force, th.bytes));
      }
    } else {
      SetThread(s, t, Aborted);
    }
    hide TableOk;
  }

  lemma TestKeeps(s: State, t: nat, unknown: nat)
    requires TableOk(s) && t < |s.threads| && s.threads[t].Seen?
    ensures TableOk(Test(s, t, s.threads[t], unknown)) && Grows(s.table, Test(s, t, s.threads[t], unknown).table)
  {
    var th := s.threads[t];
    assert ThreadOk(s.table, th);
    SetThread(s, t, Claiming(th.h, th.d, th.force, th.bytes));
    SetThread(s, t, Aborted);
    SetThread(s, t, Probing(unknown, 0, true, th.bytes));
    hide TableOk;
  }

  lemma TableGrows(s: State, u: seq<nat>)
    requires TableOk(s) && Grows(s.table, u) && Linear(u) && Unique(u)
    ensures TableOk(s.(table := u))
  {
    hide Linear;
    hide Unique;
    forall i | 0 <= i < |s.threads| ensures ThreadOk(u, s.threads[i]) {
      ThreadGrows(s.table, u, s.threads[i]);
    }
    hide ThreadOk;
  }

  lemma ClaimKeeps(s: State, t: nat)
    requires TableOk(s) && t < |s.threads| && s.threads[t].Claiming?
    ensures TableOk(Claim(s, t, s.threads[t])) && Grows(s.table, Claim(s, t, s.threads[t]).table)
  {
    var th := s.threads[t];
    var n := |s.table|;
    assert ThreadOk(s.table, th);
    if th.d >= n {
      SetThread(s, t, Aborted);
    } else {
      var p := Path(th.h % n, th.d, n);
      if s.table[p] != 0 {
        SetThread(s, t, Probing(th.h, th.d, th.force, th.bytes));
      } else {
        var u := s.table[p := th.h];
        if th.h != 0 {
          InsertKeeps(s.table, th.h, th.d);
        } else {
          assert u == s.table;
        }
        TableGrows(s, u);
        var v := s.(table := u);
        SetThread(v, t, Counting(p, th.bytes));
        AnswerKeeps(With(v, t, Counting(p, th.bytes)), th.force, th.h, p);
      }
    }
    hide TableOk;
  }

  lemma {:induction false} SumWithout(bs: seq<Block>, i: nat, p: nat)
    requires i < |bs|
    ensures SumAt(bs, p) == SumAt(Without(bs, i), p) + if bs[i].pos == p then bs[i].size else 0
  {
    var n := |bs| - 1;
    if i == n {
      assert Without(bs, i) == bs[..n];
    } else {
      SumWithout(bs[..n], i, p);
      assert Without(bs, i)[..n - 1] == Without(bs[..n], i);
      assert Without(bs, i)[n - 1] == bs[n];
    }
  }

  lemma FreeKeeps(s: State, step: Step, unknown: nat)
    requires TableOk(s) && Balanced(s) && Enabled(s, step) && step.Free?
    ensures var b := s.blocks[step.block]; b.pos < |s.sizes| && s.sizes[b.pos] >= b.size
    ensures TableOk(Apply(s, step, unknown)) && Balanced(Apply(s, step, unknown))
    ensures Apply(s, step, unknown).table == s.table
  {
    hide Linear;
    hide Unique;
    hide ThreadOk;
    var i := step.block;
    var b := s.blocks[i];
    SumWithout(s.blocks, i, b.pos);
    forall p | 0 <= p < |s.sizes| && p != b.pos ensures s.sizes[p] == SumAt(Without(s.blocks, i), p) {
      SumWithout(s.blocks, i, p);
    }
    hide SumAt;
  }

  lemma AddKeeps(s: State, t: nat, pos: nat, bytes: nat)
    requires TableOk(s) && Balanced(s) && t < |s.threads| && pos < |s.table|
    ensures var u := With(s.(sizes := AddTo(s.sizes, pos, bytes), blocks := s.blocks + [Block(pos, bytes)]), t, Idle);
            TableOk(u) && Balanced(u)
  {
    hide Linear;
    hide Unique;
    var bs := s.blocks + [Block(pos, bytes)];
    assert bs[..|s.blocks|] == s.blocks;
    assert ThreadOk(s.table, Idle);
    hide ThreadOk;
  }

  lemma CountKeeps(s: State, t: nat, pos: nat, bytes: nat)
    requires TableOk(s) && t < |s.threads| && s.threads[t] == Counting(pos, bytes)
    ensures TableOk(With(s.(count := s.count + 1), t, Adding(pos, bytes)))
  {
    hide Linear;
    hide Unique;
    assert ThreadOk(s.table, s.threads[t]);
    assert ThreadOk(s.table, Adding(pos, bytes));
    hide ThreadOk;
  }

  /** Every step of every thread keeps the table sound and the accounts balanced, and no slot ever changes its
      key. Freeing never underflows. */
  lemma StepKeeps(s: State, step: Step, unknown: nat)
    requires TableOk(s) && Balanced(s) && Enabled(s, step)
    ensures TableOk(Apply(s, step, unknown)) && Balanced(Apply(s, step, unknown))
    ensures Grows(s.table, Apply(s, step, unknown).table)
  {
    match step
    case Malloc(t, h, bytes) =>
      SetThread(s, t, Probing(h, 0, false, bytes));
      hide TableOk;
    case Free(t, i) =>
      FreeKeeps(s, step, unknown);
      hide TableOk;
      hide Balanced;
    case Go(t) =>
      match s.threads[t] {
        case Probing(_, _, _, _) => LoadKeeps(s, t); hide TableOk;
        case Seen(_, _, _, _) => TestKeeps(s, t, unknown); hide TableOk;
        case Claiming(_, _, _, _) => ClaimKeeps(s, t); hide TableOk;
        case Counting(pos, bytes) => CountKeeps(s, t, pos, bytes); hide TableOk;
        case Adding(pos, bytes) =>
          assert ThreadOk(s.table, s.threads[t]);
          AddKeeps(s, t, pos, bytes);
          hide TableOk;
      }
  }

  ghost predicate EnabledRun(s: State, steps: seq<Step>, unknown: nat)
    requires |s.table| > 0
    decreases |steps|
  {
    steps == [] ||
    (Enabled(s, steps[0]) && |Apply(s, steps[0], unknown).table| > 0 &&
     EnabledRun(Apply(s, steps[0], unknown), steps[1..], unknown))
  }

  ghost function Run(s: State, steps: seq<Step>, unknown: nat): State
    requires |s.table| > 0 && EnabledRun(s, steps, unknown)
    decreases |steps|
  {
    if steps == [] then s else Run(Apply(s, steps[0], unknown), steps[1..], unknown)
  }

  lemma {:induction false} RunKeeps(s: State, steps: seq<Step>, unknown: nat)
    requires TableOk(s) && Balanced(s) && EnabledRun(s, steps, unknown)
    ensures var r := Run(s, steps, unknown); TableOk(r) && Balanced(r) && Grows(s.table, r.table)
    decreases |steps|
  {
    assert |s.table| > 0;
    hide TableOk;
    hide Balanced;
    hide Apply;
    hide Enabled;
    if steps == [] {
    } else {
      StepKeeps(s, steps[0], unknown);
      RunKeeps(Apply(s, steps[0], unknown), steps[1..], unknown);
    }
  }

  function Fresh(n: nat, threads: nat): State {
    State(seq(n, i => 0), seq(n, i => 0), 0, seq(threads, i => Idle), [], [])
  }

  /** In every interleaving from the start: a non-zero hash owns at most one slot, all look-ups of it that did not
      fall back got that slot, and each slot's size is the sum of its live blocks. */
  lemma EveryInterleaving(n: nat, threads: nat, steps: seq<Step>, unknown: nat)
    requires n > 0 && EnabledRun(Fresh(n, threads), steps, unknown)
    ensures var r := Run(Fresh(n, threads), steps, unknown);
            |r.table| == |r.sizes| == n && Unique(r.table) &&
            (forall i, j :: 0 <= i < j < |r.answers| && r.answers[i].0 == r.answers[j].0 != 0 ==>
                              r.answers[i].1 == r.answers[j].1) &&
            (forall p :: 0 <= p < n ==> r.sizes[p] == SumAt(r.blocks, p))
  {
    hide EnabledRun;
    hide Run;
    hide Linear;
    var s := Fresh(n, threads);
    assert Linear(s.table) by { NothingTaken(s.table); }
    RunKeeps(s, steps, unknown);
    hide SumAt;
  }

  lemma NothingTaken(t: seq<nat>)
    requires forall p :: 0 <= p < |t| ==> t[p] == 0
    ensures Linear(t)
  {}

  // ------------------------------------------------------------ one thread

  function Filled(t: seq<nat>): nat {
    if t == [] then 0 else Filled(t[..|t| - 1]) + if t[|t| - 1] != 0 then 1 else 0
  }

  lemma {:induction false} FillOne(t: seq<nat>, p: nat, h: nat)
    requires p < |t| && t[p] == 0 && h != 0
    ensures Filled(t[p := h]) == Filled(t) + 1
  {
    var n := |t| - 1;
    if p == n {
      assert t[p := h][..n] == t[..n];
    } else {
      assert t[p := h][..n] == t[..n][p := h];
      FillOne(t[..n], p, h);
    }
  }

  lemma {:induction false} FullTable(t: seq<nat>)
    requires forall p :: 0 <= p < |t| ==> t[p] != 0
    ensures Filled(t) == |t|
  {
    if t == [] {
    } else {
      FullTable(t[..|t| - 1]);
    }
  }

  /** A search that has passed every slot has seen a full table. */
  lemma PassedAll(t: seq<nat>, h: nat)
    requires |t| > 0 && Passed(t, h, |t|)
    ensures Filled(t) == |t|
  {
    forall p | 0 <= p < |t| ensures t[p] != 0 {
      var e := Dist(h % |t|, p, |t|);
      assert t[Path(h % |t|, e, |t|)] != 0;
    }
    FullTable(t);
  }

  class Table {
    const hashes: array<nat>
    const unknown: nat
    var count: nat

    /** At most half the slots and two more are ever taken; the last one only by unknown call sites. */
    ghost predicate Valid()
      reads this, hashes
    {
      var n := hashes.Length;
      n > 5 && unknown != 0 && Linear(hashes[..]) && Unique(hashes[..]) && Filled(hashes[..]) <= count &&
      count <= n / 2 + 2 && (unknown !in hashes[..] ==> count <= n / 2 + 1)
    }

    constructor (n: nat, unknown: nat)
      requires n > 5 && unknown != 0
      ensures Valid() && fresh(hashes) && hashes.Length == n && count == 0 && this.unknown == unknown
    {
      hashes := new nat[n](i => 0);
      this.unknown, count := unknown, 0;
      new;
      NothingTaken(hashes[..]);
      EmptyTable(hashes[..]);
    }

    /** get_ht_pos run alone: it terminates, no assertion fails, and the slot returned holds the hash asked for, or
        the hash for unknown call sites once half the slots are taken. */
    method GetHtPos(h: nat, force: bool) returns (pos: nat)
      requires Valid() && (force ==> h == unknown)
      modifies this, hashes
      ensures Valid() && pos < hashes.Length && Grows(old(hashes[..]), hashes[..])
      ensures h != 0 && h in old(hashes[..]) ==> hashes[pos] == h && hashes[..] == old(hashes[..])
      ensures hashes[pos] == h || (old(count) > hashes.Length / 2 && hashes[pos] == unknown)
      decreases !force
    {
      var n := hashes.Length;
      var s := h % n;
      var d := 0;
      pos := s;
      while true
        invariant d <= n && count == old(count) && hashes[..] == old(hashes[..])
        invariant pos == if d == n then s else Path(s, d, n)
        invariant Passed(hashes[..], h, d)
        decreases n - d
      {
        assert d < n by {
          if d == n { PassedAll(hashes[..], h); }
        }
        ghost var t := hashes[..];
        if hashes[pos] == 0 {
          NotThere(t, h, d);
          if count > n / 2 {
            if force {
              assert count * 10 < n * 7;
            } else {
              pos := GetHtPos(unknown, true);
              return;
            }
          }
          Insert(h, d, pos);
          return;
        } else if hashes[pos] == h {
          return;
        }
        assert t[Path(s, d, n)] == hashes[pos];
        d := d + 1;
        pos := pos + 1;
        if pos == n {
          pos := 0;
        }
      }
    }

    /** The compare-and-swap that succeeds, and the count. */
    method Insert(h: nat, d: nat, pos: nat)
      requires Valid() && d < hashes.Length && pos == Path(h % hashes.Length, d, hashes.Length) && hashes[pos] == 0
      requires Passed(hashes[..], h, d)
      requires count <= hashes.Length / 2 || (h == unknown && unknown !in hashes[..])
      modifies this, hashes
      ensures Valid() && hashes[..] == old(hashes[..])[pos := h] && count == old(count) + 1
      ensures Grows(old(hashes[..]), hashes[..])
    {
      ghost var t := hashes[..];
      hashes[pos] := h;
      count := count + 1;
      assert hashes[..] == t[pos := h];
      if h != 0 {
        InsertKeeps(t, h, d);
        FillOne(t, pos, h);
      } else {
        assert hashes[..] == t;
      }
      assert unknown in t ==> unknown in hashes[..] by {
        if unknown in t {
          var i :| 0 <= i < |t| && t[i] == unknown;
          assert hashes[..][i] == unknown;
        }
      }
      assert h == unknown ==> hashes[..][pos] == unknown;
    }
  }

  lemma {:induction false} EmptyTable(t: seq<nat>)
    requires forall p :: 0 <= p < |t| ==> t[p] == 0
    ensures Filled(t) == 0
  {
    if t == [] {
    } else {
      EmptyTable(t[..|t| - 1]);
    }
  }

  /** A free slot on the way of a key means that the key is in no slot. */
  lemma NotThere(t: seq<nat>, h: nat, d: nat)
    requires |t| > 0 && Linear(t) && d < |t| && Passed(t, h, d) && t[Path(h % |t|, d, |t|)] == 0
    ensures h != 0 ==> h !in t
  {
    var n := |t|;
    var s := h % n;
    forall q | 0 <= q < n && h != 0 ensures t[q] != h {
      var e := Dist(s, q, n);
      if e < d {
        assert t[Path(s, e, n)] != h;
      } else {
        assert t[q] != 0 && d < Dist(t[q] % n, q, n) ==> t[Path(t[q] % n, d, n)] != 0;
      }
    }
  }
}
