/** The single-producer single-consumer ring of benchmark/bench_queue.cpp: 32-bit indices that wrap, published
    and cached separately on each side. */
module BufferQueue {
  const SIZE := 1024
  const WRAP := 0x1_0000_0000

  /** The fields of BufferQueue: the slots, the two published indices and the four local ones. */
  datatype Ring = Ring(slots: seq<int>, writerI: nat, readerI: nat, putI: nat, seenReadI: nat,
                       getI: nat, seenWriteI: nat)
  {
    predicate Ok() {
      |slots| == SIZE && writerI < WRAP && readerI < WRAP && putI < WRAP && seenReadI < WRAP && getI < WRAP &&
      seenWriteI < WRAP
    }
    predicate ReaderEmpty() { seenWriteI == getI }
    predicate WriterEmpty() { putI == (seenReadI + SIZE) % WRAP }
    function ReaderReady(): int { Signed((seenWriteI - getI) % WRAP) }
    function WriterReady(): int { Signed((seenReadI + SIZE - putI) % WRAP) }
  }

  /** static_cast<int> of a 32-bit value. */
  function Signed(x: int): int { if x < 0x8000_0000 then x else x - WRAP }

  /** One access of one thread. A load of the other side's index may be stale: it gives any value between the
      cached and the published one. */
  datatype Step =
    | PutUnsafe(value: int)
    | FlushWriter
    | UpdateWriter(seen: nat)
    | GetUnsafe
    | FlushReader
    | UpdateReader(seen: nat)

  function Do(r: Ring, s: Step): (t: Ring)
    requires r.Ok()
    ensures t.Ok()
  {
    match s
    case PutUnsafe(v) => r.(slots := r.slots[r.putI % SIZE := v], putI := (r.putI + 1) % WRAP)
    case FlushWriter => r.(writerI := r.putI)
    case UpdateWriter(i) => r.(seenReadI := i % WRAP)
    case GetUnsafe => r.(getI := (r.getI + 1) % WRAP)
    case FlushReader => r.(readerI := r.getI)
    case UpdateReader(i) => r.(seenWriteI := i % WRAP)
  }

  /** What a GetUnsafe returns. */
  function Front(r: Ring): int
    requires r.Ok()
  {
    r.slots[r.getI % SIZE]
  }

  class Queue {
    const slots: array<int>
    var writerI: nat
    var readerI: nat
    var putI: nat
    var seenReadI: nat
    var getI: nat
    var seenWriteI: nat

    ghost function View(): Ring
      reads this, slots
    {
      Ring(slots[..], writerI, readerI, putI, seenReadI, getI, seenWriteI)
    }

    constructor ()
      ensures View().Ok() && fresh(slots)
      ensures View() == Ring(slots[..], 0, 0, 0, 0, 0, 0)
    {
      slots := new int[SIZE];
      writerI, readerI, putI, seenReadI, getI, seenWriteI := 0, 0, 0, 0, 0, 0;
    }

    method PutUnsafe(v: int)
      requires View().Ok()
      modifies this, slots
      ensures View().Ok() && View() == Do(old(View()), Step.PutUnsafe(v))
    {
      slots[putI % SIZE] := v;
      putI := (putI + 1) % WRAP;
    }

    method GetUnsafe() returns (v: int)
      requires View().Ok()
      modifies this
      ensures View().Ok() && View() == Do(old(View()), Step.GetUnsafe) && v == Front(old(View()))
    {
      v := slots[getI % SIZE];
      getI := (getI + 1) % WRAP;
    }

    method FlushWriter()
      requires View().Ok()
      modifies this
      ensures View().Ok() && View() == Do(old(View()), Step.FlushWriter)
    {
      writerI := putI;
    }

    method FlushReader()
      requires View().Ok()
      modifies this
      ensures View().Ok() && View() == Do(old(View()), Step.FlushReader)
    {
      readerI := getI;
    }

    method UpdateWriter() returns (ready: int)
      requires View().Ok()
      modifies this
      ensures View().Ok() && View() == Do(old(View()), Step.UpdateWriter(old(readerI))) && ready == View().WriterReady()
    {
      seenReadI := readerI;
      ready := Signed((seenReadI + SIZE - putI) % WRAP);
    }

    method UpdateReader() returns (ready: int)
      requires View().Ok()
      modifies this
      ensures View().Ok() && View() == Do(old(View()), Step.UpdateReader(old(writerI))) && ready == View().ReaderReady()
    {
      seenWriteI := writerI;
      ready := Signed((seenWriteI - getI) % WRAP);
    }

    /** The value is written exactly when there is room; without room the source stops the program. */
    method PutNoflush(v: int) returns (done: bool)
      requires View().Ok()
      modifies this, slots
      ensures var r := old(View());
              var u := if r.WriterEmpty() then Do(r, Step.UpdateWriter(r.readerI)) else r;
              done == (!r.WriterEmpty() || u.WriterReady() != 0) &&
              View() == if done then Do(u, Step.PutUnsafe(v)) else u
    {
      if putI != (seenReadI + SIZE) % WRAP {
        PutUnsafe(v);
        return true;
      }
      var ready := UpdateWriter();
      if ready == 0 {
        return false;
      }
      PutUnsafe(v);
      done := true;
    }
  }

  // ------------------------------------------------------------ the unbounded queue behind the ring

  /** All values put and all values got, and the true counts behind the published and cached indices. */
  datatype History = History(put: seq<int>, got: seq<int>, published: nat, returned: nat,
                             seenReads: nat, seenWrites: nat)

  ghost predicate Allowed(r: Ring, h: History, s: Step)
    requires r.Ok()
  {
    match s
    case PutUnsafe(_) => !r.WriterEmpty()
    case GetUnsafe => !r.ReaderEmpty()
    case UpdateWriter(i) => h.seenReads <= i <= h.returned
    case UpdateReader(i) => h.seenWrites <= i <= h.published
    case FlushWriter => true
    case FlushReader => true
  }

  ghost function Note(r: Ring, h: History, s: Step): History
    requires r.Ok()
  {
    match s
    case PutUnsafe(v) => h.(put := h.put + [v])
    case GetUnsafe => h.(got := h.got + [Front(r)])
    case FlushWriter => h.(published := |h.put|)
    case FlushReader => h.(returned := |h.got|)
    case UpdateWriter(i) => h.(seenReads := i)
    case UpdateReader(i) => h.(seenWrites := i)
  }

  /** Each index is its true count modulo 2^32, the counts are in order and at most SIZE apart, what was got is
      a prefix of what was put, and every unread value is in its slot. */
  ghost predicate Represents(r: Ring, h: History) {
    r.Ok() && InOrder(h) &&
    r.putI == |h.put| % WRAP && r.getI == |h.got| % WRAP && r.writerI == h.published % WRAP &&
    r.readerI == h.returned % WRAP && r.seenReadI == h.seenReads % WRAP && r.seenWriteI == h.seenWrites % WRAP &&
    h.got == h.put[..|h.got|] &&
    forall k :: |h.got| <= k < |h.put| ==> r.slots[k % SIZE] == h.put[k]
  }

  ghost predicate InOrder(h: History) {
    h.seenReads <= h.returned <= |h.got| <= h.seenWrites <= h.published <= |h.put| <= h.seenReads + SIZE
  }

  lemma SlotOf(c: nat)
    ensures c % WRAP % SIZE == c % SIZE
  {
    var q := c / WRAP;
    assert c == q * WRAP + c % WRAP;
    var t := c % WRAP;
    assert t == t / SIZE * SIZE + t % SIZE;
    assert c == (q * 0x40_0000 + t / SIZE) * SIZE + t % SIZE;
  }

  lemma SlotsDiffer(a: nat, b: nat)
    requires a < b < a + SIZE
    ensures a % SIZE != b % SIZE
  {}

  lemma NextIndex(c: nat)
    ensures (c % WRAP + 1) % WRAP == (c + 1) % WRAP
  {}

  /** Subtraction of wrapped indices gives the true distance. */
  lemma Distance(a: nat, b: nat)
    requires b <= a < b + WRAP
    ensures (a % WRAP - b % WRAP) % WRAP == a - b
  {
    var d := a / WRAP - b / WRAP;
    assert a - b == d * WRAP + (a % WRAP - b % WRAP);
    assert d == 0 || d == 1;
  }

  lemma DistanceWithRoom(a: nat, b: nat)
    requires b <= a + SIZE < b + WRAP
    ensures (a % WRAP + SIZE - b % WRAP) % WRAP == a + SIZE - b
  {
    var d := a / WRAP - b / WRAP;
    assert a + SIZE - b == d * WRAP + (a % WRAP + SIZE - b % WRAP);
    assert -1 <= d <= 1;
  }

  /** The tests the code makes on wrapped, cached indices say what they should about the true queue: exactly how
      many values may be read, or still be put, without another look at the other side. */
  lemma ReadyMeans(r: Ring, h: History)
    requires Represents(r, h)
    ensures r.ReaderReady() == h.seenWrites - |h.got| && (r.ReaderEmpty() <==> h.seenWrites == |h.got|)
    ensures r.WriterReady() == h.seenReads + SIZE - |h.put| && (r.WriterEmpty() <==> |h.put| == h.seenReads + SIZE)
  {
    ReaderDistance(h.seenWrites, |h.got|);
    WriterDistance(h.seenReads, |h.put|);
  }

  lemma ReaderDistance(a: nat, b: nat)
    requires b <= a <= b + SIZE
    ensures Signed((a % WRAP - b % WRAP) % WRAP) == a - b && (a % WRAP == b % WRAP <==> a == b)
  {
    Distance(a, b);
  }

  lemma WriterDistance(a: nat, b: nat)
    requires b <= a + SIZE <= b + SIZE
    ensures Signed((a % WRAP + SIZE - b % WRAP) % WRAP) == a + SIZE - b
    ensures b % WRAP == (a % WRAP + SIZE) % WRAP <==> b == a + SIZE
  {
    DistanceWithRoom(a, b);
  }

  lemma PutKeeps(r: Ring, h: History, v: int)
    requires Represents(r, h) && !r.WriterEmpty()
    ensures Represents(Do(r, PutUnsafe(v)), Note(r, h, PutUnsafe(v)))
    ensures forall k :: |h.got| <= k < |h.put| ==> k % SIZE != r.putI % SIZE
  {
    ReadyMeans(r, h);
    SlotOf(|h.put|);
    NextIndex(|h.put|);
    forall k | |h.got| <= k < |h.put| ensures k % SIZE != r.putI % SIZE {
      SlotsDiffer(k, |h.put|);
    }
  }

  lemma GetKeeps(r: Ring, h: History)
    requires Represents(r, h) && !r.ReaderEmpty()
    ensures Represents(Do(r, GetUnsafe), Note(r, h, GetUnsafe))
    ensures |h.got| < |h.put| && Front(r) == h.put[|h.got|]
  {
    ReadyMeans(r, h);
    SlotOf(|h.got|);
    NextIndex(|h.got|);
  }

  lemma StepKeeps(r: Ring, h: History, s: Step)
    requires Represents(r, h) && Allowed(r, h, s)
    ensures Represents(Do(r, s), Note(r, h, s))
  {
    match s
    case PutUnsafe(v) => PutKeeps(r, h, v);
    case GetUnsafe => GetKeeps(r, h);
    case _ =>
  }

  // ------------------------------------------------------------ runs

  ghost predicate AllowedRun(r: Ring, h: History, ss: seq<Step>)
    requires r.Ok()
    decreases |ss|
  {
    ss == [] || (Allowed(r, h, ss[0]) && AllowedRun(Do(r, ss[0]), Note(r, h, ss[0]), ss[1..]))
  }

  ghost function RunRing(r: Ring, h: History, ss: seq<Step>): (Ring, History)
    requires r.Ok() && AllowedRun(r, h, ss)
    decreases |ss|
  {
    if ss == [] then (r, h) else RunRing(Do(r, ss[0]), Note(r, h, ss[0]), ss[1..])
  }

  function Puts(ss: seq<Step>): seq<int> {
    if ss == [] then [] else (if ss[0].PutUnsafe? then [ss[0].value] else []) + Puts(ss[1..])
  }

  function Gets(ss: seq<Step>): nat {
    if ss == [] then 0 else (if ss[0].GetUnsafe? then 1 else 0) + Gets(ss[1..])
  }

  lemma NoteGrows(r: Ring, h: History, s: Step)
    requires r.Ok()
    ensures var g := Note(r, h, s);
            g.put == h.put + (if s.PutUnsafe? then [s.value] else []) &&
            |g.got| == |h.got| + (if s.GetUnsafe? then 1 else 0) && h.got <= g.got
  {}

  /** Every interleaving: the history is what was put in and got out, and the ring stands for it. */
  lemma {:induction false} RunKeeps(r: Ring, h: History, ss: seq<Step>)
    requires Represents(r, h) && AllowedRun(r, h, ss)
    ensures var (t, g) := RunRing(r, h, ss);
            Represents(t, g) && g.put == h.put + Puts(ss) && |g.got| == |h.got| + Gets(ss) && h.got <= g.got
    decreases |ss|
  {
    assert r.Ok();
    hide *;
    if ss == [] {
      RunEmpty(r, h);
    } else {
      var t, g := Do(r, ss[0]), Note(r, h, ss[0]);
      RunUnfolds(r, h, ss);
      NoteGrows(r, h, ss[0]);
      StepKeeps(r, h, ss[0]);
      RunKeeps(t, g, ss[1..]);
      assert g.put + Puts(ss[1..]) == h.put + Puts(ss);
    }
  }

  lemma RunEmpty(r: Ring, h: History)
    requires r.Ok()
    ensures AllowedRun(r, h, []) && RunRing(r, h, []) == (r, h) && Puts([]) == [] && Gets([]) == 0
  {}

  lemma RunUnfolds(r: Ring, h: History, ss: seq<Step>)
    requires r.Ok() && ss != [] && AllowedRun(r, h, ss)
    ensures var t, g := Do(r, ss[0]), Note(r, h, ss[0]);
            Allowed(r, h, ss[0]) && AllowedRun(t, g, ss[1..]) && RunRing(r, h, ss) == RunRing(t, g, ss[1..])
    ensures Puts(ss) == (if ss[0].PutUnsafe? then [ss[0].value] else []) + Puts(ss[1..])
    ensures Gets(ss) == (if ss[0].GetUnsafe? then 1 else 0) + Gets(ss[1..])
  {
    hide Do;
    hide Note;
    hide Allowed;
  }

  const EMPTY := History([], [], 0, 0, 0, 0)

  /** From the start, for every interleaving: what the reader has got is exactly the beginning of what the writer
      has put, never ahead of what was published. */
  lemma FirstInFirstOut(slots: seq<int>, ss: seq<Step>)
    requires |slots| == SIZE && AllowedRun(Ring(slots, 0, 0, 0, 0, 0, 0), EMPTY, ss)
    ensures var (r, h) := RunRing(Ring(slots, 0, 0, 0, 0, 0, 0), EMPTY, ss);
            Gets(ss) <= h.published <= |Puts(ss)| && h.got == Puts(ss)[..Gets(ss)]
  {
    hide RunRing;
    hide AllowedRun;
    hide Puts;
    hide Gets;
    RunKeeps(Ring(slots, 0, 0, 0, 0, 0, 0), EMPTY, ss);
  }
}
