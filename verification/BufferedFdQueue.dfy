/** The sleep and wake-up protocol around the ring: a wait flag and an eventfd (BufferedFdQueue of
    benchmark/bench_queue.cpp). The full fences on both sides make the accesses to the flag and to the
    published index appear in one order, so the model interleaves single accesses. */
module BufferedFdQueue {
  import opened BufferQueue

  /** The writer: outside, between its publish and its look at the flag, or about to write to the eventfd. */
  datatype WriterAt = Outside | Published | Waking

  /** The reader: awake, about to look once more with the flag set, at its blocking read, or about to clear the
      flag. */
  datatype ReaderAt = Awake | Checking | Blocked | Clearing

  datatype System = System(ring: Ring, h: History, writer: WriterAt, reader: ReaderAt, waitFlag: bool, fd: nat)

  datatype Act =
    | Put(value: int) | LookForRoom(seen: nat) | Publish | TestFlag | WriteFd
    | Get | Return | Look(seen: nat) | RaiseFlag | Recheck | ReadFd | ClearFlag

  ghost predicate Enabled(s: System, a: Act)
    requires s.ring.Ok()
  {
    match a
    case Put(v) => s.writer.Outside? && Allowed(s.ring, s.h, PutUnsafe(v))
    case LookForRoom(i) => s.writer.Outside? && Allowed(s.ring, s.h, UpdateWriter(i))
    case Publish => s.writer.Outside?
    case TestFlag => s.writer.Published?
    case WriteFd => s.writer.Waking?
    case Get => s.reader.Awake? && Allowed(s.ring, s.h, GetUnsafe)
    case Return => s.reader.Awake?
    case Look(i) => s.reader.Awake? && Allowed(s.ring, s.h, UpdateReader(i))
    case RaiseFlag => s.reader.Awake?
    case Recheck => s.reader.Checking?
    case ReadFd => s.reader.Blocked? && s.fd > 0
    case ClearFlag => s.reader.Clearing?
  }

  /** The access to the ring that an act makes, if any. */
  ghost function Access(s: System, a: Act): seq<Step> {
    match a
    case Put(v) => [PutUnsafe(v)]
    case LookForRoom(i) => [UpdateWriter(i)]
    case Publish => [FlushWriter]
    case Get => [GetUnsafe]
    case Return => [FlushReader]
    case Look(i) => [UpdateReader(i)]
    case Recheck => [UpdateReader(s.h.published)]
    case _ => []
  }

  ghost function Touched(s: System, a: Act): (t: System)
    requires s.ring.Ok()
    ensures t.ring.Ok()
  {
    var acc := Access(s, a);
    if acc == [] then s else s.(ring := Do(s.ring, acc[0]), h := Note(s.ring, s.h, acc[0]))
  }

  ghost function Apply(s: System, a: Act): (t: System)
    requires s.ring.Ok()
    ensures t.ring.Ok()
  {
    var t := Touched(s, a);
    match a
    case Publish => t.(writer := Published)
    case TestFlag => t.(writer := if t.waitFlag then Waking else Outside)
    case WriteFd => t.(writer := Outside, fd := t.fd + 1)
    case RaiseFlag => t.(reader := Checking, waitFlag := true)
    case Recheck => t.(reader := if t.ring.ReaderReady() != 0 then Clearing else Blocked)
    case ReadFd => t.(reader := Checking, fd := 0)
    case ClearFlag => t.(reader := Awake, waitFlag := false)
    case _ => t
  }

  /** A published value has not been read. */
  ghost predicate Unread(s: System) { |s.h.got| < s.h.published }

  ghost predicate Safe(s: System) {
    Represents(s.ring, s.h) && s.waitFlag == !s.reader.Awake? &&
    (s.reader.Blocked? ==> s.ring.ReaderEmpty()) && (s.reader.Clearing? ==> !s.ring.ReaderEmpty()) &&
    (s.reader.Blocked? && Unread(s) ==> s.fd > 0 || !s.writer.Outside?)
  }

  lemma TouchKeeps(s: System, a: Act)
    requires Represents(s.ring, s.h) && Enabled(s, a)
    ensures Represents(Touched(s, a).ring, Touched(s, a).h)
  {
    assert s.ring.Ok();
    hide Represents;
    hide Do;
    hide Note;
    var acc := Access(s, a);
    if acc != [] {
      assert Allowed(s.ring, s.h, acc[0]) by { PublishedSeen(s); }
      StepKeeps(s.ring, s.h, acc[0]);
    }
  }

  lemma PublishedSeen(s: System)
    requires Represents(s.ring, s.h)
    ensures s.h.seenWrites <= s.h.published
  {}

  lemma {:induction false} ActKeeps(s: System, a: Act)
    requires Safe(s) && Enabled(s, a)
    ensures Safe(Apply(s, a))
  {
    TouchKeeps(s, a);
    var t := Touched(s, a);
    ReadyMeans(s.ring, s.h);
    ReadyMeans(t.ring, t.h);
    hide Represents;
  }

  // ------------------------------------------------------------ runs

  ghost predicate EnabledRun(s: System, acts: seq<Act>)
    requires s.ring.Ok()
    decreases |acts|
  {
    acts == [] || (Enabled(s, acts[0]) && EnabledRun(Apply(s, acts[0]), acts[1..]))
  }

  ghost function Run(s: System, acts: seq<Act>): (t: System)
    requires s.ring.Ok()
    ensures t.ring.Ok()
    decreases |acts|
  {
    if acts == [] then s else Run(Apply(s, acts[0]), acts[1..])
  }

  lemma {:induction false} RunSafe(s: System, acts: seq<Act>)
    requires Safe(s) && EnabledRun(s, acts)
    ensures Safe(Run(s, acts))
    decreases |acts|
  {
    assert s.ring.Ok();
    hide Safe;
    hide Apply;
    hide Enabled;
    if acts == [] {
    } else {
      ActKeeps(s, acts[0]);
      RunSafe(Apply(s, acts[0]), acts[1..]);
    }
  }

  ghost function Initial(slots: seq<int>): System {
    System(Ring(slots, 0, 0, 0, 0, 0, 0), EMPTY, Outside, Awake, false, 0)
  }

  /** In every interleaving, a reader at its blocking read with a published value unread will not stay there: the
      counter is positive, or the writer is still between its publish and its write. What has been read is
      always the beginning of what was put. */
  lemma NoLostWakeup(slots: seq<int>, acts: seq<Act>)
    requires |slots| == SIZE && EnabledRun(Initial(slots), acts)
    ensures var s := Run(Initial(slots), acts);
            (s.reader.Blocked? && Unread(s) ==> s.fd > 0 || !s.writer.Outside?) && s.h.got <= s.h.put
  {
    hide Apply;
    hide Enabled;
    hide Run;
    RunSafe(Initial(slots), acts);
  }

  /** While such a reader waits on an empty counter only the writer can act, and after at most two of its acts the
      counter is positive. */
  lemma WokenWithinTwo(s: System, a: Act, b: Act)
    requires Safe(s) && s.reader.Blocked? && Unread(s) && s.fd == 0 && Enabled(s, a)
    ensures Apply(s, a).fd > 0 || (Apply(s, a).writer.Waking? && (Enabled(Apply(s, a), b) ==> Apply(Apply(s, a), b).fd > 0))
  {
    hide Represents;
    hide Do;
    hide Note;
  }

  /** A reader that has been woken while a value is unread leaves the loop with that value ready. */
  lemma WokenReaderProceeds(s: System)
    requires Safe(s) && s.reader.Blocked? && Unread(s) && s.fd > 0
    ensures Enabled(s, ReadFd) && Enabled(Apply(s, ReadFd), Recheck)
    ensures var t := Apply(Apply(s, ReadFd), Recheck);
            t.reader.Clearing? && t.ring.ReaderReady() == s.h.published - |s.h.got|
  {
    var u := Apply(s, ReadFd);
    ActKeeps(s, ReadFd);
    TouchKeeps(u, Recheck);
    var t := Touched(u, Recheck);
    ReadyMeans(t.ring, t.h);
    hide Represents;
  }
}
