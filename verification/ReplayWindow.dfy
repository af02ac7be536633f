/** The window of received message identifiers: a sorted array of twice the needed size stands in for a set
    (check_message_id_duplicates of td/mtproto/AuthData.cpp; the set checkers of benchmark/bench_misc.cpp). */
module ReplayWindow {

  /** Status::OK, error 1 and error 2. */
  datatype Verdict = Accepted | Duplicate | VeryOld

  ghost predicate Ascending(w: seq<int>) {
    forall i, j :: 0 <= i < j < |w| ==> w[i] < w[j]
  }

  ghost function Elements(w: seq<int>): set<int> { set x | x in w }

  // ------------------------------------------------------------ the set of the last n identifiers

  ghost predicate IsMin(s: set<int>, m: int) { m in s && forall y :: y in s ==> m <= y }

  lemma {:induction false} MinExists(s: set<int>)
    requires s != {}
    ensures exists m :: IsMin(s, m)
    decreases s
  {
    if forall x :: x !in s {
      assert false;
    }
    var x :| x in s;
    var t := set y | y in s && y < x;
    if t == {} {
      assert forall y :: y in s ==> y !in t;
      assert IsMin(s, x);
    } else {
      MinExists(t);
      var m :| IsMin(t, m);
      assert forall y :: y in s && y !in t ==> y >= x;
      assert IsMin(s, m);
    }
  }

  /** The protocol's rule: refuse what is lower than all of n stored values or equal to one of them, otherwise
      store it and forget the lowest beyond n. */
  ghost function SetCheck(s: set<int>, n: nat, x: int): (set<int>, Verdict) {
    if |s| == n && (forall y :: y in s ==> x < y) then (s, VeryOld)
    else if x in s then (s, Duplicate)
    else (Lowered(s + {x}, n), Accepted)
  }

  ghost function Lowered(t: set<int>, n: nat): set<int> {
    if |t| > n then set y | y in t && !IsMin(t, y) else t
  }

  method Begin(s: set<int>) returns (m: int)
    requires s != {}
    ensures IsMin(s, m)
  {
    MinExists(s);
    m :| m in s && forall y :: y in s ==> m <= y;
  }

  class IdDuplicateCheckerOld {
    var saved: set<int>

    method Check(n: nat, x: int) returns (v: Verdict)
      requires n > 0
      modifies this
      ensures (saved, v) == SetCheck(old(saved), n, x)
    {
      if |saved| == n {
        var oldest := Begin(saved);
        if x < oldest {
          return VeryOld;
        }
      }
      if x in saved {
        return Duplicate;
      }
      saved := saved + {x};
      if |saved| > n {
        var oldest := Begin(saved);
        assert Lowered(saved, n) == saved - {oldest};
        saved := saved - {oldest};
      }
      v := Accepted;
    }
  }

  class IdDuplicateCheckerNew {
    var saved: set<int>

    /** Inserting first and looking afterwards whether the lowest element is the new one gives the same answers
        and the same set. */
    method Check(n: nat, x: int) returns (v: Verdict)
      requires n > 0 && |saved| <= n
      modifies this
      ensures (saved, v) == SetCheck(old(saved), n, x) && |saved| <= n
    {
      var inserted := x !in saved;
      saved := saved + {x};
      if !inserted {
        assert saved == old(saved);
        return Duplicate;
      }
      if |saved| == n + 1 {
        var begin := Begin(saved);
        assert Lowered(saved, n) == saved - {begin};
        saved := saved - {begin};
        if begin == x {
          assert saved == old(saved);
          return VeryOld;
        }
        assert begin in old(saved);
      }
      v := Accepted;
    }
  }

  // ------------------------------------------------------------ the array

  function LowerBound(w: seq<int>, x: int): (k: nat)
    ensures k <= |w|
    ensures k < |w| ==> w[k] >= x
    ensures k > 0 ==> w[k - 1] < x
  {
    if w == [] || w[|w| - 1] < x then |w| else LowerBound(w[..|w| - 1], x)
  }

  function Compacted(w: seq<int>, n: nat): (v: seq<int>)
  {
    if |w| == 2 * n then w[n..] else w
  }

  function Inserted(v: seq<int>, k: nat, x: int): (r: seq<int>)
    requires k <= |v|
    ensures |r| == |v| + 1
  {
    v[..k] + [x] + v[k..]
  }

  function ArrayCheck(w: seq<int>, n: nat, x: int): (seq<int>, Verdict) {
    var v := Compacted(w, n);
    if v == [] || x > v[|v| - 1] then (v + [x], Accepted)
    else if |v| >= n && x < v[0] then (v, VeryOld)
    else
      var k := LowerBound(v, x);
      if k < |v| && v[k] == x then (v, Duplicate) else (Inserted(v, k, x), Accepted)
  }

  class MessageIdDuplicateChecker {
    const maxSize: nat
    const saved: array<int>
    var endPos: nat

    ghost predicate Valid()
      reads this, saved
    {
      maxSize > 0 && saved.Length == 2 * maxSize && endPos <= 2 * maxSize && Ascending(saved[..endPos])
    }

    constructor (maxSize: nat)
      requires maxSize > 0
      ensures Valid() && this.maxSize == maxSize && endPos == 0 && fresh(saved)
    {
      this.maxSize := maxSize;
      saved := new int[2 * maxSize];
      endPos := 0;
    }

    method Check(x: int) returns (v: Verdict)
      requires Valid()
      modifies this, saved
      ensures Valid()
      ensures (saved[..endPos], v) == ArrayCheck(old(saved[..endPos]), maxSize, x)
    {
      hide LowerBound;
      hide Inserted;
      hide Ascending;
      ghost var w := saved[..endPos];
      CheckKeepsOrder(w, maxSize, x);
      Compact();
      ghost var c := saved[..endPos];
      if endPos == 0 || x > saved[endPos - 1] {
        saved[endPos] := x;
        endPos := endPos + 1;
        assert saved[..endPos] == c + [x];
        return Accepted;
      }
      if endPos >= maxSize && x < saved[0] {
        return VeryOld;
      }
      var k := Search(x);
      if saved[k] == x {
        return Duplicate;
      }
      InsertAt(k, x);
      v := Accepted;
    }

    /** Keeps the upper half of a full array. */
    method Compact()
      requires Valid()
      modifies this`endPos, saved
      ensures Valid() && saved[..endPos] == Compacted(old(saved[..endPos]), maxSize) && endPos < 2 * maxSize
    {
      ghost var w := saved[..endPos];
      if endPos == 2 * maxSize {
        for i := 0 to maxSize
          invariant endPos == old(endPos) && Ascending(w)
          invariant forall j :: 0 <= j < i ==> saved[j] == w[maxSize + j]
          invariant forall j :: i <= j < 2 * maxSize ==> saved[j] == w[j]
        {
          saved[i] := saved[maxSize + i];
        }
        endPos := maxSize;
        assert saved[..endPos] == w[maxSize..];
      }
    }

    /** std::lower_bound. */
    method Search(x: int) returns (first: nat)
      requires Valid()
      ensures first == LowerBound(saved[..endPos], x)
    {
      first := 0;
      var len := endPos;
      while len > 0
        invariant 0 <= len && first + len <= endPos
        invariant forall i :: 0 <= i < first ==> saved[..endPos][i] < x
        invariant forall i :: first + len <= i < endPos ==> saved[..endPos][i] >= x
      {
        var half := len / 2;
        var mid := first + half;
        if saved[mid] < x {
          assert saved[..endPos][mid] < x;
          first, len := mid + 1, len - half - 1;
        } else {
          assert saved[..endPos][mid] >= x;
          len := half;
        }
      }
      LowerBoundUnique(saved[..endPos], x, first);
    }

    /** std::copy_backward makes room for the new element. */
    method InsertAt(k: nat, x: int)
      requires saved.Length == 2 * maxSize && k <= endPos < 2 * maxSize
      modifies this`endPos, saved
      ensures endPos == old(endPos) + 1
      ensures saved[..endPos] == Inserted(old(saved[..endPos]), k, x)
    {
      ghost var w := saved[..endPos];
      var i := endPos;
      while i > k
        invariant k <= i <= endPos == old(endPos)
        invariant forall j :: 0 <= j < i ==> saved[j] == w[j]
        invariant forall j :: i < j <= endPos ==> saved[j] == w[j - 1]
      {
        saved[i] := saved[i - 1];
        i := i - 1;
      }
      saved[k] := x;
      endPos := endPos + 1;
      assert saved[..endPos] == w[..k] + [x] + w[k..];
    }
  }

  lemma {:induction false} LowerBoundUnique(w: seq<int>, x: int, k: nat)
    requires k <= |w|
    requires forall i :: 0 <= i < k ==> w[i] < x
    requires forall i :: k <= i < |w| ==> w[i] >= x
    ensures LowerBound(w, x) == k
  {
    if k < |w| {
      LowerBoundUnique(w[..|w| - 1], x, k);
    }
  }

  lemma SliceAscending(w: seq<int>, d: nat)
    requires Ascending(w) && d <= |w|
    ensures Ascending(w[d..])
  {}

  lemma InsertedAscending(v: seq<int>, k: nat, x: int)
    requires Ascending(v) && k <= |v|
    requires k > 0 ==> v[k - 1] < x
    requires k < |v| ==> v[k] > x
    ensures Ascending(Inserted(v, k, x))
  {
    var u := Inserted(v, k, x);
    forall i, j | 0 <= i < j < |u| ensures u[i] < u[j] {
      var a := if i < k then v[i] else if i == k then x else v[i - 1];
      var b := if j < k then v[j] else if j == k then x else v[j - 1];
      assert u[i] == a && u[j] == b;
    }
  }

  lemma CheckKeepsOrder(w: seq<int>, n: nat, x: int)
    requires n > 0 && Ascending(w) && |w| <= 2 * n
    ensures Ascending(ArrayCheck(w, n, x).0) && |ArrayCheck(w, n, x).0| <= 2 * n
  {
    hide Ascending;
    var v := Compacted(w, n);
    assert Ascending(v) by { if |w| == 2 * n { SliceAscending(w, n); } }
    if v == [] || x > v[|v| - 1] {
      InsertedAscending(v, |v|, x);
      assert v + [x] == Inserted(v, |v|, x);
    } else if !(|v| >= n && x < v[0]) {
      var k := LowerBound(v, x);
      if k < |v| && v[k] != x {
        InsertedAscending(v, k, x);
      }
    }
  }

  // ------------------------------------------------------------ the array stands for the set

  /** The newest n entries. */
  function Top(w: seq<int>, n: nat): seq<int> { if |w| <= n then w else w[|w| - n..] }

  lemma {:induction false} SizeOf(w: seq<int>)
    requires Ascending(w)
    ensures |Elements(w)| == |w|
  {
    if w == [] {
    } else {
      var n := |w| - 1;
      SizeOf(w[..n]);
      assert Elements(w) == Elements(w[..n]) + {w[n]};
    }
  }

  lemma LowestFirst(w: seq<int>)
    requires Ascending(w) && w != []
    ensures forall y :: y in Elements(w) ==> w[0] <= y
    ensures Elements(w[1..]) == set y | y in Elements(w) && !IsMin(Elements(w), y)
  {
    assert w[0] in Elements(w);
    assert IsMin(Elements(w), w[0]);
    assert w == [w[0]] + w[1..];
    assert w[0] !in w[1..];
  }

  lemma InsertedElements(v: seq<int>, k: nat, x: int)
    requires k <= |v|
    ensures Elements(Inserted(v, k, x)) == Elements(v) + {x}
  {
    assert v == v[..k] + v[k..];
  }

  /** Adding `x` above the lowest of the newest n adds it to them and pushes that lowest one out. */
  lemma InsertOnTop(v: seq<int>, n: nat, x: int, k: nat)
    requires n > 0 && Ascending(v) && k <= |v|
    requires k > 0 ==> v[k - 1] < x
    requires k < |v| ==> v[k] > x
    requires |v| >= n ==> |v| - n < k
    ensures Elements(Top(Inserted(v, k, x), n)) == Lowered(Elements(Top(v, n)) + {x}, n)
  {
    hide Ascending;
    hide Elements;
    hide IsMin;
    hide Inserted;
    var d := if |v| <= n then 0 else |v| - n;
    var t := v[d..];
    SliceAscending(v, d);
    var u := Inserted(t, k - d, x);
    InsertedElements(t, k - d, x);
    InsertedAscending(t, k - d, x);
    SizeOf(u);
    InsertedHigh(v, k, x, d);
    if |v| >= n {
      LowestFirst(u);
      assert u[1..] == Inserted(v, k, x)[d + 1..];
    }
  }

  lemma InsertedLow(v: seq<int>, k: nat, x: int, d: nat)
    requires k <= d <= |v|
    ensures Inserted(v, k, x)[d + 1..] == v[d..]
  {}

  lemma InsertedHigh(v: seq<int>, k: nat, x: int, d: nat)
    requires d <= k <= |v|
    ensures Inserted(v, k, x)[d..] == Inserted(v[d..], k - d, x)
  {}

  /** An identifier below the newest n leaves them alone. */
  lemma BelowTheTop(v: seq<int>, n: nat, x: int)
    requires n > 0 && Ascending(v) && n <= |v| < 2 * n && x < v[|v| - n]
    ensures ArrayCheck(v, n, x).0[|ArrayCheck(v, n, x).0| - n..] == v[|v| - n..]
    ensures ArrayCheck(v, n, x).1.VeryOld? <==> x < v[0]
  {
    hide Ascending;
    hide LowerBound;
    hide Inserted;
    var d := |v| - n;
    Reaches(v, d);
    BoundBelow(v, x, d);
    InsertedLow(v, LowerBound(v, x), x, d);
  }

  lemma Reaches(v: seq<int>, d: nat)
    requires Ascending(v) && d < |v|
    ensures v[d] <= v[|v| - 1]
  {}

  lemma BoundBelow(v: seq<int>, x: int, d: nat)
    requires Ascending(v) && d < |v| && x < v[d]
    ensures LowerBound(v, x) <= d
  {}

  /** Where `x` is an element, LowerBound finds it. */
  lemma BoundFinds(v: seq<int>, x: int, i: nat)
    requires Ascending(v) && i < |v| && v[i] == x
    ensures LowerBound(v, x) == i
  {}

  ghost predicate Agrees(a: Verdict, s: Verdict) {
    (s.Accepted? ==> a.Accepted?) && (a.VeryOld? ==> s.VeryOld?) && (s.Duplicate? ==> a.Duplicate?)
  }

  /** One step: the newest n entries stay the set, the array accepts all that the set accepts, its "very old"
      implies the set's, and the set's "duplicate" implies the array's. The two differ exactly on identifiers
      below the set but not below the array's bottom. */
  lemma StepSimulates(w: seq<int>, n: nat, x: int)
    requires n > 0 && Ascending(w) && |w| <= 2 * n
    ensures var (u, a) := ArrayCheck(w, n, x);
            var (t, s) := SetCheck(Elements(Top(w, n)), n, x);
            Elements(Top(u, n)) == t && Agrees(a, s) &&
            (a != s <==> |w| >= n && x < Top(w, n)[0] && x >= Compacted(w, n)[0])
  {
    hide LowerBound;
    hide Elements;
    hide SetCheck;
    hide Inserted;
    hide Ascending;
    var v := Compacted(w, n);
    if |w| == 2 * n { SliceAscending(w, n); }
    assert Top(v, n) == Top(w, n);
    assert Compacted(v, n) == v;
    FreshStep(v, n, x);
  }

  ghost predicate Simulates(v: seq<int>, n: nat, x: int)
    requires n > 0
  {
    var (u, a) := ArrayCheck(v, n, x);
    var (t, s) := SetCheck(Elements(Top(v, n)), n, x);
    Elements(Top(u, n)) == t && Agrees(a, s) && (a != s <==> |v| >= n && x < Top(v, n)[0] && x >= v[0])
  }

  lemma FreshStep(v: seq<int>, n: nat, x: int)
    requires n > 0 && Ascending(v) && |v| < 2 * n
    ensures Simulates(v, n, x)
  {
    hide Simulates;
    hide Ascending;
    if v == [] || x > v[|v| - 1] {
      StepAbove(v, n, x);
    } else if |v| >= n && x < v[|v| - n] {
      StepBelow(v, n, x);
    } else {
      StepInside(v, n, x);
    }
  }

  lemma StepAbove(v: seq<int>, n: nat, x: int)
    requires n > 0 && Ascending(v) && |v| < 2 * n && (v == [] || x > v[|v| - 1])
    ensures Simulates(v, n, x)
  {
    hide *;
    if v == [] {
      StepFirst(n, x);
    } else {
      StepLast(v, n, x);
    }
  }

  lemma StepFirst(n: nat, x: int)
    requires n > 0
    ensures Simulates([], n, x)
  {
    InsertOnTop([], n, x, 0);
    InsertedAtEnd([], x);
    SizeOf([]);
    Members([], x);
    hide Elements;
    hide Lowered;
    hide Inserted;
  }

  lemma StepLast(v: seq<int>, n: nat, x: int)
    requires n > 0 && Ascending(v) && v != [] && |v| < 2 * n && x > v[|v| - 1]
    ensures Simulates(v, n, x)
  {
    hide Ascending;
    hide Elements;
    hide Lowered;
    hide LowerBound;
    hide Inserted;
    hide Top;
    InsertOnTop(v, n, x, |v|);
    InsertedAtEnd(v, x);
    TopFacts(v, n, x);
    var d := if |v| <= n then 0 else |v| - n;
    Reaches(v, d);
    if LowerBound(v, x) < |v| { Reaches(v, LowerBound(v, x)); }
    assert ArrayCheck(v, n, x) == (Inserted(v, |v|, x), Accepted);
  }

  lemma StepBelow(v: seq<int>, n: nat, x: int)
    requires n > 0 && Ascending(v) && n <= |v| < 2 * n && x < v[|v| - n]
    ensures Simulates(v, n, x)
  {
    hide Ascending;
    hide Elements;
    hide Lowered;
    hide LowerBound;
    hide Inserted;
    TopFacts(v, n, x);
    BelowTheTop(v, n, x);
  }

  lemma StepInside(v: seq<int>, n: nat, x: int)
    requires n > 0 && Ascending(v) && v != [] && |v| < 2 * n && x <= v[|v| - 1]
    requires |v| >= n ==> x >= v[|v| - n]
    ensures Simulates(v, n, x)
  {
    hide Ascending;
    hide Elements;
    hide Lowered;
    hide LowerBound;
    hide Inserted;
    hide Top;
    var k := LowerBound(v, x);
    TopFacts(v, n, x);
    var d := if |v| <= n then 0 else |v| - n;
    Bottom(v, d);
    Bottom(v, k);
    if |v| >= n { BoundNotBelow(v, x, d); }
    if v[k] != x {
      InsertOnTop(v, n, x, k);
    }
  }

  lemma InsertedAtEnd(v: seq<int>, x: int)
    ensures Inserted(v, |v|, x) == v + [x]
  {}

  lemma Bottom(v: seq<int>, d: nat)
    requires Ascending(v) && d < |v|
    ensures v[0] <= v[d]
  {}

  /** What the set checker asks of the newest n, read off the array. */
  lemma TopFacts(v: seq<int>, n: nat, x: int)
    requires n > 0 && Ascending(v) && v != []
    ensures var d := if |v| <= n then 0 else |v| - n;
            var s := Elements(Top(v, n));
            Top(v, n) != [] && Top(v, n)[0] == v[d] && (|s| == n <==> |v| >= n) && ((forall y :: y in s ==> x < y) <==> x < v[d]) &&
            (x in s <==> LowerBound(v, x) < |v| && v[LowerBound(v, x)] == x && x >= v[d])
  {
    hide Ascending;
    hide LowerBound;
    var d := if |v| <= n then 0 else |v| - n;
    var t := v[d..];
    assert Top(v, n) == t;
    SliceAscending(v, d);
    SizeOf(t);
    LowestFirst(t);
    assert v[d] == t[0] && t[0] in Elements(t);
    if x in t {
      var i :| 0 <= i < |t| && t[i] == x;
      BoundFinds(v, x, d + i);
    }
    if x >= v[d] {
      BoundNotBelow(v, x, d);
      assert LowerBound(v, x) < |v| ==> v[LowerBound(v, x)] == t[LowerBound(v, x) - d];
    }
  }

  lemma Members(t: seq<int>, x: int)
    ensures x in Elements(t) <==> x in t
  {}

  lemma BoundNotBelow(v: seq<int>, x: int, d: nat)
    requires Ascending(v) && d < |v| && v[d] <= x
    ensures LowerBound(v, x) >= d && (v[d] != x ==> LowerBound(v, x) > d)
  {}

  // ------------------------------------------------------------ runs

  function ArrayRun(xs: seq<int>, n: nat): (r: (seq<int>, seq<Verdict>))
    ensures |r.1| == |xs|
  {
    if xs == [] then ([], [])
    else
      var (w, vs) := ArrayRun(xs[..|xs| - 1], n);
      var (u, v) := ArrayCheck(w, n, xs[|xs| - 1]);
      (u, vs + [v])
  }

  ghost function SetRun(xs: seq<int>, n: nat): (set<int>, seq<Verdict>) {
    if xs == [] then ({}, [])
    else
      var (s, vs) := SetRun(xs[..|xs| - 1], n);
      var (t, v) := SetCheck(s, n, xs[|xs| - 1]);
      (t, vs + [v])
  }

  /** Over every input sequence the newest min(n, end) entries are exactly the set, and the answers agree. */
  lemma {:induction false} RunSimulates(xs: seq<int>, n: nat)
    requires n > 0
    ensures var (w, a) := ArrayRun(xs, n);
            var (s, b) := SetRun(xs, n);
            Ascending(w) && |w| <= 2 * n && Elements(Top(w, n)) == s && |a| == |b| == |xs| &&
            forall i :: 0 <= i < |xs| ==> Agrees(a[i], b[i])
  {
    hide ArrayCheck;
    hide SetCheck;
    hide Agrees;
    if xs == [] {
      assert Elements(Top([], n)) == {};
    } else {
      hide Top;
      hide Elements;
      hide Ascending;
      var m := |xs| - 1;
      RunSimulates(xs[..m], n);
      var w := ArrayRun(xs[..m], n).0;
      StepSimulates(w, n, xs[m]);
      CheckKeepsOrder(w, n, xs[m]);
    }
  }

  /** An accepted identifier is still in the array, or below its bottom while it is at least n long. */
  ghost predicate Remembered(w: seq<int>, n: nat, x: int) {
    x in w || (|w| >= n && w != [] && x < w[0])
  }

  lemma CompactionRemembers(w: seq<int>, n: nat, y: int)
    requires n > 0 && Ascending(w) && |w| <= 2 * n && Remembered(w, n, y)
    ensures Remembered(Compacted(w, n), n, y)
  {
    if y in w && |w| == 2 * n {
      var i :| 0 <= i < |w| && w[i] == y;
      assert i >= n ==> w[n..][i - n] == y;
    }
  }

  lemma StepRemembers(w: seq<int>, n: nat, x: int, y: int)
    requires n > 0 && Ascending(w) && |w| <= 2 * n && Remembered(w, n, y)
    ensures Remembered(ArrayCheck(w, n, x).0, n, y)
    ensures x == y ==> !ArrayCheck(w, n, x).1.Accepted?
  {
    hide Ascending;
    hide LowerBound;
    hide Inserted;
    CompactionRemembers(w, n, y);
    var v := Compacted(w, n);
    if |w| == 2 * n { SliceAscending(w, n); }
    var k := LowerBound(v, x);
    InsertKeeps(v, k, x, y);
    if v != [] { Bottom(v, |v| - 1); }
    if y in v {
      var i :| 0 <= i < |v| && v[i] == y;
      BoundFinds(v, y, i);
      Reaches(v, i);
    }
  }

  lemma InsertKeeps(v: seq<int>, k: nat, x: int, y: int)
    requires k <= |v|
    ensures y in v ==> y in Inserted(v, k, x)
    ensures v != [] && x >= v[0] && k > 0 ==> Inserted(v, k, x)[0] == v[0]
  {
    assert v == v[..k] + v[k..];
  }

  lemma AcceptedIsStored(w: seq<int>, n: nat, x: int)
    ensures ArrayCheck(w, n, x).1.Accepted? ==> x in ArrayCheck(w, n, x).0
  {
    hide LowerBound;
    var k := LowerBound(Compacted(w, n), x);
    assert Inserted(Compacted(w, n), k, x)[k] == x;
  }

  lemma RunShape(xs: seq<int>, n: nat)
    requires n > 0
    ensures var (w, a) := ArrayRun(xs, n); Ascending(w) && |w| <= 2 * n && |a| == |xs|
  {
    hide *;
    RunSimulates(xs, n);
  }

  lemma LastOf(xs: seq<int>, n: nat)
    requires xs != []
    ensures var (w, a) := ArrayRun(xs[..|xs| - 1], n);
            var (u, v) := ArrayCheck(w, n, xs[|xs| - 1]);
            ArrayRun(xs, n) == (u, a + [v])
  {
    hide ArrayCheck;
  }

  lemma {:induction false} AcceptedStaysRemembered(xs: seq<int>, n: nat, i: nat)
    requires n > 0 && i < |xs| && ArrayRun(xs, n).1[i].Accepted?
    ensures Remembered(ArrayRun(xs, n).0, n, xs[i])
  {
    hide ArrayCheck;
    hide Ascending;
    hide ArrayRun;
    var m := |xs| - 1;
    RunShape(xs[..m], n);
    LastOf(xs, n);
    var w := ArrayRun(xs[..m], n).0;
    if i < m {
      hide Remembered;
      AcceptedStaysRemembered(xs[..m], n, i);
      StepRemembers(w, n, xs[m], xs[i]);
    } else {
      AcceptedIsStored(w, n, xs[m]);
    }
  }

  /** No identifier is ever accepted twice, even after compaction has forgotten it. */
  lemma {:induction false} NeverAcceptedTwice(xs: seq<int>, n: nat, i: nat, j: nat)
    requires n > 0 && i < j < |xs| && xs[i] == xs[j]
    ensures !(ArrayRun(xs, n).1[i].Accepted? && ArrayRun(xs, n).1[j].Accepted?)
    decreases |xs|
  {
    hide *;
    var m := |xs| - 1;
    RunShape(xs[..m], n);
    LastOf(xs, n);
    if j < m {
      NeverAcceptedTwice(xs[..m], n, i, j);
    } else if ArrayRun(xs, n).1[i].Accepted? {
      AcceptedStaysRemembered(xs[..m], n, i);
      StepRemembers(ArrayRun(xs[..m], n).0, n, xs[m], xs[m]);
    }
  }
}
