/** Splitting a source file: functions that share a name stay together, groups are packed greedily
    (SplitSource.php). */
module Splitter {

  // ------------------------------------------------------------ disjoint sets

  /** Every chain of parents goes down in rank and so ends. */
  ghost predicate Forest(p: seq<nat>, rank: seq<nat>) {
    |p| == |rank| && forall x :: 0 <= x < |p| ==> p[x] < |p| && (p[x] != x ==> rank[p[x]] < rank[x])
  }

  ghost function Root(p: seq<nat>, rank: seq<nat>, x: nat): (r: nat)
    requires Forest(p, rank) && x < |p|
    ensures r < |p| && p[r] == r && (p[x] == x <==> r == x) && rank[r] <= rank[x]
    decreases rank[x]
  {
    if p[x] == x then x else Root(p, rank, p[x])
  }

  ghost predicate SameRoots(p: seq<nat>, q: seq<nat>, rank: seq<nat>) {
    Forest(p, rank) && Forest(q, rank) && forall x :: 0 <= x < |p| ==> Root(q, rank, x) == Root(p, rank, x)
  }

  /** Path compression: pointing a node at its root changes nobody's root. */
  lemma CompressKeeps(p: seq<nat>, rank: seq<nat>, x: nat)
    requires Forest(p, rank) && x < |p|
    ensures SameRoots(p, p[x := Root(p, rank, x)], rank)
  {
    var r := Root(p, rank, x);
    var q := p[x := r];
    assert Forest(q, rank) by {
      assert p[x] != x ==> rank[r] < rank[x] by { if p[x] != x { assert rank[r] <= rank[p[x]]; } }
    }
    forall y | 0 <= y < |p| ensures Root(q, rank, y) == Root(p, rank, y) {
      CompressedRoot(p, rank, x, y);
    }
  }

  lemma {:induction false} CompressedRoot(p: seq<nat>, rank: seq<nat>, x: nat, y: nat)
    requires Forest(p, rank) && x < |p| && y < |p| && Forest(p[x := Root(p, rank, x)], rank)
    ensures Root(p[x := Root(p, rank, x)], rank, y) == Root(p, rank, y)
    decreases rank[y]
  {
    var r := Root(p, rank, x);
    var q := p[x := r];
    if y == x {
      assert q[r] == r;
      assert Root(q, rank, r) == r;
    } else if p[y] != y {
      CompressedRoot(p, rank, x, p[y]);
    }
  }

  /** Ranks after the tree of root `a` is hung under root `b`. */
  ghost function Lifted(p: seq<nat>, rank: seq<nat>, a: nat, b: nat): (r: seq<nat>)
    requires Forest(p, rank) && a < |p| && b < |p|
    ensures |r| == |p|
  {
    seq(|p|, x requires 0 <= x < |p| => if Root(p, rank, x) == a then rank[x] + rank[b] + 1 else rank[x])
  }

  /** Linking two roots merges exactly their two trees. */
  lemma LinkMerges(p: seq<nat>, rank: seq<nat>, a: nat, b: nat)
    requires Forest(p, rank) && a < |p| && b < |p| && p[a] == a && p[b] == b && a != b
    ensures var q, s := p[a := b], Lifted(p, rank, a, b);
            Forest(q, s) && forall x :: 0 <= x < |p| ==>
                                          Root(q, s, x) == if Root(p, rank, x) == a then b else Root(p, rank, x)
  {
    var q, s := p[a := b], Lifted(p, rank, a, b);
    forall x | 0 <= x < |q| ensures q[x] < |q| && (q[x] != x ==> s[q[x]] < s[x]) {
      if x == a {
        assert Root(p, rank, b) == b;
      } else if p[x] != x {
        assert Root(p, rank, p[x]) == Root(p, rank, x);
      }
    }
    forall x | 0 <= x < |p| ensures Root(q, s, x) == if Root(p, rank, x) == a then b else Root(p, rank, x) {
      LinkedRoot(p, rank, a, b, x);
    }
  }

  lemma {:induction false} LinkedRoot(p: seq<nat>, rank: seq<nat>, a: nat, b: nat, x: nat)
    requires Forest(p, rank) && a < |p| && b < |p| && p[a] == a && p[b] == b && a != b && x < |p|
    requires Forest(p[a := b], Lifted(p, rank, a, b))
    ensures Root(p[a := b], Lifted(p, rank, a, b), x) == if Root(p, rank, x) == a then b else Root(p, rank, x)
    decreases rank[x]
  {
    var q, s := p[a := b], Lifted(p, rank, a, b);
    if x == a {
      assert Root(q, s, b) == b;
    } else if p[x] != x {
      LinkedRoot(p, rank, a, b, p[x]);
    }
  }

  class DisjointSet {
    const parents: array<nat>
    ghost var rank: seq<nat>

    ghost predicate Valid()
      reads this, parents
    {
      Forest(parents[..], rank)
    }

    /** The representative of every element. */
    ghost function Roots(): (r: seq<nat>)
      requires Valid()
      reads this, parents
      ensures |r| == parents.Length
    {
      RootsOf(parents[..], rank)
    }

    constructor (n: nat)
      ensures Valid() && fresh(parents) && parents.Length == n
      ensures forall x :: 0 <= x < n ==> Roots()[x] == x
    {
      parents := new nat[n](x => x);
      rank := seq(n, x => 0);
    }

    method Find(x: nat) returns (r: nat)
      requires Valid() && x < parents.Length
      modifies parents
      ensures Valid() && Roots() == old(Roots()) && r == Roots()[x]
      decreases rank[x]
    {
      hide Root;
      ghost var p := parents[..];
      if parents[x] == x {
        RootIsSelf(p, rank, x);
        return x;
      }
      RootOfParent(p, rank, x);
      r := Find(parents[x]);
      ghost var q := parents[..];
      CompressKeeps(q, rank, x);
      parents[x] := r;
      assert parents[..] == q[x := r];
    }

    /** One of the two roots takes over the other's tree. */
    method Union(x: nat, y: nat, coin: bool)
      requires Valid() && x < parents.Length && y < parents.Length
      modifies this, parents
      ensures Valid()
      ensures var (r, a, b) := (old(Roots()), old(Roots())[x], old(Roots())[y]);
              Roots() == (if coin then Joined(r, a, b) else Joined(r, b, a))
    {
      hide Root;
      var a := Find(x);
      var b := Find(y);
      ghost var t := parents[..];
      ghost var r := RootsOf(t, rank);
      RootsFixed(t, rank, x);
      RootsFixed(t, rank, y);
      if a == b {
        assert Joined(r, a, b) == r;
      } else if coin {
        LinkMerges(t, rank, a, b);
        rank := Lifted(t, rank, a, b);
        parents[a] := b;
        assert parents[..] == t[a := b];
        assert Roots() == Joined(r, a, b);
      } else {
        LinkMerges(t, rank, b, a);
        rank := Lifted(t, rank, b, a);
        parents[b] := a;
        assert parents[..] == t[b := a];
        assert Roots() == Joined(r, b, a);
      }
    }
  }

  ghost function RootsOf(p: seq<nat>, rank: seq<nat>): (r: seq<nat>)
    requires Forest(p, rank)
    ensures |r| == |p| && forall x :: 0 <= x < |p| ==> r[x] == Root(p, rank, x)
  {
    seq(|p|, x requires 0 <= x < |p| => Root(p, rank, x))
  }

  /** Everybody whose root is `a` gets root `b`. */
  function Joined(r: seq<nat>, a: nat, b: nat): (s: seq<nat>)
    ensures |s| == |r|
  {
    seq(|r|, x requires 0 <= x < |r| => if r[x] == a then b else r[x])
  }

  lemma RootsFixed(p: seq<nat>, rank: seq<nat>, x: nat)
    requires Forest(p, rank) && x < |p|
    ensures var a := RootsOf(p, rank)[x]; a < |p| && p[a] == a
  {}

  lemma RootIsSelf(p: seq<nat>, rank: seq<nat>, x: nat)
    requires Forest(p, rank) && x < |p| && p[x] == x
    ensures Root(p, rank, x) == x
  {}

  lemma RootOfParent(p: seq<nat>, rank: seq<nat>, x: nat)
    requires Forest(p, rank) && x < |p|
    ensures Root(p, rank, p[x]) == Root(p, rank, x)
  {}

  // ------------------------------------------------------------ what belongs together

  /** Two functions mention the same name. */
  ghost predicate Shares(deps: seq<seq<nat>>, x: nat, y: nat) {
    exists k :: 0 <= k < |deps| && x in deps[k] && y in deps[k]
  }

  ghost predicate Chain(deps: seq<seq<nat>>, path: seq<nat>) {
    path != [] && forall i :: 0 <= i < |path| - 1 ==> Shares(deps, path[i], path[i + 1])
  }

  /** The transitive closure of sharing a name. */
  ghost predicate Linked(deps: seq<seq<nat>>, x: nat, y: nat) {
    exists path :: Chain(deps, path) && path[0] == x && path[|path| - 1] == y
  }

  lemma LinkedSelf(deps: seq<seq<nat>>, x: nat)
    ensures Linked(deps, x, x)
  {
    assert Chain(deps, [x]);
  }

  lemma LinkedShares(deps: seq<seq<nat>>, x: nat, y: nat)
    requires Shares(deps, x, y)
    ensures Linked(deps, x, y)
  {
    var path := [x, y];
    assert Chain(deps, path) && path[0] == x && path[|path| - 1] == y;
  }

  lemma LinkedTrans(deps: seq<seq<nat>>, x: nat, y: nat, z: nat)
    requires Linked(deps, x, y) && Linked(deps, y, z)
    ensures Linked(deps, x, z)
  {
    hide Shares;
    var a :| Chain(deps, a) && a[0] == x && a[|a| - 1] == y;
    var b :| Chain(deps, b) && b[0] == y && b[|b| - 1] == z;
    var c := a + b[1..];
    forall i | 0 <= i < |c| - 1 ensures Shares(deps, c[i], c[i + 1]) {
      if i < |a| - 1 {
        assert c[i] == a[i] && c[i + 1] == a[i + 1];
      } else {
        var j := i - (|a| - 1);
        assert c[i] == b[j] && c[i + 1] == b[j + 1];
      }
    }
    assert c[|c| - 1] == z;
    assert Chain(deps, c);
  }

  lemma LinkedSym(deps: seq<seq<nat>>, x: nat, y: nat)
    requires Linked(deps, x, y)
    ensures Linked(deps, y, x)
  {
    var a :| Chain(deps, a) && a[0] == x && a[|a| - 1] == y;
    var n := |a| - 1;
    var c := seq(|a|, i requires 0 <= i < |a| => a[n - i]);
    forall i | 0 <= i < |c| - 1 ensures Shares(deps, c[i], c[i + 1]) {
      assert Shares(deps, a[n - i - 1], a[n - i]);
    }
    assert Chain(deps, c);
  }

  /** Everybody is linked to its root. */
  ghost predicate Honest(deps: seq<seq<nat>>, r: seq<nat>) {
    forall x :: 0 <= x < |r| ==> Linked(deps, x, r[x])
  }

  lemma JoinHonest(deps: seq<seq<nat>>, r: seq<nat>, x: nat, y: nat)
    requires Honest(deps, r) && x < |r| && y < |r| && Shares(deps, x, y)
    ensures Honest(deps, Joined(r, r[x], r[y]))
  {
    hide Linked;
    hide Shares;
    forall z | 0 <= z < |r| && r[z] == r[x] ensures Linked(deps, z, r[y]) {
      LinkedSym(deps, x, r[x]);
      LinkedTrans(deps, z, r[x], x);
      LinkedShares(deps, x, y);
      LinkedTrans(deps, z, x, y);
      LinkedTrans(deps, z, y, r[y]);
    }
  }

  /** The functions of one name have one root. */
  ghost predicate Together(ids: seq<nat>, r: seq<nat>) {
    (forall i :: 0 <= i < |ids| ==> ids[i] < |r|) && forall i :: 0 <= i < |ids| ==> r[ids[i]] == r[ids[0]]
  }

  lemma JoinTogether(ids: seq<nat>, r: seq<nat>, a: nat, b: nat)
    requires Together(ids, r)
    ensures Together(ids, Joined(r, a, b))
  {}

  /** Roots agree exactly on the transitive closure of sharing a name. */
  lemma {:induction false} RootsAreGroups(deps: seq<seq<nat>>, r: seq<nat>, x: nat, y: nat)
    requires Honest(deps, r) && x < |r| && y < |r| && (forall k :: 0 <= k < |deps| ==> Together(deps[k], r))
    ensures r[x] == r[y] <==> Linked(deps, x, y)
  {
    if r[x] == r[y] {
      LinkedSym(deps, y, r[y]);
      LinkedTrans(deps, x, r[x], y);
    }
    if Linked(deps, x, y) {
      var path :| Chain(deps, path) && path[0] == x && path[|path| - 1] == y;
      ChainSameRoot(deps, r, path);
    }
  }

  lemma {:induction false} ChainSameRoot(deps: seq<seq<nat>>, r: seq<nat>, path: seq<nat>)
    requires Chain(deps, path) && path[0] < |r| && (forall k :: 0 <= k < |deps| ==> Together(deps[k], r))
    ensures path[|path| - 1] < |r| && r[path[|path| - 1]] == r[path[0]]
  {
    if |path| > 1 {
      var n := |path| - 2;
      assert Chain(deps, path[..n + 1]);
      ChainSameRoot(deps, r, path[..n + 1]);
      assert Shares(deps, path[n], path[n + 1]);
      var k :| 0 <= k < |deps| && path[n] in deps[k] && path[n + 1] in deps[k];
      assert Together(deps[k], r);
    }
  }

  /** The loop over dependencies: afterwards each name's functions have one root. */
  method Group(n: nat, deps: seq<seq<nat>>, coins: (nat, nat) -> bool) returns (sets: DisjointSet)
    requires forall k, i :: 0 <= k < |deps| && 0 <= i < |deps[k]| ==> deps[k][i] < n
    ensures fresh(sets) && fresh(sets.parents) && sets.Valid() && sets.parents.Length == n
    ensures Honest(deps, sets.Roots()) && forall k :: 0 <= k < |deps| ==> Together(deps[k], sets.Roots())
  {
    hide Linked;
    hide RootsOf;
    sets := new DisjointSet(n);
    forall x | 0 <= x < n ensures Linked(deps, x, sets.Roots()[x]) { LinkedSelf(deps, x); }
    for k := 0 to |deps|
      invariant fresh(sets) && fresh(sets.parents) && sets.Valid() && sets.parents.Length == n
      invariant Honest(deps, sets.Roots()) && forall j :: 0 <= j < k ==> Together(deps[j], sets.Roots())
    {
      for i := 0 to |deps[k]|
        invariant fresh(sets) && fresh(sets.parents) && sets.Valid() && sets.parents.Length == n
        invariant Honest(deps, sets.Roots()) && forall j :: 0 <= j < k ==> Together(deps[j], sets.Roots())
        invariant Together(deps[k][..i], sets.Roots())
      {
        UnionOne(sets, deps, k, i, coins(k, i));
      }
      assert deps[k][..|deps[k]|] == deps[k];
    }
  }

  method UnionOne(sets: DisjointSet, deps: seq<seq<nat>>, k: nat, i: nat, coin: bool)
    requires sets.Valid() && k < |deps| && i < |deps[k]|
    requires forall j :: 0 <= j < |deps[k]| ==> deps[k][j] < sets.parents.Length
    requires Honest(deps, sets.Roots()) && (forall j :: 0 <= j < k ==> Together(deps[j], sets.Roots()))
    requires Together(deps[k][..i], sets.Roots())
    modifies sets, sets.parents
    ensures sets.Valid() && Honest(deps, sets.Roots())
    ensures (forall j :: 0 <= j < k ==> Together(deps[j], sets.Roots())) && Together(deps[k][..i + 1], sets.Roots())
  {
    hide Linked;
    hide RootsOf;
    hide Joined;
    var x, y := deps[k][0], deps[k][i];
    ghost var r := sets.Roots();
    assert Shares(deps, x, y) && Shares(deps, y, x);
    JoinHonest(deps, r, x, y);
    JoinHonest(deps, r, y, x);
    sets.Union(x, y, coin);
    ghost var a, b := if coin then r[x] else r[y], if coin then r[y] else r[x];
    assert sets.Roots() == Joined(r, a, b);
    forall j | 0 <= j < k ensures Together(deps[j], sets.Roots()) { JoinTogether(deps[j], r, a, b); }
    JoinOneMore(deps[k], i, r, a, b);
  }

  lemma JoinOneMore(ids: seq<nat>, i: nat, r: seq<nat>, a: nat, b: nat)
    requires i < |ids| && Together(ids[..i], r) && ids[0] < |r| && ids[i] < |r|
    requires {a, b} == {r[ids[0]], r[ids[i]]}
    ensures Together(ids[..i + 1], Joined(r, a, b))
  {
    var s := Joined(r, a, b);
    assert a in {a, b} && b in {a, b} && r[ids[0]] in {a, b} && r[ids[i]] in {a, b};
    forall j | 0 <= j < i + 1 ensures ids[j] < |s| && s[ids[j]] == s[ids[0]] {
      if j < i {
        assert ids[..i][j] == ids[j] && ids[..i][0] == ids[0];
      }
    }
  }

  // ------------------------------------------------------------ packing

  /** The functions of root `c`, in order. */
  function Members(r: seq<nat>, n: nat, c: nat): seq<nat>
    requires n <= |r|
  {
    if n == 0 then [] else Members(r, n - 1, c) + if r[n - 1] == c then [n - 1] else []
  }

  function Weight(ids: seq<nat>, weights: seq<nat>): nat {
    if ids == [] then 0
    else Weight(ids[..|ids| - 1], weights) + if ids[|ids| - 1] < |weights| then weights[ids[|ids| - 1]] else 0
  }

  /** How often `x` occurs. */
  function Times(xs: seq<nat>, x: nat): nat {
    if xs == [] then 0 else Times(xs[..|xs| - 1], x) + if xs[|xs| - 1] == x then 1 else 0
  }

  lemma {:induction false} TimesAppend(a: seq<nat>, b: seq<nat>, x: nat)
    ensures Times(a + b, x) == Times(a, x) + Times(b, x)
  {
    if b == [] {
      assert a + b == a;
    } else {
      var n := |b| - 1;
      assert (a + b)[..|a| + n] == a + b[..n];
      TimesAppend(a, b[..n], x);
    }
  }

  lemma {:induction false} TimesIn(xs: seq<nat>, x: nat)
    ensures Times(xs, x) > 0 <==> x in xs
  {
    if xs == [] {
    } else {
      var n := |xs| - 1;
      TimesIn(xs[..n], x);
      assert xs == xs[..n] + [xs[n]];
    }
  }

  lemma {:induction false} MembersCount(r: seq<nat>, n: nat, c: nat, i: nat)
    requires n <= |r|
    ensures Times(Members(r, n, c), i) == if i < n && r[i] == c then 1 else 0
  {
    hide Times;
    TimesOne(n, i);
    if n == 0 {
    } else {
      MembersCount(r, n - 1, c, i);
      TimesOne(n - 1, i);
      TimesAppend(Members(r, n - 1, c), if r[n - 1] == c then [n - 1] else [], i);
    }
  }

  lemma TimesOne(x: nat, i: nat)
    ensures Times([x], i) == (if x == i then 1 else 0) && Times([], i) == 0
  {
    assert [x][..0] == [];
  }

  lemma {:induction false} WeightAppend(a: seq<nat>, b: seq<nat>, weights: seq<nat>)
    ensures Weight(a + b, weights) == Weight(a, weights) + Weight(b, weights)
  {
    if b == [] {
      assert a + b == a;
    } else {
      var n := |b| - 1;
      assert (a + b)[..|a| + n] == a + b[..n];
      WeightAppend(a, b[..n], weights);
    }
  }

  /** How often a function occurs in all files together. */
  function Copies(files: seq<seq<nat>>, x: nat): nat {
    if files == [] then 0 else Times(files[0], x) + Copies(files[1..], x)
  }

  lemma {:induction false} CopiesAppend(files: seq<seq<nat>>, m: nat, g: seq<nat>, x: nat)
    requires m < |files|
    ensures Copies(files[m := files[m] + g], x) == Copies(files, x) + Times(g, x)
  {
    var f := files[m := files[m] + g];
    if m == 0 {
      TimesAppend(files[0], g, x);
      assert f[1..] == files[1..];
    } else {
      assert f[1..] == files[1..][m - 1 := files[1..][m - 1] + g];
      CopiesAppend(files[1..], m - 1, g, x);
    }
  }

  /** The first of the smallest. */
  method Smallest(sizes: seq<nat>) returns (m: nat)
    requires sizes != []
    ensures m < |sizes| && (forall i :: 0 <= i < |sizes| ==> sizes[m] <= sizes[i]) &&
            forall i :: 0 <= i < m ==> sizes[i] > sizes[m]
  {
    m := 0;
    for j := 1 to |sizes|
      invariant m < j && (forall i :: 0 <= i < j ==> sizes[m] <= sizes[i]) && forall i :: 0 <= i < m ==> sizes[i] > sizes[m]
    {
      if sizes[j] < sizes[m] {
        m := j;
      }
    }
  }

  /** What is packed so far: the groups of the roots in `placed`, each whole in one file and once. */
  ghost predicate Packed(r: seq<nat>, files: seq<seq<nat>>, placed: set<nat>) {
    (forall i: nat :: Copies(files, i) == if i < |r| && r[i] in placed then 1 else 0) &&
    forall f, i: nat, j: nat :: 0 <= f < |files| && i in files[f] && i < |r| && j < |r| && r[j] == r[i] ==> j in files[f]
  }

  /** No file is heavier than another by more than `w`. */
  ghost predicate Even(sizes: seq<nat>, w: nat) {
    forall a, b :: 0 <= a < |sizes| && 0 <= b < |sizes| ==> sizes[a] <= sizes[b] + w
  }

  ghost predicate Weighed(files: seq<seq<nat>>, sizes: seq<nat>, weights: seq<nat>) {
    |sizes| == |files| && forall f :: 0 <= f < |files| ==> sizes[f] == Weight(files[f], weights)
  }

  lemma PlaceKeeps(r: seq<nat>, files: seq<seq<nat>>, placed: set<nat>, c: nat, m: nat)
    requires Packed(r, files, placed) && m < |files| && c !in placed
    ensures Packed(r, files[m := files[m] + Members(r, |r|, c)], placed + {c})
  {
    hide Members;
    hide Copies;
    hide Times;
    var g: seq<nat> := Members(r, |r|, c);
    var u: seq<seq<nat>> := files[m := files[m] + g];
    forall i: nat ensures Copies(u, i) == if i < |r| && r[i] in placed + {c} then 1 else 0 {
      MembersCount(r, |r|, c, i);
      CopiesAppend(files, m, g, i);
    }
    forall f, i: nat, j: nat | 0 <= f < |u| && i in u[f] && i < |r| && j < |r| && r[j] == r[i] ensures j in u[f] {
      if f != m || i in files[f] {
        assert j in files[f];
      } else {
        MembersCount(r, |r|, c, i);
        MembersCount(r, |r|, c, j);
        TimesIn(g, i);
        TimesIn(g, j);
      }
    }
  }

  lemma PlaceEven(sizes: seq<nat>, m: nat, x: nat, w: nat)
    requires Even(sizes, w) && m < |sizes| && x <= w && forall i :: 0 <= i < |sizes| ==> sizes[m] <= sizes[i]
    ensures Even(sizes[m := sizes[m] + x], w)
  {}

  ghost predicate OneGroup(r: seq<nat>, file: seq<nat>) {
    forall i: nat, j: nat :: i in file && j in file && i < |r| && j < |r| ==> r[i] == r[j]
  }

  /** A file with functions of more than one group is at most twice as heavy as any other. */
  ghost predicate Halved(r: seq<nat>, files: seq<seq<nat>>, sizes: seq<nat>) {
    |sizes| == |files| &&
    forall f, g :: 0 <= f < |files| && 0 <= g < |files| && !OneGroup(r, files[f]) ==> sizes[f] <= 2 * sizes[g]
  }

  ghost predicate AtLeast(files: seq<seq<nat>>, sizes: seq<nat>, x: nat) {
    |sizes| == |files| && forall f :: 0 <= f < |files| && files[f] != [] ==> sizes[f] >= x
  }

  lemma {:induction false} MembersAlike(r: seq<nat>, n: nat, c: nat)
    requires n <= |r|
    ensures forall i :: i in Members(r, n, c) ==> i < n && r[i] == c
  {
    if n == 0 {
    } else {
      MembersAlike(r, n - 1, c);
    }
  }

  /** Placing a group that is no heavier than any placed before. */
  lemma PlaceHalved(r: seq<nat>, files: seq<seq<nat>>, sizes: seq<nat>, c: nat, m: nat, x: nat)
    requires Halved(r, files, sizes) && AtLeast(files, sizes, x) && m < |files|
    requires forall i :: 0 <= i < |sizes| ==> sizes[m] <= sizes[i]
    ensures var u, v := files[m := files[m] + Members(r, |r|, c)], sizes[m := sizes[m] + x];
            Halved(r, u, v) && AtLeast(u, v, x)
  {
    hide Members;
    MembersAlike(r, |r|, c);
    var group: seq<nat> := Members(r, |r|, c);
    var u, v := files[m := files[m] + group], sizes[m := sizes[m] + x];
    assert files[m] == [] ==> u[m] == group;
    assert files[m] == [] ==> OneGroup(r, u[m]);
    forall f, g | 0 <= f < |u| && 0 <= g < |u| && !OneGroup(r, u[f]) ensures v[f] <= 2 * v[g] {
      if f != m {
        assert u[f] == files[f];
      }
    }
  }

  // ------------------------------------------------------------ the whole split

  /** The groups collected from the first `i` functions, in the order in which their roots appear. */
  function OrderOf(r: seq<nat>, i: nat): seq<nat>
    requires i <= |r|
  {
    if i == 0 then []
    else
      var o := OrderOf(r, i - 1);
      if r[i - 1] in o then o else o + [r[i - 1]]
  }

  function GroupsOf(r: seq<nat>, i: nat): map<nat, seq<nat>>
    requires i <= |r|
  {
    if i == 0 then map[]
    else
      var (g, c) := (GroupsOf(r, i - 1), r[i - 1]);
      g[c := (if c in g then g[c] else []) + [i - 1]]
  }

  function SizesOf(r: seq<nat>, i: nat, weights: seq<nat>): map<nat, nat>
    requires i <= |r| == |weights|
  {
    if i == 0 then map[]
    else
      var (s, c) := (SizesOf(r, i - 1, weights), r[i - 1]);
      s[c := (if c in s then s[c] else 0) + weights[i - 1]]
  }

  ghost predicate NoRepeats(xs: seq<nat>) { forall i, j :: 0 <= i < j < |xs| ==> xs[i] != xs[j] }

  /** Each root has its members as group and their weight as size; other keys do not occur. */
  lemma {:induction false} CollectedIs(r: seq<nat>, i: nat, weights: seq<nat>, c: nat)
    requires i <= |r| == |weights|
    ensures var g, s := GroupsOf(r, i), SizesOf(r, i, weights);
            (c in OrderOf(r, i) <==> c in g) && (c in s <==> c in g) && NoRepeats(OrderOf(r, i)) &&
            if c in g then g[c] == Members(r, i, c) && s[c] == Weight(g[c], weights) else Members(r, i, c) == []
  {
    OrderCollected(r, i, c);
    GroupCollected(r, i, c);
    SizeCollected(r, i, weights, c);
    hide *;
  }

  lemma {:induction false} OrderCollected(r: seq<nat>, i: nat, c: nat)
    requires i <= |r|
    ensures (c in OrderOf(r, i) <==> c in GroupsOf(r, i)) && NoRepeats(OrderOf(r, i))
  {
    if i == 0 {
    } else {
      OrderCollected(r, i - 1, c);
      OrderCollected(r, i - 1, r[i - 1]);
    }
  }

  lemma {:induction false} GroupCollected(r: seq<nat>, i: nat, c: nat)
    requires i <= |r|
    ensures var g := GroupsOf(r, i); Members(r, i, c) == if c in g then g[c] else []
  {
    if i == 0 {
    } else {
      GroupCollected(r, i - 1, c);
      var m := Members(r, i - 1, c);
      assert m + [] == m;
    }
  }

  lemma {:induction false} SizeCollected(r: seq<nat>, i: nat, weights: seq<nat>, c: nat)
    requires i <= |r| == |weights|
    ensures var g, s := GroupsOf(r, i), SizesOf(r, i, weights);
            (c in s <==> c in g) && (c in g ==> s[c] == Weight(g[c], weights))
  {
    hide Weight;
    if i == 0 {
    } else {
      SizeCollected(r, i - 1, weights, c);
      OneWeight(i - 1, weights);
      var g := GroupsOf(r, i - 1);
      if c == r[i - 1] {
        WeightAppend(if c in g then g[c] else [], [i - 1], weights);
      }
    }
  }

  lemma OneWeight(i: nat, weights: seq<nat>)
    requires i < |weights|
    ensures Weight([i], weights) == weights[i] && Weight([], weights) == 0
  {
    assert [i][..0] == [];
  }

  lemma {:induction false} EveryRootCollected(r: seq<nat>, i: nat, j: nat)
    requires j < i <= |r|
    ensures r[j] in OrderOf(r, i)
  {
    if j < i - 1 {
      EveryRootCollected(r, i - 1, j);
    }
  }

  method Collect(sets: DisjointSet, weights: seq<nat>)
    returns (order: seq<nat>, groups: map<nat, seq<nat>>, sizes: map<nat, nat>)
    requires sets.Valid() && sets.parents.Length == |weights|
    modifies sets.parents
    ensures sets.Valid() && sets.Roots() == old(sets.Roots())
    ensures var (r, n) := (old(sets.Roots()), |weights|);
            order == OrderOf(r, n) && groups == GroupsOf(r, n) && sizes == SizesOf(r, n, weights)
  {
    hide RootsOf;
    hide OrderOf;
    hide GroupsOf;
    hide SizesOf;
    order, groups, sizes := [], map[], map[];
    ghost var r := sets.Roots();
    CollectNone(r, weights);
    for i := 0 to |weights|
      invariant sets.Valid() && sets.Roots() == r
      invariant order == OrderOf(r, i) && groups == GroupsOf(r, i) && sizes == SizesOf(r, i, weights)
    {
      var c := sets.Find(i);
      CollectOne(r, i, weights);
      if c !in groups {
        order := order + [c];
      }
      var g := if c in groups then groups[c] else [];
      var w := if c in sizes then sizes[c] else 0;
      groups, sizes := groups[c := g + [i]], sizes[c := w + weights[i]];
    }
  }

  lemma CollectNone(r: seq<nat>, weights: seq<nat>)
    requires |r| == |weights|
    ensures OrderOf(r, 0) == [] && GroupsOf(r, 0) == map[] && SizesOf(r, 0, weights) == map[]
  {}

  lemma CollectOne(r: seq<nat>, i: nat, weights: seq<nat>)
    requires i < |r| == |weights|
    ensures var (o, g, s, c) := (OrderOf(r, i), GroupsOf(r, i), SizesOf(r, i, weights), r[i]);
            OrderOf(r, i + 1) == (if c in g then o else o + [c]) &&
            GroupsOf(r, i + 1) == g[c := (if c in g then g[c] else []) + [i]] &&
            SizesOf(r, i + 1, weights) == s[c := (if c in s then s[c] else 0) + weights[i]]
  {
    CollectedIs(r, i, weights, r[i]);
  }

  /** Heaviest first. */
  ghost predicate Descending(xs: seq<nat>, sizes: map<nat, nat>) {
    (forall c :: c in xs ==> c in sizes) && forall i, j :: 0 <= i < j < |xs| ==> sizes[xs[i]] >= sizes[xs[j]]
  }

  ghost predicate Rearranged(xs: seq<nat>, ys: seq<nat>) {
    |xs| == |ys| && NoRepeats(xs) && forall c :: c in xs <==> c in ys
  }

  /** arsort: the same keys, heaviest first. */
  method SortDescending(keys: seq<nat>, sizes: map<nat, nat>) returns (sorted: seq<nat>)
    requires NoRepeats(keys) && forall c :: c in keys ==> c in sizes
    ensures Descending(sorted, sizes) && Rearranged(sorted, keys)
  {
    hide Descending;
    hide Rearranged;
    sorted := [];
    SortNothing(sizes);
    for k := 0 to |keys|
      invariant Descending(sorted, sizes) && Rearranged(sorted, keys[..k])
    {
      sorted := InsertDescending(keys, k, sorted, sizes);
    }
    assert keys[..|keys|] == keys;
  }

  lemma SortNothing(sizes: map<nat, nat>)
    ensures Descending([], sizes) && Rearranged([], [])
  {}

  method InsertDescending(keys: seq<nat>, k: nat, xs: seq<nat>, sizes: map<nat, nat>) returns (ys: seq<nat>)
    requires k < |keys| && NoRepeats(keys) && keys[k] in sizes && Descending(xs, sizes) && Rearranged(xs, keys[..k])
    ensures Descending(ys, sizes) && Rearranged(ys, keys[..k + 1])
  {
    var c := keys[k];
    var at := 0;
    while at < |xs| && sizes[xs[at]] >= sizes[c]
      invariant at <= |xs| && forall i :: 0 <= i < at ==> sizes[xs[i]] >= sizes[c]
    {
      at := at + 1;
    }
    assert forall i :: at <= i < |xs| ==> sizes[xs[i]] <= sizes[c];
    ys := xs[..at] + [c] + xs[at..];
    InsertKeepsOrder(xs, at, c, sizes);
    hide Descending;
    InsertKeepsKeys(keys, k, xs, at);
  }

  lemma InsertKeepsOrder(xs: seq<nat>, at: nat, c: nat, sizes: map<nat, nat>)
    requires Descending(xs, sizes) && at <= |xs| && c in sizes
    requires (forall i :: 0 <= i < at ==> sizes[xs[i]] >= sizes[c]) && forall i :: at <= i < |xs| ==> sizes[xs[i]] <= sizes[c]
    ensures Descending(xs[..at] + [c] + xs[at..], sizes)
  {
    InsertFacts(xs, at, c);
    var ys := xs[..at] + [c] + xs[at..];
    assert forall d :: d in ys ==> d in sizes;
    forall i, j | 0 <= i < j < |ys| ensures sizes[ys[i]] >= sizes[ys[j]] {
      hide *;
      if j < at {
        HeavierFirst(xs, sizes, i, j);
      } else if i > at {
        HeavierFirst(xs, sizes, i - 1, j - 1);
      } else if i < at < j {
        HeavierFirst(xs, sizes, i, j - 1);
      }
    }
  }

  lemma HeavierFirst(xs: seq<nat>, sizes: map<nat, nat>, i: nat, j: nat)
    requires Descending(xs, sizes) && i <= j < |xs|
    ensures xs[i] in sizes && xs[j] in sizes && sizes[xs[i]] >= sizes[xs[j]]
  {}

  lemma InsertKeepsKeys(keys: seq<nat>, k: nat, xs: seq<nat>, at: nat)
    requires k < |keys| && NoRepeats(keys) && Rearranged(xs, keys[..k]) && at <= |xs|
    ensures Rearranged(xs[..at] + [keys[k]] + xs[at..], keys[..k + 1])
  {
    var c := keys[k];
    InsertFacts(xs, at, c);
    var ys := xs[..at] + [c] + xs[at..];
    assert c !in keys[..k];
    forall i, j | 0 <= i < j < |ys| ensures ys[i] != ys[j] {
      var a := if i < at then xs[i] else if i == at then c else xs[i - 1];
      var b := if j < at then xs[j] else if j == at then c else xs[j - 1];
      assert ys[i] == a && ys[j] == b;
    }
    assert keys[..k + 1] == keys[..k] + [c];
  }

  lemma InsertFacts(xs: seq<nat>, at: nat, c: nat)
    requires at <= |xs|
    ensures var ys := xs[..at] + [c] + xs[at..];
            |ys| == |xs| + 1 && (forall d :: d in ys <==> d == c || d in xs) &&
            forall i :: 0 <= i < |ys| ==> ys[i] == if i < at then xs[i] else if i == at then c else xs[i - 1]
  {
    assert xs == xs[..at] + xs[at..];
  }

  ghost function Keys(xs: seq<nat>): set<nat> { set c | c in xs }

  /** The biggest group fits in `w`. */
  ghost predicate Heaviest(order: seq<nat>, sizes: map<nat, nat>, w: nat) {
    forall c :: c in order && c in sizes ==> sizes[c] <= w
  }

  /** Greedy packing: each group goes to the first of the lightest files. `w` is any bound on the weight of a group;
      the difference it bounds does not depend on the order of the groups, the ratio does. */
  method Pack(ghost r: seq<nat>, weights: seq<nat>, order: seq<nat>, groups: map<nat, seq<nat>>, sizes: map<nat, nat>,
              chunks: nat, ghost w: nat) returns (files: seq<seq<nat>>, fileSizes: seq<nat>)
    requires chunks > 0 && |r| == |weights| && groups == GroupsOf(r, |r|) && sizes == SizesOf(r, |r|, weights)
    requires Rearranged(order, OrderOf(r, |r|))
    ensures |files| == chunks && Weighed(files, fileSizes, weights) && (Heaviest(order, sizes, w) ==> Even(fileSizes, w))
    ensures Packed(r, files, Keys(order))
    ensures Descending(order, sizes) ==> Halved(r, files, fileSizes)
  {
    hide *;
    files, fileSizes := EmptyFiles(chunks);
    PackStarts(r, weights, order, sizes, w, files, fileSizes);
    for k := 0 to |order|
      invariant |files| == |fileSizes| == chunks && PackedTo(r, weights, order, sizes, w, k, files, fileSizes)
    {
      var c := order[k];
      OrderIsCollected(r, weights, order, c);
      var m := Smallest(fileSizes);
      PackStep(r, weights, order, sizes, w, k, files, fileSizes, m, groups[c]);
      files := files[m := files[m] + groups[c]];
      fileSizes := fileSizes[m := fileSizes[m] + sizes[c]];
    }
    PackEnds(r, weights, order, sizes, w, files, fileSizes);
  }

  method EmptyFiles(chunks: nat) returns (files: seq<seq<nat>>, fileSizes: seq<nat>)
    ensures |files| == |fileSizes| == chunks && forall f :: 0 <= f < chunks ==> files[f] == [] && fileSizes[f] == 0
  {
    files, fileSizes := seq(chunks, i => []), seq(chunks, i => 0);
  }

  /** What is true once the first `k` groups are packed. */
  ghost predicate PackedTo(r: seq<nat>, weights: seq<nat>, order: seq<nat>, sizes: map<nat, nat>, w: nat, k: nat,
                           files: seq<seq<nat>>, fileSizes: seq<nat>)
    requires k <= |order|
  {
    Weighed(files, fileSizes, weights) && (Heaviest(order, sizes, w) ==> Even(fileSizes, w)) &&
    Packed(r, files, Keys(order[..k])) &&
    (Descending(order, sizes) ==>
       Halved(r, files, fileSizes) && (k < |order| ==> AtLeast(files, fileSizes, sizes[order[k]])))
  }

  lemma OrderIsCollected(r: seq<nat>, weights: seq<nat>, order: seq<nat>, c: nat)
    requires |r| == |weights| && Rearranged(order, OrderOf(r, |r|)) && c in order
    ensures var g, s := GroupsOf(r, |r|), SizesOf(r, |r|, weights);
            c in g && c in s && g[c] == Members(r, |r|, c) && s[c] == Weight(g[c], weights) && NoRepeats(order)
  {
    hide OrderOf;
    hide GroupsOf;
    hide SizesOf;
    hide Members;
    hide Weight;
    CollectedIs(r, |r|, weights, c);
  }

  lemma PackStarts(r: seq<nat>, weights: seq<nat>, order: seq<nat>, sizes: map<nat, nat>, w: nat,
                   files: seq<seq<nat>>, fileSizes: seq<nat>)
    requires |files| == |fileSizes| && forall f :: 0 <= f < |files| ==> files[f] == [] && fileSizes[f] == 0
    ensures PackedTo(r, weights, order, sizes, w, 0, files, fileSizes)
  {
    PackNothing(r, files, fileSizes, weights, w);
    NothingHalved(r, files, fileSizes);
    assert Keys(order[..0]) == {};
    hide Packed;
    hide Halved;
    hide Even;
    hide Weighed;
  }

  lemma PackStep(r: seq<nat>, weights: seq<nat>, order: seq<nat>, sizes: map<nat, nat>, w: nat, k: nat,
                 files: seq<seq<nat>>, fileSizes: seq<nat>, m: nat, group: seq<nat>)
    requires k < |order| && NoRepeats(order) && order[k] in sizes && PackedTo(r, weights, order, sizes, w, k, files, fileSizes)
    requires m < |files| == |fileSizes| && forall i :: 0 <= i < |fileSizes| ==> fileSizes[m] <= fileSizes[i]
    requires group == Members(r, |r|, order[k]) && sizes[order[k]] == Weight(group, weights)
    ensures PackedTo(r, weights, order, sizes, w, k + 1, files[m := files[m] + group],
                     fileSizes[m := fileSizes[m] + sizes[order[k]]])
  {
    hide Packed;
    hide Even;
    hide Halved;
    hide AtLeast;
    hide Members;
    hide Weight;
    var c := order[k];
    NextKeys(order, k);
    PlaceKeeps(r, files, Keys(order[..k]), c, m);
    WeightAppend(files[m], group, weights);
    if Heaviest(order, sizes, w) {
      PlaceEven(fileSizes, m, sizes[c], w);
    }
    if Descending(order, sizes) {
      PlaceHalved(r, files, fileSizes, c, m, sizes[c]);
      if k + 1 < |order| {
        HeavierFirst(order, sizes, k, k + 1);
        LighterNext(files[m := files[m] + group], fileSizes[m := fileSizes[m] + sizes[c]], sizes[c], sizes[order[k + 1]]);
      }
    }
    hide Descending;
    hide Heaviest;
  }

  lemma NextKeys(order: seq<nat>, k: nat)
    requires k < |order| && NoRepeats(order)
    ensures order[k] !in Keys(order[..k]) && Keys(order[..k + 1]) == Keys(order[..k]) + {order[k]}
  {
    assert order[..k + 1] == order[..k] + [order[k]];
  }

  lemma PackEnds(r: seq<nat>, weights: seq<nat>, order: seq<nat>, sizes: map<nat, nat>, w: nat,
                 files: seq<seq<nat>>, fileSizes: seq<nat>)
    requires PackedTo(r, weights, order, sizes, w, |order|, files, fileSizes)
    ensures Weighed(files, fileSizes, weights) && (Heaviest(order, sizes, w) ==> Even(fileSizes, w))
    ensures Packed(r, files, Keys(order)) && (Descending(order, sizes) ==> Halved(r, files, fileSizes))
  {
    assert order[..|order|] == order;
    hide Packed;
    hide Halved;
    hide Even;
    hide Weighed;
    hide Descending;
    hide Heaviest;
    hide Keys;
  }

  lemma NothingHalved(r: seq<nat>, files: seq<seq<nat>>, sizes: seq<nat>)
    requires |files| == |sizes| && (forall f :: 0 <= f < |files| ==> files[f] == [] && sizes[f] == 0)
    ensures Halved(r, files, sizes) && forall x: nat :: AtLeast(files, sizes, x)
  {}

  lemma LighterNext(files: seq<seq<nat>>, sizes: seq<nat>, x: nat, y: nat)
    requires AtLeast(files, sizes, x) && y <= x
    ensures AtLeast(files, sizes, y)
  {}

  lemma PackNothing(r: seq<nat>, files: seq<seq<nat>>, sizes: seq<nat>, weights: seq<nat>, w: nat)
    requires |files| == |sizes| && (forall f :: 0 <= f < |files| ==> files[f] == [] && sizes[f] == 0)
    ensures Packed(r, files, {}) && Weighed(files, sizes, weights) && Even(sizes, w)
  {
    forall i: nat ensures Copies(files, i) == 0 { NoCopies(files, i); }
  }

  lemma {:induction false} NoCopies(files: seq<seq<nat>>, x: nat)
    requires forall f :: 0 <= f < |files| ==> files[f] == []
    ensures Copies(files, x) == 0
  {
    if files == [] {
    } else {
      NoCopies(files[1..], x);
    }
  }

  /** The split: every function is in exactly one file, with everything it is linked to, and no two files differ in
      weight by more than `w`, for any bound `w` on the weight of a group of linked functions. Because the heaviest
      groups are placed first, a file with more than one group is at most twice as heavy as any other. A source with
      fewer functions than files is left alone. */
  method Split(weights: seq<nat>, deps: seq<seq<nat>>, chunks: nat, coins: (nat, nat) -> bool, ghost w: nat)
    returns (ok: bool, files: seq<seq<nat>>, sizes: seq<nat>, ghost r: seq<nat>)
    requires chunks > 0
    requires forall k, i :: 0 <= k < |deps| && 0 <= i < |deps[k]| ==> deps[k][i] < |weights|
    ensures ok == (|weights| >= chunks)
    ensures ok ==> |files| == chunks && Weighed(files, sizes, weights) && |r| == |weights|
    ensures ok ==> forall x, y :: 0 <= x < |r| && 0 <= y < |r| ==> (r[x] == r[y] <==> Linked(deps, x, y))
    ensures ok ==> forall i: nat :: Copies(files, i) == if i < |weights| then 1 else 0
    ensures ok ==> forall f, i: nat, j: nat :: 0 <= f < |files| && i in files[f] && i < |r| && j < |r| && r[j] == r[i] ==>
                                                 j in files[f]
    ensures ok && (forall i :: 0 <= i < |r| ==> Weight(Members(r, |r|, r[i]), weights) <= w) ==> Even(sizes, w)
    ensures ok ==> Halved(r, files, sizes)
  {
    if |weights| < chunks {
      return false, [], [], [];
    }
    hide *;
    var sorted, groups, setSizes;
    sorted, groups, setSizes, r := Prepare(weights, deps, coins);
    files, sizes := Pack(r, weights, sorted, groups, setSizes, chunks, w);
    PackedAll(r, files, sorted);
    if forall i :: 0 <= i < |r| ==> Weight(Members(r, |r|, r[i]), weights) <= w {
      HeaviestGroup(r, weights, sorted, w);
    }
    ok := true;
  }

  /** The groups of linked functions, heaviest first. */
  method Prepare(weights: seq<nat>, deps: seq<seq<nat>>, coins: (nat, nat) -> bool)
    returns (sorted: seq<nat>, groups: map<nat, seq<nat>>, sizes: map<nat, nat>, ghost r: seq<nat>)
    requires forall k, i :: 0 <= k < |deps| && 0 <= i < |deps[k]| ==> deps[k][i] < |weights|
    ensures |r| == |weights| && forall x, y :: 0 <= x < |r| && 0 <= y < |r| ==> (r[x] == r[y] <==> Linked(deps, x, y))
    ensures groups == GroupsOf(r, |r|) && sizes == SizesOf(r, |r|, weights)
    ensures Rearranged(sorted, OrderOf(r, |r|)) && Descending(sorted, sizes)
  {
    hide *;
    var sets := Group(|weights|, deps, coins);
    r := sets.Roots();
    SameGroups(deps, r);
    var order;
    order, groups, sizes := Collect(sets, weights);
    OrderOk(r, weights);
    sorted := SortDescending(order, sizes);
  }

  lemma SameGroups(deps: seq<seq<nat>>, r: seq<nat>)
    requires Honest(deps, r) && forall k :: 0 <= k < |deps| ==> Together(deps[k], r)
    ensures forall x, y :: 0 <= x < |r| && 0 <= y < |r| ==> (r[x] == r[y] <==> Linked(deps, x, y))
  {
    hide *;
    forall x, y | 0 <= x < |r| && 0 <= y < |r| ensures r[x] == r[y] <==> Linked(deps, x, y) {
      RootsAreGroups(deps, r, x, y);
    }
  }

  lemma OrderOk(r: seq<nat>, weights: seq<nat>)
    requires |r| == |weights|
    ensures NoRepeats(OrderOf(r, |r|)) && forall c :: c in OrderOf(r, |r|) ==> c in SizesOf(r, |r|, weights)
  {
    hide *;
    CollectedIs(r, |r|, weights, 0);
    forall c ensures c in OrderOf(r, |r|) ==> c in SizesOf(r, |r|, weights) { CollectedIs(r, |r|, weights, c); }
  }

  lemma {:induction false} OrderIsRoots(r: seq<nat>, i: nat, c: nat)
    requires i <= |r| && c in OrderOf(r, i)
    ensures exists j :: 0 <= j < i && r[j] == c
  {
    if c in OrderOf(r, i - 1) {
      OrderIsRoots(r, i - 1, c);
    } else {
      assert r[i - 1] == c;
    }
  }

  lemma HeaviestGroup(r: seq<nat>, weights: seq<nat>, order: seq<nat>, w: nat)
    requires |r| == |weights| && Rearranged(order, OrderOf(r, |r|))
    requires forall i :: 0 <= i < |r| ==> Weight(Members(r, |r|, r[i]), weights) <= w
    ensures Heaviest(order, SizesOf(r, |r|, weights), w)
  {
    hide Weight;
    hide Members;
    hide OrderOf;
    hide SizesOf;
    forall c | c in order && c in SizesOf(r, |r|, weights) ensures SizesOf(r, |r|, weights)[c] <= w {
      CollectedIs(r, |r|, weights, c);
      OrderIsRoots(r, |r|, c);
    }
  }

  lemma PackedAll(r: seq<nat>, files: seq<seq<nat>>, order: seq<nat>)
    requires Rearranged(order, OrderOf(r, |r|)) && Packed(r, files, Keys(order))
    ensures forall i: nat :: Copies(files, i) == if i < |r| then 1 else 0
    ensures forall f, i: nat, j: nat :: 0 <= f < |files| && i in files[f] && i < |r| && j < |r| && r[j] == r[i] ==>
                                          j in files[f]
  {
    hide Copies;
    hide OrderOf;
    forall i: nat | i < |r| ensures r[i] in order { EveryRootCollected(r, |r|, i); }
  }
}
