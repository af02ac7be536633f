/** The generated fetch code tells apart inputs whose difference it reads (td/tl/tl_object_parse.h). */
module TlSeparation {
  import opened Bytes
  import opened TlPrimitives
  import opened TlSchema
  import opened TlCode

  /** `a` and `b` agree on whole words up to `j`. Their next bytes differ, and neither starts a long string. */
  ghost predicate Part(a: seq<byte>, b: seq<byte>, j: nat) {
    j % 4 == 0 && j < |a| && j < |b| && a[..j] == b[..j] && a[j] != b[j] && a[j] < 254 && b[j] < 254
  }

  /** `r` and `q` are left of them by a reader that took the same words from both and stopped before the difference. */
  ghost predicate Before(a: seq<byte>, b: seq<byte>, j: nat, r: seq<byte>, q: seq<byte>) {
    |r| <= |a| &&
    var c := |a| - |r|;
    c <= j && c % 4 == 0 && c <= |b| && r == a[c..] && q == b[c..]
  }

  lemma PartRest(a: seq<byte>, b: seq<byte>, j: nat, c: nat)
    requires Part(a, b, j) && c <= j && c % 4 == 0
    ensures Part(a[c..], b[c..], j - c)
  {
    assert a[c..][..j - c] == a[..j][c..] && b[c..][..j - c] == b[..j][c..];
  }

  lemma BeforeThen(a: seq<byte>, b: seq<byte>, j: nat, r: seq<byte>, q: seq<byte>, r': seq<byte>, q': seq<byte>)
    requires Part(a, b, j) && Before(a, b, j, r, q) && Before(r, q, j - (|a| - |r|), r', q')
    ensures Before(a, b, j, r', q')
  {
    var c, d := |a| - |r|, |r| - |r'|;
    assert a[c..][d..] == a[c + d..] && b[c..][d..] == b[c + d..];
  }

  lemma PartOfRest(a: seq<byte>, b: seq<byte>, j: nat, r: seq<byte>, q: seq<byte>)
    requires Part(a, b, j) && Before(a, b, j, r, q)
    ensures |a| - |r| <= j && Part(r, q, j - (|a| - |r|))
  {
    PartRest(a, b, j, |a| - |r|);
  }

  lemma Same(a: seq<byte>, b: seq<byte>, j: nat)
    requires Part(a, b, j)
    ensures Before(a, b, j, a, b)
  {
    assert a[0..] == a && b[0..] == b;
  }

  /** Words are equal numbers only if they are equal. */
  lemma SameWord(a: seq<byte>, b: seq<byte>)
    requires |a| == |b| && FromLe(a) == FromLe(b)
    ensures a == b
  {
    FromLeRoundTrip(a);
    FromLeRoundTrip(b);
  }

  lemma Differ(a: seq<byte>, b: seq<byte>, j: nat, at: nat, n: nat)
    requires at <= j < at + n && at + n <= |a| && at + n <= |b| && a[j] != b[j]
    ensures a[at..at + n] != b[at..at + n]
  {
    assert a[at..at + n][j - at] == a[j] && b[at..at + n][j - at] == b[j];
  }

  /** Taking the same bytes of both stops before the difference. */
  lemma TakeSeparates(a: seq<byte>, b: seq<byte>, j: nat, n: nat)
    requires Part(a, b, j) && n % 4 == 0 && Take(a, n).Some? && Take(b, n).Some?
    requires Take(a, n).value.0 == Take(b, n).value.0
    ensures n <= j && Before(a, b, j, Take(a, n).value.1, Take(b, n).value.1)
  {
    if j < n {
      Differ(a, b, j, 0, n);
    }
  }

  lemma BinarySeparates(a: seq<byte>, b: seq<byte>, j: nat, n: nat)
    requires Part(a, b, j) && n % 4 == 0 && Binary(a, n).Some? && Binary(b, n).Some?
    requires Binary(a, n).value.0 == Binary(b, n).value.0
    ensures Before(a, b, j, Binary(a, n).value.1, Binary(b, n).value.1)
  {
    TakeSeparates(a, b, j, n);
  }

  lemma CutSeparates(a: seq<byte>, b: seq<byte>, j: nat, at: nat, n: nat, end: nat)
    requires Part(a, b, j) && at <= j && at + n <= end < at + n + 4 && end % 4 == 0
    requires Cut(a, at, n, end).Some? && Cut(b, at, n, end).Some? && Cut(a, at, n, end).value.0 == Cut(b, at, n, end).value.0
    ensures Before(a, b, j, Cut(a, at, n, end).value.1, Cut(b, at, n, end).value.1)
  {
    if j < end {
      Differ(a, b, j, at, n);
    }
  }

  lemma StringSeparates(a: seq<byte>, b: seq<byte>, j: nat)
    requires Part(a, b, j) && TlPrimitives.FetchString(a).Some? && TlPrimitives.FetchString(b).Some?
    requires TlPrimitives.FetchString(a).value.0 == TlPrimitives.FetchString(b).value.0
    ensures Before(a, b, j, TlPrimitives.FetchString(a).value.1, TlPrimitives.FetchString(b).value.1)
  {
    hide *;
    StringIs(a);
    StringIs(b);
    FirstWord(a, b, j);
    var n := |TlPrimitives.FetchString(a).value.0|;
    if a[0] >= 254 {
      LongPrefix(a, b, j);
    }
    CutSeparates(a, b, j, StringAt(a[0]), n, StringEnd(a[0], n));
  }

  /** Where the string starts and where the next word does, given the first byte. */
  function StringAt(first: byte): nat { if first < 254 then 1 else if first == 254 then 4 else 8 }

  function StringEnd(first: byte, n: nat): (r: nat)
    ensures StringAt(first) + n <= r < StringAt(first) + n + 4 && r % 4 == 0
  {
    if first < 254 then 4 + n / 4 * 4 else StringAt(first) + (n + 3) / 4 * 4
  }

  lemma StringIs(a: seq<byte>)
    requires TlPrimitives.FetchString(a).Some?
    ensures |a| >= 4
    ensures var r := TlPrimitives.FetchString(a);
            var n := |r.value.0|;
            r == Cut(a, StringAt(a[0]), n, StringEnd(a[0], n)) && (a[0] < 254 ==> n == a[0]) &&
            (a[0] == 255 ==> |a| >= 8 && n == FromLe(a[1..8]))
  {
    hide FromLe;
  }

  /** Strings of equal length that start alike: the difference is behind the first word. */
  lemma FirstWord(a: seq<byte>, b: seq<byte>, j: nat)
    requires Part(a, b, j) && (a[0] < 254 && b[0] < 254 ==> a[0] == b[0])
    ensures j >= 4 && a[0] == b[0] && StringAt(a[0]) <= j + 4 && (a[0] < 255 ==> StringAt(a[0]) <= j)
  {
    if j > 0 {
      assert a[..j][0] == a[0] && b[..j][0] == b[0];
    }
  }

  /** And behind the second when that holds the length. */
  lemma LongPrefix(a: seq<byte>, b: seq<byte>, j: nat)
    requires Part(a, b, j) && j >= 4 && a[0] >= 254
    requires a[0] == 255 ==> |a| >= 8 && |b| >= 8 && FromLe(a[1..8]) == FromLe(b[1..8])
    ensures StringAt(a[0]) <= j
  {
    if a[0] == 255 {
      SameWord(a[1..8], b[1..8]);
      assert a[4] == a[1..8][3] && b[4] == b[1..8][3];
    }
  }

  // ------------------------------------------------------------ the combinators

  /** What the combinators leave when they read one value from both. */
  ghost predicate Separated<T>(a: seq<byte>, b: seq<byte>, j: nat, x: Option<(T, seq<byte>)>, y: Option<(T, seq<byte>)>) {
    x.Some? && y.Some? && x.value.0 == y.value.0 ==> Before(a, b, j, x.value.1, y.value.1)
  }

  /** Two inputs that differ at the start of a word are read as the same value only by a reader that stops before
      that word. */
  lemma {:induction false} GetSeparates(sch: Schema, fuel: nat, f: Fetch, a: seq<byte>, b: seq<byte>, j: nat)
    requires Part(a, b, j)
    ensures Separated(a, b, j, Get(sch, fuel, f, a), Get(sch, fuel, f, b))
    decreases 2 * fuel, f, 1, 0
  {
    if Get(sch, fuel, f, a).Some? && Get(sch, fuel, f, b).Some? &&
       Get(sch, fuel, f, a).value.0 == Get(sch, fuel, f, b).value.0 {
      match f
      case FetchVector(e) => VectorSeparates(sch, fuel, e, a, b, j);
      case FetchBoxed(g, id) => BoxedSeparates(sch, fuel, g, id, a, b, j);
      case FetchObject(n) => ObjectSeparates(sch, fuel, n, a, b, j);
      case _ => LeafSeparates(sch, fuel, f, a, b, j);
    }
    hide *;
  }

  lemma LeafSeparates(sch: Schema, fuel: nat, f: Fetch, a: seq<byte>, b: seq<byte>, j: nat)
    requires Part(a, b, j) && !f.FetchVector? && !f.FetchBoxed? && !f.FetchObject?
    requires Get(sch, fuel, f, a).Some? && Get(sch, fuel, f, b).Some?
    requires Get(sch, fuel, f, a).value.0 == Get(sch, fuel, f, b).value.0
    ensures Before(a, b, j, Get(sch, fuel, f, a).value.1, Get(sch, fuel, f, b).value.1)
  {
    hide Before;
    hide Part;
    match f
    case FetchInt => BinarySeparates(a, b, j, 4);
    case FetchLong => BinarySeparates(a, b, j, 8);
    case FetchDouble => BinarySeparates(a, b, j, 8);
    case FetchInt128 => BinarySeparates(a, b, j, 16);
    case FetchInt256 => BinarySeparates(a, b, j, 32);
    case FetchTrue => Same(a, b, j);
    case FetchBool =>
      SameWord(Take(a, 4).value.0, Take(b, 4).value.0);
      TakeSeparates(a, b, j, 4);
    case FetchString => StringSeparates(a, b, j);
    case FetchBytes => StringSeparates(a, b, j);
  }

  /** Reading an equal number from both leaves rests that differ at the start of a word. */
  lemma WordSeparates(a: seq<byte>, b: seq<byte>, j: nat)
    requires Part(a, b, j) && Take(a, 4).Some? && Take(b, 4).Some?
    requires FromLe(Take(a, 4).value.0) == FromLe(Take(b, 4).value.0)
    ensures var r, q := Take(a, 4).value.1, Take(b, 4).value.1;
            j >= 4 && |a| - |r| == 4 && Before(a, b, j, r, q) && Part(r, q, j - 4)
  {
    SameWord(Take(a, 4).value.0, Take(b, 4).value.0);
    TakeSeparates(a, b, j, 4);
    PartRest(a, b, j, 4);
  }

  lemma {:induction false} BoxedSeparates(sch: Schema, fuel: nat, g: Fetch, id: uint32, a: seq<byte>, b: seq<byte>, j: nat)
    requires Part(a, b, j)
    ensures Separated(a, b, j, Get(sch, fuel, FetchBoxed(g, id), a), Get(sch, fuel, FetchBoxed(g, id), b))
    decreases 2 * fuel, FetchBoxed(g, id), 0, 0
  {
    var x, y := Take(a, 4), Take(b, 4);
    if x.Some? && y.Some? && FromLe(x.value.0) == id && FromLe(y.value.0) == id {
      WordSeparates(a, b, j);
      var r, q := x.value.1, y.value.1;
      GetSeparates(sch, fuel, g, r, q, j - 4);
      BoxedIs(sch, fuel, g, id, a);
      BoxedIs(sch, fuel, g, id, b);
      hide *;
      SeparatedThen(a, b, j, r, q, Get(sch, fuel, g, r), Get(sch, fuel, g, q));
    }
  }

  lemma BoxedIs(sch: Schema, fuel: nat, g: Fetch, id: uint32, a: seq<byte>)
    requires Take(a, 4).Some? && FromLe(Take(a, 4).value.0) == id
    ensures Get(sch, fuel, FetchBoxed(g, id), a) == Get(sch, fuel, g, Take(a, 4).value.1)
  {}

  lemma SeparatedThen<T>(a: seq<byte>, b: seq<byte>, j: nat, r: seq<byte>, q: seq<byte>, x: Option<(T, seq<byte>)>,
                         y: Option<(T, seq<byte>)>)
    requires Part(a, b, j) && Before(a, b, j, r, q) && Separated(r, q, j - (|a| - |r|), x, y)
    ensures Separated(a, b, j, x, y)
  {
    hide Part;
    if x.Some? && y.Some? && x.value.0 == y.value.0 {
      BeforeThen(a, b, j, r, q, x.value.1, y.value.1);
    }
    hide Before;
  }

  lemma {:induction false} VectorSeparates(sch: Schema, fuel: nat, e: Fetch, a: seq<byte>, b: seq<byte>, j: nat)
    requires Part(a, b, j)
    ensures Separated(a, b, j, Get(sch, fuel, FetchVector(e), a), Get(sch, fuel, FetchVector(e), b))
    decreases 2 * fuel, FetchVector(e), 0, 0
  {
    var x, y := Get(sch, fuel, FetchVector(e), a), Get(sch, fuel, FetchVector(e), b);
    if x.Some? && y.Some? && x.value.0 == y.value.0 {
      VectorIs(sch, fuel, e, a);
      VectorIs(sch, fuel, e, b);
      WordSeparates(a, b, j);
      var r, q := Take(a, 4).value.1, Take(b, 4).value.1;
      var n := FromLe(Take(a, 4).value.0);
      ManySeparates(sch, fuel, e, n, r, q, j - 4);
      hide *;
      SeparatedThen(a, b, j, r, q, GetMany(sch, fuel, e, n, r), GetMany(sch, fuel, e, n, q));
      SeparatedMeans(a, b, j, GetMany(sch, fuel, e, n, r), GetMany(sch, fuel, e, n, q));
      SeparatedIf(a, b, j, x, y);
    } else {
      hide *;
      NotSeparated(a, b, j, x, y);
    }
  }

  lemma SeparatedMeans<T>(a: seq<byte>, b: seq<byte>, j: nat, x: Option<(T, seq<byte>)>, y: Option<(T, seq<byte>)>)
    requires Separated(a, b, j, x, y) && x.Some? && y.Some? && x.value.0 == y.value.0
    ensures Before(a, b, j, x.value.1, y.value.1)
  {}

  lemma SeparatedIf<T>(a: seq<byte>, b: seq<byte>, j: nat, x: Option<(T, seq<byte>)>, y: Option<(T, seq<byte>)>)
    requires x.Some? && y.Some? && Before(a, b, j, x.value.1, y.value.1)
    ensures Separated(a, b, j, x, y)
  {}

  lemma NotSeparated<T>(a: seq<byte>, b: seq<byte>, j: nat, x: Option<(T, seq<byte>)>, y: Option<(T, seq<byte>)>)
    requires !(x.Some? && y.Some? && x.value.0 == y.value.0)
    ensures Separated(a, b, j, x, y)
  {}

  lemma VectorIs(sch: Schema, fuel: nat, e: Fetch, a: seq<byte>)
    requires Get(sch, fuel, FetchVector(e), a).Some?
    ensures Take(a, 4).Some?
    ensures var n := FromLe(Take(a, 4).value.0);
            var m, v := GetMany(sch, fuel, e, n, Take(a, 4).value.1), Get(sch, fuel, FetchVector(e), a).value;
            m.Some? && v == (Many(m.value.0), m.value.1) && |m.value.0| == n
  {
    hide Take;
    hide GetMany;
    ManyLength(sch, fuel, e, FromLe(Take(a, 4).value.0), Take(a, 4).value.1);
  }

  lemma {:induction false} ManyLength(sch: Schema, fuel: nat, e: Fetch, n: nat, a: seq<byte>)
    ensures GetMany(sch, fuel, e, n, a).Some? ==> |GetMany(sch, fuel, e, n, a).value.0| == n
    decreases n
  {
    hide Get;
    if n == 0 {
    } else {
      var r := Get(sch, fuel, e, a);
      if r.Some? {
        ManyLength(sch, fuel, e, n - 1, r.value.1);
      }
    }
  }

  lemma {:induction false} ManySeparates(sch: Schema, fuel: nat, e: Fetch, n: nat, a: seq<byte>, b: seq<byte>, j: nat)
    requires Part(a, b, j)
    ensures Separated(a, b, j, GetMany(sch, fuel, e, n, a), GetMany(sch, fuel, e, n, b))
    decreases 2 * fuel, e, 2, n
  {
    hide Get;
    hide Before;
    hide Part;
    if n == 0 {
      Same(a, b, j);
    } else {
      var x, y := GetMany(sch, fuel, e, n, a), GetMany(sch, fuel, e, n, b);
      var v, w := Get(sch, fuel, e, a), Get(sch, fuel, e, b);
      if x.Some? && y.Some? && x.value.0 == y.value.0 {
        assert x.value.0[0] == v.value.0 && y.value.0[0] == w.value.0;
        GetSeparates(sch, fuel, e, a, b, j);
        PartOfRest(a, b, j, v.value.1, w.value.1);
        var k := j - (|a| - |v.value.1|);
        var more, others := GetMany(sch, fuel, e, n - 1, v.value.1), GetMany(sch, fuel, e, n - 1, w.value.1);
        assert more.value.0 == x.value.0[1..] && others.value.0 == y.value.0[1..];
        ManySeparates(sch, fuel, e, n - 1, v.value.1, w.value.1, k);
        BeforeThen(a, b, j, v.value.1, w.value.1, x.value.1, y.value.1);
      }
    }
  }

  // ------------------------------------------------------------ objects

  lemma {:induction false} CaseIs(cs: seq<Ctor>, id: nat)
    ensures Case(cs, id).Some? ==> cs[Case(cs, id).value].id == id
  {
    if cs == [] {
    } else {
      CaseIs(cs[..|cs| - 1], id);
    }
  }

  lemma {:induction false} ObjectSeparates(sch: Schema, fuel: nat, n: nat, a: seq<byte>, b: seq<byte>, j: nat)
    requires Part(a, b, j)
    ensures Separated(a, b, j, Get(sch, fuel, FetchObject(n), a), Get(sch, fuel, FetchObject(n), b))
    decreases 2 * fuel, FetchObject(n), 0, 0
  {
    hide *;
    var x, y := Get(sch, fuel, FetchObject(n), a), Get(sch, fuel, FetchObject(n), b);
    if x.Some? && y.Some? && x.value.0 == y.value.0 {
      ObjectIs(sch, fuel, n, a);
      ObjectIs(sch, fuel, n, b);
      if sch[n].IsBare() {
        ConstructorSeparates(sch, fuel - 1, n, Sole(sch[n].constructors), a, b, j);
      } else {
        CaseIs(sch[n].constructors, FromLe(Take(a, 4).value.0));
        CaseIs(sch[n].constructors, FromLe(Take(b, 4).value.0));
        WordSeparates(a, b, j);
        var r, q := Take(a, 4).value.1, Take(b, 4).value.1;
        ConstructorSeparates(sch, fuel - 1, n, Case(sch[n].constructors, FromLe(Take(a, 4).value.0)), r, q, j - 4);
        SeparatedThen(a, b, j, r, q, x, y);
      }
    } else {
      NotSeparated(a, b, j, x, y);
    }
  }

  /** An object is fetched by the code of its constructor. */
  lemma ObjectIs(sch: Schema, fuel: nat, n: nat, a: seq<byte>)
    requires Get(sch, fuel, FetchObject(n), a).Some?
    ensures n < |sch| && fuel > 0 && Get(sch, fuel, FetchObject(n), a).value.0.Object?
    ensures var v := Get(sch, fuel, FetchObject(n), a);
            if sch[n].IsBare() then v == GetObject(sch, fuel - 1, n, Sole(sch[n].constructors), a)
            else
              Take(a, 4).Some? && Case(sch[n].constructors, FromLe(Take(a, 4).value.0)) == Some(v.value.0.ctor) &&
              v == GetObject(sch, fuel - 1, n, Case(sch[n].constructors, FromLe(Take(a, 4).value.0)), Take(a, 4).value.1)
  {
    hide GetFields;
    hide Case;
    hide Sole;
    hide FetchCodeOf;
    hide Count;
  }

  lemma {:induction false} ConstructorSeparates(sch: Schema, fuel: nat, n: nat, c: Option<nat>, a: seq<byte>, b: seq<byte>,
                                                j: nat)
    requires Part(a, b, j) && n < |sch|
    ensures Separated(a, b, j, GetObject(sch, fuel, n, c, a), GetObject(sch, fuel, n, c, b))
    decreases 2 * fuel + 1, FetchInt, 1, 0
  {
    if c.Some? && FetchCodeOf(sch, n, c.value).Some? {
      FieldsSeparate(sch, fuel, FetchCodeOf(sch, n, c.value).value, Cleared(sch[n].constructors[c.value].varCount), a, b, j);
    }
    hide GetFields;
    hide Before;
    hide Part;
  }

  lemma {:induction false} FieldsSeparate(sch: Schema, fuel: nat, code: seq<FetchField>, env: seq<nat>, a: seq<byte>,
                                          b: seq<byte>, j: nat)
    requires Part(a, b, j)
    ensures Separated(a, b, j, GetFields(sch, fuel, code, env, a), GetFields(sch, fuel, code, env, b))
    decreases 2 * fuel + 1, FetchInt, 0, |code|
  {
    hide Get;
    hide Before;
    hide Part;
    hide Present;
    hide Set;
    if code == [] {
      Same(a, b, j);
    } else {
      var c := code[0];
      var x, y := GetFields(sch, fuel, code, env, a), GetFields(sch, fuel, code, env, b);
      if x.Some? && y.Some? && x.value.0 == y.value.0 {
        if !Present(c.cond, env) {
          var more := Set(c.keep, env, 0);
          FieldsSeparate(sch, fuel, code[1..], more, a, b, j);
          var p, q := GetFields(sch, fuel, code[1..], more, a), GetFields(sch, fuel, code[1..], more, b);
          assert p.value.0 == x.value.0[1..] && q.value.0 == y.value.0[1..];
        } else {
          var v, w := Get(sch, fuel, c.fetch, a), Get(sch, fuel, c.fetch, b);
          assert x.value.0[0] == v.value.0 && y.value.0[0] == w.value.0;
          GetSeparates(sch, fuel, c.fetch, a, b, j);
          PartOfRest(a, b, j, v.value.1, w.value.1);
          var more := Set(c.keep, env, Number(v.value.0));
          var p, q := GetFields(sch, fuel, code[1..], more, v.value.1), GetFields(sch, fuel, code[1..], more, w.value.1);
          assert p.value.0 == x.value.0[1..] && q.value.0 == y.value.0[1..];
          FieldsSeparate(sch, fuel, code[1..], more, v.value.1, w.value.1, j - (|a| - |v.value.1|));
          BeforeThen(a, b, j, v.value.1, w.value.1, x.value.1, y.value.1);
        }
      }
    }
  }
}
