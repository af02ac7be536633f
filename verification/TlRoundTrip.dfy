/** Fetching what was stored, for every schema that the TL compiler accepts and every object of it. */
module TlRoundTrip {
  import opened Bytes
  import opened TlPrimitives
  import opened TlSchema
  import opened TlCode

  /** Every supported constructor passes the writer's asserts, has no improper argument, and its identifier is not
      used twice in its type (the generated switch would not compile). */
  ghost predicate Compiles(sch: Schema) {
    (forall n, c :: 0 <= n < |sch| && 0 <= c < |sch[n].constructors| && sch[n].constructors[c].supported ==>
                      CtorOk(sch, n, c)) &&
    forall n :: 0 <= n < |sch| ==> Distinct(sch[n].constructors)
  }

  ghost predicate CtorOk(sch: Schema, n: nat, c: nat)
    requires n < |sch| && c < |sch[n].constructors|
  {
    FetchCodeOf(sch, n, c).Some? && StoreCodeOf(sch, n, c).Some? &&
    forall i :: 0 <= i < |sch[n].constructors[c].args| ==> Proper(sch, sch[n].constructors[c].args[i])
  }

  ghost predicate Distinct(cs: seq<Ctor>) {
    forall i, j :: 0 <= i < j < |cs| && cs[i].supported && cs[j].supported ==> cs[i].id != cs[j].id
  }

  /** A value that the C++ types allow for this combinator. The fields of an object are there exactly when their
      flag bits say so. */
  ghost predicate HasType(sch: Schema, f: Fetch, v: Value)
    decreases v, 1, f
  {
    match f
    case FetchInt => v.Raw? && |v.bytes| == 4
    case FetchLong => v.Raw? && |v.bytes| == 8
    case FetchDouble => v.Raw? && |v.bytes| == 8
    case FetchInt128 => v.Raw? && |v.bytes| == 16
    case FetchInt256 => v.Raw? && |v.bytes| == 32
    case FetchTrue => v == Flag(true)
    case FetchBool => v.Flag?
    case FetchString => v.Text? && |v.bytes| < 0x1_0000_0000
    case FetchBytes => v.Text? && |v.bytes| < 0x1_0000_0000
    case FetchVector(e) =>
      v.Many? && |v.items| < 0x8000_0000 && forall i :: 0 <= i < |v.items| ==> HasType(sch, e, v.items[i])
    case FetchBoxed(g, _) => HasType(sch, g, v)
    case FetchObject(n) =>
      v.Object? && v.type_ == n < |sch| && v.ctor < |sch[n].constructors| &&
      sch[n].constructors[v.ctor].supported && FetchCodeOf(sch, n, v.ctor).Some? &&
      FieldsTyped(sch, FetchCodeOf(sch, n, v.ctor).value, Cleared(sch[n].constructors[v.ctor].varCount), v.fields)
  }

  ghost predicate FieldsTyped(sch: Schema, code: seq<FetchField>, env: seq<nat>, fields: seq<Value>)
    decreases fields, 0
  {
    if code == [] || fields == [] then code == [] && fields == []
    else if Present(code[0].cond, env) then
      HasType(sch, code[0].fetch, fields[0]) &&
      FieldsTyped(sch, code[1..], Set(code[0].keep, env, Number(fields[0])), fields[1..])
    else fields[0] == Absent && FieldsTyped(sch, code[1..], Set(code[0].keep, env, 0), fields[1..])
  }

  ghost function Depth(v: Value): nat
    decreases v, 0
  {
    match v
    case Many(items) => DepthOf(items)
    case Object(_, _, fields) => 1 + DepthOf(fields)
    case _ => 0
  }

  ghost function DepthOf(vs: seq<Value>): nat
    decreases vs
  {
    if vs == [] then 0
    else
      var a, b := Depth(vs[0]), DepthOf(vs[1..]);
      if a > b then a else b
  }

  function Size(r: Option<seq<byte>>): nat { if r.None? then 0 else |r.value| }

  /** The exact condition for reading back a value followed by `k` more bytes: every vector announces no more
      elements than there are bytes after its length, and every # is non-negative. */
  ghost predicate Fits(sch: Schema, s: Store, v: Value, k: nat)
    decreases v, 1, s
  {
    match s
    case StoreVector(e) =>
      v.Many? && |v.items| <= Size(PutMany(sch, ZEROED, [], e, v.items)) + k && FitsMany(sch, e, v.items, k)
    case StoreObject =>
      v.Object? && StoreCodeOf(sch, v.type_, v.ctor).Some? &&
      FitsFields(sch, StoreCodeOf(sch, v.type_, v.ctor).value,
                 Unassigned(sch[v.type_].constructors[v.ctor].varCount), v.fields, k)
    case StoreBoxed(t, _) => Fits(sch, t, v, k)
    case StoreBoxedUnknown(t) => Fits(sch, t, v, k)
    case _ => true
  }

  ghost predicate FitsMany(sch: Schema, e: Store, items: seq<Value>, k: nat)
    decreases items, 0
  {
    items == [] ||
    (Fits(sch, e, items[0], Size(PutMany(sch, ZEROED, [], e, items[1..])) + k) && FitsMany(sch, e, items[1..], k))
  }

  ghost predicate FitsFields(sch: Schema, code: seq<StoreField>, env: seq<Option<nat>>, fields: seq<Value>, k: nat)
    decreases fields, 0
  {
    if code == [] || fields == [] then true
    else if code[0].Skip? || !Taken(code[0].cond, ZEROED, [], env) then FitsFields(sch, code[1..], env, fields[1..], k)
    else
      var after := Assign(code[0].keep, env, Number(fields[0]));
      Fits(sch, code[0].store, fields[0], Size(PutFields(sch, ZEROED, [], code[1..], after, fields[1..])) + k) &&
      (code[0].keep.Into? ==> Number(fields[0]) < 0x8000_0000) && FitsFields(sch, code[1..], after, fields[1..], k)
  }

  /** The exact condition for storing the same bytes whatever the unassigned variables hold: no field is stored
      under a test of a variable whose own # is not there. */
  ghost predicate Determined(sch: Schema, s: Store, v: Value)
    decreases v, 1, s
  {
    match s
    case StoreVector(e) => v.Many? ==> DeterminedMany(sch, e, v.items)
    case StoreObject =>
      v.Object? && StoreCodeOf(sch, v.type_, v.ctor).Some? ==>
        DeterminedFields(sch, StoreCodeOf(sch, v.type_, v.ctor).value,
                         Unassigned(sch[v.type_].constructors[v.ctor].varCount), v.fields)
    case StoreBoxed(t, _) => Determined(sch, t, v)
    case StoreBoxedUnknown(t) => Determined(sch, t, v)
    case _ => true
  }

  ghost predicate DeterminedMany(sch: Schema, e: Store, items: seq<Value>)
    decreases items, 0
  {
    items == [] || (Determined(sch, e, items[0]) && DeterminedMany(sch, e, items[1..]))
  }

  ghost predicate DeterminedFields(sch: Schema, code: seq<StoreField>, env: seq<Option<nat>>, fields: seq<Value>)
    decreases fields, 0
  {
    if code == [] || fields == [] then true
    else if code[0].Skip? then DeterminedFields(sch, code[1..], env, fields[1..])
    else
      Assigned(code[0].cond, env) &&
      if !Taken(code[0].cond, ZEROED, [], env) then DeterminedFields(sch, code[1..], env, fields[1..])
      else
        Determined(sch, code[0].store, fields[0]) &&
        DeterminedFields(sch, code[1..], Assign(code[0].keep, env, Number(fields[0])), fields[1..])
  }

  predicate Assigned(c: Cond, env: seq<Option<nat>>) { c.OnBit? && c.var_ < |env| ==> env[c.var_].Some? }

  // ------------------------------------------------------------ small facts

  lemma TakeAppended(a: seq<byte>, b: seq<byte>)
    ensures Take(a + b, |a|) == Some((a, b))
  {
    assert (a + b)[..|a|] == a && (a + b)[|a|..] == b;
  }

  lemma NumberAhead(n: uint32, b: seq<byte>, t: seq<byte>)
    ensures Take(Le(n, 4) + b + t, 4) == Some((Le(n, 4), b + t)) && FromLe(Le(n, 4)) == n
  {
    Le32RoundTrip(n);
    TakeAppended(Le(n, 4), b + t);
    assert Le(n, 4) + b + t == Le(n, 4) + (b + t);
  }

  lemma {:induction false} CaseFinds(cs: seq<Ctor>, c: nat)
    requires Distinct(cs) && c < |cs| && cs[c].supported
    ensures Case(cs, cs[c].id) == Some(c)
  {
    var n := |cs| - 1;
    if c < n {
      CaseFinds(cs[..n], c);
    } else {
      NoCase(cs[..n], cs[c].id);
    }
  }

  lemma {:induction false} NoCase(cs: seq<Ctor>, id: nat)
    requires forall i :: 0 <= i < |cs| && cs[i].supported ==> cs[i].id != id
    ensures Case(cs, id).None?
  {
    if cs == [] {
    } else {
      NoCase(cs[..|cs| - 1], id);
    }
  }

  lemma {:induction false} SoleFinds(cs: seq<Ctor>, c: nat)
    requires Count(cs) <= 1 && c < |cs| && cs[c].supported
    ensures Sole(cs) == Some(c)
  {
    var n := |cs| - 1;
    CountSplit(cs, n);
    assert cs[n..] == [cs[n]] && [cs[n]][1..] == [];
    if c < n {
      SoleFinds(cs[..n], c);
    } else {
      NoSole(cs[..n]);
    }
  }

  lemma {:induction false} NoSole(cs: seq<Ctor>)
    requires Count(cs) == 0
    ensures Sole(cs).None?
  {
    if cs == [] {
    } else {
      var n := |cs| - 1;
      CountSplit(cs, n);
      assert cs[n..] == [cs[n]] && [cs[n]][1..] == [];
      NoSole(cs[..n]);
    }
  }

  // ------------------------------------------------------------ unassigned variables

  lemma SameTest(c: Cond, u: Stale, at: seq<nat>, w: Stale, bt: seq<nat>, env: seq<Option<nat>>)
    requires Assigned(c, env)
    ensures Taken(c, u, at, env) == Taken(c, w, bt, env)
  {}

  /** A determined value is stored as the same bytes, whatever the unassigned variables hold. */
  lemma {:induction false} SameBytes(sch: Schema, u: Stale, at: seq<nat>, w: Stale, bt: seq<nat>, s: Store, v: Value)
    requires Determined(sch, s, v)
    ensures Put(sch, u, at, s, v) == Put(sch, w, bt, s, v)
    decreases v, 1, s
  {
    hide PutMany;
    hide PutFields;
    hide DeterminedMany;
    hide DeterminedFields;
    hide StoreCode;
    match s
    case StoreVector(e) =>
      if v.Many? {
        SameBytesMany(sch, u, at, w, bt, e, v.items);
      }
    case StoreObject =>
      if v.Object? && StoreCodeOf(sch, v.type_, v.ctor).Some? {
        SameBytesFields(sch, u, at, w, bt, StoreCodeOf(sch, v.type_, v.ctor).value,
                        Unassigned(sch[v.type_].constructors[v.ctor].varCount), v.fields);
      }
    case StoreBoxed(t, _) => SameBytes(sch, u, at, w, bt, t, v);
    case StoreBoxedUnknown(t) => SameBytes(sch, u, at, w, bt, t, v);
    case _ =>
  }

  lemma {:induction false} SameBytesMany(sch: Schema, u: Stale, at: seq<nat>, w: Stale, bt: seq<nat>, e: Store,
                                         items: seq<Value>)
    requires DeterminedMany(sch, e, items)
    ensures PutMany(sch, u, at, e, items) == PutMany(sch, w, bt, e, items)
    decreases items, 0
  {
    hide Put;
    hide Determined;
    if items == [] {
    } else {
      SameBytes(sch, u, at + [|items|], w, bt + [|items|], e, items[0]);
      SameBytesMany(sch, u, at, w, bt, e, items[1..]);
    }
  }

  lemma {:induction false} SameBytesFields(sch: Schema, u: Stale, at: seq<nat>, w: Stale, bt: seq<nat>,
                                           code: seq<StoreField>, env: seq<Option<nat>>, fields: seq<Value>)
    requires DeterminedFields(sch, code, env, fields)
    ensures PutFields(sch, u, at, code, env, fields) == PutFields(sch, w, bt, code, env, fields)
    decreases fields, 0
  {
    hide Put;
    hide Determined;
    hide Taken;
    hide Assigned;
    hide Assign;
    hide Number;
    if code == [] || fields == [] {
    } else if code[0].Skip? {
      SameBytesFields(sch, u, at, w, bt, code[1..], env, fields[1..]);
    } else {
      SameTest(code[0].cond, u, at, w, bt, env);
      SameTest(code[0].cond, u, at, ZEROED, [], env);
      if Taken(code[0].cond, u, at, env) {
        SameBytes(sch, u, at + [|fields|], w, bt + [|fields|], code[0].store, fields[0]);
        SameBytesFields(sch, u, at, w, bt, code[1..], Assign(code[0].keep, env, Number(fields[0])), fields[1..]);
      } else {
        SameBytesFields(sch, u, at, w, bt, code[1..], env, fields[1..]);
      }
    }
  }

  // ------------------------------------------------------------ round trip

  ghost predicate ReadsBack(sch: Schema, fuel: nat, u: Stale, at: seq<nat>, f: Fetch, s: Store, v: Value, t: seq<byte>) {
    var b := Put(sch, u, at, s, v);
    b.Some? && Get(sch, fuel, f, b.value + t) == if Fits(sch, s, v, |t|) then Some((v, t)) else None
  }

  /** What the generated code stores it fetches back, whatever its variables held before and leaving whatever
      follows, exactly when the value fits; else the parser reports an error. */
  lemma {:induction false} RoundTrip(sch: Schema, fuel: nat, u: Stale, at: seq<nat>, f: Fetch, s: Store, v: Value,
                                     t: seq<byte>)
    requires Compiles(sch) && Agree(sch, f, s) && HasType(sch, f, v) && fuel > Depth(v) && Determined(sch, s, v)
    ensures ReadsBack(sch, fuel, u, at, f, s, v, t)
    decreases v, 1, f
  {
    hide *;
    DepthIs(v);
    Shapes(sch, f, s, v);
    DeterminedParts(sch, s, v);
    match f
    case FetchBoxed(g, id) =>
      RoundTrip(sch, fuel, u, at, g, s.inner, v, t);
      BoxedReadsBack(sch, fuel, u, at, g, s.inner, id, v, t);
    case FetchVector(e) =>
      RoundTripMany(sch, fuel, u, at, e, s.item, v.items, t);
      SameBytesMany(sch, u, at, ZEROED, [], s.item, v.items);
      VectorReadsBack(sch, fuel, u, at, e, s.item, v, t);
    case FetchObject(n) =>
      RoundTripObject(sch, fuel, u, at, n, s, v, t);
    case _ => LeafReadsBack(sch, fuel, u, at, f, s, v, t);
  }

  lemma {:induction false} RoundTripObject(sch: Schema, fuel: nat, u: Stale, at: seq<nat>, n: nat, s: Store, v: Value,
                                           t: seq<byte>)
    requires Compiles(sch) && Agree(sch, FetchObject(n), s) && HasType(sch, FetchObject(n), v) && fuel > Depth(v)
    requires Determined(sch, s, v)
    ensures ReadsBack(sch, fuel, u, at, FetchObject(n), s, v, t)
    decreases v, 0
  {
    hide *;
    Shapes(sch, FetchObject(n), s, v);
    var c := sch[n].constructors[v.ctor];
    DepthIs(v);
    ObjectCodes(sch, n, v.ctor);
    ObjectDetermined(sch, n, s, v);
    NothingKnown(c.varCount);
    RoundTripFields(sch, fuel - 1, u, at, c.args, Unstored(c.varCount), Cleared(c.varCount), Unassigned(c.varCount),
                    v.fields, t);
    ObjectReadsBack(sch, fuel, u, at, n, s, v, t);
  }

  lemma NothingKnown(n: nat)
    ensures Known(Unstored(n), Cleared(n), Unassigned(n))
  {}

  /** What agreement and typing say about the parts. */
  lemma Shapes(sch: Schema, f: Fetch, s: Store, v: Value)
    requires Agree(sch, f, s) && HasType(sch, f, v)
    ensures match f
            case FetchBoxed(g, id) => s.StoreBoxed? && s.id == id && Agree(sch, g, s.inner) && HasType(sch, g, v)
            case FetchVector(e) =>
              s.StoreVector? && Agree(sch, e, s.item) && v.Many? && |v.items| < 0x8000_0000 &&
              (forall i :: 0 <= i < |v.items| ==> HasType(sch, e, v.items[i]))
            case FetchObject(n) =>
              v.Object? && v.type_ == n < |sch| && v.ctor < |sch[n].constructors| &&
              sch[n].constructors[v.ctor].supported && FetchCodeOf(sch, n, v.ctor).Some? &&
              FieldsTyped(sch, FetchCodeOf(sch, n, v.ctor).value, Cleared(sch[n].constructors[v.ctor].varCount), v.fields)
            case _ => true
  {
    hide FetchCodeOf;
    hide FieldsTyped;
  }

  lemma DeterminedParts(sch: Schema, s: Store, v: Value)
    ensures s.StoreBoxed? ==> Determined(sch, s, v) == Determined(sch, s.inner, v)
    ensures s.StoreVector? && v.Many? ==> Determined(sch, s, v) == DeterminedMany(sch, s.item, v.items)
  {
    hide DeterminedMany;
  }

  lemma ObjectDetermined(sch: Schema, n: nat, s: Store, v: Value)
    requires Agree(sch, FetchObject(n), s) && v.Object? && v.type_ == n && StoreCodeOf(sch, n, v.ctor).Some?
    ensures Determined(sch, s, v) ==
            DeterminedFields(sch, StoreCodeOf(sch, n, v.ctor).value,
                             Unassigned(sch[n].constructors[v.ctor].varCount), v.fields)
  {
    hide StoreCodeOf;
    hide DeterminedFields;
  }

  lemma DepthIs(v: Value)
    ensures v.Many? ==> Depth(v) == DepthOf(v.items)
    ensures v.Object? ==> Depth(v) == 1 + DepthOf(v.fields)
  {}

  lemma DepthSplit(vs: seq<Value>)
    requires vs != []
    ensures Depth(vs[0]) <= DepthOf(vs) && DepthOf(vs[1..]) <= DepthOf(vs)
  {}

  lemma ObjectCodes(sch: Schema, n: nat, c: nat)
    requires Compiles(sch) && n < |sch| && c < |sch[n].constructors| && sch[n].constructors[c].supported
    ensures var k := sch[n].constructors[c];
            FetchCodeOf(sch, n, c) == FetchCode(sch, k.args, Unstored(k.varCount)) && FetchCodeOf(sch, n, c).Some? &&
            StoreCodeOf(sch, n, c) == StoreCode(sch, k.args, Unstored(k.varCount)) && StoreCodeOf(sch, n, c).Some? &&
            (forall i :: 0 <= i < |k.args| ==> Proper(sch, k.args[i])) && Distinct(sch[n].constructors)
  {
    assert CtorOk(sch, n, c);
    hide FetchCode;
    hide StoreCode;
    hide Proper;
    hide Distinct;
  }

  lemma LeafReadsBack(sch: Schema, fuel: nat, u: Stale, at: seq<nat>, f: Fetch, s: Store, v: Value, t: seq<byte>)
    requires Agree(sch, f, s) && HasType(sch, f, v) && !f.FetchBoxed? && !f.FetchVector? && !f.FetchObject?
    ensures ReadsBack(sch, fuel, u, at, f, s, v, t)
  {
    if v.Raw? {
      TakeAppended(v.bytes, t);
    } else if v.Flag? {
      NumberAhead(if v.on then BOOL_TRUE else BOOL_FALSE, [], t);
      var b := Le(if v.on then BOOL_TRUE else BOOL_FALSE, 4);
      assert b + [] == b && [] + t == t;
    } else {
      StringRoundTrip(v.bytes, t);
    }
  }

  lemma BoxedReadsBack(sch: Schema, fuel: nat, u: Stale, at: seq<nat>, g: Fetch, s: Store, id: uint32, v: Value,
                       t: seq<byte>)
    requires ReadsBack(sch, fuel, u, at, g, s, v, t)
    ensures ReadsBack(sch, fuel, u, at, FetchBoxed(g, id), StoreBoxed(s, id), v, t)
  {
    hide Take;
    hide Le;
    hide FromLe;
    NumberAhead(id, Put(sch, u, at, s, v).value, t);
  }

  ghost predicate ManyReadBack(sch: Schema, fuel: nat, u: Stale, at: seq<nat>, f: Fetch, s: Store, vs: seq<Value>,
                               t: seq<byte>) {
    var b := PutMany(sch, u, at, s, vs);
    b.Some? && GetMany(sch, fuel, f, |vs|, b.value + t) == if FitsMany(sch, s, vs, |t|) then Some((vs, t)) else None
  }

  lemma VectorReadsBack(sch: Schema, fuel: nat, u: Stale, at: seq<nat>, e: Fetch, s: Store, v: Value, t: seq<byte>)
    requires v.Many? && |v.items| < 0x8000_0000 && ManyReadBack(sch, fuel, u, at, e, s, v.items, t)
    requires PutMany(sch, u, at, s, v.items) == PutMany(sch, ZEROED, [], s, v.items)
    ensures ReadsBack(sch, fuel, u, at, FetchVector(e), StoreVector(s), v, t)
  {
    hide Take;
    hide Le;
    hide FromLe;
    hide FitsMany;
    hide PutMany;
    hide GetMany;
    NumberAhead(|v.items|, PutMany(sch, u, at, s, v.items).value, t);
  }

  lemma {:induction false} RoundTripMany(sch: Schema, fuel: nat, u: Stale, at: seq<nat>, f: Fetch, s: Store,
                                         vs: seq<Value>, t: seq<byte>)
    requires Compiles(sch) && Agree(sch, f, s) && fuel > DepthOf(vs) && DeterminedMany(sch, s, vs)
    requires forall i :: 0 <= i < |vs| ==> HasType(sch, f, vs[i])
    ensures ManyReadBack(sch, fuel, u, at, f, s, vs, t)
    decreases vs, 0
  {
    hide Compiles;
    hide Agree;
    hide HasType;
    hide Determined;
    hide Get;
    hide Put;
    hide Fits;
    hide DepthOf;
    hide ReadsBack;
    if vs == [] {
      assert [] + t == t;
    } else {
      DepthSplit(vs);
      RoundTripMany(sch, fuel, u, at, f, s, vs[1..], t);
      SameBytesMany(sch, u, at, ZEROED, [], s, vs[1..]);
      RoundTrip(sch, fuel, u, at + [|vs|], f, s, vs[0], PutMany(sch, u, at, s, vs[1..]).value + t);
      hide PutMany;
      hide GetMany;
      hide FitsMany;
      ManyStep(sch, fuel, u, at, f, s, vs, t);
    }
  }

  lemma ManyStep(sch: Schema, fuel: nat, u: Stale, at: seq<nat>, f: Fetch, s: Store, vs: seq<Value>, t: seq<byte>)
    requires vs != [] && ManyReadBack(sch, fuel, u, at, f, s, vs[1..], t) && PutMany(sch, u, at, s, vs[1..]).Some?
    requires PutMany(sch, u, at, s, vs[1..]) == PutMany(sch, ZEROED, [], s, vs[1..])
    requires ReadsBack(sch, fuel, u, at + [|vs|], f, s, vs[0], PutMany(sch, u, at, s, vs[1..]).value + t)
    ensures ManyReadBack(sch, fuel, u, at, f, s, vs, t)
  {
    hide *;
    ManyIs(sch, fuel, u, at, f, s, vs[1..], t);
    ReadsBackIs(sch, fuel, u, at + [|vs|], f, s, vs[0], PutMany(sch, u, at, s, vs[1..]).value + t);
    ManyIs(sch, fuel, u, at, f, s, vs, t);
    PutManyStep(sch, u, at, s, vs);
    var a, b := Put(sch, u, at + [|vs|], s, vs[0]).value, PutMany(sch, u, at, s, vs[1..]).value;
    FitsManyStep(sch, s, vs, |t|);
    assert a + b + t == a + (b + t);
    GetManyStep(sch, fuel, f, |vs|, a + (b + t));
    assert [vs[0]] + vs[1..] == vs;
  }

  lemma ReadsBackIs(sch: Schema, fuel: nat, u: Stale, at: seq<nat>, f: Fetch, s: Store, v: Value, t: seq<byte>)
    requires ReadsBack(sch, fuel, u, at, f, s, v, t)
    ensures var b := Put(sch, u, at, s, v);
            b.Some? && Get(sch, fuel, f, b.value + t) == if Fits(sch, s, v, |t|) then Some((v, t)) else None
  {}

  lemma ManyIs(sch: Schema, fuel: nat, u: Stale, at: seq<nat>, f: Fetch, s: Store, vs: seq<Value>, t: seq<byte>)
    ensures var b := PutMany(sch, u, at, s, vs);
            ManyReadBack(sch, fuel, u, at, f, s, vs, t) <==>
            b.Some? && GetMany(sch, fuel, f, |vs|, b.value + t) == if FitsMany(sch, s, vs, |t|) then Some((vs, t)) else None
  {}

  lemma PutManyStep(sch: Schema, u: Stale, at: seq<nat>, s: Store, vs: seq<Value>)
    requires vs != [] && Put(sch, u, at + [|vs|], s, vs[0]).Some? && PutMany(sch, u, at, s, vs[1..]).Some?
    ensures PutMany(sch, u, at, s, vs) ==
            Some(Put(sch, u, at + [|vs|], s, vs[0]).value + PutMany(sch, u, at, s, vs[1..]).value)
  {
    hide Put;
  }

  lemma FitsManyStep(sch: Schema, s: Store, vs: seq<Value>, k: nat)
    requires vs != [] && PutMany(sch, ZEROED, [], s, vs[1..]).Some?
    ensures FitsMany(sch, s, vs, k) <==>
            Fits(sch, s, vs[0], |PutMany(sch, ZEROED, [], s, vs[1..]).value| + k) && FitsMany(sch, s, vs[1..], k)
  {
    hide Fits;
    hide PutMany;
  }

  lemma GetManyStep(sch: Schema, fuel: nat, f: Fetch, n: nat, b: seq<byte>)
    requires n > 0
    ensures var a := Get(sch, fuel, f, b);
            GetMany(sch, fuel, f, n, b) ==
            if a.None? then None
            else
              var r := GetMany(sch, fuel, f, n - 1, a.value.1);
              if r.None? then None else Some(([a.value.0] + r.value.0, r.value.1))
  {
    hide Get;
  }

  // ------------------------------------------------------------ fields

  ghost predicate FieldsReadBack(sch: Schema, fuel: nat, u: Stale, at: seq<nat>, fs: seq<FetchField>,
                                 ss: seq<StoreField>, env: seq<nat>, vars: seq<Option<nat>>, fields: seq<Value>,
                                 t: seq<byte>) {
    var b := PutFields(sch, u, at, ss, vars, fields);
    b.Some? &&
    GetFields(sch, fuel, fs, env, b.value + t) == if FitsFields(sch, ss, vars, fields, |t|) then Some((fields, t)) else None
  }

  lemma RestStored(sch: Schema, fuel: nat, u: Stale, at: seq<nat>, fs: seq<FetchField>, ss: seq<StoreField>,
                   env: seq<nat>, vars: seq<Option<nat>>, fields: seq<Value>, t: seq<byte>)
    requires FieldsReadBack(sch, fuel, u, at, fs, ss, env, vars, fields, t)
    ensures PutFields(sch, u, at, ss, vars, fields).Some?
  {}

  lemma AbsentReadsBack(sch: Schema, fuel: nat, u: Stale, at: seq<nat>, fs: seq<FetchField>, ss: seq<StoreField>,
                        env: seq<nat>, vars: seq<Option<nat>>, fields: seq<Value>, t: seq<byte>)
    requires fs != [] && ss != [] && fields != [] && fields[0] == Absent && !Present(fs[0].cond, env)
    requires ss[0].Skip? || (!Taken(ss[0].cond, u, at, vars) && !Taken(ss[0].cond, ZEROED, [], vars))
    requires FieldsReadBack(sch, fuel, u, at, fs[1..], ss[1..], Set(fs[0].keep, env, 0), vars, fields[1..], t)
    ensures FieldsReadBack(sch, fuel, u, at, fs, ss, env, vars, fields, t)
  {
    hide Present;
    hide Taken;
    hide Get;
    hide Put;
    assert [Absent] + fields[1..] == fields;
  }

  lemma SkippedReadsBack(sch: Schema, fuel: nat, u: Stale, at: seq<nat>, fs: seq<FetchField>, ss: seq<StoreField>,
                         env: seq<nat>, vars: seq<Option<nat>>, fields: seq<Value>, t: seq<byte>)
    requires fs != [] && ss != [] && fields != [] && fields[0] == Flag(true)
    requires Present(fs[0].cond, env) && ss[0].Skip? && fs[0].fetch.FetchTrue? && fs[0].keep.Drop?
    requires FieldsReadBack(sch, fuel, u, at, fs[1..], ss[1..], env, vars, fields[1..], t)
    ensures FieldsReadBack(sch, fuel, u, at, fs, ss, env, vars, fields, t)
  {
    hide Present;
    hide Put;
    var b := PutFields(sch, u, at, ss[1..], vars, fields[1..]).value;
    assert Get(sch, fuel, FetchTrue, b + t) == Some((Flag(true), b + t));
    hide Get;
    assert [Flag(true)] + fields[1..] == fields;
  }

  lemma PresentReadsBack(sch: Schema, fuel: nat, u: Stale, at: seq<nat>, fs: seq<FetchField>, ss: seq<StoreField>,
                         env: seq<nat>, vars: seq<Option<nat>>, fields: seq<Value>, t: seq<byte>)
    requires fs != [] && ss != [] && fields != [] && !ss[0].Skip? && fs[0].keep == ss[0].keep
    requires Present(fs[0].cond, env) && Taken(ss[0].cond, u, at, vars) && Taken(ss[0].cond, ZEROED, [], vars)
    requires var after := Assign(ss[0].keep, vars, Number(fields[0]));
             FieldsReadBack(sch, fuel, u, at, fs[1..], ss[1..], Set(fs[0].keep, env, Number(fields[0])), after,
                            fields[1..], t) &&
             PutFields(sch, u, at, ss[1..], after, fields[1..]) == PutFields(sch, ZEROED, [], ss[1..], after, fields[1..]) &&
             ReadsBack(sch, fuel, u, at + [|fields|], fs[0].fetch, ss[0].store, fields[0],
                       PutFields(sch, u, at, ss[1..], after, fields[1..]).value + t)
    ensures FieldsReadBack(sch, fuel, u, at, fs, ss, env, vars, fields, t)
  {
    hide Present;
    hide Taken;
    hide Get;
    hide Put;
    hide Fits;
    hide Set;
    hide Assign;
    hide Number;
    var a := Put(sch, u, at + [|fields|], ss[0].store, fields[0]).value;
    var b := PutFields(sch, u, at, ss[1..], Assign(ss[0].keep, vars, Number(fields[0])), fields[1..]).value;
    assert a + b + t == a + (b + t);
    assert [fields[0]] + fields[1..] == fields;
  }

  /** What the two sides know once the variables in `stored` had their turn: the same value where the # was there,
      zero against nothing where it was not. */
  ghost predicate Known(stored: seq<bool>, env: seq<nat>, vars: seq<Option<nat>>) {
    |stored| == |env| == |vars| &&
    forall i :: 0 <= i < |stored| ==>
                  if stored[i] then env[i] == (if vars[i].Some? then vars[i].value else 0) else vars[i].None?
  }

  lemma KnownAfter(sch: Schema, a: Arg, stored: seq<bool>, env: seq<nat>, vars: seq<Option<nat>>, n: nat)
    requires Known(stored, env, vars) && KeepOk(sch, a, stored)
    ensures Known(Marked(a, stored), Set(KeepOf(a), env, n), Assign(KeepOf(a), vars, n))
    ensures Known(Marked(a, stored), Set(KeepOf(a), env, 0), vars)
  {}

  lemma SamePresence(a: Arg, u: Stale, at: seq<nat>, stored: seq<bool>, env: seq<nat>, vars: seq<Option<nat>>)
    requires Known(stored, env, vars) && CondOk(a, stored)
    ensures Assigned(CondOf(a), vars) ==> Present(CondOf(a), env) == Taken(CondOf(a), u, at, vars)
    ensures !Assigned(CondOf(a), vars) ==> !Present(CondOf(a), env) && Taken(CondOf(a), ALL_BITS, at, vars)
  {}

  lemma {:induction false} RoundTripFields(sch: Schema, fuel: nat, u: Stale, at: seq<nat>, args: seq<Arg>,
                                           stored: seq<bool>, env: seq<nat>, vars: seq<Option<nat>>,
                                           fields: seq<Value>, t: seq<byte>)
    requires Compiles(sch) && FetchCode(sch, args, stored).Some? && StoreCode(sch, args, stored).Some?
    requires forall i :: 0 <= i < |args| ==> Proper(sch, args[i])
    requires Known(stored, env, vars) && FieldsTyped(sch, FetchCode(sch, args, stored).value, env, fields)
    requires DeterminedFields(sch, StoreCode(sch, args, stored).value, vars, fields) && fuel > DepthOf(fields)
    ensures FieldsReadBack(sch, fuel, u, at, FetchCode(sch, args, stored).value, StoreCode(sch, args, stored).value, env,
                           vars, fields, t)
    decreases fields, 0
  {
    hide *;
    FieldSplit(sch, args, stored, env, vars, fields);
    var fs, ss := FetchCode(sch, args, stored).value, StoreCode(sch, args, stored).value;
    if args == [] {
      NoFields(sch, fuel, u, at, env, vars, fields, t);
    } else {
      var a, more := args[0], Marked(args[0], stored);
      DepthSplit(fields);
      DeterminedStep(sch, ss, vars, fields);
      SamePresence(a, u, at, stored, env, vars);
      SamePresence(a, ZEROED, [], stored, env, vars);
      if !Present(CondOf(a), env) {
        RoundTripFields(sch, fuel, u, at, args[1..], more, Set(KeepOf(a), env, 0), vars, fields[1..], t);
        AbsentReadsBack(sch, fuel, u, at, fs, ss, env, vars, fields, t);
      } else if ss[0].Skip? {
        RoundTripFields(sch, fuel, u, at, args[1..], more, env, vars, fields[1..], t);
        SkippedReadsBack(sch, fuel, u, at, fs, ss, env, vars, fields, t);
      } else {
        var n := Number(fields[0]);
        var after := Assign(KeepOf(a), vars, n);
        RoundTripFields(sch, fuel, u, at, args[1..], more, Set(KeepOf(a), env, n), after, fields[1..], t);
        SameBytesFields(sch, u, at, ZEROED, [], ss[1..], after, fields[1..]);
        RestStored(sch, fuel, u, at, fs[1..], ss[1..], Set(KeepOf(a), env, n), after, fields[1..], t);
        RoundTrip(sch, fuel, u, at + [|fields|], fs[0].fetch, ss[0].store, fields[0],
                  PutFields(sch, u, at, ss[1..], after, fields[1..]).value + t);
        PresentReadsBack(sch, fuel, u, at, fs, ss, env, vars, fields, t);
      }
    }
  }

  /** One argument: its two field codes, what typing says about its field, and what is known after it. */
  lemma FieldSplit(sch: Schema, args: seq<Arg>, stored: seq<bool>, env: seq<nat>, vars: seq<Option<nat>>,
                   fields: seq<Value>)
    requires FetchCode(sch, args, stored).Some? && StoreCode(sch, args, stored).Some?
    requires forall i :: 0 <= i < |args| ==> Proper(sch, args[i])
    requires Known(stored, env, vars) && FieldsTyped(sch, FetchCode(sch, args, stored).value, env, fields)
    ensures var fs, ss := FetchCode(sch, args, stored).value, StoreCode(sch, args, stored).value;
            if args == [] then fs == [] && ss == [] && fields == []
            else
              fs != [] && ss != [] && fields != [] &&
              var a, more := args[0], Marked(args[0], stored);
              FetchCode(sch, args[1..], more) == Some(fs[1..]) && StoreCode(sch, args[1..], more) == Some(ss[1..]) &&
              CondOk(a, stored) && fs[0].cond == CondOf(a) && fs[0].keep == KeepOf(a) &&
              (if Present(CondOf(a), env) then
                 var n := Number(fields[0]);
                 HasType(sch, fs[0].fetch, fields[0]) && Set(KeepOf(a), env, n) == Set(fs[0].keep, env, n) &&
                 Known(more, Set(KeepOf(a), env, n), Assign(KeepOf(a), vars, n)) &&
                 FieldsTyped(sch, fs[1..], Set(KeepOf(a), env, n), fields[1..])
               else
                 fields[0] == Absent && Known(more, Set(KeepOf(a), env, 0), vars) &&
                 FieldsTyped(sch, fs[1..], Set(KeepOf(a), env, 0), fields[1..])) &&
              (if ss[0].Skip? then
                 fs[0].keep.Drop? && fs[0].fetch.FetchTrue? && Known(more, env, vars) &&
                 (forall n :: Set(KeepOf(a), env, n) == env) && (Present(CondOf(a), env) ==> fields[0] == Flag(true))
               else ss[0].cond == CondOf(a) && ss[0].keep == KeepOf(a) && Agree(sch, fs[0].fetch, ss[0].store))
  {
    hide *;
    if args == [] {
      NoArgs(sch, stored, env, fields);
    } else {
      var a := args[0];
      CodeSplit(sch, args, stored);
      FieldCodesAgree(sch, a, stored);
      FieldShape(sch, a, stored);
      TypedStep(sch, FetchCode(sch, args, stored).value, env, fields);
      var fs, ss := FetchCode(sch, args, stored).value, StoreCode(sch, args, stored).value;
      AgreeStep(sch, fs[0], ss[0], env);
      KnownAfter(sch, a, stored, env, vars, Number(fields[0]));
      if ss[0].Skip? && Present(CondOf(a), env) {
        TrueTyped(sch, fields[0]);
      }
    }
  }

  lemma NoArgs(sch: Schema, stored: seq<bool>, env: seq<nat>, fields: seq<Value>)
    requires FetchCode(sch, [], stored).Some? && StoreCode(sch, [], stored).Some?
    requires FieldsTyped(sch, FetchCode(sch, [], stored).value, env, fields)
    ensures FetchCode(sch, [], stored).value == [] && StoreCode(sch, [], stored).value == [] && fields == []
  {}

  lemma TypedStep(sch: Schema, fs: seq<FetchField>, env: seq<nat>, fields: seq<Value>)
    requires fs != [] && FieldsTyped(sch, fs, env, fields)
    ensures fields != [] &&
            if Present(fs[0].cond, env) then
              HasType(sch, fs[0].fetch, fields[0]) &&
              FieldsTyped(sch, fs[1..], Set(fs[0].keep, env, Number(fields[0])), fields[1..])
            else fields[0] == Absent && FieldsTyped(sch, fs[1..], Set(fs[0].keep, env, 0), fields[1..])
  {
    hide HasType;
    hide Present;
    hide Number;
    hide Set;
  }

  lemma AgreeStep(sch: Schema, f: FetchField, s: StoreField, env: seq<nat>)
    requires FieldsAgree(sch, f, s)
    ensures if s.Skip? then f.keep.Drop? && f.fetch.FetchTrue? && forall n :: Set(f.keep, env, n) == env
            else f.cond == s.cond && f.keep == s.keep && Agree(sch, f.fetch, s.store)
  {
    hide Agree;
  }

  lemma NoFields(sch: Schema, fuel: nat, u: Stale, at: seq<nat>, env: seq<nat>, vars: seq<Option<nat>>,
                 fields: seq<Value>, t: seq<byte>)
    requires fields == []
    ensures FieldsReadBack(sch, fuel, u, at, [], [], env, vars, fields, t)
  {
    assert [] + t == t;
  }

  lemma TrueTyped(sch: Schema, v: Value)
    requires HasType(sch, FetchTrue, v)
    ensures v == Flag(true)
  {}

  lemma CodeSplit(sch: Schema, args: seq<Arg>, stored: seq<bool>)
    requires args != [] && FetchCode(sch, args, stored).Some? && StoreCode(sch, args, stored).Some?
    ensures var more := Marked(args[0], stored);
            var fs, ss := FetchCode(sch, args, stored).value, StoreCode(sch, args, stored).value;
            fs != [] && ss != [] &&
            FieldFetch(sch, args[0], stored) == Some(fs[0]) && FieldStore(sch, args[0], stored) == Some(ss[0]) &&
            FetchCode(sch, args[1..], more) == Some(fs[1..]) && StoreCode(sch, args[1..], more) == Some(ss[1..])
  {
    hide FieldFetch;
    hide FieldStore;
    hide Marked;
  }

  lemma FieldShape(sch: Schema, a: Arg, stored: seq<bool>)
    requires FieldFetch(sch, a, stored).Some?
    ensures FieldFetch(sch, a, stored).value.cond == CondOf(a) && FieldFetch(sch, a, stored).value.keep == KeepOf(a) &&
            CondOk(a, stored) && KeepOk(sch, a, stored)
  {}

  lemma DeterminedStep(sch: Schema, ss: seq<StoreField>, vars: seq<Option<nat>>, fields: seq<Value>)
    requires ss != [] && fields != []
    ensures DeterminedFields(sch, ss, vars, fields) ==
            if ss[0].Skip? then DeterminedFields(sch, ss[1..], vars, fields[1..])
            else
              Assigned(ss[0].cond, vars) &&
              if !Taken(ss[0].cond, ZEROED, [], vars) then DeterminedFields(sch, ss[1..], vars, fields[1..])
              else
                Determined(sch, ss[0].store, fields[0]) &&
                DeterminedFields(sch, ss[1..], Assign(ss[0].keep, vars, Number(fields[0])), fields[1..])
  {
    hide Determined;
    hide Taken;
    hide Assigned;
    hide Assign;
    hide Number;
  }

  lemma ObjectReadsBack(sch: Schema, fuel: nat, u: Stale, at: seq<nat>, n: nat, s: Store, v: Value, t: seq<byte>)
    requires Agree(sch, FetchObject(n), s) && v.Object? && v.type_ == n && fuel > 0
    requires v.ctor < |sch[n].constructors| && sch[n].constructors[v.ctor].supported && Distinct(sch[n].constructors)
    requires FetchCodeOf(sch, n, v.ctor).Some? && StoreCodeOf(sch, n, v.ctor).Some?
    requires FieldsReadBack(sch, fuel - 1, u, at, FetchCodeOf(sch, n, v.ctor).value, StoreCodeOf(sch, n, v.ctor).value,
                            Cleared(sch[n].constructors[v.ctor].varCount), Unassigned(sch[n].constructors[v.ctor].varCount),
                            v.fields, t)
    ensures ReadsBack(sch, fuel, u, at, FetchObject(n), s, v, t)
  {
    hide FetchCodeOf;
    hide StoreCodeOf;
    hide FieldsReadBack;
    hide ReadsBack;
    hide Distinct;
    if sch[n].IsBare() {
      SoleFinds(sch[n].constructors, v.ctor);
      SoleObject(sch, fuel, u, at, n, v, t);
    } else {
      CaseFinds(sch[n].constructors, v.ctor);
      SwitchedObject(sch, fuel, u, at, n, v, t);
    }
  }

  /** The fields come back, so the object does. */
  lemma ObjectFields(sch: Schema, fuel: nat, u: Stale, at: seq<nat>, n: nat, v: Value, t: seq<byte>)
    requires n < |sch| && v.Object? && v.type_ == n && v.ctor < |sch[n].constructors|
    requires FetchCodeOf(sch, n, v.ctor).Some? && StoreCodeOf(sch, n, v.ctor).Some?
    requires FieldsReadBack(sch, fuel, u, at, FetchCodeOf(sch, n, v.ctor).value, StoreCodeOf(sch, n, v.ctor).value,
                            Cleared(sch[n].constructors[v.ctor].varCount), Unassigned(sch[n].constructors[v.ctor].varCount),
                            v.fields, t)
    ensures var b := Put(sch, u, at, StoreObject, v);
            b == PutFields(sch, u, at, StoreCodeOf(sch, n, v.ctor).value,
                      Unassigned(sch[n].constructors[v.ctor].varCount), v.fields) && b.Some? &&
            GetObject(sch, fuel, n, Some(v.ctor), b.value + t) == if Fits(sch, StoreObject, v, |t|) then Some((v, t)) else None
  {
    hide FetchCodeOf;
    hide StoreCodeOf;
    hide GetFields;
    hide PutFields;
    hide FitsFields;
  }

  lemma SoleObject(sch: Schema, fuel: nat, u: Stale, at: seq<nat>, n: nat, v: Value, t: seq<byte>)
    requires n < |sch| && v.Object? && v.type_ == n && fuel > 0 && sch[n].IsBare()
    requires Sole(sch[n].constructors) == Some(v.ctor)
    requires FetchCodeOf(sch, n, v.ctor).Some? && StoreCodeOf(sch, n, v.ctor).Some?
    requires FieldsReadBack(sch, fuel - 1, u, at, FetchCodeOf(sch, n, v.ctor).value, StoreCodeOf(sch, n, v.ctor).value,
                            Cleared(sch[n].constructors[v.ctor].varCount), Unassigned(sch[n].constructors[v.ctor].varCount),
                            v.fields, t)
    ensures ReadsBack(sch, fuel, u, at, FetchObject(n), StoreObject, v, t)
  {
    hide *;
    ObjectFields(sch, fuel - 1, u, at, n, v, t);
    SoleTo(sch, fuel, n, v.ctor, Put(sch, u, at, StoreObject, v).value + t);
    SoleReads(sch, fuel, u, at, n, v, t);
  }

  lemma SoleTo(sch: Schema, fuel: nat, n: nat, c: nat, b: seq<byte>)
    requires n < |sch| && fuel > 0 && sch[n].IsBare() && Sole(sch[n].constructors) == Some(c)
    ensures Get(sch, fuel, FetchObject(n), b) == GetObject(sch, fuel - 1, n, Some(c), b)
  {
    hide GetObject;
    hide Sole;
  }

  lemma SoleReads(sch: Schema, fuel: nat, u: Stale, at: seq<nat>, n: nat, v: Value, t: seq<byte>)
    requires var b := Put(sch, u, at, StoreObject, v);
             b.Some? && Get(sch, fuel, FetchObject(n), b.value + t) ==
             if Fits(sch, StoreObject, v, |t|) then Some((v, t)) else None
    ensures ReadsBack(sch, fuel, u, at, FetchObject(n), StoreObject, v, t)
  {
    hide Put;
    hide Get;
    hide Fits;
  }

  lemma SwitchedObject(sch: Schema, fuel: nat, u: Stale, at: seq<nat>, n: nat, v: Value, t: seq<byte>)
    requires n < |sch| && v.Object? && v.type_ == n && fuel > 0 && !sch[n].IsBare() && v.ctor < |sch[n].constructors|
    requires Case(sch[n].constructors, sch[n].constructors[v.ctor].id) == Some(v.ctor)
    requires FetchCodeOf(sch, n, v.ctor).Some? && StoreCodeOf(sch, n, v.ctor).Some?
    requires FieldsReadBack(sch, fuel - 1, u, at, FetchCodeOf(sch, n, v.ctor).value, StoreCodeOf(sch, n, v.ctor).value,
                            Cleared(sch[n].constructors[v.ctor].varCount), Unassigned(sch[n].constructors[v.ctor].varCount),
                            v.fields, t)
    ensures ReadsBack(sch, fuel, u, at, FetchObject(n), StoreBoxedUnknown(StoreObject), v, t)
  {
    hide *;
    ObjectFields(sch, fuel - 1, u, at, n, v, t);
    var id := sch[n].constructors[v.ctor].id;
    var b := Put(sch, u, at, StoreObject, v).value;
    PutUnknown(sch, u, at, v);
    SwitchTo(sch, fuel, n, v.ctor, b, t);
    SwitchReads(sch, fuel, u, at, n, v, t);
  }

  lemma PutUnknown(sch: Schema, u: Stale, at: seq<nat>, v: Value)
    requires v.Object? && StoreCodeOf(sch, v.type_, v.ctor).Some? && Put(sch, u, at, StoreObject, v).Some?
    ensures Put(sch, u, at, StoreBoxedUnknown(StoreObject), v) ==
            Some(Le(sch[v.type_].constructors[v.ctor].id, 4) + Put(sch, u, at, StoreObject, v).value)
  {
    hide Le;
    hide PutFields;
  }

  lemma SwitchTo(sch: Schema, fuel: nat, n: nat, c: nat, b: seq<byte>, t: seq<byte>)
    requires n < |sch| && fuel > 0 && !sch[n].IsBare() && c < |sch[n].constructors|
    requires Case(sch[n].constructors, sch[n].constructors[c].id) == Some(c)
    ensures Get(sch, fuel, FetchObject(n), Le(sch[n].constructors[c].id, 4) + b + t) ==
            GetObject(sch, fuel - 1, n, Some(c), b + t)
  {
    hide Take;
    hide Le;
    hide FromLe;
    hide GetObject;
    hide Case;
    NumberAhead(sch[n].constructors[c].id, b, t);
  }

  lemma SwitchReads(sch: Schema, fuel: nat, u: Stale, at: seq<nat>, n: nat, v: Value, t: seq<byte>)
    requires Put(sch, u, at, StoreObject, v).Some?
    requires var b := Put(sch, u, at, StoreBoxedUnknown(StoreObject), v);
             b.Some? && Get(sch, fuel, FetchObject(n), b.value + t) ==
             if Fits(sch, StoreObject, v, |t|) then Some((v, t)) else None
    ensures ReadsBack(sch, fuel, u, at, FetchObject(n), StoreBoxedUnknown(StoreObject), v, t)
  {
    hide Put;
    hide Get;
  }

  // ------------------------------------------------------------ fetching starts from nothing

  /** The fetch code assigns each variable before it tests it, so what the variables held before does not matter. */
  lemma {:induction false} FetchStartsAlike(sch: Schema, fuel: nat, args: seq<Arg>, stored: seq<bool>, env: seq<nat>,
                                            other: seq<nat>, b: seq<byte>)
    requires FetchCode(sch, args, stored).Some? && |stored| == |env| == |other|
    requires forall i :: 0 <= i < |stored| && stored[i] ==> env[i] == other[i]
    ensures GetFields(sch, fuel, FetchCode(sch, args, stored).value, env, b) ==
            GetFields(sch, fuel, FetchCode(sch, args, stored).value, other, b)
    decreases |args|
  {
    hide Get;
    hide FullFetchClass;
    hide KeepOk;
    if args == [] {
    } else {
      var a := args[0];
      var code := FetchCode(sch, args, stored).value;
      assert Present(CondOf(a), env) == Present(CondOf(a), other);
      if !Present(CondOf(a), env) {
        FetchStartsAlike(sch, fuel, args[1..], Marked(a, stored), Set(KeepOf(a), env, 0), Set(KeepOf(a), other, 0), b);
      } else {
        var r := Get(sch, fuel, code[0].fetch, b);
        if r.Some? {
          var n := Number(r.value.0);
          FetchStartsAlike(sch, fuel, args[1..], Marked(a, stored), Set(KeepOf(a), env, n), Set(KeepOf(a), other, n),
                           r.value.1);
        }
      }
    }
  }
}
