/** The round trip for whole C++ objects, whose fields hold something also where the flags say that they are not there
    (td/generate/tl_writer_cpp.cpp). */
module TlContents {
  import opened Bytes
  import opened TlPrimitives
  import opened TlSchema
  import opened TlCode
  import opened TlRoundTrip
  import opened TlSeparation

  /** What the C++ type of a field allows, whatever the flags say. Here `Absent` is a null pointer to an object. */
  ghost predicate Static(sch: Schema, f: Fetch, h: Value)
    decreases h, 1, f
  {
    match f
    case FetchTrue => h.Flag?
    case FetchVector(e) =>
      h.Many? && |h.items| < 0x8000_0000 && forall i :: 0 <= i < |h.items| ==> Static(sch, e, h.items[i])
    case FetchBoxed(g, _) => Static(sch, g, h)
    case FetchObject(n) =>
      h == Absent ||
      (h.Object? && h.type_ == n < |sch| && h.ctor < |sch[n].constructors| && sch[n].constructors[h.ctor].supported &&
       FetchCodeOf(sch, n, h.ctor).Some? &&
       var code := FetchCodeOf(sch, n, h.ctor).value;
       |h.fields| == |code| && forall i :: 0 <= i < |code| ==> Static(sch, code[i].fetch, h.fields[i]))
    case _ => HasType(sch, f, h)
  }

  /** The C++ value `h` is `v` with some content in the fields that are not there. */
  ghost predicate Fills(sch: Schema, f: Fetch, v: Value, h: Value)
    decreases v, 1, f
  {
    match f
    case FetchVector(e) => v.Many? && h.Many? && FillsMany(sch, e, v.items, h.items)
    case FetchBoxed(g, _) => Fills(sch, g, v, h)
    case FetchObject(n) =>
      v.Object? && h.Object? && v.type_ == h.type_ == n && v.ctor == h.ctor && FetchCodeOf(sch, n, v.ctor).Some? &&
      FillsFields(sch, FetchCodeOf(sch, n, v.ctor).value, Cleared(sch[n].constructors[v.ctor].varCount), v.fields,
                  h.fields)
    case _ => h == v
  }

  ghost predicate FillsMany(sch: Schema, e: Fetch, vs: seq<Value>, hs: seq<Value>)
    decreases vs, 0
  {
    if vs == [] || hs == [] then vs == [] && hs == []
    else Fills(sch, e, vs[0], hs[0]) && FillsMany(sch, e, vs[1..], hs[1..])
  }

  ghost predicate FillsFields(sch: Schema, code: seq<FetchField>, env: seq<nat>, vs: seq<Value>, hs: seq<Value>)
    decreases vs, 0
  {
    if code == [] || vs == [] || hs == [] then code == [] && vs == [] && hs == []
    else if Present(code[0].cond, env) then
      Fills(sch, code[0].fetch, vs[0], hs[0]) &&
      FillsFields(sch, code[1..], Set(code[0].keep, env, Number(vs[0])), vs[1..], hs[1..])
    else
      Static(sch, code[0].fetch, hs[0]) && FillsFields(sch, code[1..], Set(code[0].keep, env, 0), vs[1..], hs[1..])
  }

  // ------------------------------------------------------------ every value has a filling

  function Blank(f: Fetch): Value {
    match f
    case FetchInt => Raw(Zeros(4))
    case FetchLong => Raw(Zeros(8))
    case FetchDouble => Raw(Zeros(8))
    case FetchInt128 => Raw(Zeros(16))
    case FetchInt256 => Raw(Zeros(32))
    case FetchTrue => Flag(false)
    case FetchBool => Flag(false)
    case FetchString => Text([])
    case FetchBytes => Text([])
    case FetchVector(_) => Many([])
    case FetchBoxed(g, _) => Blank(g)
    case FetchObject(_) => Absent
  }

  lemma {:induction false} BlankIsStatic(sch: Schema, f: Fetch)
    ensures Static(sch, f, Blank(f))
  {
    match f
    case FetchBoxed(g, _) => BlankIsStatic(sch, g);
    case _ =>
  }

  lemma {:induction false} FillBlank(sch: Schema, f: Fetch, v: Value) returns (h: Value)
    requires HasType(sch, f, v)
    ensures Fills(sch, f, v, h)
    decreases v, 1, f
  {
    hide FillsMany;
    hide FillsFields;
    hide FieldsTyped;
    hide FetchCodeOf;
    match f
    case FetchVector(e) =>
      var hs := FillBlankMany(sch, e, v.items);
      h := Many(hs);
    case FetchBoxed(g, _) => h := FillBlank(sch, g, v);
    case FetchObject(n) =>
      var hs := FillBlankFields(sch, FetchCodeOf(sch, n, v.ctor).value, Cleared(sch[n].constructors[v.ctor].varCount),
                                v.fields);
      h := Object(n, v.ctor, hs);
    case _ => h := v;
  }

  lemma {:induction false} FillBlankMany(sch: Schema, e: Fetch, vs: seq<Value>) returns (hs: seq<Value>)
    requires forall i :: 0 <= i < |vs| ==> HasType(sch, e, vs[i])
    ensures FillsMany(sch, e, vs, hs)
    decreases vs, 0
  {
    hide Fills;
    hide HasType;
    if vs == [] {
      hs := [];
    } else {
      var h := FillBlank(sch, e, vs[0]);
      var more := FillBlankMany(sch, e, vs[1..]);
      hs := [h] + more;
      assert hs[1..] == more;
    }
  }

  lemma {:induction false} FillBlankFields(sch: Schema, code: seq<FetchField>, env: seq<nat>, vs: seq<Value>)
    returns (hs: seq<Value>)
    requires FieldsTyped(sch, code, env, vs)
    ensures FillsFields(sch, code, env, vs, hs)
    decreases vs, 0
  {
    hide Fills;
    hide HasType;
    hide Static;
    hide Present;
    hide Set;
    hide Number;
    if code == [] {
      hs := [];
    } else if Present(code[0].cond, env) {
      var h := FillBlank(sch, code[0].fetch, vs[0]);
      var more := FillBlankFields(sch, code[1..], Set(code[0].keep, env, Number(vs[0])), vs[1..]);
      hs := [h] + more;
      assert hs[1..] == more;
    } else {
      BlankIsStatic(sch, code[0].fetch);
      var more := FillBlankFields(sch, code[1..], Set(code[0].keep, env, 0), vs[1..]);
      hs := [Blank(code[0].fetch)] + more;
      assert hs[1..] == more;
    }
  }

  // ------------------------------------------------------------ contents of a determined value do not matter

  function Joined(a: Option<seq<byte>>, b: Option<seq<byte>>): Option<seq<byte>> {
    if a.None? || b.None? then None else Some(a.value + b.value)
  }

  lemma {:induction false} ManyLengths(sch: Schema, e: Fetch, vs: seq<Value>, hs: seq<Value>)
    requires FillsMany(sch, e, vs, hs)
    ensures |hs| == |vs|
  {
    hide Fills;
    if vs == [] {
    } else {
      ManyLengths(sch, e, vs[1..], hs[1..]);
    }
  }

  lemma {:induction false} FieldsLengths(sch: Schema, code: seq<FetchField>, env: seq<nat>, vs: seq<Value>,
                                         hs: seq<Value>)
    requires FillsFields(sch, code, env, vs, hs)
    ensures |hs| == |vs| == |code|
  {
    hide Fills;
    hide Static;
    hide Present;
    if code == [] {
    } else if Present(code[0].cond, env) {
      FieldsLengths(sch, code[1..], Set(code[0].keep, env, Number(vs[0])), vs[1..], hs[1..]);
    } else {
      FieldsLengths(sch, code[1..], Set(code[0].keep, env, 0), vs[1..], hs[1..]);
    }
  }

  lemma FillStep(sch: Schema, code: seq<FetchField>, env: seq<nat>, vs: seq<Value>, hs: seq<Value>)
    requires FillsFields(sch, code, env, vs, hs)
    ensures if code == [] then vs == [] && hs == []
            else
              vs != [] && hs != [] &&
              if Present(code[0].cond, env) then
                Fills(sch, code[0].fetch, vs[0], hs[0]) &&
                FillsFields(sch, code[1..], Set(code[0].keep, env, Number(vs[0])), vs[1..], hs[1..])
              else FillsFields(sch, code[1..], Set(code[0].keep, env, 0), vs[1..], hs[1..])
  {
    hide Fills;
    hide Static;
    hide Present;
    hide Set;
    hide Number;
  }

  lemma PutFieldsIs(sch: Schema, u: Stale, at: seq<nat>, ss: seq<StoreField>, vars: seq<Option<nat>>, hs: seq<Value>)
    requires ss != [] && hs != []
    ensures PutFields(sch, u, at, ss, vars, hs) ==
            if ss[0].Skip? || !Taken(ss[0].cond, u, at, vars) then PutFields(sch, u, at, ss[1..], vars, hs[1..])
            else
              Joined(Put(sch, u, at + [|hs|], ss[0].store, hs[0]),
                     PutFields(sch, u, at, ss[1..], Assign(ss[0].keep, vars, Number(hs[0])), hs[1..]))
  {
    hide Put;
    hide Taken;
    hide Assign;
    hide Number;
  }

  lemma PutManyIs(sch: Schema, u: Stale, at: seq<nat>, s: Store, hs: seq<Value>)
    ensures PutMany(sch, u, at, s, hs) ==
            if hs == [] then Some([])
            else Joined(Put(sch, u, at + [|hs|], s, hs[0]), PutMany(sch, u, at, s, hs[1..]))
  {
    hide Put;
  }

  /** What the store combinators do with the parts. */
  lemma PutIs(sch: Schema, u: Stale, at: seq<nat>, s: Store, h: Value)
    ensures s.StoreBoxed? ==> Put(sch, u, at, s, h) == Joined(Some(Le(s.id, 4)), Put(sch, u, at, s.inner, h))
    ensures s.StoreVector? && h.Many? && |h.items| < 0x8000_0000 ==>
              Put(sch, u, at, s, h) == Joined(Some(Le(|h.items|, 4)), PutMany(sch, u, at, s.item, h.items))
  {
    hide Le;
    hide PutMany;
  }

  /** What an object is stored as: its fields, behind its identifier when its type has several constructors. */
  lemma PutObjectIs(sch: Schema, u: Stale, at: seq<nat>, n: nat, s: Store, h: Value)
    requires Agree(sch, FetchObject(n), s) && h.Object? && h.type_ == n && StoreCodeOf(sch, n, h.ctor).Some?
    ensures var r := PutFields(sch, u, at, StoreCodeOf(sch, n, h.ctor).value,
                               Unassigned(sch[n].constructors[h.ctor].varCount), h.fields);
            Put(sch, u, at, s, h) ==
            if s.StoreObject? then r else Joined(Some(Le(sch[n].constructors[h.ctor].id, 4)), r)
  {
    hide Le;
    hide PutFields;
    hide StoreCode;
  }

  /** The fillings of the parts. */
  lemma FillsParts(sch: Schema, f: Fetch, v: Value, h: Value)
    requires Fills(sch, f, v, h)
    ensures f.FetchBoxed? ==> Fills(sch, f.inner, v, h)
    ensures f.FetchVector? ==> v.Many? && h.Many? && FillsMany(sch, f.item, v.items, h.items)
    ensures f.FetchObject? ==>
              v.Object? && h.Object? && v.type_ == h.type_ == f.type_ && v.ctor == h.ctor &&
              FetchCodeOf(sch, f.type_, v.ctor).Some? &&
              FillsFields(sch, FetchCodeOf(sch, f.type_, v.ctor).value,
                          Cleared(sch[f.type_].constructors[v.ctor].varCount), v.fields, h.fields)
    ensures !f.FetchBoxed? && !f.FetchVector? && !f.FetchObject? ==> h == v
  {
    hide FillsMany;
    hide FillsFields;
    hide FetchCode;
  }

  /** A determined value is stored as the same bytes whatever the fields hold that are not there. */
  lemma {:induction false} SameContents(sch: Schema, u: Stale, at: seq<nat>, f: Fetch, s: Store, v: Value, h: Value)
    requires Compiles(sch) && Agree(sch, f, s) && HasType(sch, f, v) && Determined(sch, s, v) && Fills(sch, f, v, h)
    ensures Put(sch, u, at, s, h) == Put(sch, u, at, s, v)
    decreases v, 1, f
  {
    hide *;
    Shapes(sch, f, s, v);
    DeterminedParts(sch, s, v);
    FillsParts(sch, f, v, h);
    match f
    case FetchBoxed(g, _) =>
      SameContents(sch, u, at, g, s.inner, v, h);
      PutIs(sch, u, at, s, v);
      PutIs(sch, u, at, s, h);
    case FetchVector(e) =>
      ManyLengths(sch, e, v.items, h.items);
      SameContentsMany(sch, u, at, e, s.item, v.items, h.items);
      PutIs(sch, u, at, s, v);
      PutIs(sch, u, at, s, h);
    case FetchObject(n) =>
      ObjectCodes(sch, n, v.ctor);
      ObjectDetermined(sch, n, s, v);
      var c := sch[n].constructors[v.ctor];
      NothingKnown(c.varCount);
      SameContentsFields(sch, u, at, c.args, Unstored(c.varCount), Cleared(c.varCount), Unassigned(c.varCount), v.fields,
                         h.fields);
      PutObjectIs(sch, u, at, n, s, v);
      PutObjectIs(sch, u, at, n, s, h);
    case _ =>
  }

  lemma {:induction false} SameContentsMany(sch: Schema, u: Stale, at: seq<nat>, f: Fetch, s: Store, vs: seq<Value>,
                                            hs: seq<Value>)
    requires Compiles(sch) && Agree(sch, f, s) && DeterminedMany(sch, s, vs) && FillsMany(sch, f, vs, hs)
    requires forall i :: 0 <= i < |vs| ==> HasType(sch, f, vs[i])
    ensures PutMany(sch, u, at, s, hs) == PutMany(sch, u, at, s, vs)
    decreases vs, 0
  {
    hide Compiles;
    hide Agree;
    hide HasType;
    hide Determined;
    hide Put;
    hide Fills;
    ManyLengths(sch, f, vs, hs);
    if vs == [] {
    } else {
      SameContents(sch, u, at + [|vs|], f, s, vs[0], hs[0]);
      SameContentsMany(sch, u, at, f, s, vs[1..], hs[1..]);
    }
  }

  lemma {:induction false} SameContentsFields(sch: Schema, u: Stale, at: seq<nat>, args: seq<Arg>, stored: seq<bool>,
                                              env: seq<nat>, vars: seq<Option<nat>>, vs: seq<Value>, hs: seq<Value>)
    requires Compiles(sch) && FetchCode(sch, args, stored).Some? && StoreCode(sch, args, stored).Some?
    requires forall i :: 0 <= i < |args| ==> Proper(sch, args[i])
    requires Known(stored, env, vars) && FieldsTyped(sch, FetchCode(sch, args, stored).value, env, vs)
    requires DeterminedFields(sch, StoreCode(sch, args, stored).value, vars, vs)
    requires FillsFields(sch, FetchCode(sch, args, stored).value, env, vs, hs)
    ensures PutFields(sch, u, at, StoreCode(sch, args, stored).value, vars, hs) ==
            PutFields(sch, u, at, StoreCode(sch, args, stored).value, vars, vs)
    decreases vs, 0
  {
    hide *;
    FieldSplit(sch, args, stored, env, vars, vs);
    var fs, ss := FetchCode(sch, args, stored).value, StoreCode(sch, args, stored).value;
    FieldsLengths(sch, fs, env, vs, hs);
    if args != [] {
      var a, more := args[0], Marked(args[0], stored);
      FillStep(sch, fs, env, vs, hs);
      DeterminedStep(sch, ss, vars, vs);
      SamePresence(a, u, at, stored, env, vars);
      SamePresence(a, ZEROED, [], stored, env, vars);
      PutFieldsIs(sch, u, at, ss, vars, vs);
      PutFieldsIs(sch, u, at, ss, vars, hs);
      if ss[0].Skip? {
        SameContentsFields(sch, u, at, args[1..], more, env, vars, vs[1..], hs[1..]);
      } else if !Present(CondOf(a), env) {
        SameContentsFields(sch, u, at, args[1..], more, Set(KeepOf(a), env, 0), vars, vs[1..], hs[1..]);
      } else {
        var n := Number(vs[0]);
        KeptIsFilled(sch, args, stored, vs[0], hs[0]);
        SameContents(sch, u, at + [|vs|], fs[0].fetch, ss[0].store, vs[0], hs[0]);
        SameContentsFields(sch, u, at, args[1..], more, Set(KeepOf(a), env, n), Assign(KeepOf(a), vars, n), vs[1..], hs[1..]);
      }
    }
  }

  /** The number that a variable takes from a field is the same in every filling. */
  lemma KeptIsFilled(sch: Schema, args: seq<Arg>, stored: seq<bool>, v: Value, h: Value)
    requires FetchCode(sch, args, stored).Some? && StoreCode(sch, args, stored).Some? && args != []
    requires Proper(sch, args[0])
    requires FetchCode(sch, args, stored).value != [] && Fills(sch, FetchCode(sch, args, stored).value[0].fetch, v, h)
    ensures forall vars: seq<Option<nat>> ::
              Assign(KeepOf(args[0]), vars, Number(h)) == Assign(KeepOf(args[0]), vars, Number(v))
  {
    hide FetchCode;
    hide StoreCode;
    hide Number;
    hide FieldFetch;
    hide FieldStore;
    hide Proper;
    CodeSplit(sch, args, stored);
    FieldCodesAgree(sch, args[0], stored);
    FieldShape(sch, args[0], stored);
    hide Agree;
  }

  // ------------------------------------------------------------ whole words are stored

  predicate Aligned(r: Option<seq<byte>>) { r.Some? ==> |r.value| % 4 == 0 }

  lemma JoinedAligned(a: Option<seq<byte>>, b: Option<seq<byte>>)
    requires Aligned(a) && Aligned(b)
    ensures Aligned(Joined(a, b))
  {}

  lemma {:induction false} PutAligned(sch: Schema, u: Stale, at: seq<nat>, f: Fetch, s: Store, v: Value)
    requires Compiles(sch) && Agree(sch, f, s) && HasType(sch, f, v)
    ensures Aligned(Put(sch, u, at, s, v))
    decreases v, 1, f
  {
    hide *;
    Shapes(sch, f, s, v);
    match f
    case FetchBoxed(g, id) =>
      PutAligned(sch, u, at, g, s.inner, v);
      PutIs(sch, u, at, s, v);
      WordAligned(id);
      JoinedAligned(Some(Le(id, 4)), Put(sch, u, at, s.inner, v));
    case FetchVector(e) =>
      ManyAligned(sch, u, at, e, s.item, v.items);
      PutIs(sch, u, at, s, v);
      WordAligned(|v.items|);
      JoinedAligned(Some(Le(|v.items|, 4)), PutMany(sch, u, at, s.item, v.items));
    case FetchObject(n) =>
      ObjectCodes(sch, n, v.ctor);
      var c := sch[n].constructors[v.ctor];
      NothingKnown(c.varCount);
      FieldsAligned(sch, u, at, c.args, Unstored(c.varCount), Cleared(c.varCount), Unassigned(c.varCount), v.fields);
      PutObjectIs(sch, u, at, n, s, v);
      var r := PutFields(sch, u, at, StoreCodeOf(sch, n, v.ctor).value, Unassigned(c.varCount), v.fields);
      WordAligned(c.id);
      JoinedAligned(Some(Le(c.id, 4)), r);
    case _ => LeafAligned(sch, u, at, f, s, v);
  }

  lemma WordAligned(n: nat)
    ensures Aligned(Some(Le(n, 4)))
  {
    hide Le;
  }

  lemma LeafAligned(sch: Schema, u: Stale, at: seq<nat>, f: Fetch, s: Store, v: Value)
    requires Agree(sch, f, s) && HasType(sch, f, v) && !f.FetchBoxed? && !f.FetchVector? && !f.FetchObject?
    ensures Aligned(Put(sch, u, at, s, v))
  {
    hide Le;
    hide TlPrimitives.StoreString;
  }

  lemma {:induction false} ManyAligned(sch: Schema, u: Stale, at: seq<nat>, f: Fetch, s: Store, vs: seq<Value>)
    requires Compiles(sch) && Agree(sch, f, s) && forall i :: 0 <= i < |vs| ==> HasType(sch, f, vs[i])
    ensures Aligned(PutMany(sch, u, at, s, vs))
    decreases vs, 0
  {
    hide Compiles;
    hide Agree;
    hide HasType;
    hide Put;
    PutManyIs(sch, u, at, s, vs);
    hide PutMany;
    if vs == [] {
    } else {
      PutAligned(sch, u, at + [|vs|], f, s, vs[0]);
      ManyAligned(sch, u, at, f, s, vs[1..]);
      JoinedAligned(Put(sch, u, at + [|vs|], s, vs[0]), PutMany(sch, u, at, s, vs[1..]));
    }
  }

  lemma {:induction false} FieldsAligned(sch: Schema, u: Stale, at: seq<nat>, args: seq<Arg>, stored: seq<bool>,
                                         env: seq<nat>, vars: seq<Option<nat>>, vs: seq<Value>)
    requires Compiles(sch) && FetchCode(sch, args, stored).Some? && StoreCode(sch, args, stored).Some?
    requires forall i :: 0 <= i < |args| ==> Proper(sch, args[i])
    requires Known(stored, env, vars) && FieldsTyped(sch, FetchCode(sch, args, stored).value, env, vs)
    ensures Aligned(PutFields(sch, u, at, StoreCode(sch, args, stored).value, vars, vs))
    decreases vs, 0
  {
    hide *;
    FieldSplit(sch, args, stored, env, vars, vs);
    var fs, ss := FetchCode(sch, args, stored).value, StoreCode(sch, args, stored).value;
    if args == [] {
      NothingAligned(sch, u, at, vars);
    } else {
      var a, more := args[0], Marked(args[0], stored);
      SamePresence(a, u, at, stored, env, vars);
      PutFieldsIs(sch, u, at, ss, vars, vs);
      if ss[0].Skip? {
        FieldsAligned(sch, u, at, args[1..], more, env, vars, vs[1..]);
      } else if !Present(CondOf(a), env) {
        FieldsAligned(sch, u, at, args[1..], more, Set(KeepOf(a), env, 0), vars, vs[1..]);
        AbsentIsNotStored(sch, u, at + [|vs|], ss[0].store);
        NoneJoined(PutFields(sch, u, at, ss[1..], Assign(ss[0].keep, vars, Number(vs[0])), vs[1..]));
      } else {
        var n := Number(vs[0]);
        PresentOrTaken(a, u, at, stored, env, vars);
        PutAligned(sch, u, at + [|vs|], fs[0].fetch, ss[0].store, vs[0]);
        FieldsAligned(sch, u, at, args[1..], more, Set(KeepOf(a), env, n), Assign(KeepOf(a), vars, n), vs[1..]);
        JoinedAligned(Put(sch, u, at + [|vs|], ss[0].store, vs[0]),
                      PutFields(sch, u, at, ss[1..], Assign(KeepOf(a), vars, n), vs[1..]));
      }
    }
  }

  lemma NothingAligned(sch: Schema, u: Stale, at: seq<nat>, vars: seq<Option<nat>>)
    ensures Aligned(PutFields(sch, u, at, [], vars, []))
  {}

  lemma NoneJoined(b: Option<seq<byte>>)
    ensures Aligned(Joined(None, b))
  {}

  lemma PresentOrTaken(a: Arg, u: Stale, at: seq<nat>, stored: seq<bool>, env: seq<nat>, vars: seq<Option<nat>>)
    requires Known(stored, env, vars) && CondOk(a, stored) && Present(CondOf(a), env)
    ensures Assigned(CondOf(a), vars) && Taken(CondOf(a), u, at, vars)
  {
    NoBitOfZero(a.existBit);
    hide Bit;
  }

  lemma NoBitOfZero(b: nat)
    ensures !Bit(0, b)
  {
    assert 0 / Pow2(b) == 0;
  }

  /** A null pointer cannot be stored, nor can anything else that is not there. */
  lemma {:induction false} AbsentIsNotStored(sch: Schema, u: Stale, at: seq<nat>, s: Store)
    ensures Put(sch, u, at, s, Absent).None?
    decreases s
  {
    match s
    case StoreBoxed(t, _) => AbsentIsNotStored(sch, u, at, t);
    case _ =>
  }

  // ------------------------------------------------------------ contents that are stored differently

  /** One of the two cannot be stored, or they differ first at the start of a word that starts no long string. */
  ghost predicate Diverge(a: Option<seq<byte>>, b: Option<seq<byte>>) {
    a.None? || b.None? || exists j: nat :: Part(a.value, b.value, j)
  }

  lemma PartAppend(a: seq<byte>, b: seq<byte>, p: seq<byte>, q: seq<byte>, j: nat)
    requires Part(a, b, j)
    ensures Part(a + p, b + q, j)
  {
    assert (a + p)[..j] == a[..j] && (b + q)[..j] == b[..j];
  }

  lemma PartPrepend(w: seq<byte>, a: seq<byte>, b: seq<byte>, j: nat)
    requires Part(a, b, j) && |w| % 4 == 0
    ensures Part(w + a, w + b, |w| + j)
  {
    assert (w + a)[..|w| + j] == w + a[..j] && (w + b)[..|w| + j] == w + b[..j];
  }

  lemma DivergeThen(a: Option<seq<byte>>, b: Option<seq<byte>>, p: Option<seq<byte>>, q: Option<seq<byte>>)
    requires Diverge(a, b)
    ensures Diverge(Joined(a, p), Joined(b, q))
  {
    hide Part;
    if a.Some? && b.Some? && p.Some? && q.Some? {
      var j: nat :| Part(a.value, b.value, j);
      PartAppend(a.value, b.value, p.value, q.value, j);
    }
  }

  lemma DivergeBehind(w: Option<seq<byte>>, a: Option<seq<byte>>, b: Option<seq<byte>>)
    requires Diverge(a, b) && Aligned(w)
    ensures Diverge(Joined(w, a), Joined(w, b))
  {
    hide Part;
    if a.Some? && b.Some? && w.Some? {
      var j: nat :| Part(a.value, b.value, j);
      PartPrepend(w.value, a.value, b.value, j);
    }
  }

  /** Every field type has two contents that are stored differently, or one that cannot be stored. */
  lemma {:induction false} TwoContents(sch: Schema, u: Stale, at: seq<nat>, f: Fetch, s: Store)
    returns (x: Value, y: Value)
    requires Agree(sch, f, s)
    ensures Static(sch, f, x) && Static(sch, f, y) && Diverge(Put(sch, u, at, s, x), Put(sch, u, at, s, y))
    decreases f
  {
    match f
    case FetchBoxed(g, id) =>
      x, y := TwoContents(sch, u, at, g, s.inner);
      hide Put;
      hide Diverge;
      PutIs(sch, u, at, s, x);
      PutIs(sch, u, at, s, y);
      WordAligned(id);
      DivergeBehind(Some(Le(id, 4)), Put(sch, u, at, s.inner, x), Put(sch, u, at, s.inner, y));
    case FetchVector(e) =>
      BlankIsStatic(sch, e);
      x, y := Many([]), Many([Blank(e)]);
      hide Put;
      hide Diverge;
      PutIs(sch, u, at, s, x);
      PutIs(sch, u, at, s, y);
      SmallNumbers();
      DivergeThen(Some(Le(0, 4)), Some(Le(1, 4)), PutMany(sch, u, at, s.item, x.items), PutMany(sch, u, at, s.item, y.items));
    case FetchObject(n) =>
      x, y := Absent, Absent;
      AbsentIsNotStored(sch, u, at, s);
      hide Put;
    case _ => x, y := TwoLeaves(sch, u, at, f, s);
  }

  lemma SmallNumbers()
    ensures Diverge(Some(Le(0, 4)), Some(Le(1, 4)))
  {
    assert Le(0, 4)[0] == 0 && Le(1, 4)[0] == 1;
    assert Part(Le(0, 4), Le(1, 4), 0);
  }

  lemma TwoNumbers(n: nat) returns (x: seq<byte>, y: seq<byte>)
    requires n > 0
    ensures |x| == |y| == n && Part(x, y, 0)
  {
    x := Zeros(n);
    y := x[0 := 1];
  }

  lemma TwoLeaves(sch: Schema, u: Stale, at: seq<nat>, f: Fetch, s: Store) returns (x: Value, y: Value)
    requires Agree(sch, f, s) && !f.FetchBoxed? && !f.FetchVector? && !f.FetchObject?
    ensures Static(sch, f, x) && Static(sch, f, y) && Diverge(Put(sch, u, at, s, x), Put(sch, u, at, s, y))
  {
    hide Part;
    if f.FetchBool? {
      x, y := Flag(true), Flag(false);
      TwoBools();
    } else if f.FetchString? || f.FetchBytes? {
      x, y := Text([]), Text([0]);
      TwoStrings();
    } else {
      var n := if f.FetchInt? then 4 else if f.FetchLong? || f.FetchDouble? then 8 else if f.FetchInt128? then 16 else 32;
      var a, b := TwoNumbers(n);
      x, y := Raw(a), Raw(b);
    }
    hide Le;
    hide TlPrimitives.StoreString;
  }

  lemma TwoBools()
    ensures Part(Le(BOOL_TRUE, 4), Le(BOOL_FALSE, 4), 0)
  {
    assert Le(BOOL_TRUE, 4)[0] == 0xb5 && Le(BOOL_FALSE, 4)[0] == 0x37;
  }

  lemma TwoStrings()
    ensures Part(TlPrimitives.StoreString([]), TlPrimitives.StoreString([0]), 0)
  {}

  // ------------------------------------------------------------ values that are not determined

  /** When every unassigned variable has all bits set, a value that is not determined has two fillings that are stored
      differently, or one that cannot be stored. */
  lemma {:induction false} UndeterminedDiverges(sch: Schema, at: seq<nat>, f: Fetch, s: Store, v: Value)
    returns (x: Value, y: Value)
    requires Compiles(sch) && Agree(sch, f, s) && HasType(sch, f, v) && !Determined(sch, s, v)
    ensures Fills(sch, f, v, x) && Fills(sch, f, v, y)
    ensures Diverge(Put(sch, ALL_BITS, at, s, x), Put(sch, ALL_BITS, at, s, y))
    decreases v, 1, f
  {
    hide *;
    Shapes(sch, f, s, v);
    DeterminedParts(sch, s, v);
    match f
    case FetchBoxed(g, id) =>
      x, y := UndeterminedDiverges(sch, at, g, s.inner, v);
      FillsBoxed(sch, f, v, x);
      FillsBoxed(sch, f, v, y);
      PutIs(sch, ALL_BITS, at, s, x);
      PutIs(sch, ALL_BITS, at, s, y);
      WordAligned(id);
      DivergeBehind(Some(Le(id, 4)), Put(sch, ALL_BITS, at, s.inner, x), Put(sch, ALL_BITS, at, s.inner, y));
    case FetchVector(e) =>
      var xs, ys := ManyDiverge(sch, at, e, s.item, v.items);
      x, y := Many(xs), Many(ys);
      FillsVector(sch, f, v, x);
      FillsVector(sch, f, v, y);
      ManyLengths(sch, e, v.items, xs);
      ManyLengths(sch, e, v.items, ys);
      PutIs(sch, ALL_BITS, at, s, x);
      PutIs(sch, ALL_BITS, at, s, y);
      WordAligned(|xs|);
      DivergeBehind(Some(Le(|xs|, 4)), PutMany(sch, ALL_BITS, at, s.item, xs), PutMany(sch, ALL_BITS, at, s.item, ys));
    case FetchObject(n) =>
      x, y := ObjectDiverges(sch, at, n, s, v);
    case _ => LeavesDetermined(sch, f, s, v);
  }

  lemma LeavesDetermined(sch: Schema, f: Fetch, s: Store, v: Value)
    requires Agree(sch, f, s) && !f.FetchBoxed? && !f.FetchVector? && !f.FetchObject?
    ensures Determined(sch, s, v)
  {}

  lemma FillsBoxed(sch: Schema, f: Fetch, v: Value, h: Value)
    requires f.FetchBoxed? && Fills(sch, f.inner, v, h)
    ensures Fills(sch, f, v, h)
  {}

  lemma FillsVector(sch: Schema, f: Fetch, v: Value, h: Value)
    requires f.FetchVector? && v.Many? && h.Many? && FillsMany(sch, f.item, v.items, h.items)
    ensures Fills(sch, f, v, h)
  {}

  lemma {:induction false} ObjectDiverges(sch: Schema, at: seq<nat>, n: nat, s: Store, v: Value)
    returns (x: Value, y: Value)
    requires Compiles(sch) && Agree(sch, FetchObject(n), s) && HasType(sch, FetchObject(n), v) && !Determined(sch, s, v)
    ensures Fills(sch, FetchObject(n), v, x) && Fills(sch, FetchObject(n), v, y)
    ensures Diverge(Put(sch, ALL_BITS, at, s, x), Put(sch, ALL_BITS, at, s, y))
    decreases v, 0
  {
    hide *;
    Shapes(sch, FetchObject(n), s, v);
    ObjectCodes(sch, n, v.ctor);
    ObjectDetermined(sch, n, s, v);
    var c := sch[n].constructors[v.ctor];
    NothingKnown(c.varCount);
    var xs, ys := FieldsDiverge(sch, at, c.args, Unstored(c.varCount), Cleared(c.varCount), Unassigned(c.varCount), v.fields);
    x, y := Object(n, v.ctor, xs), Object(n, v.ctor, ys);
    FillsObject(sch, n, v, x);
    FillsObject(sch, n, v, y);
    PutObjectIs(sch, ALL_BITS, at, n, s, x);
    PutObjectIs(sch, ALL_BITS, at, n, s, y);
    WordAligned(c.id);
    var code := StoreCodeOf(sch, n, v.ctor).value;
    DivergeBehind(Some(Le(c.id, 4)), PutFields(sch, ALL_BITS, at, code, Unassigned(c.varCount), xs),
                  PutFields(sch, ALL_BITS, at, code, Unassigned(c.varCount), ys));
  }

  lemma FillsObject(sch: Schema, n: nat, v: Value, h: Value)
    requires v.Object? && h.Object? && v.type_ == h.type_ == n && v.ctor == h.ctor && FetchCodeOf(sch, n, v.ctor).Some?
    requires FillsFields(sch, FetchCodeOf(sch, n, v.ctor).value, Cleared(sch[n].constructors[v.ctor].varCount), v.fields,
                         h.fields)
    ensures Fills(sch, FetchObject(n), v, h)
  {}

  lemma {:induction false} ManyDiverge(sch: Schema, at: seq<nat>, f: Fetch, s: Store, vs: seq<Value>)
    returns (xs: seq<Value>, ys: seq<Value>)
    requires Compiles(sch) && Agree(sch, f, s) && !DeterminedMany(sch, s, vs)
    requires forall i :: 0 <= i < |vs| ==> HasType(sch, f, vs[i])
    ensures FillsMany(sch, f, vs, xs) && FillsMany(sch, f, vs, ys)
    ensures Diverge(PutMany(sch, ALL_BITS, at, s, xs), PutMany(sch, ALL_BITS, at, s, ys))
    decreases vs, 0
  {
    var first := Determined(sch, s, vs[0]);
    assert !first || !DeterminedMany(sch, s, vs[1..]);
    hide *;
    var x, y;
    if !first {
      x, y := UndeterminedDiverges(sch, at + [|vs|], f, s, vs[0]);
      xs := FillBlankMany(sch, f, vs[1..]);
      ys := xs;
    } else {
      x := FillBlank(sch, f, vs[0]);
      y := x;
      xs, ys := ManyDiverge(sch, at, f, s, vs[1..]);
      SameContents(sch, ALL_BITS, at + [|vs|], f, s, vs[0], x);
      PutAligned(sch, ALL_BITS, at + [|vs|], f, s, vs[0]);
      DivergeBehind(Put(sch, ALL_BITS, at + [|vs|], s, x), PutMany(sch, ALL_BITS, at, s, xs), PutMany(sch, ALL_BITS, at, s, ys));
    }
    ManyLengths(sch, f, vs[1..], xs);
    ManyLengths(sch, f, vs[1..], ys);
    PutManyFirst(sch, at, s, x, xs);
    PutManyFirst(sch, at, s, y, ys);
    if !first {
      DivergeThen(Put(sch, ALL_BITS, at + [|vs|], s, x), Put(sch, ALL_BITS, at + [|vs|], s, y),
                  PutMany(sch, ALL_BITS, at, s, xs), PutMany(sch, ALL_BITS, at, s, ys));
    }
    FillsFirst(sch, f, vs, x, xs);
    FillsFirst(sch, f, vs, y, ys);
    xs, ys := [x] + xs, [y] + ys;
  }

  lemma PutManyFirst(sch: Schema, at: seq<nat>, s: Store, x: Value, xs: seq<Value>)
    ensures PutMany(sch, ALL_BITS, at, s, [x] + xs) ==
            Joined(Put(sch, ALL_BITS, at + [|xs| + 1], s, x), PutMany(sch, ALL_BITS, at, s, xs))
  {
    hide *;
    assert ([x] + xs)[1..] == xs;
    PutManyIs(sch, ALL_BITS, at, s, [x] + xs);
  }

  lemma FillsFirst(sch: Schema, f: Fetch, vs: seq<Value>, x: Value, xs: seq<Value>)
    requires vs != [] && Fills(sch, f, vs[0], x) && FillsMany(sch, f, vs[1..], xs)
    ensures FillsMany(sch, f, vs, [x] + xs)
  {
    hide Fills;
    assert ([x] + xs)[1..] == xs;
  }

  lemma FieldsFirst(sch: Schema, fs: seq<FetchField>, env: seq<nat>, vs: seq<Value>, x: Value, xs: seq<Value>)
    requires fs != [] && vs != []
    requires if Present(fs[0].cond, env) then
               Fills(sch, fs[0].fetch, vs[0], x) && FillsFields(sch, fs[1..], Set(fs[0].keep, env, Number(vs[0])), vs[1..], xs)
             else Static(sch, fs[0].fetch, x) && FillsFields(sch, fs[1..], Set(fs[0].keep, env, 0), vs[1..], xs)
    ensures FillsFields(sch, fs, env, vs, [x] + xs)
  {
    hide Fills;
    hide Static;
    hide Present;
    hide Set;
    hide Number;
    assert ([x] + xs)[1..] == xs;
  }

  lemma PutFirst(sch: Schema, at: seq<nat>, ss: seq<StoreField>, vars: seq<Option<nat>>, x: Value, xs: seq<Value>)
    requires ss != []
    ensures PutFields(sch, ALL_BITS, at, ss, vars, [x] + xs) ==
            if ss[0].Skip? || !Taken(ss[0].cond, ALL_BITS, at, vars) then PutFields(sch, ALL_BITS, at, ss[1..], vars, xs)
            else
              Joined(Put(sch, ALL_BITS, at + [|xs| + 1], ss[0].store, x),
                     PutFields(sch, ALL_BITS, at, ss[1..], Assign(ss[0].keep, vars, Number(x)), xs))
  {
    hide *;
    assert ([x] + xs)[1..] == xs;
    PutFieldsIs(sch, ALL_BITS, at, ss, vars, [x] + xs);
  }

  lemma {:induction false} FieldsDiverge(sch: Schema, at: seq<nat>, args: seq<Arg>, stored: seq<bool>, env: seq<nat>,
                                         vars: seq<Option<nat>>, vs: seq<Value>)
    returns (xs: seq<Value>, ys: seq<Value>)
    requires Compiles(sch) && FetchCode(sch, args, stored).Some? && StoreCode(sch, args, stored).Some?
    requires forall i :: 0 <= i < |args| ==> Proper(sch, args[i])
    requires Known(stored, env, vars) && FieldsTyped(sch, FetchCode(sch, args, stored).value, env, vs)
    requires !DeterminedFields(sch, StoreCode(sch, args, stored).value, vars, vs)
    ensures FillsFields(sch, FetchCode(sch, args, stored).value, env, vs, xs)
    ensures FillsFields(sch, FetchCode(sch, args, stored).value, env, vs, ys)
    ensures Diverge(PutFields(sch, ALL_BITS, at, StoreCode(sch, args, stored).value, vars, xs),
                    PutFields(sch, ALL_BITS, at, StoreCode(sch, args, stored).value, vars, ys))
    decreases vs, 0
  {
    hide *;
    FieldSplit(sch, args, stored, env, vars, vs);
    var fs, ss := FetchCode(sch, args, stored).value, StoreCode(sch, args, stored).value;
    NothingUndetermined(sch, vars);
    var a, more := args[0], Marked(args[0], stored);
    DeterminedStep(sch, ss, vars, vs);
    SamePresence(a, ALL_BITS, at, stored, env, vars);
    SamePresence(a, ZEROED, [], stored, env, vars);
    var n := if Present(CondOf(a), env) then Number(vs[0]) else 0;
    var next := Set(KeepOf(a), env, n);
    if !ss[0].Skip? && (!Assigned(CondOf(a), vars) || (Present(CondOf(a), env) && !Determined(sch, ss[0].store, vs[0]))) {
      var x, y := FirstDiverges(sch, at, env, vars, fs[0], ss[0], vs);
      xs := FillBlankFields(sch, fs[1..], next, vs[1..]);
      FieldsLengths(sch, fs[1..], next, vs[1..], xs);
      FieldsFirst(sch, fs, env, vs, x, xs);
      FieldsFirst(sch, fs, env, vs, y, xs);
      PutFirst(sch, at, ss, vars, x, xs);
      PutFirst(sch, at, ss, vars, y, xs);
      DivergeThen(Put(sch, ALL_BITS, at + [|vs|], ss[0].store, x), Put(sch, ALL_BITS, at + [|vs|], ss[0].store, y),
                  PutFields(sch, ALL_BITS, at, ss[1..], Assign(ss[0].keep, vars, Number(x)), xs),
                  PutFields(sch, ALL_BITS, at, ss[1..], Assign(ss[0].keep, vars, Number(y)), xs));
      xs, ys := [x] + xs, [y] + xs;
    } else {
      var taken := !ss[0].Skip? && Present(CondOf(a), env);
      var after := if taken then Assign(KeepOf(a), vars, n) else vars;
      xs, ys := FieldsDiverge(sch, at, args[1..], more, next, after, vs[1..]);
      var x := FirstFilled(sch, env, fs[0], vs[0]);
      FieldsLengths(sch, fs[1..], next, vs[1..], xs);
      FieldsLengths(sch, fs[1..], next, vs[1..], ys);
      FieldsFirst(sch, fs, env, vs, x, xs);
      FieldsFirst(sch, fs, env, vs, x, ys);
      PutFirst(sch, at, ss, vars, x, xs);
      PutFirst(sch, at, ss, vars, x, ys);
      if taken {
        KeptIsFilled(sch, args, stored, vs[0], x);
        SameContents(sch, ALL_BITS, at + [|vs|], fs[0].fetch, ss[0].store, vs[0], x);
        PutAligned(sch, ALL_BITS, at + [|vs|], fs[0].fetch, ss[0].store, vs[0]);
        DivergeBehind(Put(sch, ALL_BITS, at + [|vs|], ss[0].store, x),
                      PutFields(sch, ALL_BITS, at, ss[1..], after, xs), PutFields(sch, ALL_BITS, at, ss[1..], after, ys));
      }
      xs, ys := [x] + xs, [x] + ys;
    }
  }

  lemma NothingUndetermined(sch: Schema, vars: seq<Option<nat>>)
    ensures DeterminedFields(sch, [], vars, [])
  {}

  /** The first field is the one that is not determined. */
  lemma {:induction false} FirstDiverges(sch: Schema, at: seq<nat>, env: seq<nat>, vars: seq<Option<nat>>, f: FetchField,
                                         s: StoreField, vs: seq<Value>)
    returns (x: Value, y: Value)
    requires Compiles(sch) && vs != [] && !s.Skip? && Agree(sch, f.fetch, s.store)
    requires Present(f.cond, env) ==> HasType(sch, f.fetch, vs[0]) && !Determined(sch, s.store, vs[0])
    ensures if Present(f.cond, env) then Fills(sch, f.fetch, vs[0], x) && Fills(sch, f.fetch, vs[0], y)
            else Static(sch, f.fetch, x) && Static(sch, f.fetch, y)
    ensures Diverge(Put(sch, ALL_BITS, at + [|vs|], s.store, x), Put(sch, ALL_BITS, at + [|vs|], s.store, y))
    decreases vs, 0, 0
  {
    hide *;
    if Present(f.cond, env) {
      x, y := UndeterminedDiverges(sch, at + [|vs|], f.fetch, s.store, vs[0]);
    } else {
      x, y := TwoContents(sch, ALL_BITS, at + [|vs|], f.fetch, s.store);
    }
  }

  lemma FirstFilled(sch: Schema, env: seq<nat>, f: FetchField, v: Value) returns (x: Value)
    requires Present(f.cond, env) ==> HasType(sch, f.fetch, v)
    ensures if Present(f.cond, env) then Fills(sch, f.fetch, v, x) else Static(sch, f.fetch, x)
  {
    hide *;
    if Present(f.cond, env) {
      x := FillBlank(sch, f.fetch, v);
    } else {
      BlankIsStatic(sch, f.fetch);
      x := Blank(f.fetch);
    }
  }

  // ------------------------------------------------------------ the whole compiler

  /** The C++ value `h`, seen as `v`, is read back as `v`. */
  ghost predicate ComesBack(sch: Schema, fuel: nat, u: Stale, at: seq<nat>, f: Fetch, s: Store, v: Value, h: Value,
                            t: seq<byte>) {
    var b := Put(sch, u, at, s, h);
    b.Some? && Get(sch, fuel, f, b.value + t) == Some((v, t))
  }

  /** It does so whatever the variables of the store code held before and whatever the fields hold that are not
      there. */
  ghost predicate AlwaysComesBack(sch: Schema, fuel: nat, f: Fetch, s: Store, v: Value, t: seq<byte>) {
    forall u: Stale, at: seq<nat>, h: Value :: Fills(sch, f, v, h) ==> ComesBack(sch, fuel, u, at, f, s, v, h, t)
  }

  /** For every type tree that the writer accepts, the store and fetch code generated for it undo each other on every
      value, whatever is held by the variables of the store code and by the fields that are not there, exactly when
      the value is determined and fits. */
  lemma CompiledRoundTrip(sch: Schema, tree: Tree, v: Value, fuel: nat, t: seq<byte>)
    requires Compiles(sch) && FullFetchClass(sch, tree).Some? && FullStoreClass(sch, tree).Some? && !Lone(sch, tree)
    requires HasType(sch, FullFetchClass(sch, tree).value, v) && fuel > Depth(v)
    ensures var f, s := FullFetchClass(sch, tree).value, FullStoreClass(sch, tree).value;
            AlwaysComesBack(sch, fuel, f, s, v, t) <==> Determined(sch, s, v) && Fits(sch, s, v, |t|)
  {
    var f, s := FullFetchClass(sch, tree).value, FullStoreClass(sch, tree).value;
    hide *;
    GeneratorsAgree(sch, tree);
    if Determined(sch, s, v) {
      DeterminedComesBack(sch, fuel, f, s, v, t);
    } else {
      var x, y := UndeterminedDiverges(sch, [], f, s, v);
      if AlwaysComesBack(sch, fuel, f, s, v, t) {
        AlwaysMeans(sch, fuel, ALL_BITS, [], f, s, v, x, t);
        AlwaysMeans(sch, fuel, ALL_BITS, [], f, s, v, y, t);
        NotBothComeBack(sch, fuel, f, s, v, x, y, t);
      }
    }
  }

  lemma AlwaysMeans(sch: Schema, fuel: nat, u: Stale, at: seq<nat>, f: Fetch, s: Store, v: Value, h: Value, t: seq<byte>)
    requires AlwaysComesBack(sch, fuel, f, s, v, t) && Fills(sch, f, v, h)
    ensures ComesBack(sch, fuel, u, at, f, s, v, h, t)
  {
    hide Fills;
    hide ComesBack;
  }

  lemma DeterminedComesBack(sch: Schema, fuel: nat, f: Fetch, s: Store, v: Value, t: seq<byte>)
    requires Compiles(sch) && Agree(sch, f, s) && HasType(sch, f, v) && Determined(sch, s, v) && fuel > Depth(v)
    ensures AlwaysComesBack(sch, fuel, f, s, v, t) <==> Fits(sch, s, v, |t|)
  {
    hide Compiles;
    hide Agree;
    hide HasType;
    hide Determined;
    hide Depth;
    hide Fills;
    hide Fits;
    hide ComesBack;
    forall u: Stale, at: seq<nat>, h: Value | Fills(sch, f, v, h)
      ensures ComesBack(sch, fuel, u, at, f, s, v, h, t) <==> Fits(sch, s, v, |t|)
    {
      FillingComesBack(sch, fuel, u, at, f, s, v, h, t);
    }
    var h := FillBlank(sch, f, v);
    assert ComesBack(sch, fuel, ZEROED, [], f, s, v, h, t) <==> Fits(sch, s, v, |t|);
  }

  lemma FillingComesBack(sch: Schema, fuel: nat, u: Stale, at: seq<nat>, f: Fetch, s: Store, v: Value, h: Value,
                         t: seq<byte>)
    requires Compiles(sch) && Agree(sch, f, s) && HasType(sch, f, v) && Determined(sch, s, v) && fuel > Depth(v)
    requires Fills(sch, f, v, h)
    ensures ComesBack(sch, fuel, u, at, f, s, v, h, t) <==> Fits(sch, s, v, |t|)
  {
    hide *;
    RoundTrip(sch, fuel, u, at, f, s, v, t);
    SameContents(sch, u, at, f, s, v, h);
    ComesBackIs(sch, fuel, u, at, f, s, v, h, t);
  }

  lemma ComesBackIs(sch: Schema, fuel: nat, u: Stale, at: seq<nat>, f: Fetch, s: Store, v: Value, h: Value, t: seq<byte>)
    requires ReadsBack(sch, fuel, u, at, f, s, v, t) && Put(sch, u, at, s, h) == Put(sch, u, at, s, v)
    ensures ComesBack(sch, fuel, u, at, f, s, v, h, t) <==> Fits(sch, s, v, |t|)
  {
    hide Put;
    hide Get;
    hide Fits;
  }

  lemma NotBothComeBack(sch: Schema, fuel: nat, f: Fetch, s: Store, v: Value, x: Value, y: Value, t: seq<byte>)
    requires Diverge(Put(sch, ALL_BITS, [], s, x), Put(sch, ALL_BITS, [], s, y))
    ensures !ComesBack(sch, fuel, ALL_BITS, [], f, s, v, x, t) || !ComesBack(sch, fuel, ALL_BITS, [], f, s, v, y, t)
  {
    hide Put;
    hide Get;
    hide Part;
    var a, b := Put(sch, ALL_BITS, [], s, x), Put(sch, ALL_BITS, [], s, y);
    if a.Some? && b.Some? {
      var j: nat :| Part(a.value, b.value, j);
      PartAppend(a.value, b.value, t, t, j);
      GetSeparates(sch, fuel, f, a.value + t, b.value + t, j);
      assert j < |a.value| by { PartIs(a.value, b.value, j); }
    }
  }

  lemma PartIs(a: seq<byte>, b: seq<byte>, j: nat)
    requires Part(a, b, j)
    ensures j < |a|
  {}
}
