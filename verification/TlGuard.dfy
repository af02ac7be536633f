/** The condition on a schema under which all its values are determined (gen_field_store of
    td/generate/tl_writer_cpp.cpp). */
module TlGuard {
  import opened Bytes
  import opened TlPrimitives
  import opened TlSchema
  import opened TlCode
  import opened TlRoundTrip
  import opened TlContents

  /** Every field that is stored under a test, tests a variable whose own # is unconditional. */
  predicate Guarded(code: seq<StoreField>, sure: set<nat>)
    decreases |code|
  {
    code == [] ||
    (if code[0].Skip? then Guarded(code[1..], sure)
     else
       (code[0].cond.OnBit? ==> code[0].cond.var_ in sure) &&
       Guarded(code[1..], if code[0].cond.Always? && code[0].keep.Into? then sure + {code[0].keep.var_} else sure))
  }

  ghost predicate GuardedSchema(sch: Schema) {
    forall n: nat, c: nat :: StoreCodeOf(sch, n, c).Some? ==> Guarded(StoreCodeOf(sch, n, c).value, {})
  }

  /** In a schema where no stored field tests a variable of a conditional #, every value is determined. */
  lemma {:induction false} GuardedDetermines(sch: Schema, s: Store, v: Value)
    requires GuardedSchema(sch)
    ensures Determined(sch, s, v)
    decreases v, 1, s
  {
    hide DeterminedFields;
    hide DeterminedMany;
    hide StoreCode;
    hide Guarded;
    match s
    case StoreVector(e) =>
      if v.Many? {
        GuardedMany(sch, e, v.items);
      }
    case StoreObject =>
      if v.Object? && StoreCodeOf(sch, v.type_, v.ctor).Some? {
        GuardedFields(sch, StoreCodeOf(sch, v.type_, v.ctor).value, {},
                      Unassigned(sch[v.type_].constructors[v.ctor].varCount), v.fields);
      }
    case StoreBoxed(t, _) => GuardedDetermines(sch, t, v);
    case StoreBoxedUnknown(t) => GuardedDetermines(sch, t, v);
    case _ =>
  }

  lemma {:induction false} GuardedMany(sch: Schema, s: Store, vs: seq<Value>)
    requires GuardedSchema(sch)
    ensures DeterminedMany(sch, s, vs)
    decreases vs, 0
  {
    hide Determined;
    hide GuardedSchema;
    if vs == [] {
    } else {
      GuardedDetermines(sch, s, vs[0]);
      GuardedMany(sch, s, vs[1..]);
    }
  }

  lemma {:induction false} GuardedFields(sch: Schema, code: seq<StoreField>, sure: set<nat>, vars: seq<Option<nat>>,
                                         fields: seq<Value>)
    requires GuardedSchema(sch) && Guarded(code, sure)
    requires forall i :: i in sure && i < |vars| ==> vars[i].Some?
    ensures DeterminedFields(sch, code, vars, fields)
    decreases fields, 0
  {
    hide Determined;
    hide GuardedSchema;
    if code == [] || fields == [] {
    } else if code[0].Skip? {
      GuardedFields(sch, code[1..], sure, vars, fields[1..]);
    } else {
      var more := if code[0].cond.Always? && code[0].keep.Into? then sure + {code[0].keep.var_} else sure;
      if Taken(code[0].cond, ZEROED, [], vars) {
        GuardedDetermines(sch, code[0].store, fields[0]);
        GuardedFields(sch, code[1..], more, Assign(code[0].keep, vars, Number(fields[0])), fields[1..]);
      } else {
        GuardedFields(sch, code[1..], more, vars, fields[1..]);
      }
    }
  }

  /** Such a schema has the round trip for every value that fits, whatever variables and absent fields hold. */
  lemma GuardedRoundTrip(sch: Schema, tree: Tree, v: Value, fuel: nat, t: seq<byte>)
    requires Compiles(sch) && GuardedSchema(sch)
    requires FullFetchClass(sch, tree).Some? && FullStoreClass(sch, tree).Some? && !Lone(sch, tree)
    requires HasType(sch, FullFetchClass(sch, tree).value, v) && fuel > Depth(v)
    ensures var f, s := FullFetchClass(sch, tree).value, FullStoreClass(sch, tree).value;
            AlwaysComesBack(sch, fuel, f, s, v, t) <==> Fits(sch, s, v, |t|)
  {
    hide *;
    GuardedDetermines(sch, FullStoreClass(sch, tree).value, v);
    CompiledRoundTrip(sch, tree, v, fuel, t);
  }

  // ------------------------------------------------------------ the guard is exact

  /** Every field that is always there has some value: no type contains itself without end. */
  ghost predicate Inhabited(sch: Schema) {
    forall n: nat, c: nat :: FetchCodeOf(sch, n, c).Some? ==> AllLive(sch, FetchCodeOf(sch, n, c).value)
  }

  ghost predicate AllLive(sch: Schema, code: seq<FetchField>) {
    forall i :: 0 <= i < |code| && code[i].cond.Always? ==> Lives(sch, code[i].fetch)
  }

  ghost predicate Lives(sch: Schema, f: Fetch) { exists v :: HasType(sch, f, v) }

  /** No variable has a bit set, and only those in `sure` are assigned. */
  ghost predicate Off(stored: seq<bool>, env: seq<nat>, vars: seq<Option<nat>>, sure: set<nat>) {
    Known(stored, env, vars) && (forall i :: 0 <= i < |env| ==> env[i] == 0) &&
    forall i :: 0 <= i < |vars| && i !in sure ==> vars[i].None?
  }

  function SureAfter(s: StoreField, sure: set<nat>): set<nat> {
    if !s.Skip? && s.cond.Always? && s.keep.Into? then sure + {s.keep.var_} else sure
  }

  function AssignedAfter(s: StoreField, vars: seq<Option<nat>>): seq<Option<nat>> {
    if !s.Skip? && s.cond.Always? then Assign(s.keep, vars, 0) else vars
  }

  lemma OffAbsent(stored: seq<bool>, env: seq<nat>, vars: seq<Option<nat>>, sure: set<nat>, c: Cond)
    requires Off(stored, env, vars, sure)
    ensures Present(c, env) <==> c.Always?
    ensures c.OnBit? && c.var_ < |vars| && vars[c.var_].Some? ==> !Taken(c, ZEROED, [], vars)
  {
    if c.OnBit? {
      NoBitOfZero(c.bit);
    }
    hide Bit;
  }

  lemma OffNext(sch: Schema, a: Arg, s: StoreField, stored: seq<bool>, env: seq<nat>, vars: seq<Option<nat>>, sure: set<nat>)
    requires Off(stored, env, vars, sure) && KeepOk(sch, a, stored)
    requires if s.Skip? then KeepOf(a).Drop? else s.keep == KeepOf(a)
    ensures Set(KeepOf(a), env, 0) == env
    ensures Off(Marked(a, stored), env, AssignedAfter(s, vars), SureAfter(s, sure))
  {
    KnownAfter(sch, a, stored, env, vars, 0);
  }

  /** A value for a field when all flags are off. */
  lemma OffValue(sch: Schema, f: FetchField) returns (v: Value)
    requires f.cond.Always? ==> Lives(sch, f.fetch)
    requires f.keep.Into? ==> f.fetch.FetchInt?
    ensures if f.cond.Always? then HasType(sch, f.fetch, v) && (f.keep.Into? ==> Number(v) == 0) else v == Absent
  {
    if !f.cond.Always? {
      v := Absent;
    } else if f.keep.Into? {
      v := Raw(Le(0, 4));
      Le32RoundTrip(0);
    } else {
      v :| HasType(sch, f.fetch, v);
    }
  }

  lemma TypedFirst(sch: Schema, fs: seq<FetchField>, env: seq<nat>, v: Value, vs: seq<Value>)
    requires fs != [] && (Present(fs[0].cond, env) <==> fs[0].cond.Always?) && Set(fs[0].keep, env, 0) == env
    requires if fs[0].cond.Always? then HasType(sch, fs[0].fetch, v) && (fs[0].keep.Into? ==> Number(v) == 0)
             else v == Absent
    requires FieldsTyped(sch, fs[1..], env, vs)
    ensures FieldsTyped(sch, fs, env, [v] + vs)
  {
    hide HasType;
    hide Present;
    hide Number;
    assert ([v] + vs)[1..] == vs;
  }

  /** A broken guard is broken by the first field or behind it; either way the fields are not determined. */
  lemma UndeterminedFirst(sch: Schema, ss: seq<StoreField>, stored: seq<bool>, env: seq<nat>, vars: seq<Option<nat>>,
                          sure: set<nat>, v: Value, vs: seq<Value>)
    requires ss != [] && Off(stored, env, vars, sure) && !Guarded(ss, sure)
    requires !ss[0].Skip? && ss[0].cond.OnBit? ==> ss[0].cond.var_ < |vars|
    requires !ss[0].Skip? && ss[0].cond.Always? && ss[0].keep.Into? ==> Number(v) == 0
    requires !Guarded(ss[1..], SureAfter(ss[0], sure)) ==> !DeterminedFields(sch, ss[1..], AssignedAfter(ss[0], vars), vs)
    ensures !DeterminedFields(sch, ss, vars, [v] + vs)
  {
    assert ([v] + vs)[1..] == vs;
    DeterminedStep(sch, ss, vars, [v] + vs);
    hide DeterminedFields;
    hide Number;
    if !ss[0].Skip? {
      OffAbsent(stored, env, vars, sure, ss[0].cond);
    }
  }

  lemma {:induction false} OffIsUndetermined(sch: Schema, args: seq<Arg>, stored: seq<bool>, env: seq<nat>,
                                             vars: seq<Option<nat>>, sure: set<nat>) returns (vs: seq<Value>)
    requires FetchCode(sch, args, stored).Some? && StoreCode(sch, args, stored).Some?
    requires forall i :: 0 <= i < |args| ==> Proper(sch, args[i])
    requires AllLive(sch, FetchCode(sch, args, stored).value) && Off(stored, env, vars, sure)
    ensures FieldsTyped(sch, FetchCode(sch, args, stored).value, env, vs)
    ensures !Guarded(StoreCode(sch, args, stored).value, sure) ==>
              !DeterminedFields(sch, StoreCode(sch, args, stored).value, vars, vs)
    decreases |args|
  {
    hide *;
    if args == [] {
      vs := [];
      NoneOff(sch, stored, env, sure);
    } else {
      var fs, ss := FetchCode(sch, args, stored).value, StoreCode(sch, args, stored).value;
      var a := args[0];
      CodeSplit(sch, args, stored);
      FieldShape(sch, a, stored);
      FieldCodesAgree(sch, a, stored);
      CodesOff(sch, a, fs, ss, stored, env, vars, sure);
      OffNext(sch, a, ss[0], stored, env, vars, sure);
      OffAbsent(stored, env, vars, sure, fs[0].cond);
      var v := OffValue(sch, fs[0]);
      var rest := OffIsUndetermined(sch, args[1..], Marked(a, stored), env, AssignedAfter(ss[0], vars), SureAfter(ss[0], sure));
      vs := [v] + rest;
      TypedFirst(sch, fs, env, v, rest);
      if !Guarded(ss, sure) {
        UndeterminedFirst(sch, ss, stored, env, vars, sure, v, rest);
      }
    }
  }

  lemma NoneOff(sch: Schema, stored: seq<bool>, env: seq<nat>, sure: set<nat>)
    requires FetchCode(sch, [], stored).Some? && StoreCode(sch, [], stored).Some?
    ensures FieldsTyped(sch, FetchCode(sch, [], stored).value, env, []) && Guarded(StoreCode(sch, [], stored).value, sure)
  {}

  lemma CodesOff(sch: Schema, a: Arg, fs: seq<FetchField>, ss: seq<StoreField>, stored: seq<bool>, env: seq<nat>,
                 vars: seq<Option<nat>>, sure: set<nat>)
    requires fs != [] && ss != [] && FieldsAgree(sch, fs[0], ss[0]) && AllLive(sch, fs) && Off(stored, env, vars, sure)
    requires fs[0].cond == CondOf(a) && fs[0].keep == KeepOf(a) && CondOk(a, stored)
    ensures if ss[0].Skip? then KeepOf(a).Drop? else ss[0].keep == KeepOf(a) && ss[0].cond == CondOf(a)
    ensures CondOf(a).OnBit? ==> CondOf(a).var_ < |vars|
    ensures AllLive(sch, fs[1..]) && (fs[0].cond.Always? ==> Lives(sch, fs[0].fetch))
    ensures (fs[0].keep.Into? ==> fs[0].fetch.FetchInt?) && (ss[0].Skip? ==> fs[0].cond.OnBit?)
  {
    hide Agree;
    hide Lives;
    forall i | 0 <= i < |fs[1..]| && fs[1..][i].cond.Always? ensures Lives(sch, fs[1..][i].fetch) {
      assert fs[1..][i] == fs[i + 1];
    }
  }

  /** A constructor that breaks the guard has an object that is not determined. */
  lemma BrokenGuard(sch: Schema, n: nat, c: nat) returns (v: Value)
    requires Compiles(sch) && Inhabited(sch)
    requires StoreCodeOf(sch, n, c).Some? && !Guarded(StoreCodeOf(sch, n, c).value, {})
    ensures HasType(sch, FetchObject(n), v) && v.Object? && v.ctor == c && !Determined(sch, StoreObject, v)
  {
    hide *;
    CodeExists(sch, n, c);
    ObjectCodes(sch, n, c);
    InhabitedMeans(sch, n, c);
    var k := sch[n].constructors[c];
    NothingOff(k.varCount);
    var vs := OffIsUndetermined(sch, k.args, Unstored(k.varCount), Cleared(k.varCount), Unassigned(k.varCount), {});
    v := Object(n, c, vs);
    ObjectOff(sch, n, c, v);
  }

  lemma CodeExists(sch: Schema, n: nat, c: nat)
    requires StoreCodeOf(sch, n, c).Some?
    ensures n < |sch| && c < |sch[n].constructors| && sch[n].constructors[c].supported
  {}

  lemma InhabitedMeans(sch: Schema, n: nat, c: nat)
    requires Inhabited(sch) && FetchCodeOf(sch, n, c).Some?
    ensures AllLive(sch, FetchCodeOf(sch, n, c).value)
  {
    hide FetchCodeOf;
    hide AllLive;
  }

  lemma NothingOff(n: nat)
    ensures Off(Unstored(n), Cleared(n), Unassigned(n), {})
  {}

  lemma ObjectOff(sch: Schema, n: nat, c: nat, v: Value)
    requires n < |sch| && c < |sch[n].constructors| && sch[n].constructors[c].supported
    requires v.Object? && v.type_ == n && v.ctor == c && FetchCodeOf(sch, n, c).Some? && StoreCodeOf(sch, n, c).Some?
    requires FieldsTyped(sch, FetchCodeOf(sch, n, c).value, Cleared(sch[n].constructors[c].varCount), v.fields)
    requires !DeterminedFields(sch, StoreCodeOf(sch, n, c).value, Unassigned(sch[n].constructors[c].varCount), v.fields)
    ensures HasType(sch, FetchObject(n), v) && !Determined(sch, StoreObject, v)
  {
    hide FetchCodeOf;
    hide StoreCodeOf;
    hide FieldsTyped;
    hide DeterminedFields;
  }

  /** The guard is exact: no stored field tests a variable of a conditional #, if and only if every object of the
      schema is determined. */
  lemma GuardIsExact(sch: Schema)
    requires Compiles(sch) && Inhabited(sch)
    ensures GuardedSchema(sch) <==>
            forall n: nat, v: Value :: HasType(sch, FetchObject(n), v) ==> Determined(sch, StoreObject, v)
  {
    if GuardedSchema(sch) {
      hide *;
      forall n: nat, v: Value | HasType(sch, FetchObject(n), v) ensures Determined(sch, StoreObject, v) {
        GuardedDetermines(sch, StoreObject, v);
      }
    } else {
      var n: nat, c: nat :| StoreCodeOf(sch, n, c).Some? && !Guarded(StoreCodeOf(sch, n, c).value, {});
      hide *;
      var v := BrokenGuard(sch, n, c);
    }
    hide *;
  }
}
