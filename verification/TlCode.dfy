/** The code that the TL compiler generates for the fields of a constructor (gen_field_fetch and gen_field_store of
    td/generate/tl_writer_cpp.cpp), and what that code does (td/tl/tl_object_parse.h, td/tl/tl_object_store.h). */
module TlCode {
  import opened Bytes
  import opened TlPrimitives
  import opened TlSchema

  /** A field under `if (var & (1 << bit))`, possibly remembering its value in a variable. */
  datatype Cond = Always | OnBit(var_: nat, bit: nat)
  datatype Keep = Drop | Into(var_: nat)

  datatype FetchField = FetchField(cond: Cond, keep: Keep, fetch: Fetch)
  datatype StoreField = Skip | StoreField(cond: Cond, keep: Keep, store: Store)

  /** The asserts common to both generators, given which variables are stored already. */
  predicate CondOk(a: Arg, stored: seq<bool>) {
    a.existVar == -1 || (0 <= a.existVar < |stored| && stored[a.existVar])
  }

  predicate KeepOk(sch: Schema, a: Arg, stored: seq<bool>) {
    a.varNum < 0 ||
    (a.node.TypeNode? && a.node.tree.type_ < |sch| && sch[a.node.tree.type_].name == Hash &&
     a.varNum < |stored| && !stored[a.varNum])
  }

  function CondOf(a: Arg): Cond { if a.existVar < 0 then Always else OnBit(a.existVar, a.existBit) }
  function KeepOf(a: Arg): Keep { if a.varNum < 0 then Drop else Into(a.varNum) }

  function Marked(a: Arg, stored: seq<bool>): seq<bool> {
    if 0 <= a.varNum < |stored| then stored[a.varNum := true] else stored
  }

  /** gen_field_fetch for a field whose type is a type tree; None where an assert fails. */
  function FieldFetch(sch: Schema, a: Arg, stored: seq<bool>): Option<FetchField> {
    if a.excl || a.optVar || !CondOk(a, stored) || !KeepOk(sch, a, stored) || !a.node.TypeNode? then None
    else
      var f := FullFetchClass(sch, a.node.tree);
      if f.None? then None else Some(FetchField(CondOf(a), KeepOf(a), f.value))
  }

  /** A conditional field of type True: its flag bit is all there is to store. */
  predicate JustBit(sch: Schema, a: Arg) {
    a.existVar >= 0 && a.varNum < 0 && a.node.TypeNode? && a.node.tree.type_ < |sch| &&
    sch[a.node.tree.type_].name == True
  }

  /** gen_field_store. */
  function FieldStore(sch: Schema, a: Arg, stored: seq<bool>): Option<StoreField> {
    if a.excl || a.optVar then None
    else if JustBit(sch, a) then Some(Skip)
    else if (a.existVar >= 0 && !CondOk(a, stored)) || !KeepOk(sch, a, stored) || !a.node.TypeNode? then None
    else
      var s := FullStoreClass(sch, a.node.tree);
      if s.None? then None else Some(StoreField(CondOf(a), KeepOf(a), s.value))
  }

  function FetchCode(sch: Schema, args: seq<Arg>, stored: seq<bool>): Option<seq<FetchField>>
    decreases |args|
  {
    if args == [] then if forall i :: 0 <= i < |stored| ==> stored[i] then Some([]) else None
    else
      var c := FieldFetch(sch, args[0], stored);
      var rest := FetchCode(sch, args[1..], Marked(args[0], stored));
      if c.None? || rest.None? then None else Some([c.value] + rest.value)
  }

  function StoreCode(sch: Schema, args: seq<Arg>, stored: seq<bool>): Option<seq<StoreField>>
    decreases |args|
  {
    if args == [] then if forall i :: 0 <= i < |stored| ==> stored[i] then Some([]) else None
    else
      var c := FieldStore(sch, args[0], stored);
      var rest := StoreCode(sch, args[1..], Marked(args[0], stored));
      if c.None? || rest.None? then None else Some([c.value] + rest.value)
  }

  function Unstored(n: nat): (r: seq<bool>)
    ensures |r| == n
  {
    seq(n, i => false)
  }

  /** The generators mark variables as stored while they go through the arguments. */
  class Writer {
    const sch: Schema
    var stored: seq<bool>

    constructor (sch: Schema)
      ensures this.sch == sch && stored == []
    {
      this.sch := sch;
      stored := [];
    }

    method GenFieldFetch(a: Arg) returns (r: Option<FetchField>)
      modifies this
      ensures r == FieldFetch(sch, a, old(stored))
      ensures r.Some? ==> stored == Marked(a, old(stored))
    {
      if a.excl || a.optVar {
        return None;
      }
      if a.existVar != -1 && !(0 <= a.existVar < |stored| && stored[a.existVar]) {
        return None;
      }
      if a.varNum >= 0 {
        if !a.node.TypeNode? || a.node.tree.type_ >= |sch| || sch[a.node.tree.type_].name != Hash ||
           a.varNum >= |stored| || stored[a.varNum] {
          return None;
        }
        stored := stored[a.varNum := true];
      }
      if !a.node.TypeNode? {
        return None;
      }
      var f := FullFetchClass(sch, a.node.tree);
      r := if f.None? then None else Some(FetchField(CondOf(a), KeepOf(a), f.value));
    }

    method GenFieldStore(a: Arg) returns (r: Option<StoreField>)
      modifies this
      ensures r == FieldStore(sch, a, old(stored))
      ensures r.Some? && !r.value.Skip? ==> stored == Marked(a, old(stored))
      ensures r == Some(Skip) ==> stored == old(stored)
    {
      if a.excl || a.optVar {
        return None;
      }
      if a.existVar >= 0 && a.varNum < 0 && a.node.TypeNode? && a.node.tree.type_ < |sch| &&
         sch[a.node.tree.type_].name == True {
        return Some(Skip);
      }
      if a.existVar >= 0 && !(a.existVar < |stored| && stored[a.existVar]) {
        return None;
      }
      if a.varNum >= 0 {
        if !a.node.TypeNode? || a.node.tree.type_ >= |sch| || sch[a.node.tree.type_].name != Hash ||
           a.varNum >= |stored| || stored[a.varNum] {
          return None;
        }
        stored := stored[a.varNum := true];
      }
      if !a.node.TypeNode? {
        return None;
      }
      var s := FullStoreClass(sch, a.node.tree);
      r := if s.None? then None else Some(StoreField(CondOf(a), KeepOf(a), s.value));
    }

    method GenConstructorFetch(c: Ctor) returns (r: Option<seq<FetchField>>)
      modifies this
      ensures r == FetchCode(sch, c.args, Unstored(c.varCount))
    {
      hide FieldFetch;
      stored := Unstored(c.varCount);
      var fields: seq<FetchField> := [];
      assert c.args[0..] == c.args;
      assert forall rest: seq<FetchField> :: [] + rest == rest;
      for i := 0 to |c.args|
        invariant var rest := FetchCode(sch, c.args[i..], stored);
                  FetchCode(sch, c.args, Unstored(c.varCount)) ==
                  if rest.None? then None else Some(fields + rest.value)
      {
        assert c.args[i..][1..] == c.args[i + 1..];
        ghost var rest := FetchCode(sch, c.args[i + 1..], Marked(c.args[i], stored));
        var f := GenFieldFetch(c.args[i]);
        if f.None? {
          return None;
        }
        assert rest.Some? ==> fields + ([f.value] + rest.value) == fields + [f.value] + rest.value;
        fields := fields + [f.value];
      }
      if exists i :: 0 <= i < |stored| && !stored[i] {
        return None;
      }
      assert fields + [] == fields;
      r := Some(fields);
    }
  }

  // ------------------------------------------------------------ the two field codes agree

  /** A skipped field is fetched without reading anything exactly when its True is bare. */
  predicate FieldsAgree(sch: Schema, f: FetchField, s: StoreField) {
    if s.Skip? then f.cond.OnBit? && f.keep.Drop? && f.fetch.FetchTrue?
    else f.cond == s.cond && f.keep == s.keep && Agree(sch, f.fetch, s.store) && (f.keep.Into? ==> f.fetch.FetchInt?)
  }

  /** The arguments for which they do: no lone Bool or #, and conditional True only bare. */
  predicate Proper(sch: Schema, a: Arg) {
    a.node.TypeNode? ==>
      if JustBit(sch, a) then a.node.tree.bare || sch[a.node.tree.type_].Simple() == 0 else !Lone(sch, a.node.tree)
  }

  lemma FieldCodesAgree(sch: Schema, a: Arg, stored: seq<bool>)
    requires FieldFetch(sch, a, stored).Some? && FieldStore(sch, a, stored).Some?
    ensures FieldsAgree(sch, FieldFetch(sch, a, stored).value, FieldStore(sch, a, stored).value) <==> Proper(sch, a)
  {
    if JustBit(sch, a) {
      TrueIsBare(sch, a.node.tree);
    } else {
      GeneratorsAgree(sch, a.node.tree);
      if a.varNum >= 0 && !Lone(sch, a.node.tree) {
        HashIsInt(sch, a.node.tree);
      }
      hide Agree;
      hide Lone;
      hide FullFetchClass;
      hide FullStoreClass;
    }
  }

  lemma TrueIsBare(sch: Schema, tree: Tree)
    requires FullFetchClass(sch, tree).Some? && sch[tree.type_].name == True
    ensures FullFetchClass(sch, tree).value.FetchTrue? <==> tree.bare || sch[tree.type_].Simple() == 0
  {
    if !tree.bare {
      SameId(sch[tree.type_].constructors);
    }
  }

  lemma HashIsInt(sch: Schema, tree: Tree)
    requires FullFetchClass(sch, tree).Some? && sch[tree.type_].name == Hash && !Lone(sch, tree)
    ensures FullFetchClass(sch, tree).value == FetchInt
  {
    if !tree.bare && sch[tree.type_].IsBare() {
      SameId(sch[tree.type_].constructors);
    }
  }

  // ------------------------------------------------------------ what the generated code does

  /** Values: fixed-width numbers as their bytes, and objects with their fields. What a field that is not there holds
      is no part of the value. In a C++ object, where every field holds something, `Absent` is a null pointer. */
  datatype Value =
    | Absent
    | Raw(bytes: seq<byte>)
    | Flag(on: bool)
    | Text(bytes: seq<byte>)
    | Many(items: seq<Value>)
    | Object(type_: nat, ctor: nat, fields: seq<Value>)

  const BOOL_TRUE: uint32 := 0x997275b5
  const BOOL_FALSE: uint32 := 0xbc799737

  predicate Bit(n: nat, b: nat) { n / Pow2(b) % 2 == 1 }

  predicate Present(c: Cond, env: seq<nat>) {
    c.Always? || (c.var_ < |env| && Bit(env[c.var_], c.bit))
  }

  function Set(k: Keep, env: seq<nat>, n: nat): seq<nat> {
    if k.Into? && k.var_ < |env| then env[k.var_ := n] else env
  }

  function Number(v: Value): nat { if v.Raw? then FromLe(v.bytes) else 0 }

  function StoreCodeOf(sch: Schema, n: nat, c: nat): Option<seq<StoreField>> {
    if n < |sch| && c < |sch[n].constructors| && sch[n].constructors[c].supported
    then StoreCode(sch, sch[n].constructors[c].args, Unstored(sch[n].constructors[c].varCount)) else None
  }

  function FetchCodeOf(sch: Schema, n: nat, c: nat): Option<seq<FetchField>> {
    if n < |sch| && c < |sch[n].constructors| && sch[n].constructors[c].supported
    then FetchCode(sch, sch[n].constructors[c].args, Unstored(sch[n].constructors[c].varCount)) else None
  }

  /** The variables of a store function are uninitialised locals: an unassigned one reads as anything. Each object
      has its own, so the answers are given by the path to the object, the variable and the bit. */
  type Stale = (seq<nat>, nat, nat) -> bool

  const ZEROED: Stale := (at: seq<nat>, i: nat, b: nat) => false
  const ALL_BITS: Stale := (at: seq<nat>, i: nat, b: nat) => true

  function Unassigned(n: nat): (r: seq<Option<nat>>)
    ensures |r| == n
  {
    seq(n, i => None)
  }

  predicate Taken(c: Cond, u: Stale, at: seq<nat>, env: seq<Option<nat>>) {
    c.Always? ||
    (c.var_ < |env| &&
     if env[c.var_].Some? then Bit(env[c.var_].value, c.bit) else u(at, c.var_, c.bit))
  }

  function Assign(k: Keep, env: seq<Option<nat>>, n: nat): seq<Option<nat>> {
    if k.Into? && k.var_ < |env| then env[k.var_ := Some(n)] else env
  }

  /** The store combinators; None for a value that the static types rule out and for a null pointer. */
  function Put(sch: Schema, u: Stale, at: seq<nat>, s: Store, v: Value): Option<seq<byte>>
    decreases v, 1, s
  {
    match s
    case StoreBinary => if v.Raw? then Some(v.bytes) else None
    case StoreBool => if v.Flag? then Some(Le(if v.on then BOOL_TRUE else BOOL_FALSE, 4)) else None
    case StoreString => if v.Text? && |v.bytes| < 0x1_0000_0000 then Some(TlPrimitives.StoreString(v.bytes)) else None
    case StoreVector(e) =>
      if !v.Many? || |v.items| >= 0x8000_0000 then None
      else
        var r := PutMany(sch, u, at, e, v.items);
        if r.None? then None else Some(Le(|v.items|, 4) + r.value)
    case StoreObject =>
      if !v.Object? || StoreCodeOf(sch, v.type_, v.ctor).None? then None
      else
        PutFields(sch, u, at, StoreCodeOf(sch, v.type_, v.ctor).value,
                  Unassigned(sch[v.type_].constructors[v.ctor].varCount), v.fields)
    case StoreBoxed(t, id) =>
      var r := Put(sch, u, at, t, v);
      if r.None? then None else Some(Le(id, 4) + r.value)
    case StoreBoxedUnknown(t) =>
      if !v.Object? || StoreCodeOf(sch, v.type_, v.ctor).None? then None
      else
        var r := Put(sch, u, at, t, v);
        if r.None? then None else Some(Le(sch[v.type_].constructors[v.ctor].id, 4) + r.value)
  }

  function PutMany(sch: Schema, u: Stale, at: seq<nat>, e: Store, items: seq<Value>): Option<seq<byte>>
    decreases items, 0
  {
    if items == [] then Some([])
    else
      var a := Put(sch, u, at + [|items|], e, items[0]);
      var b := PutMany(sch, u, at, e, items[1..]);
      if a.None? || b.None? then None else Some(a.value + b.value)
  }

  /** A variable is assigned when its field is stored, and only then. */
  function PutFields(sch: Schema, u: Stale, at: seq<nat>, code: seq<StoreField>, env: seq<Option<nat>>,
                     fields: seq<Value>): Option<seq<byte>>
    decreases fields, 0
  {
    if code == [] || fields == [] then if code == [] && fields == [] then Some([]) else None
    else
      var c := code[0];
      if c.Skip? || !Taken(c.cond, u, at, env) then PutFields(sch, u, at, code[1..], env, fields[1..])
      else
        var a := Put(sch, u, at + [|fields|], c.store, fields[0]);
        var b := PutFields(sch, u, at, code[1..], Assign(c.keep, env, Number(fields[0])), fields[1..]);
        if a.None? || b.None? then None else Some(a.value + b.value)
  }

  function Take(b: seq<byte>, n: nat): Option<(seq<byte>, seq<byte>)> {
    if |b| < n then None else Some((b[..n], b[n..]))
  }

  function Binary(b: seq<byte>, n: nat): Option<(Value, seq<byte>)> {
    var r := Take(b, n);
    if r.None? then None else Some((Raw(r.value.0), r.value.1))
  }

  /** The supported constructor with this identifier, as the generated switch finds it. */
  function Case(cs: seq<Ctor>, id: nat): (r: Option<nat>)
    ensures r.Some? ==> r.value < |cs|
  {
    if cs == [] then None
    else
      var n := |cs| - 1;
      var before := Case(cs[..n], id);
      if before.Some? then before else if cs[n].supported && cs[n].id == id then Some(n) else None
  }

  /** The one supported constructor. */
  function Sole(cs: seq<Ctor>): (r: Option<nat>)
    ensures r.Some? ==> r.value < |cs|
  {
    if cs == [] then None
    else
      var n := |cs| - 1;
      var before := Sole(cs[..n]);
      if before.Some? then before else if cs[n].supported then Some(n) else None
  }

  /** The fetch combinators; None for a parser error. `fuel` bounds the nesting of objects. */
  function Get(sch: Schema, fuel: nat, f: Fetch, b: seq<byte>): Option<(Value, seq<byte>)>
    decreases 2 * fuel, f, 1, 0
  {
    match f
    case FetchInt => Binary(b, 4)
    case FetchLong => Binary(b, 8)
    case FetchDouble => Binary(b, 8)
    case FetchInt128 => Binary(b, 16)
    case FetchInt256 => Binary(b, 32)
    case FetchTrue => Some((Flag(true), b))
    case FetchBool =>
      var r := Take(b, 4);
      if r.None? then None
      else if FromLe(r.value.0) == BOOL_TRUE then Some((Flag(true), r.value.1))
      else if FromLe(r.value.0) == BOOL_FALSE then Some((Flag(false), r.value.1))
      else None
    case FetchString => GetText(b)
    case FetchBytes => GetText(b)
    case FetchVector(e) =>
      var r := Take(b, 4);
      if r.None? || |r.value.1| < FromLe(r.value.0) then None
      else
        var items := GetMany(sch, fuel, e, FromLe(r.value.0), r.value.1);
        if items.None? then None else Some((Many(items.value.0), items.value.1))
    case FetchBoxed(g, id) =>
      var r := Take(b, 4);
      if r.None? || FromLe(r.value.0) != id then None else Get(sch, fuel, g, r.value.1)
    case FetchObject(n) =>
      if n >= |sch| || fuel == 0 then None
      else if sch[n].IsBare() then GetObject(sch, fuel - 1, n, Sole(sch[n].constructors), b)
      else
        var r := Take(b, 4);
        if r.None? then None
        else GetObject(sch, fuel - 1, n, Case(sch[n].constructors, FromLe(r.value.0)), r.value.1)
  }

  function GetText(b: seq<byte>): Option<(Value, seq<byte>)> {
    var r := TlPrimitives.FetchString(b);
    if r.None? then None else Some((Text(r.value.0), r.value.1))
  }

  function GetMany(sch: Schema, fuel: nat, e: Fetch, n: nat, b: seq<byte>): Option<(seq<Value>, seq<byte>)>
    decreases 2 * fuel, e, 2, n
  {
    if n == 0 then Some(([], b))
    else
      var a := Get(sch, fuel, e, b);
      if a.None? then None
      else
        var r := GetMany(sch, fuel, e, n - 1, a.value.1);
        if r.None? then None else Some(([a.value.0] + r.value.0, r.value.1))
  }

  function Cleared(n: nat): (r: seq<nat>)
    ensures |r| == n
  {
    seq(n, i => 0)
  }

  function GetObject(sch: Schema, fuel: nat, n: nat, c: Option<nat>, b: seq<byte>): Option<(Value, seq<byte>)>
    requires n < |sch|
    decreases 2 * fuel + 1, FetchInt, 1, 0
  {
    if c.None? || FetchCodeOf(sch, n, c.value).None? then None
    else
      var vars := Cleared(sch[n].constructors[c.value].varCount);
      var r := GetFields(sch, fuel, FetchCodeOf(sch, n, c.value).value, vars, b);
      if r.None? then None else Some((Object(n, c.value, r.value.0), r.value.1))
  }

  /** The fields and what follows. The variable of a field that is not there is cleared. */
  function GetFields(sch: Schema, fuel: nat, code: seq<FetchField>, env: seq<nat>, b: seq<byte>)
    : Option<(seq<Value>, seq<byte>)>
    decreases 2 * fuel + 1, FetchInt, 0, |code|
  {
    if code == [] then Some(([], b))
    else
      var c := code[0];
      if !Present(c.cond, env) then
        var r := GetFields(sch, fuel, code[1..], Set(c.keep, env, 0), b);
        if r.None? then None else Some(([Absent] + r.value.0, r.value.1))
      else
        var a := Get(sch, fuel, c.fetch, b);
        if a.None? || (c.keep.Into? && Number(a.value.0) >= 0x8000_0000) then None
        else
          var r := GetFields(sch, fuel, code[1..], Set(c.keep, env, Number(a.value.0)), a.value.1);
          if r.None? then None else Some(([a.value.0] + r.value.0, r.value.1))
  }
}
