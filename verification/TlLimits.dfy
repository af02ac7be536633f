/** Schemas and values at which the code that the TL compiler generates does not read back what it stored. */
module TlLimits {
  import opened Bytes
  import opened TlPrimitives
  import opened TlSchema
  import opened TlCode
  import opened TlRoundTrip
  import opened TlContents

  const HASH := Type(Hash, false, 0, [])

  /** An argument of type number `n`, remembered in variable `varNum` and conditional on bit 0 of `existVar`. */
  function Argument(n: nat, bare: bool, varNum: int, existVar: int): Arg {
    Arg(TypeNode(Tree(n, bare, [])), false, false, varNum, existVar, 0)
  }

  lemma CodesStep(sch: Schema, args: seq<Arg>, stored: seq<bool>, more: seq<bool>, f: FetchField, s: StoreField)
    requires args != [] && FieldFetch(sch, args[0], stored) == Some(f) && FieldStore(sch, args[0], stored) == Some(s)
    requires more == Marked(args[0], stored)
    requires FetchCode(sch, args[1..], more).Some? && StoreCode(sch, args[1..], more).Some?
    ensures FetchCode(sch, args, stored) == Some([f] + FetchCode(sch, args[1..], more).value)
    ensures StoreCode(sch, args, stored) == Some([s] + StoreCode(sch, args[1..], more).value)
  {
    hide FieldFetch;
    hide FieldStore;
  }

  lemma CodesEnd(sch: Schema, stored: seq<bool>)
    requires forall i :: 0 <= i < |stored| ==> stored[i]
    ensures FetchCode(sch, [], stored) == Some([]) && StoreCode(sch, [], stored) == Some([])
  {}

  lemma SingleCounts(c: Ctor)
    requires c.supported
    ensures Count([c]) == 1 && Sole([c]) == Some(0) && (c.id != 0 ==> OnlyId([c], false) == Some(c.id))
  {
    var cs := [c];
    assert cs[..0] == [] && cs[1..] == [];
    assert Sole(cs[..0]).None? && OnlyId(cs[..0], false) == Some(0) && Count(cs[1..]) == 0;
  }

  /** A type with one constructor is fetched without an identifier. */
  lemma SingleFetched(sch: Schema, fuel: nat, n: nat, c: Ctor, b: seq<byte>)
    requires n < |sch| && fuel > 0 && sch[n].constructors == [c] && c.supported
    ensures Get(sch, fuel, FetchObject(n), b) == GetObject(sch, fuel - 1, n, Some(0), b)
  {
    SingleCounts(c);
    hide GetObject;
    hide Count;
    hide Sole;
  }

  lemma ObjectOf(sch: Schema, fuel: nat, n: nat, fs: seq<FetchField>, b: seq<byte>)
    requires n < |sch| && FetchCodeOf(sch, n, 0) == Some(fs)
    ensures sch[n].constructors != [] &&
            var r := GetFields(sch, fuel, fs, Cleared(sch[n].constructors[0].varCount), b);
            GetObject(sch, fuel, n, Some(0), b) ==
            if r.None? then None else Some((Object(n, 0, r.value.0), r.value.1))
  {
    hide GetFields;
    hide FetchCode;
  }

  // ------------------------------------------------------------ a test of a # that is not there

  /** flags:# flags2:flags.0?# x:flags2.0?int */
  const NESTED_ARGS := [Argument(0, true, 0, -1), Argument(0, true, 1, 0), Argument(1, true, -1, 1)]
  const NESTED: Schema := [HASH, Type(Int, false, 0, []), Type(Other, false, 0, [Ctor(1, true, 2, NESTED_ARGS)])]

  const NESTED_FETCH := [FetchField(Always, Into(0), FetchInt), FetchField(OnBit(0, 0), Into(1), FetchInt),
                         FetchField(OnBit(1, 0), Drop, FetchInt)]
  const NESTED_STORE := [StoreField(Always, Into(0), StoreBinary), StoreField(OnBit(0, 0), Into(1), StoreBinary),
                         StoreField(OnBit(1, 0), Drop, StoreBinary)]

  lemma NestedCodes()
    ensures FetchCodeOf(NESTED, 2, 0) == Some(NESTED_FETCH) && StoreCodeOf(NESTED, 2, 0) == Some(NESTED_STORE)
  {
    var none, one, both := [false, false], [true, false], [true, true];
    var a, fs, ss := NESTED_ARGS, NESTED_FETCH, NESTED_STORE;
    NestedFields();
    hide FieldFetch;
    hide FieldStore;
    hide FetchCode;
    hide StoreCode;
    assert Unstored(2) == none;
    assert a[1..] == [a[1], a[2]] && a[1..][1..] == [a[2]] && [a[2]][1..] == [];
    CodesEnd(NESTED, both);
    CodesStep(NESTED, [a[2]], both, both, fs[2], ss[2]);
    CodesStep(NESTED, a[1..], one, both, fs[1], ss[1]);
    CodesStep(NESTED, a, none, one, fs[0], ss[0]);
    assert [fs[0]] + ([fs[1]] + ([fs[2]] + [])) == fs;
    assert [ss[0]] + ([ss[1]] + ([ss[2]] + [])) == ss;
  }

  lemma NestedFields()
    ensures var none, one, both := [false, false], [true, false], [true, true];
            var a, fs, ss := NESTED_ARGS, NESTED_FETCH, NESTED_STORE;
            FieldFetch(NESTED, a[0], none) == Some(fs[0]) && FieldStore(NESTED, a[0], none) == Some(ss[0]) &&
            FieldFetch(NESTED, a[1], one) == Some(fs[1]) && FieldStore(NESTED, a[1], one) == Some(ss[1]) &&
            FieldFetch(NESTED, a[2], both) == Some(fs[2]) && FieldStore(NESTED, a[2], both) == Some(ss[2]) &&
            forall i :: 0 <= i < 3 ==> Proper(NESTED, a[i])
  {}

  lemma NestedCompiles()
    ensures Compiles(NESTED)
  {
    NestedCodes();
    NestedFields();
    hide FetchCodeOf;
    hide StoreCodeOf;
    hide Proper;
    assert CtorOk(NESTED, 2, 0);
  }

  /** The object with no flags, and what its C++ counterpart holds: a second # and some x that are not there. */
  const NO_FLAGS := Raw(Le(0, 4))
  const BARE_OBJECT := Object(2, 0, [NO_FLAGS, Absent, Absent])
  function Holding(x: seq<byte>): Value { Object(2, 0, [NO_FLAGS, NO_FLAGS, Raw(x)]) }

  /** The writer accepts this schema. The object without flags is stored as four bytes when the variables happen to
      be zero. With other bits in them, x is stored too, and fetching leaves it behind. */
  lemma NestedFlagsAreLost(fuel: nat, at: seq<nat>, x: seq<byte>, t: seq<byte>)
    requires fuel > 0
    ensures Compiles(NESTED) && HasType(NESTED, FetchObject(2), BARE_OBJECT)
    ensures !Determined(NESTED, StoreObject, BARE_OBJECT)
    ensures |x| == 4 ==> Fills(NESTED, FetchObject(2), BARE_OBJECT, Holding(x))
    ensures Put(NESTED, ZEROED, at, StoreObject, Holding(x)) == Some(Le(0, 4))
    ensures Get(NESTED, fuel, FetchObject(2), Le(0, 4) + t) == Some((BARE_OBJECT, t))
    ensures Put(NESTED, ALL_BITS, at, StoreObject, Holding(x)) == Some(Le(0, 4) + x)
    ensures Get(NESTED, fuel, FetchObject(2), Le(0, 4) + x + t) == Some((BARE_OBJECT, x + t))
  {
    hide *;
    NestedCompiles();
    NestedTyped();
    if |x| == 4 {
      NestedFilled(x);
    }
    NestedStored(at, x);
    NestedFetched(fuel, t);
    NestedFetched(fuel, x + t);
    assert Le(0, 4) + x + t == Le(0, 4) + (x + t);
  }

  lemma NoBits()
    ensures Number(NO_FLAGS) == 0 && |Le(0, 4)| == 4 && !Bit(0, 0)
  {
    Le32RoundTrip(0);
  }

  lemma NestedTyped()
    ensures HasType(NESTED, FetchObject(2), BARE_OBJECT) && !Determined(NESTED, StoreObject, BARE_OBJECT)
  {
    NoBits();
    NestedCodes();
    hide Le;
    hide Bit;
    hide Number;
    hide FetchCodeOf;
    hide StoreCodeOf;
    var fs, ss, v := NESTED_FETCH, NESTED_STORE, BARE_OBJECT.fields;
    assert v[1..] == [Absent, Absent] && v[1..][1..] == [Absent] && v[1..][1..][1..] == [];
    assert fs[1..] == [fs[1], fs[2]] && fs[1..][1..] == [fs[2]] && fs[1..][1..][1..] == [];
    assert ss[1..] == [ss[1], ss[2]] && ss[1..][1..] == [ss[2]];
    assert Cleared(2) == [0, 0] && Set(Into(0), [0, 0], 0) == [0, 0] && Set(Into(1), [0, 0], 0) == [0, 0];
    assert FieldsTyped(NESTED, fs[1..][1..], [0, 0], v[1..][1..]);
    assert FieldsTyped(NESTED, fs[1..], [0, 0], v[1..]);
    assert FieldsTyped(NESTED, fs, [0, 0], v);
    assert !DeterminedFields(NESTED, ss[1..][1..], [Some(0), None], v[1..][1..]);
    assert !DeterminedFields(NESTED, ss[1..], [Some(0), None], v[1..]);
    assert Unassigned(2) == [None, None] && Assign(Into(0), [None, None], 0) == [Some(0), None];
  }

  lemma NestedFilled(x: seq<byte>)
    requires |x| == 4
    ensures Fills(NESTED, FetchObject(2), BARE_OBJECT, Holding(x))
  {
    NestedTyped();
    NestedCodes();
    NoBits();
    hide Le;
    hide Bit;
    hide Number;
    hide FetchCodeOf;
    hide StoreCodeOf;
    var fs, v, h := NESTED_FETCH, BARE_OBJECT.fields, Holding(x).fields;
    assert v[1..] == [Absent, Absent] && v[1..][1..] == [Absent] && v[1..][1..][1..] == [];
    assert h[1..] == [NO_FLAGS, Raw(x)] && h[1..][1..] == [Raw(x)] && h[1..][1..][1..] == [];
    assert fs[1..] == [fs[1], fs[2]] && fs[1..][1..] == [fs[2]] && fs[1..][1..][1..] == [];
    assert Cleared(2) == [0, 0] && Set(Into(0), [0, 0], 0) == [0, 0] && Set(Into(1), [0, 0], 0) == [0, 0];
    assert FillsFields(NESTED, fs[1..][1..], [0, 0], v[1..][1..], h[1..][1..]);
    assert FillsFields(NESTED, fs[1..], [0, 0], v[1..], h[1..]);
    assert FillsFields(NESTED, fs, [0, 0], v, h);
  }

  lemma NestedStored(at: seq<nat>, x: seq<byte>)
    ensures Put(NESTED, ZEROED, at, StoreObject, Holding(x)) == Some(Le(0, 4))
    ensures Put(NESTED, ALL_BITS, at, StoreObject, Holding(x)) == Some(Le(0, 4) + x)
  {
    NoBits();
    NestedCodes();
    hide Le;
    hide Bit;
    hide Number;
    hide FetchCodeOf;
    hide StoreCodeOf;
    var ss, v := NESTED_STORE, Holding(x).fields;
    assert v[1..] == [NO_FLAGS, Raw(x)] && v[1..][1..] == [Raw(x)] && v[1..][1..][1..] == [];
    assert ss[1..] == [ss[1], ss[2]] && ss[1..][1..] == [ss[2]] && ss[1..][1..][1..] == [];
    var env := [Some(0), None];
    assert Unassigned(2) == [None, None] && Assign(Into(0), [None, None], 0) == env;
    assert PutFields(NESTED, ZEROED, at, ss[1..][1..], env, v[1..][1..]) == Some([]);
    assert PutFields(NESTED, ALL_BITS, at, ss[1..][1..], env, v[1..][1..]) == Some(x) by {
      assert x + [] == x;
    }
    assert PutFields(NESTED, ZEROED, at, ss[1..], env, v[1..]) == Some([]);
    assert PutFields(NESTED, ALL_BITS, at, ss[1..], env, v[1..]) == Some(x);
    assert Le(0, 4) + [] == Le(0, 4);
    assert PutFields(NESTED, ZEROED, at, ss, [None, None], v) == Some(Le(0, 4));
    assert PutFields(NESTED, ALL_BITS, at, ss, [None, None], v) == Some(Le(0, 4) + x);
  }

  lemma NestedFetched(fuel: nat, t: seq<byte>)
    requires fuel > 0
    ensures Get(NESTED, fuel, FetchObject(2), Le(0, 4) + t) == Some((BARE_OBJECT, t))
  {
    hide Le;
    hide Get;
    hide GetObject;
    hide GetFields;
    hide FetchCodeOf;
    hide StoreCodeOf;
    var b := Le(0, 4) + t;
    NestedCodes();
    SingleFetched(NESTED, fuel, 2, Ctor(1, true, 2, NESTED_ARGS), b);
    ObjectOf(NESTED, fuel - 1, 2, NESTED_FETCH, b);
    NestedFieldsFetched(fuel - 1, t);
  }

  lemma NestedFieldsFetched(fuel: nat, t: seq<byte>)
    ensures GetFields(NESTED, fuel, NESTED_FETCH, Cleared(2), Le(0, 4) + t) == Some((BARE_OBJECT.fields, t))
  {
    NoBits();
    TakeAppended(Le(0, 4), t);
    var fs := NESTED_FETCH;
    assert fs[1..] == [fs[1], fs[2]] && fs[1..][1..] == [fs[2]] && fs[1..][1..][1..] == [];
    assert Cleared(2) == [0, 0] && Set(Into(0), [0, 0], 0) == [0, 0] && Set(Into(1), [0, 0], 0) == [0, 0];
    assert Get(NESTED, fuel, FetchInt, Le(0, 4) + t) == Some((NO_FLAGS, t));
    hide Le;
    hide Bit;
    hide Number;
    hide Get;
    assert [Absent] + [] == [Absent] && [Absent] + [Absent] == [Absent, Absent];
    assert GetFields(NESTED, fuel, [], [0, 0], t) == Some(([], t));
    assert GetFields(NESTED, fuel, fs[1..][1..], [0, 0], t) == Some(([Absent], t));
    assert GetFields(NESTED, fuel, fs[1..], [0, 0], t) == Some(([Absent, Absent], t));
    assert [NO_FLAGS] + [Absent, Absent] == BARE_OBJECT.fields;
  }

  // ------------------------------------------------------------ a vector of elements without content

  /** Type 0 has one constructor without arguments. */
  const UNIT: Schema := [Type(Other, false, 0, [Ctor(1, true, 0, [])]), Type(Vector, false, 1, [Ctor(2, true, 0, [])])]
  const UNITS := Tree(1, true, [TypeNode(Tree(0, true, []))])
  const ONE_UNIT := Many([Object(0, 0, [])])

  /** A vector of one element without content, at the end of the data, is refused: its length exceeds what is left.
      A byte behind it is enough to have it accepted. */
  lemma EmptyElementsDoNotFit(fuel: nat, u: Stale, at: seq<nat>, x: byte)
    requires fuel > 0
    ensures FullFetchClass(UNIT, UNITS) == Some(FetchVector(FetchObject(0)))
    ensures FullStoreClass(UNIT, UNITS) == Some(StoreVector(StoreObject))
    ensures Compiles(UNIT) && HasType(UNIT, FetchVector(FetchObject(0)), ONE_UNIT)
    ensures Put(UNIT, u, at, StoreVector(StoreObject), ONE_UNIT) == Some(Le(1, 4))
    ensures Get(UNIT, fuel, FetchVector(FetchObject(0)), Le(1, 4)).None?
    ensures Get(UNIT, fuel, FetchVector(FetchObject(0)), Le(1, 4) + [x]) == Some((ONE_UNIT, [x]))
  {
    hide *;
    UnitClasses();
    UnitTyped();
    UnitStored(u, at);
    UnitFetched(fuel, x);
  }

  lemma UnitCodes()
    ensures Unstored(0) == [] && FetchCodeOf(UNIT, 0, 0) == Some([]) && StoreCodeOf(UNIT, 0, 0) == Some([])
    ensures FetchCodeOf(UNIT, 1, 0) == Some([]) && StoreCodeOf(UNIT, 1, 0) == Some([])
  {}

  lemma UnitClasses()
    ensures FullFetchClass(UNIT, UNITS) == Some(FetchVector(FetchObject(0)))
    ensures FullStoreClass(UNIT, UNITS) == Some(StoreVector(StoreObject))
  {
    SingleCounts(Ctor(1, true, 0, []));
    hide Count;
    hide OnlyId;
    var unit := UNITS.children[0].tree;
    assert FullFetchClass(UNIT, unit) == Some(FetchObject(0));
    assert FullStoreClass(UNIT, unit) == Some(StoreObject);
  }

  lemma UnitTyped()
    ensures Compiles(UNIT) && HasType(UNIT, FetchVector(FetchObject(0)), ONE_UNIT)
  {
    UnitCodes();
    hide FetchCodeOf;
    hide StoreCodeOf;
    hide Count;
    assert CtorOk(UNIT, 0, 0) && CtorOk(UNIT, 1, 0);
    assert FieldsTyped(UNIT, [], Cleared(0), []);
    assert HasType(UNIT, FetchObject(0), ONE_UNIT.items[0]);
  }

  lemma UnitStored(u: Stale, at: seq<nat>)
    ensures Put(UNIT, u, at, StoreVector(StoreObject), ONE_UNIT) == Some(Le(1, 4))
  {
    UnitCodes();
    hide Le;
    hide StoreCodeOf;
    var items := ONE_UNIT.items;
    assert items[1..] == [];
    assert PutFields(UNIT, u, at + [1], [], Unassigned(0), []) == Some([]);
    assert Put(UNIT, u, at + [|items|], StoreObject, items[0]) == Some([]);
    assert PutMany(UNIT, u, at, StoreObject, []) == Some([]);
    PutManyStep(UNIT, u, at, StoreObject, items);
    var none: seq<byte> := [];
    assert none + none == none;
    assert Le(1, 4) + [] == Le(1, 4);
  }

  lemma UnitFetched(fuel: nat, x: byte)
    requires fuel > 0
    ensures Get(UNIT, fuel, FetchVector(FetchObject(0)), Le(1, 4)).None?
    ensures Get(UNIT, fuel, FetchVector(FetchObject(0)), Le(1, 4) + [x]) == Some((ONE_UNIT, [x]))
  {
    OneUnitFetched(fuel, [x]);
    NumberAhead(1, [], []);
    assert Le(1, 4) + [] + [] == Le(1, 4);
    TakeAppended(Le(1, 4), [x]);
    hide Le;
    hide FromLe;
    hide Take;
    hide GetMany;
    hide GetObject;
  }

  lemma OneUnitFetched(fuel: nat, b: seq<byte>)
    requires fuel > 0
    ensures GetMany(UNIT, fuel, FetchObject(0), 1, b) == Some((ONE_UNIT.items, b))
  {
    UnitCodes();
    SingleFetched(UNIT, fuel, 0, Ctor(1, true, 0, []), b);
    ObjectOf(UNIT, fuel - 1, 0, [], b);
    assert GetFields(UNIT, fuel - 1, [], Cleared(0), b) == Some(([], b));
    hide Get;
    hide FetchCodeOf;
    hide StoreCodeOf;
    assert GetMany(UNIT, fuel, FetchObject(0), 0, b) == Some(([], b));
    GetManyStep(UNIT, fuel, FetchObject(0), 1, b);
    assert [Object(0, 0, [])] + [] == ONE_UNIT.items;
  }

  // ------------------------------------------------------------ a conditional True with its identifier

  /** flags:# on:flags.0?True */
  const BOXED_ARGS := [Argument(0, true, 0, -1), Argument(1, false, -1, 0)]
  const BOXED: Schema := [HASH, Type(True, false, 0, [Ctor(7, true, 0, [])]),
                          Type(Other, false, 0, [Ctor(1, true, 1, BOXED_ARGS)])]
  const BOXED_FETCH := [FetchField(Always, Into(0), FetchInt), FetchField(OnBit(0, 0), Drop, FetchBoxed(FetchTrue, 7))]
  const BOXED_STORE := [StoreField(Always, Into(0), StoreBinary), Skip]
  const TURNED_ON := Object(2, 0, [Raw(Le(1, 4)), Flag(true)])

  lemma BoxedCodes()
    ensures FetchCodeOf(BOXED, 2, 0) == Some(BOXED_FETCH) && StoreCodeOf(BOXED, 2, 0) == Some(BOXED_STORE)
  {
    var a, fs, ss := BOXED_ARGS, BOXED_FETCH, BOXED_STORE;
    BoxedArgs();
    hide FieldFetch;
    hide FieldStore;
    hide FetchCode;
    hide StoreCode;
    assert Unstored(1) == [false];
    assert a[1..] == [a[1]] && [a[1]][1..] == [];
    CodesEnd(BOXED, [true]);
    CodesStep(BOXED, [a[1]], [true], [true], fs[1], ss[1]);
    CodesStep(BOXED, a, [false], [true], fs[0], ss[0]);
    assert [fs[0]] + ([fs[1]] + []) == fs;
    assert [ss[0]] + ([ss[1]] + []) == ss;
  }

  lemma BoxedArgs()
    ensures var a, fs, ss := BOXED_ARGS, BOXED_FETCH, BOXED_STORE;
            FieldFetch(BOXED, a[0], [false]) == Some(fs[0]) && FieldStore(BOXED, a[0], [false]) == Some(ss[0]) &&
            FieldFetch(BOXED, a[1], [true]) == Some(fs[1]) && FieldStore(BOXED, a[1], [true]) == Some(ss[1])
  {
    SingleCounts(Ctor(7, true, 0, []));
    hide Count;
    hide OnlyId;
  }

  /** A conditional True that is not bare is fetched with an identifier that was never stored. */
  lemma BoxedTrueIsLost(fuel: nat, u: Stale, at: seq<nat>)
    requires fuel > 0
    ensures FetchCodeOf(BOXED, 2, 0).Some? && StoreCodeOf(BOXED, 2, 0).Some?
    ensures HasType(BOXED, FetchObject(2), TURNED_ON) && !Proper(BOXED, BOXED_ARGS[1])
    ensures Put(BOXED, u, at, StoreObject, TURNED_ON) == Some(Le(1, 4))
    ensures Get(BOXED, fuel, FetchObject(2), Le(1, 4)).None?
  {
    hide *;
    BoxedCodes();
    BoxedImproper();
    BoxedTyped();
    BoxedStored(u, at);
    BoxedFetched(fuel);
  }

  lemma OneBit()
    ensures FromLe(Le(1, 4)) == 1 && |Le(1, 4)| == 4 && Number(Raw(Le(1, 4))) == 1 && Bit(1, 0)
  {
    Le32RoundTrip(1);
    assert Pow2(0) == 1;
  }

  lemma BoxedImproper()
    ensures !Proper(BOXED, BOXED_ARGS[1])
  {
    SingleCounts(Ctor(7, true, 0, []));
    hide Count;
  }

  lemma BoxedTyped()
    ensures HasType(BOXED, FetchObject(2), TURNED_ON)
  {
    OneBit();
    BoxedCodes();
    hide Le;
    hide Bit;
    hide Number;
    hide FetchCodeOf;
    hide StoreCodeOf;
    var fs, v := BOXED_FETCH, TURNED_ON.fields;
    assert fs[1..] == [fs[1]] && fs[1..][1..] == [];
    assert v[1..] == [Flag(true)] && v[1..][1..] == [];
    assert Cleared(1) == [0] && Set(Into(0), [0], 1) == [1];
    assert HasType(BOXED, FetchBoxed(FetchTrue, 7), Flag(true));
    assert FieldsTyped(BOXED, fs[1..], [1], v[1..]);
    assert FieldsTyped(BOXED, fs, [0], v);
  }

  lemma BoxedStored(u: Stale, at: seq<nat>)
    ensures Put(BOXED, u, at, StoreObject, TURNED_ON) == Some(Le(1, 4))
  {
    OneBit();
    BoxedCodes();
    hide Le;
    hide Bit;
    hide Number;
    hide FetchCodeOf;
    hide StoreCodeOf;
    var ss, v := BOXED_STORE, TURNED_ON.fields;
    assert ss[1..] == [Skip] && ss[1..][1..] == [];
    assert v[1..] == [Flag(true)] && v[1..][1..] == [];
    assert Unassigned(1) == [None] && Assign(Into(0), [None], 1) == [Some(1)];
    assert PutFields(BOXED, u, at, ss[1..], [Some(1)], v[1..]) == Some([]);
    assert Le(1, 4) + [] == Le(1, 4);
  }

  lemma BoxedFetched(fuel: nat)
    requires fuel > 0
    ensures Get(BOXED, fuel, FetchObject(2), Le(1, 4)).None?
  {
    hide Le;
    hide Get;
    hide GetObject;
    hide GetFields;
    hide FetchCodeOf;
    hide StoreCodeOf;
    BoxedCodes();
    SingleFetched(BOXED, fuel, 2, Ctor(1, true, 1, BOXED_ARGS), Le(1, 4));
    ObjectOf(BOXED, fuel - 1, 2, BOXED_FETCH, Le(1, 4));
    BoxedFieldsFetched(fuel - 1);
  }

  lemma BoxedFieldsFetched(fuel: nat)
    ensures GetFields(BOXED, fuel, BOXED_FETCH, Cleared(1), Le(1, 4)).None?
  {
    OneBit();
    TakeAppended(Le(1, 4), []);
    assert Le(1, 4) + [] == Le(1, 4);
    var fs := BOXED_FETCH;
    assert fs[1..] == [fs[1]];
    assert Cleared(1) == [0] && Set(Into(0), [0], 1) == [1];
    assert Get(BOXED, fuel, fs[0].fetch, Le(1, 4)) == Some((Raw(Le(1, 4)), []));
    assert Get(BOXED, fuel, fs[1].fetch, []).None?;
    hide Le;
    hide Bit;
    hide Number;
    hide Get;
    assert GetFields(BOXED, fuel, fs[1..], [1], []).None?;
  }

  // ------------------------------------------------------------ a Bool with a single constructor

  const LONE_BOOL: Schema := [Type(Bool, false, 0, [Ctor(1, true, 0, [])])]

  /** The two generators disagree about a boxed Bool with one constructor: its identifier is expected and not stored. */
  lemma LoneBoolIsLost(fuel: nat, u: Stale, at: seq<nat>, t: seq<byte>)
    ensures FullFetchClass(LONE_BOOL, Tree(0, false, [])) == Some(FetchBoxed(FetchBool, 1))
    ensures FullStoreClass(LONE_BOOL, Tree(0, false, [])) == Some(StoreBool)
    ensures HasType(LONE_BOOL, FetchBoxed(FetchBool, 1), Flag(true))
    ensures Put(LONE_BOOL, u, at, StoreBool, Flag(true)) == Some(Le(BOOL_TRUE, 4))
    ensures Get(LONE_BOOL, fuel, FetchBoxed(FetchBool, 1), Le(BOOL_TRUE, 4) + t).None?
  {
    LoneClasses();
    NumberAhead(BOOL_TRUE, [], t);
    assert Le(BOOL_TRUE, 4) + [] == Le(BOOL_TRUE, 4) && [] + t == t;
    hide Le;
    hide FromLe;
    hide Take;
    hide FullFetchClass;
    hide FullStoreClass;
  }

  lemma LoneClasses()
    ensures FullFetchClass(LONE_BOOL, Tree(0, false, [])) == Some(FetchBoxed(FetchBool, 1))
    ensures FullStoreClass(LONE_BOOL, Tree(0, false, [])) == Some(StoreBool)
  {
    SingleCounts(Ctor(1, true, 0, []));
    hide Count;
    hide OnlyId;
  }
}
