/** The TL compiler's choice of fetch and store combinators (td/generate/tl_writer_cpp.cpp,
    td/generate/tl_writer_td.cpp). */
module TlSchema {
  import opened Bytes

  /** The type names that the writer tells apart. */
  datatype Name =
    | Hash | True | Bool | Int | Long | Double | Int32 | Int53 | Int64 | Int128 | Int256 | String | Bytes | Vector
    | Other

  /** A type reference: its type by number, whether it is bare, and its arguments. */
  datatype Tree = Tree(type_: nat, bare: bool, children: seq<Node>)
  datatype Node = TypeNode(tree: Tree) | NatConst(num: int) | VarType(var_: int)

  datatype Arg = Arg(node: Node, excl: bool, optVar: bool, varNum: int, existVar: int, existBit: nat)

  datatype Ctor = Ctor(id: uint32, supported: bool, varCount: nat, args: seq<Arg>)

  datatype Type = Type(name: Name, defaultConstructor: bool, arity: nat, constructors: seq<Ctor>)
  {
    /** simple_constructors: how many constructors the writer supports. */
    function Simple(): nat { Count(constructors) }

    predicate IsBare() {
      Simple() <= 1 || (BuiltInSimple(name) && name != Bool) || name == Vector
    }
  }

  type Schema = seq<Type>

  function Count(cs: seq<Ctor>): nat {
    if cs == [] then 0 else (if cs[0].supported then 1 else 0) + Count(cs[1..])
  }

  predicate BuiltInSimple(n: Name) { n != Hash && n != Vector && n != Other }

  datatype Fetch =
    | FetchInt | FetchLong | FetchTrue | FetchBool | FetchDouble | FetchInt128 | FetchInt256 | FetchString | FetchBytes
    | FetchVector(item: Fetch) | FetchObject(type_: nat) | FetchBoxed(inner: Fetch, id: uint32)

  datatype Store =
    | StoreBinary | StoreBool | StoreString | StoreVector(item: Store) | StoreObject | StoreBoxed(inner: Store, id: uint32)
    | StoreBoxedUnknown(inner: Store)

  /** gen_fetch_class_name; None where an assert fails. */
  function FetchClass(sch: Schema, tree: Tree): Option<Fetch>
    decreases tree, 0
  {
    if tree.type_ >= |sch| then None
    else
      match sch[tree.type_].name
      case Hash => Some(FetchInt)
      case Int32 => Some(FetchInt)
      case Int => Some(FetchInt)
      case Int53 => Some(FetchLong)
      case Int64 => Some(FetchLong)
      case Long => Some(FetchLong)
      case True => Some(FetchTrue)
      case Bool => Some(FetchBool)
      case Double => Some(FetchDouble)
      case Int128 => Some(FetchInt128)
      case Int256 => Some(FetchInt256)
      case String => Some(FetchString)
      case Bytes => Some(FetchBytes)
      case Vector =>
        if sch[tree.type_].arity != 1 || |tree.children| != 1 || !tree.children[0].TypeNode? then None
        else
          var f := FullFetchClass(sch, tree.children[0].tree);
          if f.None? then None else Some(FetchVector(f.value))
      case Other => if tree.children == [] then Some(FetchObject(tree.type_)) else None
  }

  /** The only constructor among `cs` that counts, if there is exactly one: None where an assert fails, zero when
      there is none. */
  function OnlyId(cs: seq<Ctor>, all: bool): Option<uint32> {
    if cs == [] then Some(0)
    else
      var n := |cs| - 1;
      var before := OnlyId(cs[..n], all);
      if before.None? then None
      else if !all && !cs[n].supported then before
      else if before.value != 0 || cs[n].id == 0 then None
      else Some(cs[n].id)
  }

  /** gen_full_fetch_class_name. */
  function FullFetchClass(sch: Schema, tree: Tree): Option<Fetch>
    decreases tree, 1
  {
    if tree.type_ >= |sch| || sch[tree.type_].defaultConstructor then None
    else
      var t := sch[tree.type_];
      var expected :=
        if tree.bare then if t.IsBare() then Some(0) else None
        else if t.IsBare() then OnlyId(t.constructors, t.name == Vector)
        else Some(0);
      var f := FetchClass(sch, tree);
      if expected.None? || f.None? then None
      else if expected.value == 0 then f
      else Some(FetchBoxed(f.value, expected.value))
  }

  /** gen_store_class_name. */
  function StoreClass(sch: Schema, tree: Tree): Option<Store>
    decreases tree, 0
  {
    if tree.type_ >= |sch| then None
    else
      match sch[tree.type_].name
      case True => None
      case Bool => Some(StoreBool)
      case String => Some(StoreString)
      case Bytes => Some(StoreString)
      case Vector =>
        if sch[tree.type_].arity != 1 || |tree.children| != 1 || !tree.children[0].TypeNode? then None
        else
          var s := FullStoreClass(sch, tree.children[0].tree);
          if s.None? then None else Some(StoreVector(s.value))
      case Other => if tree.children == [] then Some(StoreObject) else None
      case _ => Some(StoreBinary)
  }

  function FirstSupported(cs: seq<Ctor>): Option<uint32> {
    if cs == [] then None else if cs[0].supported then Some(cs[0].id) else FirstSupported(cs[1..])
  }

  /** gen_full_store_class_name. */
  function FullStoreClass(sch: Schema, tree: Tree): Option<Store>
    decreases tree, 1
  {
    if tree.type_ >= |sch| || sch[tree.type_].defaultConstructor then None
    else
      var t := sch[tree.type_];
      var s := StoreClass(sch, tree);
      if s.None? then None
      else if tree.bare || t.name == Hash || t.name == Bool then s
      else if t.name == Vector then
        if t.constructors == [] then None else Some(StoreBoxed(s.value, t.constructors[0].id))
      else if !t.IsBare() then Some(StoreBoxedUnknown(s.value))
      else
        var id := FirstSupported(t.constructors);
        if id.None? then None else Some(StoreBoxed(s.value, id.value))
  }

  // ------------------------------------------------------------ the two choices agree

  /** Same nesting, same boxing, same constructor identifiers. An object of a type with several constructors is
      fetched by a switch that reads the identifier itself. */
  predicate Agree(sch: Schema, f: Fetch, s: Store) {
    match (f, s)
    case (FetchBoxed(g, i), StoreBoxed(t, j)) => i == j && !g.FetchBoxed? && Agree(sch, g, t)
    case (FetchVector(g), StoreVector(t)) => Agree(sch, g, t)
    case (FetchBool, StoreBool) => true
    case (FetchString, StoreString) => true
    case (FetchBytes, StoreString) => true
    case (FetchInt, StoreBinary) => true
    case (FetchLong, StoreBinary) => true
    case (FetchDouble, StoreBinary) => true
    case (FetchInt128, StoreBinary) => true
    case (FetchInt256, StoreBinary) => true
    case (FetchObject(n), StoreObject) => n < |sch| && sch[n].name == Other && sch[n].IsBare()
    case (FetchObject(n), StoreBoxedUnknown(StoreObject)) => n < |sch| && sch[n].name == Other && !sch[n].IsBare()
    case _ => false
  }

  /** The one way to disagree: a boxed Bool or # whose type has exactly one supported constructor is fetched with
      that constructor's identifier and stored without. */
  predicate Lone(sch: Schema, tree: Tree) {
    tree.type_ < |sch| &&
    var t := sch[tree.type_];
    if t.name == Vector then |tree.children| == 1 && tree.children[0].TypeNode? && Lone(sch, tree.children[0].tree)
    else (t.name == Bool || t.name == Hash) && !tree.bare && t.Simple() == 1
  }

  lemma {:induction false} CountSplit(cs: seq<Ctor>, n: nat)
    requires n <= |cs|
    ensures Count(cs) == Count(cs[..n]) + Count(cs[n..])
  {
    if n == 0 {
      assert cs[..0] == [] && cs[0..] == cs;
    } else {
      assert cs[..n][1..] == cs[1..][..n - 1] && cs[1..][n - 1..] == cs[n..];
      CountSplit(cs[1..], n - 1);
    }
  }

  lemma {:induction false} FirstOfPrefix(cs: seq<Ctor>)
    requires cs != []
    ensures var n := |cs| - 1;
            FirstSupported(cs) == if FirstSupported(cs[..n]).Some? then FirstSupported(cs[..n])
                                  else if cs[n].supported then Some(cs[n].id) else None
  {
    var n := |cs| - 1;
    if n == 0 {
      assert cs[..0] == [] && cs[1..] == [];
    } else if !cs[0].supported {
      assert cs[1..][..n - 1] == cs[..n][1..];
      FirstOfPrefix(cs[1..]);
    }
  }

  /** Where the fetch side finds one constructor, the store side finds the same. */
  lemma {:induction false} SameId(cs: seq<Ctor>)
    requires OnlyId(cs, false).Some?
    ensures var id := OnlyId(cs, false).value;
            (id == 0 <==> Count(cs) == 0) && (id != 0 ==> FirstSupported(cs) == Some(id) && Count(cs) == 1) &&
            (id == 0 ==> FirstSupported(cs).None?)
  {
    if cs == [] {
    } else {
      var n := |cs| - 1;
      SameId(cs[..n]);
      CountSplit(cs, n);
      assert cs[n..] == [cs[n]] && [cs[n]][1..] == [];
      FirstOfPrefix(cs);
    }
  }

  lemma OnlyOne(cs: seq<Ctor>)
    requires OnlyId(cs, true).Some? && cs != []
    ensures |cs| == 1 && OnlyId(cs, true).value == cs[0].id != 0
  {
    if |cs| > 1 {
      var n := |cs| - 1;
      OnlyOne(cs[..n]);
    } else {
      assert cs[..0] == [];
    }
  }

  /** For every type tree that meets the writer's asserts on both sides, the combinators agree, except exactly for a
      lone boxed Bool or #. */
  lemma {:induction false} GeneratorsAgree(sch: Schema, tree: Tree)
    requires FullFetchClass(sch, tree).Some? && FullStoreClass(sch, tree).Some?
    ensures Agree(sch, FullFetchClass(sch, tree).value, FullStoreClass(sch, tree).value) <==> !Lone(sch, tree)
    ensures !FullFetchClass(sch, tree).value.FetchTrue?
    decreases tree
  {
    var t := sch[tree.type_];
    if t.name == Vector {
      var child := tree.children[0].tree;
      GeneratorsAgree(sch, child);
      hide FullFetchClass;
      hide FullStoreClass;
      VectorAgrees(sch, tree);
    } else {
      LeafAgrees(sch, tree);
    }
    hide *;
  }

  lemma VectorAgrees(sch: Schema, tree: Tree)
    requires FullFetchClass(sch, tree).Some? && FullStoreClass(sch, tree).Some? && sch[tree.type_].name == Vector
    ensures |tree.children| == 1 && tree.children[0].TypeNode? && Lone(sch, tree) == Lone(sch, tree.children[0].tree)
    ensures var child := tree.children[0].tree;
            FullFetchClass(sch, child).Some? && FullStoreClass(sch, child).Some? &&
            Agree(sch, FullFetchClass(sch, tree).value, FullStoreClass(sch, tree).value) ==
            Agree(sch, FullFetchClass(sch, child).value, FullStoreClass(sch, child).value)
    ensures !FullFetchClass(sch, tree).value.FetchTrue?
  {
    if !tree.bare && sch[tree.type_].constructors != [] { OnlyOne(sch[tree.type_].constructors); }
  }

  lemma LeafAgrees(sch: Schema, tree: Tree)
    requires FullFetchClass(sch, tree).Some? && FullStoreClass(sch, tree).Some? && sch[tree.type_].name != Vector
    ensures Agree(sch, FullFetchClass(sch, tree).value, FullStoreClass(sch, tree).value) <==> !Lone(sch, tree)
    ensures !FullFetchClass(sch, tree).value.FetchTrue?
  {
    var t := sch[tree.type_];
    ClassesAgree(sch, tree);
    hide FetchClass;
    hide StoreClass;
    hide OnlyId;
    hide FirstSupported;
    hide Count;
    if !tree.bare && t.IsBare() {
      SameId(t.constructors);
    }
  }

  /** Without boxing, the combinators of a leaf agree whatever the constructors. */
  lemma ClassesAgree(sch: Schema, tree: Tree)
    requires FetchClass(sch, tree).Some? && StoreClass(sch, tree).Some? && sch[tree.type_].name != Vector
    ensures var f, s, t := FetchClass(sch, tree).value, StoreClass(sch, tree).value, sch[tree.type_];
            !f.FetchTrue? && !f.FetchBoxed? && (f == FetchObject(tree.type_) <==> t.name == Other) &&
            (t.name == Other ==> s == StoreObject) && (t.name != Other ==> Agree(sch, f, s) && !s.StoreBoxed?) &&
            (t.name == Other && t.IsBare() ==> Agree(sch, f, s))
  {
    hide Count;
  }
}
