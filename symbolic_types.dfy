/** Classification of source types into semantic groups, the mapping of a
    type to its solver sort, and the integer bounds as solver literals. */
module SymbolicTypes {
  import opened SolTypes
  import Smt

  // Category predicates: total, and false on every category they do not name.

  predicate IsInteger(c: Category) { c == Integer }

  predicate IsRational(c: Category) { c == RationalNumber }

  predicate IsFixedBytes(c: Category) { c == FixedBytes }

  predicate IsAddress(c: Category) { c == Address }

  predicate IsNumber(c: Category) {
    IsInteger(c) || IsRational(c) || IsFixedBytes(c) || IsAddress(c)
  }

  predicate IsBool(c: Category) { c == Bool }

  predicate IsFunction(c: Category) { c == Function }

  predicate IsMapping(c: Category) { c == Mapping }

  /** Arrays are not yet told apart from mappings. */
  predicate IsArray(c: Category) { IsMapping(c) }

  predicate IsSupportedCategory(c: Category) {
    IsNumber(c) || IsArray(c) || IsBool(c) || IsFunction(c)
  }

  /** Looks only at the type's own category, never at its components. */
  predicate IsSupportedType(t: Type) {
    IsSupportedCategory(CategoryOf(t))
  }

  /** The types on which the sort mapper succeeds: supported all the way
      down, and every function type with exactly one return type. */
  predicate HasSort(t: Type)
    decreases t
  {
    match t
    case MappingType(k, v) => HasSort(k) && HasSort(v)
    case FunctionType(ps, rs) =>
      |rs| == 1 && HasSort(rs[0]) && forall p | p in ps :: HasSort(p)
    case OtherType(_) => false
    case _ => true
  }

  /** The sort of a type, checked in the order number, bool, mapping, function. */
  function SmtSort(t: Type): Smt.Sort
    requires HasSort(t)
    decreases t
  {
    var c := CategoryOf(t);
    if IsNumber(c) then Smt.IntSort
    else if IsBool(c) then Smt.BoolSort
    else if IsMapping(c) then Smt.ArraySort(SmtSort(t.keyType), SmtSort(t.valueType))
    else Smt.FunctionSort(SmtSortSeq(t.parameterTypes), SmtSort(t.returnParameterTypes[0]))
  }

  predicate AllHaveSorts(ts: seq<Type>) {
    forall i :: 0 <= i < |ts| ==> HasSort(ts[i])
  }

  /** The sorts of a list of types, element by element. */
  function SmtSortSeq(ts: seq<Type>): seq<Smt.Sort>
    requires AllHaveSorts(ts)
    decreases ts
  {
    seq(|ts|, i requires 0 <= i < |ts| => SmtSort(ts[i]))
  }

  /** The loop that builds the list of sorts one push at a time. */
  method SmtSortVector(types: seq<Type>) returns (sorts: seq<Smt.Sort>)
    requires AllHaveSorts(types)
    ensures |sorts| == |types|
    ensures forall i :: 0 <= i < |types| ==> sorts[i] == SmtSort(types[i])
  {
    sorts := [];
    for k := 0 to |types|
      invariant |sorts| == k
      invariant forall i :: 0 <= i < k ==> sorts[i] == SmtSort(types[i])
    {
      sorts := sorts + [SmtSort(types[k])];
    }
  }

  /** The kind of the sort of a category, without building the sort. */
  function SmtKind(c: Category): Smt.Kind
    requires IsSupportedCategory(c)
  {
    if IsNumber(c) then Smt.Int
    else if IsBool(c) then Smt.Bool
    else if IsMapping(c) then Smt.Array
    else Smt.Function
  }

  /** The bounds of an integer type as solver literals. */
  function MinValue(t: Type): Smt.Expression
    requires t.IntegerType?
  {
    Smt.IntLit(IntegerMin(t.bits, t.signed))
  }

  function MaxValue(t: Type): Smt.Expression
    requires t.IntegerType?
  {
    Smt.IntLit(IntegerMax(t.bits, t.signed))
  }

  // Properties of the classifier.

  /** The number categories are exactly the four scalar ones. */
  lemma NumberCategories(c: Category)
    ensures IsNumber(c) <==> c in {Integer, RationalNumber, FixedBytes, Address}
  {
  }

  /** `IsArray` coincides with `IsMapping`; the array category itself is not an array. */
  lemma ArrayIsMapping(c: Category)
    ensures IsArray(c) == IsMapping(c)
    ensures !IsArray(Array)
  {
  }

  /** Supported categories: the numbers, mapping, bool and function, and no other. */
  lemma SupportedCategories(c: Category)
    ensures IsSupportedCategory(c) <==>
      c in {Integer, RationalNumber, FixedBytes, Address, Mapping, Bool, Function}
    ensures !IsSupportedCategory(Array)
  {
  }

  /** A type is supported exactly when its category is, and the sort
      mapper succeeds only on supported types. */
  lemma SupportedTypeIsCategory(t: Type)
    ensures IsSupportedType(t) == IsSupportedCategory(CategoryOf(t))
    ensures HasSort(t) ==> IsSupportedType(t)
    ensures t.OtherType? <==> !IsSupportedType(t)
  {
  }

  /** Support is checked at the top level only: a mapping whose key or value
      type has no sort, and a function type without exactly one return type,
      are supported themselves, yet have no sort. */
  lemma SupportIsShallow(k: Type, v: Type, ps: seq<Type>, rs: seq<Type>)
    ensures !HasSort(k) || !HasSort(v) ==>
      IsSupportedType(MappingType(k, v)) && !HasSort(MappingType(k, v))
    ensures |rs| != 1 ==>
      IsSupportedType(FunctionType(ps, rs)) && !HasSort(FunctionType(ps, rs))
  {
  }

  // Properties of the sort mapper.

  /** The sort's discriminant is the kind of the type's category. */
  lemma SortKindMatchesCategory(t: Type)
    requires HasSort(t)
    ensures IsSupportedCategory(CategoryOf(t))
    ensures SmtSort(t).SortKind() == SmtKind(CategoryOf(t))
  {
  }

  /** The sort of each kind of type. */
  lemma SmtSortCases(t: Type)
    requires HasSort(t)
    ensures IsNumber(CategoryOf(t)) <==> SmtSort(t) == Smt.IntSort
    ensures IsBool(CategoryOf(t)) <==> SmtSort(t) == Smt.BoolSort
    ensures t.MappingType? ==>
      SmtSort(t) == Smt.ArraySort(SmtSort(t.keyType), SmtSort(t.valueType))
    ensures t.FunctionType? ==>
      AllHaveSorts(t.parameterTypes) &&
      SmtSort(t) == Smt.FunctionSort(SmtSortSeq(t.parameterTypes), SmtSort(t.returnParameterTypes[0]))
  {
  }

  /** A function type has a sort only with exactly one return type. */
  lemma FunctionSortNeedsOneReturn(ps: seq<Type>, rs: seq<Type>)
    requires |rs| != 1
    ensures !HasSort(FunctionType(ps, rs))
  {
  }

  /** The key types met when following a mapping's value types inwards. */
  function KeyChain(t: Type): seq<Type> {
    if t.MappingType? then [t.keyType] + KeyChain(t.valueType) else []
  }

  /** The first value type that is not itself a mapping. */
  function InnermostValue(t: Type): Type {
    if t.MappingType? then InnermostValue(t.valueType) else t
  }

  /** The domain sorts met when following an array sort's ranges inwards. */
  function DomainChain(s: Smt.Sort): seq<Smt.Sort> {
    if s.ArraySort? then [s.domain] + DomainChain(s.range) else []
  }

  /** The first range sort that is not itself an array sort. */
  function InnermostRange(s: Smt.Sort): Smt.Sort {
    if s.ArraySort? then InnermostRange(s.range) else s
  }

  /** Nested mappings give array sorts nested just as deeply: level by level
      the domain is the sort of that level's key type, and the innermost
      range is the sort of the innermost value type. */
  lemma {:induction false} NestedMappingSorts(t: Type)
    requires HasSort(t)
    ensures AllHaveSorts(KeyChain(t)) && HasSort(InnermostValue(t))
    ensures DomainChain(SmtSort(t)) == SmtSortSeq(KeyChain(t))
    ensures InnermostRange(SmtSort(t)) == SmtSort(InnermostValue(t))
    decreases t
  {
    if t.MappingType? {
      NestedMappingSorts(t.valueType);
      var ks := KeyChain(t.valueType);
      assert KeyChain(t) == [t.keyType] + ks;
      assert SmtSortSeq(KeyChain(t)) == [SmtSort(t.keyType)] + SmtSortSeq(ks);
    } else {
      assert !SmtSort(t).ArraySort?;
      assert KeyChain(t) == [];
    }
  }

  /** A two-level mapping gives a two-level array sort. */
  lemma TwoLevelMapping(k1: Type, k2: Type, v: Type)
    requires HasSort(k1) && HasSort(k2) && HasSort(v)
    ensures SmtSort(MappingType(k1, MappingType(k2, v))) ==
      Smt.ArraySort(SmtSort(k1), Smt.ArraySort(SmtSort(k2), SmtSort(v)))
  {
  }

  /** The sorts of a list keep its length and order. */
  lemma SmtSortSeqElementwise(ts: seq<Type>, i: nat)
    requires AllHaveSorts(ts) && i < |ts|
    ensures |SmtSortSeq(ts)| == |ts| && SmtSortSeq(ts)[i] == SmtSort(ts[i])
  {
  }

  /** The kind mapper fails exactly on the unsupported categories. */
  lemma SmtKindDomain(c: Category)
    requires IsSupportedCategory(c)
    ensures SmtKind(c) == Smt.Int <==> IsNumber(c)
    ensures SmtKind(c) == Smt.Bool <==> c == Bool
    ensures SmtKind(c) == Smt.Array <==> c == Mapping
    ensures SmtKind(c) == Smt.Function <==> c == Function
  {
  }

  /** The bounds are literals with the lower one at most the upper one. */
  lemma BoundsOrdered(t: Type)
    requires t.IntegerType?
    ensures MinValue(t).IntLit? && MaxValue(t).IntLit?
    ensures MinValue(t).value <= 0 <= MaxValue(t).value
    ensures MaxValue(t).value - MinValue(t).value + 1 == Pow2(t.bits)
  {
  }
}
