/** Symbolic variables: a named solver-level unknown per program value, with
    SSA-indexed symbol names, the sort each variant declares, and the
    constraints each variant asserts for its zero and unknown values. */
module SymbolicVariables {
  import opened SolTypes
  import opened SymbolicTypes
  import opened Smt
  import Decimal

  /** The values of a 32-bit unsigned and a 32-bit signed integer. */
  type Unsigned = n: nat | n < 0x1_0000_0000
  type Int32 = i: int | -0x8000_0000 <= i < 0x8000_0000

  /** Conversion of a signed to an unsigned 32-bit integer (modulo 2^32). */
  function ToUnsigned(i: Int32): Unsigned {
    i % 0x1_0000_0000
  }

  /** Conversion of an unsigned to a signed 32-bit integer (two's complement). */
  function ToInt32(u: Unsigned): Int32 {
    if u < 0x8000_0000 then u else u - 0x1_0000_0000
  }

  /** An SSA index passed through a signed parameter comes back unchanged. */
  lemma IndexConversionRoundTrip(u: Unsigned)
    ensures ToUnsigned(ToInt32(u)) == u
  {
  }

  /** Which concrete variable class an object is. */
  datatype Variant =
    | MappingVariable
    | BoolVariable
    | IntVariable
    | AddressVariable
    | FixedBytesVariable(numBytes: Width)

  /** The variants that behave as integer variables. */
  predicate IsIntBased(v: Variant) {
    v.IntVariable? || v.AddressVariable? || v.FixedBytesVariable?
  }

  /** The types each variant may store, as its constructor checks them. */
  predicate Admits(v: Variant, t: Type) {
    match v
    case MappingVariable => IsMapping(CategoryOf(t))
    case BoolVariable => CategoryOf(t) == Category.Bool
    case IntVariable => IsNumber(CategoryOf(t))
    case AddressVariable => t.IntegerType? && t.bits == 160
    case FixedBytesVariable(n) => t.IntegerType? && t.bits == n * 8
  }

  /** What a variant needs for its declared sort to exist: a mapping's key and
      value types must have sorts. */
  predicate SortDefined(v: Variant, t: Type) {
    Admits(v, t) && (v.MappingVariable? ==> HasSort(t.keyType) && HasSort(t.valueType))
  }

  /** The sort a variant declares for each SSA version. */
  function DeclaredSort(v: Variant, t: Type): Sort
    requires SortDefined(v, t)
  {
    match v
    case MappingVariable => ArraySort(SmtSort(t.keyType), SmtSort(t.valueType))
    case BoolVariable => BoolSort
    case _ => IntSort
  }

  /** Every variable declares the sort of the type it stores. */
  lemma DeclaredSortIsSmtSort(v: Variant, t: Type)
    requires SortDefined(v, t)
    ensures HasSort(t) && DeclaredSort(v, t) == SmtSort(t)
    ensures IsIntBased(v) <==> DeclaredSort(v, t) == IntSort
  {
  }

  /** The name of a symbol at an SSA index: the unique name, `_`, and the index in decimal. */
  function SymbolAt(uniqueName: string, index: Unsigned): string {
    uniqueName + "_" + Decimal.NatToString(index)
  }

  /** Different SSA indices of one variable name different symbols. */
  lemma SymbolAtInjective(uniqueName: string, i: Unsigned, j: Unsigned)
    requires SymbolAt(uniqueName, i) == SymbolAt(uniqueName, j)
    ensures i == j
  {
    var p := uniqueName + "_";
    var s := SymbolAt(uniqueName, i);
    assert Decimal.NatToString(i) == s[|p|..];
    assert Decimal.NatToString(j) == s[|p|..];
    Decimal.NatToStringInjective(i, j);
  }

  /** A symbol name starts with the unique name and ends in the decimal digits of its index. */
  lemma SymbolAtShape(uniqueName: string, index: Unsigned)
    ensures var s := SymbolAt(uniqueName, index);
      |s| > |uniqueName| + 1 && s[..|uniqueName|] == uniqueName && s[|uniqueName|] == '_' &&
      Decimal.AllDigits(s[|uniqueName| + 1..]) &&
      Decimal.DigitsValue(s[|uniqueName| + 1..]) == index
  {
    var s := SymbolAt(uniqueName, index);
    assert s[|uniqueName| + 1..] == Decimal.NatToString(index);
    Decimal.DigitsValueOfNatToString(index);
  }

  /** A symbolic variable bound to a solver session. The variant tag stands
      for the concrete class; the SSA index is the counter the exploration
      engine advances between versions. */
  class SymbolicVariable {
    const variant: Variant
    const varType: Type
    const uniqueName: string
    const solver: Solver
    var ssaIndex: Unsigned

    predicate Valid() {
      Admits(variant, varType)
    }

    constructor InitMapping(t: Type, uniqueName: string, solver: Solver)
      requires IsMapping(CategoryOf(t))
      ensures Valid()
      ensures variant == MappingVariable && varType == t
      ensures this.uniqueName == uniqueName && this.solver == solver
      ensures solver.log == old(solver.log)
    {
      variant, varType := MappingVariable, t;
      this.uniqueName, this.solver := uniqueName, solver;
    }

    constructor InitBool(t: Type, uniqueName: string, solver: Solver)
      requires CategoryOf(t) == Category.Bool
      ensures Valid()
      ensures variant == BoolVariable && varType == t
      ensures this.uniqueName == uniqueName && this.solver == solver
      ensures solver.log == old(solver.log)
    {
      variant, varType := BoolVariable, t;
      this.uniqueName, this.solver := uniqueName, solver;
    }

    constructor InitInt(t: Type, uniqueName: string, solver: Solver)
      requires IsNumber(CategoryOf(t))
      ensures Valid()
      ensures variant == IntVariable && varType == t
      ensures this.uniqueName == uniqueName && this.solver == solver
      ensures solver.log == old(solver.log)
    {
      variant, varType := IntVariable, t;
      this.uniqueName, this.solver := uniqueName, solver;
    }

    /** An address is a 160-bit integer built with the integer type's
        default signedness, which `defaultSigned` stands for. */
    constructor InitAddress(uniqueName: string, solver: Solver, defaultSigned: bool)
      ensures Valid()
      ensures variant == AddressVariable && varType == IntegerType(160, defaultSigned)
      ensures this.uniqueName == uniqueName && this.solver == solver
      ensures solver.log == old(solver.log)
    {
      variant, varType := AddressVariable, IntegerType(160, defaultSigned);
      this.uniqueName, this.solver := uniqueName, solver;
    }

    /** A fixed-size byte array of n bytes is an integer of n * 8 bits. */
    constructor InitFixedBytes(numBytes: Width, uniqueName: string, solver: Solver, defaultSigned: bool)
      ensures Valid()
      ensures variant == FixedBytesVariable(numBytes)
      ensures varType == IntegerType(numBytes * 8, defaultSigned)
      ensures this.uniqueName == uniqueName && this.solver == solver
      ensures solver.log == old(solver.log)
    {
      variant, varType := FixedBytesVariable(numBytes), IntegerType(numBytes * 8, defaultSigned);
      this.uniqueName, this.solver := uniqueName, solver;
    }

    function UniqueSymbol(index: Unsigned): string {
      SymbolAt(uniqueName, index)
    }

    function CurrentName(): string
      reads this
    {
      UniqueSymbol(ssaIndex)
    }

    /** The sort this variable declares for each SSA version. */
    function VarSort(): Sort
      requires SortDefined(variant, varType)
    {
      DeclaredSort(variant, varType)
    }

    /** Declares the symbol of the given SSA index with this variant's sort. */
    method ValueAtIndex(index: Int32) returns (e: Expression)
      requires SortDefined(variant, varType)
      modifies solver
      ensures e == Var(UniqueSymbol(ToUnsigned(index)), VarSort())
      ensures solver.log == old(solver.log) + [Declaration(UniqueSymbol(ToUnsigned(index)), VarSort())]
    {
      e := solver.NewVariable(UniqueSymbol(ToUnsigned(index)), VarSort());
    }

    /** The value at the current SSA index, declared anew. */
    method CurrentValue() returns (e: Expression)
      requires SortDefined(variant, varType)
      modifies solver
      ensures e == Var(CurrentName(), VarSort())
      ensures solver.log == old(solver.log) + [Declaration(CurrentName(), VarSort())]
    {
      IndexConversionRoundTrip(ssaIndex);
      e := ValueAtIndex(ToInt32(ssaIndex));
    }

    /** Constrains the current value to zero: 0 for integers, false for
        booleans; a mapping is left unconstrained. */
    method SetZeroValue()
      requires Valid()
      modifies solver
      ensures variant.MappingVariable? ==> solver.log == old(solver.log)
      ensures variant.BoolVariable? ==> solver.log == old(solver.log) + [
        Declaration(CurrentName(), BoolSort),
        Assertion(Eq(Var(CurrentName(), BoolSort), BoolLit(false)))]
      ensures IsIntBased(variant) ==> solver.log == old(solver.log) + [
        Declaration(CurrentName(), IntSort),
        Assertion(Eq(Var(CurrentName(), IntSort), IntLit(0)))]
    {
      match variant
      case MappingVariable =>
      case BoolVariable =>
        var v := CurrentValue();
        solver.AddAssertion(Eq(v, BoolLit(false)));
      case _ =>
        var v := CurrentValue();
        solver.AddAssertion(Eq(v, IntLit(0)));
    }

    /** Constrains the current value to the range of its integer type; a
        boolean or a mapping is left unconstrained. */
    method SetUnknownValue()
      requires Valid()
      requires IsIntBased(variant) ==> varType.IntegerType?
      modifies solver
      ensures !IsIntBased(variant) ==> solver.log == old(solver.log)
      ensures IsIntBased(variant) ==> solver.log == old(solver.log) + [
        Declaration(CurrentName(), IntSort),
        Assertion(Ge(Var(CurrentName(), IntSort), MinValue(varType))),
        Declaration(CurrentName(), IntSort),
        Assertion(Le(Var(CurrentName(), IntSort), MaxValue(varType)))]
    {
      if IsIntBased(variant) {
        var v := CurrentValue();
        solver.AddAssertion(Ge(v, MinValue(varType)));
        v := CurrentValue();
        solver.AddAssertion(Le(v, MaxValue(varType)));
      }
    }
  }

  /** A solver-level function symbol, declared once, when it is created. */
  class SymbolicFunctionDeclaration {
    const declaration: Expression

    constructor FromSort(sort: Sort, uniqueName: string, solver: Solver)
      modifies solver
      ensures declaration == Var(uniqueName, sort)
      ensures solver.log == old(solver.log) + [Declaration(uniqueName, sort)]
    {
      var e := solver.NewVariable(uniqueName, sort);
      declaration := e;
    }

    constructor FromType(t: Type, uniqueName: string, solver: Solver)
      requires t.FunctionType? && HasSort(t)
      modifies solver
      ensures declaration == Var(uniqueName, SmtSort(t))
      ensures declaration.sort.FunctionSort?
      ensures solver.log == old(solver.log) + [Declaration(uniqueName, SmtSort(t))]
    {
      var e := solver.NewVariable(uniqueName, SmtSort(t));
      declaration := e;
    }
  }
}
