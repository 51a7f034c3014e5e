/** The factory that picks the symbolic variable for a program value and
    decides when an unsupported type is abstracted as a 256-bit integer. */
module SymbolicFactory {
  import opened SolTypes
  import opened SymbolicTypes
  import opened Smt
  import opened SymbolicVariables

  /** What the factory builds: the abstraction flag, the variable class and
      the type that variable stores. */
  datatype Choice = Choice(abstracted: bool, variant: Variant, varType: Type)

  /** The 256-bit integer that stands in for values without a faithful sort,
      built with the integer type's default signedness. */
  function Surrogate(defaultSigned: bool): Type {
    IntegerType(256, defaultSigned)
  }

  /** The factory's decision, branch by branch in the order the source checks them. */
  function Choose(t: Type, defaultSigned: bool): Choice {
    var c := CategoryOf(t);
    if !IsSupportedType(t) then Choice(true, IntVariable, Surrogate(defaultSigned))
    else if IsMapping(c) then Choice(false, MappingVariable, t)
    else if IsBool(c) then Choice(false, BoolVariable, t)
    else if IsFunction(c) then Choice(false, IntVariable, Surrogate(defaultSigned))
    else if IsInteger(c) then Choice(false, IntVariable, t)
    else if IsFixedBytes(c) then
      Choice(false, FixedBytesVariable(t.numBytes), IntegerType(t.numBytes * 8, defaultSigned))
    else if IsAddress(c) then Choice(false, AddressVariable, IntegerType(160, defaultSigned))
    else if t.fractional then Choice(false, IntVariable, Surrogate(defaultSigned))
    else Choice(false, IntVariable, t)
  }

  /** Builds the variable for a value of type t named uniqueName. No solver
      call happens here: symbols are declared when a value is first used. */
  method NewSymbolicVariable(t: Type, uniqueName: string, solver: Solver, defaultSigned: bool)
    returns (abstracted: bool, v: SymbolicVariable)
    ensures fresh(v) && v.Valid()
    ensures v.uniqueName == uniqueName && v.solver == solver
    ensures unchanged(solver)
    ensures Choice(abstracted, v.variant, v.varType) == Choose(t, defaultSigned)
  {
    abstracted := false;
    var c := CategoryOf(t);
    if !IsSupportedType(t) {
      abstracted := true;
      v := new SymbolicVariable.InitInt(Surrogate(defaultSigned), uniqueName, solver);
    } else if IsMapping(c) {
      v := new SymbolicVariable.InitMapping(t, uniqueName, solver);
    } else if IsBool(c) {
      v := new SymbolicVariable.InitBool(t, uniqueName, solver);
    } else if IsFunction(c) {
      v := new SymbolicVariable.InitInt(Surrogate(defaultSigned), uniqueName, solver);
    } else if IsInteger(c) {
      v := new SymbolicVariable.InitInt(t, uniqueName, solver);
    } else if IsFixedBytes(c) {
      v := new SymbolicVariable.InitFixedBytes(t.numBytes, uniqueName, solver, defaultSigned);
    } else if IsAddress(c) {
      v := new SymbolicVariable.InitAddress(uniqueName, solver, defaultSigned);
    } else {
      // The only supported category left is the rational one.
      assert IsRational(c);
      if t.fractional {
        v := new SymbolicVariable.InitInt(Surrogate(defaultSigned), uniqueName, solver);
      } else {
        v := new SymbolicVariable.InitInt(t, uniqueName, solver);
      }
    }
  }

  /** The abstraction flag is set exactly for unsupported types, and then
      the variable is an integer variable over the 256-bit surrogate. */
  lemma AbstractedIffUnsupported(t: Type, defaultSigned: bool)
    ensures Choose(t, defaultSigned).abstracted <==> !IsSupportedType(t)
    ensures Choose(t, defaultSigned).abstracted ==>
      Choose(t, defaultSigned).variant == IntVariable &&
      Choose(t, defaultSigned).varType == IntegerType(256, defaultSigned)
  {
  }

  /** Which variable class each type gets. */
  lemma VariantByType(t: Type, defaultSigned: bool)
    ensures var ch := Choose(t, defaultSigned);
      && (ch.variant == MappingVariable <==> t.MappingType?)
      && (ch.variant == BoolVariable <==> t.BoolType?)
      && (ch.variant == AddressVariable <==> t.AddressType?)
      && (t.FixedBytesType? <==> ch.variant.FixedBytesVariable?)
      && (t.FixedBytesType? ==> ch.variant == FixedBytesVariable(t.numBytes))
      && (ch.variant == IntVariable <==>
            t.IntegerType? || t.RationalNumberType? || t.FunctionType? || t.OtherType?)
  {
  }

  /** Which type the chosen variable stores: the type itself for mappings,
      booleans, integers and whole rationals; the 256-bit surrogate for
      functions, fractional rationals and unsupported types; an integer of
      the default signedness, 8 bits per byte, for fixed bytes, and of 160
      bits for addresses. */
  lemma StoredTypeByType(t: Type, defaultSigned: bool)
    ensures var ch := Choose(t, defaultSigned);
      && ((t.MappingType? || t.BoolType? || t.IntegerType? || t == RationalNumberType(false)) ==>
            ch.varType == t)
      && ((t.FunctionType? || t == RationalNumberType(true) || t.OtherType?) ==>
            ch.varType == IntegerType(256, defaultSigned))
      && (t.FixedBytesType? ==> ch.varType == IntegerType(t.numBytes * 8, defaultSigned))
      && (t.AddressType? ==> ch.varType == IntegerType(160, defaultSigned))
      && (!ch.abstracted <==> IsSupportedType(t))
  {
  }

  /** The choice always satisfies the constructor checks of its variant. */
  lemma ChoiceAdmitted(t: Type, defaultSigned: bool)
    ensures Admits(Choose(t, defaultSigned).variant, Choose(t, defaultSigned).varType)
  {
  }

  /** Every variable the factory builds declares the sort of the type it
      stores; for every type with a sort other than a function type, that
      is the sort of the type itself. */
  lemma ChosenSortIsSmtSort(t: Type, defaultSigned: bool)
    requires HasSort(t)
    ensures var ch := Choose(t, defaultSigned);
      SortDefined(ch.variant, ch.varType) &&
      HasSort(ch.varType) && DeclaredSort(ch.variant, ch.varType) == SmtSort(ch.varType) &&
      (!t.FunctionType? ==> DeclaredSort(ch.variant, ch.varType) == SmtSort(t))
  {
  }

  /** An abstracted value and a function value both get an integer-sorted
      variable, although a function type's own sort is a function sort. */
  lemma IntegerSortedAbstractions(t: Type, defaultSigned: bool)
    requires !IsSupportedType(t) || (t.FunctionType? && HasSort(t))
    ensures var ch := Choose(t, defaultSigned);
      SortDefined(ch.variant, ch.varType) && DeclaredSort(ch.variant, ch.varType) == IntSort
    ensures t.FunctionType? ==> SmtSort(t).FunctionSort? && !Choose(t, defaultSigned).abstracted
  {
  }

  /** A whole rational is stored as itself, so its variable cannot take an
      unknown value: that needs an integer type. */
  lemma WholeRationalIsNotIntegerTyped(defaultSigned: bool)
    ensures var ch := Choose(RationalNumberType(false), defaultSigned);
      ch.variant == IntVariable && !ch.varType.IntegerType?
  {
  }
}
