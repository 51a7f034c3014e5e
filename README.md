# SMT type translation layer of the Solidity SMT checker, in Dafny

This project models the layer of the Solidity compiler's SMT checker that
translates source-language types into solver terms. It has two parts:

- **Type classifier and sort mapper** (`libsolidity/formal/SymbolicTypes.cpp`).
  This part has the category predicates and the support test, the mapping of
  a type to a solver sort (`SmtSort`, with its list form `SmtSortSeq` and the
  loop `SmtSortVector`), the kind of a category (`SmtKind`), and the integer
  bounds as solver literals. It also has the factory `NewSymbolicVariable`.
  The factory picks the variable class for a type and decides when a type is
  abstracted as a 256-bit integer.
- **Symbolic variables** (`libsolidity/formal/SymbolicVariables.cpp`).
  A `SymbolicVariable` object has its type, its unique name, the solver session
  and an SSA index. Its symbol names are `name_index`. Each variant declares
  its own sort in `ValueAtIndex`. `SetZeroValue` and `SetUnknownValue` send
  constraints to the solver. `SymbolicFunctionDeclaration` declares a function
  symbol once, when it is constructed.

Modules:

- `Smt` (`smt.dfy`): kinds, sorts and expressions. `Solver` is a session that
  only appends each declaration and each assertion to `log`. So every effect on
  the solver is stated as "exactly these entries were appended".
- `SolTypes` (`sol_types.dfy`): the type categories. There is one `Type`
  constructor per type class the layer inspects (`IntegerType`,
  `RationalNumberType`, `FixedBytesType`, `AddressType`, `BoolType`,
  `MappingType`, `FunctionType`) and `OtherType` for every other category. The
  integer bounds are also here.
- `Decimal` (`decimal.dfy`): decimal rendering of an index and its inverse.
- `SymbolicTypes` (`symbolic_types.dfy`): the classifier, the sort mapper,
  `SmtKind`, `MinValue` and `MaxValue`.
- `SymbolicVariables` (`symbolic_variables.dfy`): one class,
  `SymbolicVariable`, tagged with a `Variant` that stands for the C++ subclass.
  It has one named constructor per subclass. `SymbolicFunctionDeclaration` is
  here too.
- `SymbolicFactory` (`symbolic_factory.dfy`): `NewSymbolicVariable`, proved
  against the specification function `Choose`.

Every checked downcast followed by an assertion in the source becomes a
pattern match or a `requires`. `solAssert(false, …)` becomes a `requires`:
`HasSort` for the sort mapper, `IsSupportedCategory` for the kind mapper. The
sort mapper needs key, value, parameter and return types to be supported all
the way down, and a function type to have exactly one return type. So
`HasSort` is recursive, while `IsSupportedType` looks only at the top-level
category, as the source does.

Constructors touch no solver. Symbols are declared by `valueAtIndex`, and so
by every use of the current value. Only `SymbolicFunctionDeclaration` declares
in its constructor.

The 256-bit surrogate and the address and fixed-bytes integers are built with
`IntegerType`'s default modifier. That modifier is declared in a header this
model leaves out, so the model keeps it as the parameter `defaultSigned`.

## Model

| member | source | states |
|---|---|---|
| `SymbolicTypes.IsInteger` | libsolidity/formal/SymbolicTypes.cpp:131-134 | holds exactly for the Integer category |
| `SymbolicTypes.IsRational` | libsolidity/formal/SymbolicTypes.cpp:136-139 | holds exactly for the RationalNumber category |
| `SymbolicTypes.IsFixedBytes` | libsolidity/formal/SymbolicTypes.cpp:141-144 | holds exactly for the FixedBytes category |
| `SymbolicTypes.IsAddress` | libsolidity/formal/SymbolicTypes.cpp:146-149 | holds exactly for the Address category |
| `SymbolicTypes.IsNumber` | libsolidity/formal/SymbolicTypes.cpp:151-157 | defines a number category as an integer, rational, fixed-bytes or address category |
| `SymbolicTypes.IsBool` | libsolidity/formal/SymbolicTypes.cpp:159-162 | holds exactly for the Bool category |
| `SymbolicTypes.IsFunction` | libsolidity/formal/SymbolicTypes.cpp:164-167 | holds exactly for the Function category |
| `SymbolicTypes.IsMapping` | libsolidity/formal/SymbolicTypes.cpp:169-172 | holds exactly for the Mapping category |
| `SymbolicTypes.IsArray` | libsolidity/formal/SymbolicTypes.cpp:174-178 | defined as `IsMapping`: arrays are not yet told apart from mappings |
| `SymbolicTypes.IsSupportedCategory` | libsolidity/formal/SymbolicTypes.cpp:74-80 | defines support as number, array, bool or function |
| `SymbolicTypes.IsSupportedType` | libsolidity/formal/SymbolicTypes.cpp:126-129 | defines support of a type as support of its own category, without looking at its components |
| `SymbolicTypes.SmtSort` | libsolidity/formal/SymbolicTypes.cpp:27-51 | defines the sort: Int for number categories, Bool for bool, the array sort of the key and value sorts for a mapping, the function sort of the parameter sorts and the single return sort for a function; its `requires` `HasSort` stands for the assertions at lines 37, 43, 46 and 50 |
| `SymbolicTypes.SmtSortSeq` | libsolidity/formal/SymbolicTypes.cpp:53-59 | defines the list of sorts of a list of types, element by element and in order |
| `SymbolicTypes.SmtKind` | libsolidity/formal/SymbolicTypes.cpp:61-72 | defines the kind of a category: Int for numbers, Bool, Array for mappings, Function; its `requires` stands for the assertion at line 71 |
| `SymbolicTypes.MinValue` | libsolidity/formal/SymbolicTypes.cpp:180-183 | defines the lower bound of an integer type as an integer literal |
| `SymbolicTypes.MaxValue` | libsolidity/formal/SymbolicTypes.cpp:185-188 | defines the upper bound of an integer type as an integer literal |
| `SolTypes.EightBitRanges` | libsolidity/formal/SymbolicTypes.cpp:180-188 | the 8-bit bounds: 0 and 255 unsigned, -128 and 127 signed |
| `SymbolicTypes.NumberCategories` | libsolidity/formal/SymbolicTypes.cpp:151-157 | a category is a number exactly when it is Integer, RationalNumber, FixedBytes or Address |
| `SymbolicTypes.ArrayIsMapping` | libsolidity/formal/SymbolicTypes.cpp:174-178 | `IsArray` equals `IsMapping` on every category, so the Array category is not an array |
| `SymbolicTypes.SupportedCategories` | libsolidity/formal/SymbolicTypes.cpp:74-80 | a category is supported exactly when it is a number category, Mapping, Bool or Function; Array and every other category are unsupported |
| `SymbolicTypes.SupportedTypeIsCategory` | libsolidity/formal/SymbolicTypes.cpp:126-129 | the type overload equals the category overload; a type with a sort is supported; exactly the `OtherType` types are unsupported |
| `SymbolicTypes.SupportIsShallow` | libsolidity/formal/SymbolicTypes.cpp:74-80 | support looks at the top level only: a mapping with an unsupported key type and a function type without a return type are supported, yet have no sort |
| `SymbolicTypes.SmtSortCases` | libsolidity/formal/SymbolicTypes.cpp:27-51 | the sort is Int exactly for number types and Bool exactly for bool; a mapping gets `ArraySort` of its key and value sorts; a function type gets `FunctionSort` of its parameter sorts, in order, and of its single return sort |
| `SymbolicTypes.FunctionSortNeedsOneReturn` | libsolidity/formal/SymbolicTypes.cpp:45-47 | a function type without exactly one return type has no sort |
| `SymbolicTypes.NestedMappingSorts` | libsolidity/formal/SymbolicTypes.cpp:34-39 | nested mappings give nested array sorts: at each level the domain is the sort of that level's key type, and the innermost range is the sort of the innermost value type |
| `SymbolicTypes.TwoLevelMapping` | libsolidity/formal/SymbolicTypes.cpp:34-39 | a mapping to a mapping gets an array sort whose range is an array sort, with the key sorts in order |
| `SymbolicTypes.SmtSortVector` | libsolidity/formal/SymbolicTypes.cpp:53-59 | the loop returns a list of the same length whose i-th sort is the sort of the i-th type |
| `SymbolicTypes.SmtSortSeqElementwise` | libsolidity/formal/SymbolicTypes.cpp:53-59 | the list of sorts has the length of the list of types, and its i-th element is the sort of the i-th type |
| `SymbolicTypes.SortKindMatchesCategory` | libsolidity/formal/SymbolicTypes.cpp:27-72 | every type with a sort has a supported category, and its sort's kind is the kind of its category |
| `SymbolicTypes.SmtKindDomain` | libsolidity/formal/SymbolicTypes.cpp:61-72 | on supported categories the kind is Int exactly for numbers, Bool for Bool, Array for Mapping and Function for Function; the `requires` rules out every unsupported category |
| `SymbolicTypes.BoundsOrdered` | libsolidity/formal/SymbolicTypes.cpp:180-188 | the bounds are integer literals with min ≤ 0 ≤ max, spanning exactly 2^bits values |
| `SymbolicVariables.IndexConversionRoundTrip` | libsolidity/formal/SymbolicVariables.cpp:45-48 | an unsigned SSA index passed through the signed `valueAtIndex` parameter comes back as the same unsigned index |
| `SymbolicVariables.SymbolAtInjective` | libsolidity/formal/SymbolicVariables.cpp:45-48 | distinct indices give distinct symbols of the same unique name |
| `SymbolicVariables.SymbolAtShape` | libsolidity/formal/SymbolicVariables.cpp:45-48 | a symbol is the unique name, then `_`, then decimal digits that read back as the index |
| `Decimal.NatToString` | libsolidity/formal/SymbolicVariables.cpp:47 | the decimal rendering of an index: at least one character, all decimal digits, and no leading zero except for 0 itself |
| `SymbolicVariables.SymbolAt` | libsolidity/formal/SymbolicVariables.cpp:45-48 | defines the symbol of an SSA index as the unique name, `_`, and the index in decimal |
| `SymbolicVariables.SymbolicVariable.UniqueSymbol` | libsolidity/formal/SymbolicVariables.cpp:45-48 | the symbol of an SSA index for this variable's unique name |
| `SymbolicVariables.SymbolicVariable.CurrentName` | libsolidity/formal/SymbolicVariables.cpp:40-43 | the symbol of the current SSA index |
| `SymbolicVariables.DeclaredSort` | libsolidity/formal/SymbolicVariables.cpp:60-116 | defines the sort each variant declares: the array sort of key and value sorts for a mapping, Bool for bool, Int for the integer-based variants |
| `SymbolicVariables.SymbolicVariable.VarSort` | libsolidity/formal/SymbolicVariables.cpp:60-67 | the sort this variable declares, `DeclaredSort` of its variant and stored type |
| `Decimal.NatToStringInjective` | libsolidity/formal/SymbolicVariables.cpp:47 | the decimal rendering of an index is injective |
| `Decimal.DigitsValueOfNatToString` | libsolidity/formal/SymbolicVariables.cpp:47 | reading back the decimal rendering of n gives n |
| `SymbolicVariables.DeclaredSortIsSmtSort` | libsolidity/formal/SymbolicVariables.cpp:60-67 | the sort each variant declares is the sort of the type it stores: Int for the integer-based variants, Bool for bool, the array sort of key and value for mappings |
| `SymbolicVariables.SymbolicVariable.InitMapping` | libsolidity/formal/SymbolicVariables.cpp:50-58 | requires a mapping type, stores it, and leaves the solver log unchanged |
| `SymbolicVariables.SymbolicVariable.InitBool` | libsolidity/formal/SymbolicVariables.cpp:79-87 | requires the Bool category, stores the type, and leaves the solver log unchanged |
| `SymbolicVariables.SymbolicVariable.InitInt` | libsolidity/formal/SymbolicVariables.cpp:103-111 | requires a number category, stores the type, and leaves the solver log unchanged |
| `SymbolicVariables.SymbolicVariable.InitAddress` | libsolidity/formal/SymbolicVariables.cpp:131-137 | an address variable is an integer variable over a 160-bit integer type of the default signedness |
| `SymbolicVariables.SymbolicVariable.InitFixedBytes` | libsolidity/formal/SymbolicVariables.cpp:139-146 | a fixed-bytes variable of n bytes is an integer variable over an integer type of n * 8 bits |
| `SymbolicVariables.SymbolicVariable.ValueAtIndex` | libsolidity/formal/SymbolicVariables.cpp:60-67 | appends exactly one declaration, of `name_index` with the variant's sort, and returns that symbol |
| `SymbolicVariables.SymbolicVariable.CurrentValue` | libsolidity/formal/SymbolicVariables.cpp:40-43 | declares and returns the symbol named by the current name, `UniqueSymbol` of the SSA index |
| `SymbolicVariables.SymbolicVariable.SetZeroValue` | libsolidity/formal/SymbolicVariables.cpp:94-121 | appends nothing for a mapping; for bool, a declaration of the current symbol and the assertion that it equals false; for the integer-based variants, the same with 0 |
| `SymbolicVariables.SymbolicVariable.SetUnknownValue` | libsolidity/formal/SymbolicVariables.cpp:123-129 | requires an integer type for the integer-based variants and appends exactly two assertions, current ≥ min and current ≤ max, each after a declaration of the current symbol; appends nothing for bool and mapping |
| `SymbolicVariables.SymbolicFunctionDeclaration.FromSort` | libsolidity/formal/SymbolicVariables.cpp:148-155 | declares the unique name once, with the given sort |
| `SymbolicVariables.SymbolicFunctionDeclaration.FromType` | libsolidity/formal/SymbolicVariables.cpp:157-164 | declares the unique name once, with the function sort of the function type |
| `SymbolicFactory.Choose` | libsolidity/formal/SymbolicTypes.cpp:88-122 | defines the factory's decision as the same eight branches in the same order: the flag, the variable class and the stored type |
| `SymbolicFactory.NewSymbolicVariable` | libsolidity/formal/SymbolicTypes.cpp:82-124 | builds a fresh variable with the given name and solver, makes no solver call, and returns the flag, the variant and the stored type that `Choose` gives |
| `SymbolicFactory.AbstractedIffUnsupported` | libsolidity/formal/SymbolicTypes.cpp:88-95 | the flag is set exactly for unsupported types, and then the variable is an integer variable over the 256-bit surrogate |
| `SymbolicFactory.VariantByType` | libsolidity/formal/SymbolicTypes.cpp:96-120 | mapping types get the mapping variable, bool the bool variable, address the address variable, fixed bytes of n the fixed-bytes variable of n; integers, rationals, functions and unsupported types get the integer variable |
| `SymbolicFactory.StoredTypeByType` | libsolidity/formal/SymbolicTypes.cpp:96-120 | mappings, booleans, integers and whole rationals are stored as themselves; functions, fractional rationals and unsupported types as the 256-bit surrogate; fixed bytes of n as an integer of n * 8 bits; addresses as a 160-bit integer |
| `SymbolicFactory.ChoiceAdmitted` | libsolidity/formal/SymbolicTypes.cpp:91-120 | every choice meets the constructor check of its variant |
| `SymbolicFactory.ChosenSortIsSmtSort` | libsolidity/formal/SymbolicTypes.cpp:96-120 | for a type with a sort, the chosen variable declares the sort of the type it stores, and, except for function types, the sort of the given type itself |
| `SymbolicFactory.IntegerSortedAbstractions` | libsolidity/formal/SymbolicTypes.cpp:100-101 | unsupported types and function types both get an Int-sorted variable, although a function type's own sort is a function sort and its flag is not set |
| `SymbolicFactory.WholeRationalIsNotIntegerTyped` | libsolidity/formal/SymbolicTypes.cpp:118-119 | a whole rational gets an integer variable whose stored type is the rational type itself, not an integer type, so `SetUnknownValue`'s requirement fails for it |

## Left out

- The solver backend (the solver interface, the Z3 and CVC4 bindings, and the
  operators that build expressions) is not part of this model. `Smt.Solver`
  only records the declarations and assertions it receives. `Smt.Expression`
  is a plain term.
- `Types.cpp` and the type headers are not part of this model. Three things
  follow. First, `IntegerType`'s bounds follow the two's-complement rule in
  `SolTypes.IntegerMin`/`IntegerMax`. Second, the constructor's default
  signedness is the parameter `defaultSigned`. Third, bit and byte widths are
  taken to be positive (`Width`).
- `SymbolicVariables.h` is not part of this model. `currentValue()` is taken
  to be `valueAtIndex` at the current SSA index. So every use of the current
  value appends one declaration of the current symbol before its assertion.
- `SSAVariable` internals are not part of this model: the SSA index is the
  32-bit unsigned field `ssaIndex`, and the way the exploration engine
  advances it is not modelled.
- `SymbolicFunctionDeclaration::operator()` is left out: it only applies the
  declared symbol to its arguments.
- `shared_ptr`, `make_shared`, `shared_from_this` and the checked downcasts are C++ memory
  and run-time type plumbing. Pattern matching on `Type` and `Variant`
  replaces them. The variable subclasses are one class tagged by `Variant`.
- The exploration engine that calls these operations, path conditions and
  counterexample reporting are not part of this model.
