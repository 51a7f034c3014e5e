/** The part of the source language's type system that the translation layer
    reads: a category tag per type and the fields each category carries. */
module SolTypes {

  /** Bit and byte widths are positive. */
  type Width = n: nat | 0 < n witness 8

  /** The category tag of a type. `Array` is named on its own because the
      classifier has a predicate of that name; every category the layer
      does not distinguish (structs, contracts, tuples, ...) is `Other`. */
  datatype Category =
    | Integer
    | RationalNumber
    | FixedBytes
    | Address
    | Bool
    | Mapping
    | Function
    | Array
    | Other(name: string)

  /** The categories that have no dedicated constructor in `Type`. */
  type UnmodelledCategory = c: Category | c.Array? || c.Other? witness Array

  /** A type of the source language, one constructor per type class the
      layer inspects. */
  datatype Type =
    | IntegerType(bits: Width, signed: bool)
    | RationalNumberType(fractional: bool)
    | FixedBytesType(numBytes: Width)
    | AddressType
    | BoolType
    | MappingType(keyType: Type, valueType: Type)
    | FunctionType(parameterTypes: seq<Type>, returnParameterTypes: seq<Type>)
    | OtherType(otherCategory: UnmodelledCategory)

  function CategoryOf(t: Type): Category {
    match t
    case IntegerType(_, _) => Integer
    case RationalNumberType(_) => RationalNumber
    case FixedBytesType(_) => FixedBytes
    case AddressType => Address
    case BoolType => Bool
    case MappingType(_, _) => Mapping
    case FunctionType(_, _) => Function
    case OtherType(c) => c
  }

  function Pow2(n: nat): (r: nat)
    ensures r >= 1
  {
    if n == 0 then 1 else 2 * Pow2(n - 1)
  }

  /** Smallest value of an integer type: two's complement when signed. */
  function IntegerMin(bits: Width, signed: bool): int {
    if signed then -(Pow2(bits - 1) as int) else 0
  }

  /** Largest value of an integer type. */
  function IntegerMax(bits: Width, signed: bool): int {
    if signed then Pow2(bits - 1) - 1 else Pow2(bits) - 1
  }

  /** The 8-bit boundary cases. */
  lemma EightBitRanges()
    ensures IntegerMin(8, false) == 0 && IntegerMax(8, false) == 255
    ensures IntegerMin(8, true) == -128 && IntegerMax(8, true) == 127
  {
  }
}
