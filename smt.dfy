/** The solver side of the translation layer: sorts and their kinds, the few
    expressions this layer builds, and a solver session that only records
    the declarations and assertions it receives. */
module Smt {

  /** The discriminant of a sort. */
  datatype Kind = Int | Bool | Array | Function

  /** A solver sort. An array sort maps a domain sort to a range sort; a
      function sort has an ordered list of parameter sorts and exactly one
      codomain sort, which the shape of the constructor enforces. */
  datatype Sort =
    | IntSort
    | BoolSort
    | ArraySort(domain: Sort, range: Sort)
    | FunctionSort(parameters: seq<Sort>, codomain: Sort)
  {
    function SortKind(): Kind {
      match this
      case IntSort => Int
      case BoolSort => Bool
      case ArraySort(_, _) => Array
      case FunctionSort(_, _) => Function
    }
  }

  /** The expressions the symbolic variables hand to the solver. */
  datatype Expression =
    | Var(name: string, sort: Sort)
    | IntLit(value: int)
    | BoolLit(truth: bool)
    | Eq(lhs: Expression, rhs: Expression)
    | Ge(lhs: Expression, rhs: Expression)
    | Le(lhs: Expression, rhs: Expression)

  /** One call made on the solver session. */
  datatype Command =
    | Declaration(name: string, sort: Sort)
    | Assertion(expr: Expression)

  /** A solver session reduced to the record of what it was told, in order. */
  class Solver {
    var log: seq<Command>

    constructor ()
      ensures log == []
    {
      log := [];
    }

    /** Declares a constant of the given sort and returns the expression naming it. */
    method NewVariable(name: string, sort: Sort) returns (e: Expression)
      modifies this
      ensures e == Var(name, sort)
      ensures log == old(log) + [Declaration(name, sort)]
    {
      log := log + [Declaration(name, sort)];
      e := Var(name, sort);
    }

    method AddAssertion(e: Expression)
      modifies this
      ensures log == old(log) + [Assertion(e)]
    {
      log := log + [Assertion(e)];
    }
  }
}
