/**
 * Expression terms handed around by the helpers.
 *
 * Doctrine's `Expr`, `Comparison`, `Func`, `Andx` and `Orx` objects are foreign
 * to this model: each is represented by a constructor term that records what
 * the helper passed to the factory, and nothing about how Doctrine renders it.
 */
module Expressions {

  /** The comparison operators of Doctrine's expression factory that the binders use. */
  datatype CompOp = Eq | Neq | Lt | Lte | Gt | Gte | Like | NotLike | InstanceOf

  /** `andX()` or `orX()`. */
  datatype JunctionKind = And | Or

  datatype Expr =
    | Text(dql: string)                                   // a raw DQL fragment
    | Comparison(left: string, op: CompOp, right: string)  // `$qb->expr()->eq(...)` and friends
    | Between(subject: string, low: string, high: string)
    | Junction(kind: JunctionKind, parts: seq<Item>)      // an `Andx` / `Orx` composite
    | Exists(subquery: string)
    | Not(operand: Expr)
  {
    /** `Composite::count()`: the number of parts of a junction. */
    function Count(): nat
      requires Junction?
    {
      |parts|
    }
  }

  /**
   * One entry of a PHP condition list: `null`, an expression, or a (nested) array.
   */
  datatype Item = Null | Atom(expr: Expr) | Arr(items: seq<Item>)
}
