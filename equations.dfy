/** The arithmetic questions of the calculation and operator games: the operators a difficulty allows,
    and an equation made up from random numbers (`generateQuestion` / `generateEquation`). */
module Equations {
  import opened Basics

  datatype Op = Plus | Minus | Times | Divide

  /** `['+', '-']`, with `'×'` from difficulty 3 and `'÷'` from difficulty 5. */
  function Ops(d: int): (ops: seq<Op>)
    ensures |ops| >= 2 && ops[0] == Plus && ops[1] == Minus && Distinct(ops)
    ensures Times in ops <==> d >= 3
    ensures Divide in ops <==> d >= 5
  {
    [Plus, Minus] + (if d >= 3 then [Times] else []) + (if d >= 5 then [Divide] else [])
  }

  /** `10 + currentDifficulty * 10`. */
  function MaxVal(d: int): int {
    10 + d * 10
  }

  /** `a op b` equals `result` in JavaScript's arithmetic; a division must come out exact, because a
      fraction never equals an integer. */
  predicate Holds(op: Op, a: int, b: int, result: int) {
    match op
    case Plus => a + b == result
    case Minus => a - b == result
    case Times => a * b == result
    case Divide => b != 0 && a == b * result
  }

  /** The two operands, the operator and the value of a question. */
  datatype Equation = Equation(a: int, b: int, op: Op, result: int)

  /** The random numbers one question draws, in order: the operator, both operands, and for a division
      the divisor and the multiple. */
  datatype Draws = Draws(op: real, a: real, b: real, divisor: real, multiple: real)

  predicate ValidDraws(rs: Draws) {
    0.0 <= rs.op < 1.0 && 0.0 <= rs.a < 1.0 && 0.0 <= rs.b < 1.0 &&
    0.0 <= rs.divisor < 1.0 && 0.0 <= rs.multiple < 1.0
  }

  /** `Math.floor(Math.random() * x)` for a bound `x` that need not be whole. */
  function PickBelow(r: real, x: real): (i: int)
    requires 0.0 <= r < 1.0 && x > 0.0
    ensures 0 <= i && (i as real) < x
  {
    (r * x).Floor
  }

  /** The question made up at difficulty `d`: an operator the difficulty allows and a true equation.
      Operands run from 1 to the bound; a division picks a divisor up to half the bound and a whole
      multiple of it, so that the quotient is whole. */
  function Generate(d: int, rs: Draws): (e: Equation)
    requires 1 <= d <= 5 && ValidDraws(rs)
    ensures e.op in Ops(d)
    ensures Holds(e.op, e.a, e.b, e.result)
    ensures e.op != Divide ==> 1 <= e.a <= MaxVal(d) && 1 <= e.b <= MaxVal(d)
    ensures e.op == Divide ==> 1 <= e.b <= MaxVal(d) / 2 && 1 <= e.result && e.a == e.b * e.result
  {
    var ops := Ops(d);
    var op := ops[Pick(rs.op, |ops|)];
    var a := Pick(rs.a, MaxVal(d)) + 1;
    var b := Pick(rs.b, MaxVal(d)) + 1;
    match op
    case Plus => Equation(a, b, op, a + b)
    case Minus => Equation(a, b, op, a - b)
    case Times => Equation(a, b, op, a * b)
    case Divide =>
      var divisor := PickBelow(rs.divisor, MaxVal(d) as real / 2.0) + 1;
      var multiple := PickBelow(rs.multiple, MaxVal(d) as real / divisor as real) + 1;
      // a / b is exactly the multiple
      Equation(divisor * multiple, divisor, op, multiple)
  }
}
