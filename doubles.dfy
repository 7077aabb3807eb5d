/** Java `double` values kept symbolic: the model records how a value was
    obtained (a literal, the parse of a text, exp, division, addition) and
    never evaluates floating-point arithmetic. */
module Doubles {

  import opened Json

  datatype Num =
    | Lit(r: real)          // a literal or a JSON number
    | Parsed(text: string)  // Jackson's parse of a textual node (0.0 when it is not a number)
    | Exp(arg: Num)         // Math.exp
    | Div(num: Num, den: Num)
    | Add(lhs: Num, rhs: Num)

  /** `node.asDouble()`. */
  function AsDouble(node: Json): (r: Num)
    ensures IsNumber(node) ==> r.Lit?
  {
    match node
    case IntNode(i) => Lit(i as real)
    case Decimal(v, _) => Lit(v)
    case Boolean(b) => Lit(if b then 1.0 else 0.0)
    case TextNode(s) => Parsed(s)
    case _ => Lit(0.0)
  }

  /** The running total `sum += a` over `xs`, starting from 0.0. */
  function Sum(xs: seq<Num>): Num
  {
    if |xs| == 0 then Lit(0.0) else Add(Sum(xs[..|xs| - 1]), xs[|xs| - 1])
  }
}
