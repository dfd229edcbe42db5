/** The numeric text inputs of the calculator form, and how the component
    reads a number out of one of them. */
module Fields {

  datatype Option<T> = None | Some(value: T)

  /** The contents of a numeric text input, abstracted from its string: the
      empty string, text that JavaScript's `Number` reads as NaN, or text it
      reads as the number `r`. */
  datatype Field = Empty | Invalid | Num(r: real)

  /** JavaScript's `Number(text)`: the empty string reads as 0 and text that
      does not parse reads as NaN, written `None` here. */
  function ToNumber(f: Field): Option<real>
  {
    match f
    case Empty => Some(0.0)
    case Invalid => None
    case Num(x) => Some(x)
  }

  /** The guard `text && !isNaN(Number(text))` that every recompute rule
      applies to its inputs: the string is non-empty and parses. */
  function Ready(f: Field): (ready: bool)
    ensures ready <==> f.Num?
  {
    f != Empty && ToNumber(f).Some?
  }

  /** `Number(text) || 0`: the parsed number when it is truthy (neither 0 nor
      NaN), and 0 otherwise. */
  function NumberOrZero(f: Field): (x: real)
    ensures x == if f.Num? then f.r else 0.0
  {
    match ToNumber(f)
    case Some(n) => if n != 0.0 then n else 0.0
    case None => 0.0
  }
}
