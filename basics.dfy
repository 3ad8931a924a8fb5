/** Value types shared by the whole model: an optional value (Java's nullable references),
    the identity of a simulation component, and a first-index search over a column of names. */
module Basics {

  /** `None` stands for Java's `null`. */
  datatype Option<T> = None | Some(value: T)

  /** A component of the simulation model (a segment, a contract, a risk-band table, ...).
      `id` stands for the object's identity; `name` and `normalizedName` are the two names
      the framework gives it. Origins, senders, line-of-business and contract markers of
      packets are components. */
  datatype Component = Component(id: nat, name: string, normalizedName: string)

  /** `Math.max` on doubles, for the values the model covers (no NaN, no signed zero). */
  function Max(a: real, b: real): real
  {
    if a >= b then a else b
  }

  /** `List.indexOf`: the first position of `x` in `xs`, or -1 when `x` is not there. */
  function IndexOf<T(==)>(xs: seq<T>, x: T): (i: int)
    ensures -1 <= i < |xs|
    ensures i == -1 <==> x !in xs
    ensures 0 <= i ==> xs[i] == x && x !in xs[..i]
  {
    if |xs| == 0 then -1
    else if xs[0] == x then 0
    else
      var j := IndexOf(xs[1..], x);
      if j == -1 then -1 else j + 1
  }
}
