/** Small shared vocabulary for the controller mini-game model. */
module Common {

  /** A value that may be absent, like a JavaScript variable holding `null`. */
  datatype Option<+T> = None | Some(value: T)

  /** `Math.max` on two integers. */
  function Max(a: int, b: int): (m: int)
    ensures m >= a && m >= b
    ensures m == a || m == b
  {
    if a >= b then a else b
  }
}
