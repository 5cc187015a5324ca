/** Small helpers shared by every module: an optional value and JavaScript's integer arithmetic
    (Math.max, Math.min, Math.abs, Math.round) on exact numbers. */
module Common {

  datatype Option<T> = None | Some(value: T) {
    /** `x ?? d` in the source. */
    function GetOr(default: T): T {
      if Some? then value else default
    }
  }

  function Max(a: int, b: int): int { if a >= b then a else b }

  function Min(a: int, b: int): int { if a <= b then a else b }

  function Abs(x: int): int { if x >= 0 then x else -x }

  /** Math.round on an exact real: the nearest integer, halves rounding towards +infinity. */
  function Round(x: real): (r: int)
    ensures x - 0.5 < r as real <= x + 0.5
  {
    (x + 0.5).Floor
  }

  lemma RoundMonotone(x: real, y: real)
    requires x <= y
    ensures Round(x) <= Round(y)
  {
  }

  lemma RoundOfInt(n: int)
    ensures Round(n as real) == n
  {
  }
}
