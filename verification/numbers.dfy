/** Real-valued helpers shared by the scoring pipeline. */
module Numbers {

  /** A value in the closed unit interval: a probability, a random draw or a sub-score. */
  type UnitInterval = r: real | 0.0 <= r <= 1.0

  function Abs(x: real): real {
    if x < 0.0 then -x else x
  }

  function Min(a: real, b: real): real {
    if a <= b then a else b
  }

  function Max(a: real, b: real): real {
    if a <= b then b else a
  }
}
