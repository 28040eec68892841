/** Integer minimum, maximum and absolute value, as Python's `min`, `max` and `abs` on two ints. */
module Util {

  function Min(a: int, b: int): int { if b < a then b else a }

  function Max(a: int, b: int): int { if b > a then b else a }

  function Abs(a: int): int { if a < 0 then -a else a }
}
