/** The two numeric helpers of lodash that the application relies on. */
module Lodash {

  /** `clamp(x, lo, hi)`: first bounded above by `hi`, then below by `lo`, so `lo` wins when
      the bounds cross (as they do for an empty list, where `hi` is -1). */
  function Clamp(x: int, lo: int, hi: int): (r: int)
    ensures r >= lo
    ensures lo <= hi ==> r <= hi
    ensures lo <= x <= hi ==> r == x
    ensures x < lo ==> r == lo
    ensures lo <= hi < x ==> r == hi
    ensures hi < lo ==> r == lo
  {
    var upper := if x <= hi then x else hi;
    if upper >= lo then upper else lo
  }

  /** `inRange(n, start, end)` for `start <= end`: the half-open interval. */
  predicate InRange(n: int, start: int, end: int)
    requires start <= end
  {
    start <= n < end
  }
}
