/** How a nullable price takes part in a sum. */
module Prices {
  import opened Wrappers

  /** What a price adds to a sum: a missing (null) price adds nothing, as
      JavaScript's addition turns null into 0; any other price adds itself. */
  function NullAsZero(price: Option<int>): (r: int)
    ensures price.None? ==> r == 0
    ensures price.Some? ==> r == price.value
  {
    match price
    case None => 0
    case Some(n) => n
  }
}
