/**
 * The float operations of the legacy validation path (`models/tax.py`,
 * `models/receipt.py`, `services/document_processor.py`), on reals: the
 * built-in `round(x, 2)` and the truthiness of an optional float.
 */
module PyFloat {
  import opened Wrappers
  import opened BaseRule

  /** `round(x, 2)`: to the nearest hundredth, ties to the even neighbour. */
  function Round2(x: real): (r: real)
    ensures x - 0.005 <= r <= x + 0.005
  {
    RoundHalfEven(x * 100.0) as real / 100.0
  }

  /** A value that already is a whole number of hundredths is kept. */
  lemma Round2Exact(n: int)
    ensures Round2(n as real / 100.0) == n as real / 100.0
  {
    var x := n as real / 100.0;
    assert x * 100.0 == n as real;
    var k := RoundHalfEven(x * 100.0);
    assert k == n;
  }

  /** `bool(x)` for an optional float: present and not zero. */
  predicate Truthy(x: Option<real>) {
    x.Some? && x.value != 0.0
  }

  /** `x or d` for an optional float. */
  function OrElse(x: Option<real>, d: real): (r: real)
    ensures Truthy(x) ==> r == x.value
    ensures !Truthy(x) ==> r == d
  {
    if Truthy(x) then x.value else d
  }
}
