/** Small shared vocabulary: an optional value, a random draw, and the two
    JavaScript number operations the game relies on (`Math.floor` of a
    scaled draw and the remainder operator `%` on non-integers). */
module Common {

  datatype Option<+T> = None | Some(value: T)

  /** One result of `Math.random()`: a real in [0, 1). */
  type Unit = r: real | 0.0 <= r < 1.0

  /** `Math.floor(r * n)` for a draw r: a uniformly chosen index into a
      table of n entries, always in range. */
  function PickIndex(r: Unit, n: nat): (i: nat)
    requires n > 0
    ensures i < n
  {
    var scaled := r * n as real;
    assert 0.0 <= scaled < n as real by {
      assert r * n as real <= 1.0 * n as real;
      assert r * n as real < n as real;
    }
    scaled.Floor
  }

  /** JavaScript's `a % 2000` on numbers: the remainder of the division
      truncated toward zero, so it takes the sign of `a`. */
  function Rem2000(a: real): (r: real)
    ensures a >= 0.0 ==> 0.0 <= r < 2000.0
    ensures a < 0.0 ==> -2000.0 < r <= 0.0
    ensures 0.0 <= a < 2000.0 ==> r == a
  {
    if a >= 0.0 then
      var k := (a / 2000.0).Floor;
      a - k as real * 2000.0
    else
      var k := (-a / 2000.0).Floor;
      a + k as real * 2000.0
  }

  function Max(a: int, b: int): (m: int)
    ensures m >= a && m >= b
    ensures m == a || m == b
  {
    if a >= b then a else b
  }
}
