/** Optional values and the exact counterparts of Python's numeric conversions. */
module Numbers {

  datatype Option<+T> = None | Some(value: T)

  function Max(a: int, b: int): int {
    if a < b then b else a
  }

  function Min(a: int, b: int): int {
    if a < b then a else b
  }

  function Abs(x: real): real {
    if x < 0.0 then -x else x
  }

  /** `int(x // y)`: the quotient rounded towards minus infinity. */
  function FloorDiv(x: real, y: real): (q: int)
    requires y > 0.0
    ensures q as real * y <= x < (q + 1) as real * y
  {
    FloorBounds(x, y, x / y, (x / y).Floor);
    (x / y).Floor
  }

  lemma {:induction false} FloorBounds(x: real, y: real, z: real, q: int)
    requires y > 0.0 && z == x / y && q == z.Floor
    ensures q as real * y <= x < (q + 1) as real * y
  {
    DivideMultiply(x, y);
    assert z * y == x;
    ScaleLess(z, (q + 1) as real, y);
    ScaleLess(q as real, z, y);
    assert x < (q + 1) as real * y;
  }

  lemma {:induction false} DivideMultiply(x: real, y: real)
    requires y != 0.0
    ensures (x / y) * y == x
  {
  }

  lemma {:induction false} ScaleLess(a: real, b: real, y: real)
    requires y > 0.0
    ensures a <= b ==> a * y <= b * y
    ensures a < b ==> a * y < b * y
  {
  }

  /** `int(x)`: rounds towards zero. */
  function Truncate(x: real): (n: int)
    ensures 0.0 <= x ==> n as real <= x < n as real + 1.0
    ensures x < 0.0 ==> n as real - 1.0 < x <= n as real
  {
    if 0.0 <= x then x.Floor else -((-x).Floor)
  }

  /** `round(x, k)` with `scale` ten to the power k: nearest multiple of 1/scale, ties to the even one. */
  function RoundTo(x: real, scale: real): (r: real)
    requires scale > 0.0
    ensures Abs(r - x) * scale <= 0.5
  {
    var n := NearestEven(x * scale);
    assert (n as real / scale - x) * scale == n as real - x * scale;
    n as real / scale
  }

  /** The rounded number is a multiple of 1/scale, the nearest one, and the even one of two equally near. */
  lemma {:induction false} RoundsToTick(x: real, scale: real) returns (n: int)
    requires scale > 0.0
    ensures RoundTo(x, scale) == n as real / scale
    ensures Abs(n as real - x * scale) <= 0.5
    ensures Abs(n as real - x * scale) == 0.5 ==> n % 2 == 0
  {
    n := NearestEven(x * scale);
  }

  function NearestEven(y: real): (n: int)
    ensures Abs(n as real - y) <= 0.5
    ensures Abs(n as real - y) == 0.5 ==> n % 2 == 0
  {
    var below := y.Floor;
    var fraction := y - below as real;
    if fraction < 0.5 || (fraction == 0.5 && below % 2 == 0) then below else below + 1
  }
}
