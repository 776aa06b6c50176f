/**
 * Hand landmarks as the tracker hands them to the gesture tests, and the
 * conversion of normalised coordinates to pixels.
 */
module Landmarks {

  /** One tracked joint: `(id, x, y, z)`, with x and y normalised to the frame. */
  datatype Landmark = Landmark(id: int, x: real, y: real, z: real)

  /** The number of joints MediaPipe reports per hand. */
  const HandSize: nat := 21

  /** Python's `int()` applied to a float: truncation toward zero. */
  function Trunc(r: real): (n: int)
    ensures r >= 0.0 ==> 0 <= n && n as real <= r < n as real + 1.0
    ensures r < 0.0 ==> n <= 0 && r <= n as real < r + 1.0
  {
    if r >= 0.0 then r.Floor else -((-r).Floor)
  }

  lemma TruncMonotone(a: real, b: real)
    requires a <= b
    ensures Trunc(a) <= Trunc(b)
  {
  }

  lemma TruncOfInt(n: int)
    ensures Trunc(n as real) == n
  {
  }

  /** `int(lm.x * w)`: the pixel column of a landmark in a frame `w` pixels wide. */
  function PixelX(l: Landmark, w: int): int
  {
    Trunc(l.x * w as real)
  }

  /** `int(lm.y * h)`: the pixel row of a landmark in a frame `h` pixels high. */
  function PixelY(l: Landmark, h: int): int
  {
    Trunc(l.y * h as real)
  }

  /** `n ** 2` on integers; zero only at zero. */
  function Square(n: int): (r: nat)
    ensures r == 0 <==> n == 0
  {
    if n >= 0 then n * n else (-n) * (-n)
  }
}
