/** The few Mathf helpers the game's scripts call, over mathematical reals. */
module Mathf {

  function Abs(x: real): (r: real)
    ensures r >= 0.0 && (r == x || r == -x)
  {
    if x < 0.0 then -x else x
  }

  function Min(a: real, b: real): (r: real)
    ensures r <= a && r <= b && (r == a || r == b)
  {
    if a <= b then a else b
  }

  /** Mathf.Clamp tests the lower bound first, so with lo > hi it yields lo below lo and hi above hi. */
  function Clamp(x: real, lo: real, hi: real): (r: real)
    ensures lo <= hi ==> lo <= r <= hi
    ensures lo <= x <= hi ==> r == x
    ensures x < lo ==> r == lo
    ensures lo <= x && x > hi ==> r == hi
  {
    if x < lo then lo else if x > hi then hi else x
  }

  function Clamp01(x: real): (r: real)
    ensures 0.0 <= r <= 1.0
    ensures 0.0 <= x <= 1.0 ==> r == x
    ensures x >= 1.0 ==> r == 1.0
    ensures x <= 0.0 ==> r == 0.0
  {
    Clamp(x, 0.0, 1.0)
  }

  /** Mathf.Lerp: interpolation with the parameter clamped to [0, 1]. */
  function Lerp(a: real, b: real, t: real): (r: real)
    ensures t <= 0.0 ==> r == a
    ensures t >= 1.0 ==> r == b
    ensures 0.0 <= t <= 1.0 ==> r == a + (b - a) * t
    ensures b <= a ==> b <= r <= a
  {
    var c := Clamp01(t);
    assert b <= a ==> 0.0 <= (a - b) * c <= a - b by {
      if b <= a { ScaleBetween(a - b, c); }
    }
    a + (b - a) * c
  }

  lemma ScaleBetween(d: real, c: real)
    requires 0.0 <= d && 0.0 <= c <= 1.0
    ensures 0.0 <= d * c <= d
  {
  }
}
