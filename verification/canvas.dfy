/**
  Canvas sizing: the square output resolution derived from the fixed
  orthographic scale and pixel density, rounded up to a power of two and
  clamped between the configured minimum and maximum.
*/
module Canvas {

  /** n is 1, 2, 4, 8, ... */
  predicate IsPow2(n: int)
    decreases if n > 0 then n else 0
  {
    n == 1 || (n > 1 && n % 2 == 0 && IsPow2(n / 2))
  }

  /**
    2 ** ceil(log2(n)): the power of two that is at least n and less than
    twice n (so halving it would fall below n).
  */
  function NextPow2(n: int): (r: int)
    requires n >= 1
    ensures IsPow2(r)
    ensures n <= r < 2 * n
    decreases n
  {
    if n == 1 then 1
    else
      2 * NextPow2((n + 1) / 2)
  }

  /** Between two powers of two there is a factor of two at least. */
  lemma {:induction false} Pow2Gap(a: int, b: int)
    requires IsPow2(a) && IsPow2(b) && a < b
    ensures 2 * a <= b
    decreases b
  {
    if a != 1 {
      Pow2Gap(a / 2, b / 2);
    }
  }

  /** NextPow2(n) is the least power of two not below n. */
  lemma NextPow2Least(n: int, p: int)
    requires n >= 1 && IsPow2(p) && p >= n
    ensures NextPow2(n) <= p
  {
    var r := NextPow2(n);
    if p < r {
      Pow2Gap(p, r);
    }
  }

  /** max(lo, min(size, hi)), Python's clamp idiom. */
  function Clamp(size: int, lo: int, hi: int): int {
    var capped := if hi < size then hi else size;
    if capped < lo then lo else capped
  }

  /**
    The canvas size for `required` pixels: the next power of two, clamped to
    [minCanvas, maxCanvas]: the maximum when the power of two exceeds it, and
    the minimum whenever the bounds are inverted.
  */
  function CanvasSize(required: int, minCanvas: int, maxCanvas: int): (r: int)
    requires required >= 1
    ensures r >= minCanvas
    ensures minCanvas <= maxCanvas ==> r <= maxCanvas
    ensures IsPow2(minCanvas) && IsPow2(maxCanvas) ==> IsPow2(r)
    ensures minCanvas <= maxCanvas < NextPow2(required) ==> r == maxCanvas
    ensures maxCanvas < minCanvas ==> r == minCanvas
  {
    Clamp(NextPow2(required), minCanvas, maxCanvas)
  }

  /**
    With power-of-two bounds, the canvas is never larger than any power of two
    that covers both the required pixels and the minimum: it is the least such
    power of two unless the maximum caps it.
  */
  lemma {:induction false} CanvasSizeLeast(required: int, minCanvas: int, maxCanvas: int, p: int)
    requires required >= 1 && minCanvas <= maxCanvas
    requires IsPow2(p) && p >= required && p >= minCanvas
    ensures CanvasSize(required, minCanvas, maxCanvas) <= p
    ensures NextPow2(required) <= maxCanvas ==>
      CanvasSize(required, minCanvas, maxCanvas) == (if NextPow2(required) < minCanvas then minCanvas else NextPow2(required))
  {
    NextPow2Least(required, p);
  }

  /** The defaults (256, 1024): 1024 required pixels give 1024, 100 give 256. */
  lemma DefaultCanvasExamples()
    ensures CanvasSize(1024, 256, 1024) == 1024
    ensures CanvasSize(100, 256, 1024) == 256
  {
    assert 1024 <= NextPow2(1024);
    assert NextPow2(100) < 200;
  }

  /** Python's int() on a float: truncation toward zero. */
  function TruncToInt(x: real): (r: int)
    ensures 0.0 <= x ==> r as real <= x < r as real + 1.0
    ensures x < 0.0 ==> r as real - 1.0 < x <= r as real
  {
    if x >= 0.0 then x.Floor else -((-x).Floor)
  }
}
