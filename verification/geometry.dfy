/** Points and displacement vectors of the screen plane, and products of scale factors, over exact reals. */
module Geometry {

  datatype Point = Point(x: real, y: real)

  const Zero := Point(0.0, 0.0)

  function Add(p: Point, q: Point): Point {
    Point(p.x + q.x, p.y + q.y)
  }

  function Sub(p: Point, q: Point): Point {
    Point(p.x - q.x, p.y - q.y)
  }

  /** Multiplies a vector by a scalar. */
  function Times(k: real, p: Point): Point {
    Point(k * p.x, k * p.y)
  }

  /** Scaling twice is scaling once by the product of the factors. */
  lemma TimesTimes(a: real, b: real, p: Point)
    ensures Times(a, Times(b, p)) == Times(a * b, p)
  {
  }

  /** The product of a sequence of factors. */
  function Product(fs: seq<real>): real
    decreases |fs|
  {
    if |fs| == 0 then 1.0 else fs[0] * Product(fs[1..])
  }

  /** `s` multiplied by each factor of `fs` in turn. */
  function ScaleThrough(s: real, fs: seq<real>): real
    decreases |fs|
  {
    if |fs| == 0 then s else ScaleThrough(s * fs[0], fs[1..])
  }

  /** Scaling `s` by `f` and then by `g` is scaling it once by `f * g`. */
  lemma MultiplyThrough(s: real, f: real, g: real, s1: real, s2: real)
    requires s1 == s * f && s2 == g * s1
    ensures s2 == (f * g) * s
  {
  }

  /** Multiplying by each factor in turn is multiplying by their product. */
  lemma {:induction false} ScaleThroughProduct(s: real, fs: seq<real>)
    ensures ScaleThrough(s, fs) == Product(fs) * s
    decreases |fs|
  {
    if |fs| > 0 {
      ScaleThroughProduct(s * fs[0], fs[1..]);
      MultiplyThrough(s, fs[0], Product(fs[1..]), s * fs[0], ScaleThrough(s * fs[0], fs[1..]));
    }
  }
}
