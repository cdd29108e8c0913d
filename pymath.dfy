/** The parts of Python's `math` and `random` modules that the terrain code uses.
    sin, cos and sqrt are left uninterpreted: a MathLib value supplies them, and
    Lawful states the few range facts about them that the proofs rely on. */
module PyMath {

  /** math.pi, as the double it is. */
  const PI: real := 3.141592653589793

  /** math.sin, math.cos and math.sqrt, supplied from outside the model. */
  datatype MathLib = MathLib(sin: real -> real, cos: real -> real, sqrt: real -> real)

  /** Range facts: sin and cos lie in [-1, 1], cos 0 = 1, sqrt of a
      non-negative number is non-negative and sqrt 0 = 0. */
  ghost predicate Lawful(m: MathLib)
  {
    (forall t :: -1.0 <= m.sin(t) <= 1.0) &&
    (forall t :: -1.0 <= m.cos(t) <= 1.0) &&
    m.cos(0.0) == 1.0 &&
    (forall t :: 0.0 <= t ==> 0.0 <= m.sqrt(t)) &&
    m.sqrt(0.0) == 0.0
  }

  /** cos does not increase on the first quadrant [0, pi/2]. */
  ghost predicate CosFallsOnQuarter(m: MathLib)
  {
    forall a, b :: 0.0 <= a <= b <= PI / 2.0 ==> m.cos(b) <= m.cos(a)
  }

  /** Python's abs on floats. */
  function Abs(v: real): (r: real)
    ensures 0.0 <= r
    ensures r == v || r == -v
  {
    if v < 0.0 then -v else v
  }

  /** Python's min of two floats. */
  function Min(a: real, b: real): (r: real)
    ensures r <= a && r <= b
    ensures r == a || r == b
  {
    if b < a then b else a
  }

  /** d * f lies between 0 and d when f is a fraction. */
  lemma ScaleByFraction(d: real, f: real)
    requires 0.0 <= f <= 1.0
    ensures 0.0 <= d ==> 0.0 <= d * f <= d
    ensures d <= 0.0 ==> d <= d * f <= 0.0
  {
    if 0.0 <= d {
      assert d * f <= d * 1.0;
    } else {
      assert d * 1.0 <= d * f;
    }
  }

  /** random.uniform(a, b), which CPython computes as a + (b - a) * random();
      u stands for the value random() returned, in [0, 1]. */
  function Uniform(a: real, b: real, u: real): (r: real)
    ensures 0.0 <= u <= 1.0 && a <= b ==> a <= r <= b
    ensures u == 0.0 ==> r == a
  {
    if 0.0 <= u <= 1.0 then ScaleByFraction(b - a, u); a + (b - a) * u
    else a + (b - a) * u
  }
}
