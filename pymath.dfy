/**
 * Python's `math` module as far as the navigation code uses it.  The
 * transcendental functions are left uninterpreted: a `MathLib` value is any
 * choice of total functions, and `Lawful` states only the facts the code
 * relies on.  The checked wrappers below raise where Python raises
 * (`ValueError: math domain error`, `ZeroDivisionError`).
 */
module PyMath {
  import opened Outcomes

  /** `math.pi`, the double nearest to pi. */
  const PI: real := 3.141592653589793

  datatype MathLib = MathLib(
    sin: real -> real,
    cos: real -> real,
    tan: real -> real,
    asin: real -> real,
    acos: real -> real,
    atan: real -> real,
    atan2: (real, real) -> real,
    log: real -> real,
    sqrt: real -> real)

  ghost predicate Lawful(m: MathLib) {
    && (forall x :: -1.0 <= m.sin(x) <= 1.0)
    && (forall x :: -1.0 <= m.cos(x) <= 1.0)
    && m.cos(0.0) == 1.0
    && (forall x :: 0.0 <= x ==> 0.0 <= m.sqrt(x))
    && (forall x :: 0.0 <= x <= 1.0 ==> m.sqrt(x) <= 1.0)
    && m.sqrt(0.0) == 0.0
    && (forall x :: -PI / 2.0 < m.atan(x) < PI / 2.0)
    && (forall x :: 0.0 <= x ==> 0.0 <= m.atan(x))
    && (forall x :: x <= 0.0 ==> m.atan(x) <= 0.0)
    && (forall x :: -1.0 <= x <= 1.0 ==> 0.0 <= m.acos(x) <= PI)
    && (forall x :: -1.0 <= x <= 1.0 ==> -PI / 2.0 <= m.asin(x) <= PI / 2.0)
  }

  /** cos is even; only the symmetry of the range needs this. */
  ghost predicate EvenCosine(m: MathLib) {
    forall x :: m.cos(-x) == m.cos(x)
  }

  /** `math.sqrt`: raises on a negative argument. */
  function Sqrt(m: MathLib, x: real): (r: Outcome<real>)
    requires Lawful(m)
    ensures r.Ok? <==> 0.0 <= x
    ensures r.Ok? ==> 0.0 <= r.value
    ensures r.Ok? && x <= 1.0 ==> r.value <= 1.0
  {
    if x < 0.0 then Raise(MathDomainError) else Ok(m.sqrt(x))
  }

  /** `math.acos`: raises outside [-1, 1]. */
  function Acos(m: MathLib, x: real): (r: Outcome<real>)
    requires Lawful(m)
    ensures r.Ok? <==> -1.0 <= x <= 1.0
    ensures r.Ok? ==> 0.0 <= r.value <= PI
  {
    if x < -1.0 || 1.0 < x then Raise(MathDomainError) else Ok(m.acos(x))
  }

  /** `math.asin`: raises outside [-1, 1]. */
  function Asin(m: MathLib, x: real): (r: Outcome<real>)
    requires Lawful(m)
    ensures r.Ok? <==> -1.0 <= x <= 1.0
    ensures r.Ok? ==> -PI / 2.0 <= r.value <= PI / 2.0
  {
    if x < -1.0 || 1.0 < x then Raise(MathDomainError) else Ok(m.asin(x))
  }

  /** `math.log`: raises unless the argument is positive. */
  function Log(m: MathLib, x: real): (r: Outcome<real>)
    ensures r.Ok? <==> 0.0 < x
  {
    if x <= 0.0 then Raise(MathDomainError) else Ok(m.log(x))
  }

  /** Python's `/` on floats: raises on a zero divisor. */
  function Div(a: real, b: real): (r: Outcome<real>)
    ensures r.Ok? <==> b != 0.0
    ensures r.Ok? ==> r.value * b == a
  {
    if b == 0.0 then Raise(ZeroDivisionError) else Ok(a / b)
  }
}
