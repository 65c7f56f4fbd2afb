/** The slice of Python 2 runtime values and exceptions the three snippets touch. */
module PyValues {

  /** A Python object as far as the snippets can observe it. Function objects,
      descriptors and other opaque objects are identified abstractly. */
  datatype Value =
    | NoneVal
    | IntVal(i: int)
    | StrVal(s: string)
    | TupleVal(items: seq<Value>)
    | FuncVal(name: string)
    | ObjVal(id: nat)

  /** The exceptions the modelled code can raise. */
  datatype Error =
    | KeyError(key: string)
    | TypeError
    | ZeroDivisionError
    | OverflowError

  /** Python 2 `a / b` on integers: the quotient rounded towards minus
      infinity (Dafny's own `/` is Euclidean and differs when `b < 0`). */
  function FloorDiv(a: int, b: int): (q: int)
    requires b != 0
    ensures b > 0 ==> b * q <= a < b * q + b
    ensures b < 0 ==> b * q + b < a <= b * q
  {
    if b > 0 then a / b else (-a) / (-b)
  }

  /** The bounds of `FloorDiv`'s contract pin the quotient down: any `q`
      satisfying them is the floor quotient. */
  lemma FloorDivUnique(a: int, b: int, q: int)
    requires b != 0
    requires b > 0 ==> b * q <= a < b * q + b
    requires b < 0 ==> b * q + b < a <= b * q
    ensures q == FloorDiv(a, b)
  {
    var f := FloorDiv(a, b);
    if q < f {
      MulMonotone(b, q + 1, f);
    } else if q > f {
      MulMonotone(b, f + 1, q);
    }
  }

  /** Multiplying by a positive number keeps `<=`, by a negative one flips it. */
  lemma MulMonotone(b: int, lo: int, hi: int)
    requires lo <= hi
    ensures b > 0 ==> b * lo <= b * hi
    ensures b < 0 ==> b * lo >= b * hi
  {
    var d := hi - lo;
    assert b * hi == b * lo + b * d;
    if b > 0 {
      assert b * d >= 0;
    } else if b < 0 {
      assert b * d <= 0;
    }
  }
}
