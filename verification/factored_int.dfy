/** `factored_int`: an integer built as the product of its arguments that
    remembers those arguments as its factors. */
module FactoredInt {
  import opened Wrappers
  import opened PyValues

  /** Bounds of a C `long` on a 64-bit platform, the range of a Python 2 `int`. */
  const LongMin: int := -0x8000_0000_0000_0000
  const LongMax: int := 0x7fff_ffff_ffff_ffff

  /** An instance: its integer value and its `factors` attribute. */
  datatype FactoredInt = FactoredInt(value: int, factors: seq<int>)

  /** The left fold `(((1 * a0) * a1) * ...) * an`. */
  function Product(argv: seq<int>): int {
    if argv == [] then 1 else Product(argv[..|argv| - 1]) * argv[|argv| - 1]
  }

  /** The same product folded from the right, `a0 * (a1 * (... * (an * 1)))`. */
  function ProductRight(argv: seq<int>): int {
    if argv == [] then 1 else argv[0] * ProductRight(argv[1..])
  }

  /** The product of a concatenation is the product of the parts. */
  lemma {:induction false} ProductAppend(s: seq<int>, t: seq<int>)
    ensures Product(s + t) == Product(s) * Product(t)
    decreases |t|
  {
    if t == [] {
      assert s + t == s;
    } else {
      var t' := t[..|t| - 1];
      assert (s + t)[..|s + t| - 1] == s + t';
      ProductAppend(s, t');
      assert Product(s + t) == Product(s + t') * t[|t| - 1];
    }
  }

  /** Folding from the left and from the right agree: the value does not
      depend on the association order. */
  lemma {:induction false} ProductFoldsAgree(argv: seq<int>)
    ensures Product(argv) == ProductRight(argv)
    decreases |argv|
  {
    if argv != [] {
      ProductFoldsAgree(argv[1..]);
      ProductAppend([argv[0]], argv[1..]);
      assert [argv[0]] + argv[1..] == argv;
    }
  }

  /** The product is zero exactly when some argument is zero. */
  lemma {:induction false} ProductZero(argv: seq<int>)
    ensures Product(argv) == 0 <==> 0 in argv
    decreases |argv|
  {
    if argv != [] {
      var init := argv[..|argv| - 1];
      ProductZero(init);
      assert argv == init + [argv[|argv| - 1]];
    }
  }

  /** `factored_int.__new__` followed by `__init__`: multiply the arguments
      left to right starting from 1, convert to `int` (which raises
      OverflowError outside the range of a C long), and keep the arguments. */
  method New(argv: seq<int>) returns (r: Result<FactoredInt, Error>)
    ensures r.Success? <==> LongMin <= Product(argv) <= LongMax
    ensures r.Failure? ==> r.error == OverflowError
    ensures r.Success? ==> r.value.value == Product(argv)
    ensures r.Success? ==> r.value.factors == argv
  {
    var value := 1;
    var i := 0;
    while i < |argv|
      invariant 0 <= i <= |argv|
      invariant value == Product(argv[..i])
    {
      assert argv[..i + 1][..i] == argv[..i];
      value := value * argv[i];
      i := i + 1;
    }
    assert argv[..i] == argv;
    if value < LongMin || value > LongMax {
      return Failure(OverflowError);
    }
    return Success(FactoredInt(value, argv));
  }

  /** `doit()` is 1, `doit(3)` is 3 and `doit(2, 3, 5)` is 30. */
  lemma DemoValues()
    ensures Product([]) == 1
    ensures Product([3]) == 3
    ensures Product([2, 3, 5]) == 30
  {
    assert [2, 3, 5][..2] == [2, 3];
    assert [2, 3][..1] == [2];
    assert [2][..0] == [];
  }

  /** A single argument is its own value. */
  lemma SingleFactor(a: int)
    ensures Product([a]) == a
  {
    assert [a][..0] == [];
  }
}
