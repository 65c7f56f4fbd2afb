/** A property synthesised from a nested namespace class, and the
    `Rectangle` whose `area` property is built that way. */
module PropertyDecorator {
  import opened Wrappers
  import opened PyValues
  import ClassData

  /** The four slots a `property` is constructed from. */
  datatype Property = Property(fget: Value, fset: Value, fdel: Value, doc: Value)

  /** `d.get(key)`: the entry, or None when the key is absent. */
  function DictGet(d: map<string, Value>, key: string): Value {
    if key in d then d[key] else NoneVal
  }

  /** `property_from_class`: the accessors under the keys `fget`, `fset`,
      `fdel` and the docstring under `__doc__` of the class's own dict. */
  function PropertyFromClass(cls: ClassData.Class): (p: Property)
    ensures "fget" in cls.own ==> p.fget == cls.own["fget"]
    ensures "fset" in cls.own ==> p.fset == cls.own["fset"]
    ensures "fdel" in cls.own ==> p.fdel == cls.own["fdel"]
    ensures "__doc__" in cls.own ==> p.doc == cls.own["__doc__"]
    ensures "fget" !in cls.own ==> p.fget == NoneVal
    ensures "fset" !in cls.own ==> p.fset == NoneVal
    ensures "fdel" !in cls.own ==> p.fdel == NoneVal
    ensures "__doc__" !in cls.own ==> p.doc == NoneVal
  {
    var classDict := cls.own;
    Property(
      fget := DictGet(classDict, "fget"),
      fset := DictGet(classDict, "fset"),
      fdel := DictGet(classDict, "fdel"),
      doc := DictGet(classDict, "__doc__"))
  }

  /** The keys the selection reads. */
  const PropertyKeys: set<string> := {"fget", "fset", "fdel", "__doc__"}

  /** Only the four selected keys of the own dict matter: two classes whose
      dicts agree on them give the same property, whatever else they hold
      (so a deleter stored under any other name is never picked up). */
  lemma PropertyFromClassReadsOnlyItsKeys(c1: ClassData.Class, c2: ClassData.Class)
    requires forall k :: k in PropertyKeys ==> DictGet(c1.own, k) == DictGet(c2.own, k)
    ensures PropertyFromClass(c1) == PropertyFromClass(c2)
  {
    assert "fget" in PropertyKeys && "fset" in PropertyKeys;
    assert "fdel" in PropertyKeys && "__doc__" in PropertyKeys;
  }

  /** Conversely, a difference under one of the four keys shows in the property. */
  lemma PropertyFromClassSeesItsKeys(c1: ClassData.Class, c2: ClassData.Class)
    requires PropertyFromClass(c1) == PropertyFromClass(c2)
    ensures forall k :: k in PropertyKeys ==> DictGet(c1.own, k) == DictGet(c2.own, k)
  {
  }

  /** The docstring of the nested `area` class. */
  const AreaDoc: string := "This is to be the doc string for the property."

  /** The nested class `area` as its `class` statement builds it: the
      compiler puts `__module__` and `__doc__` in the body next to the three
      functions, and `type` does the rest. */
  function AreaClass(rt: ClassData.Runtime): ClassData.Class {
    ClassData.NewType(ClassData.TypeClass, "area", [ClassData.ObjectClass], AreaBody(rt), rt)
  }

  /** The namespace the `class area` statement hands to `type`. */
  function AreaBody(rt: ClassData.Runtime): map<string, Value> {
    map[
      "__module__" := StrVal(rt.callerModule),
      "__doc__" := StrVal(AreaDoc),
      "fget" := FuncVal("fget"),
      "fset" := FuncVal("fset"),
      "xxfdel" := FuncVal("xxfdel")]
  }

  /** `Rectangle.area`: the getter and setter come from the nested class,
      the docstring is the nested class's, and there is no deleter because
      the deleting function is stored as `xxfdel`. */
  lemma AreaProperty(rt: ClassData.Runtime)
    ensures PropertyFromClass(AreaClass(rt)) ==
      Property(FuncVal("fget"), FuncVal("fset"), NoneVal, StrVal(AreaDoc))
  {
    var body := AreaBody(rt);
    var c := AreaClass(rt);
    assert "fget" in body && "fset" in body && "__doc__" in body && "fdel" !in body;
    assert body["fget"] == FuncVal("fget") && body["fset"] == FuncVal("fset");
    assert body["__doc__"] == StrVal(AreaDoc);
    assert "fdel" !in ClassData.SpecialKeys;
    assert "fdel" !in c.own;
  }

  /** An instance of `Rectangle`; `Rectangle(x, y)` stores both unchanged. */
  datatype Rectangle = Rectangle(x: int, y: int)

  /** `area.fget`: the area of the rectangle. */
  function GetArea(r: Rectangle): (a: int)
    ensures a == 0 <==> r.x == 0 || r.y == 0
  {
    r.x * r.y
  }

  /** `area.fset`: `y` becomes `area / x` under Python 2 integer division
      (rounded towards minus infinity); `x` is untouched; a zero `x` raises
      ZeroDivisionError. */
  function SetArea(r: Rectangle, area: int): (res: Result<Rectangle, Error>)
    ensures res.Failure? <==> r.x == 0
    ensures res.Failure? ==> res.error == ZeroDivisionError
    ensures res.Success? ==> res.value.x == r.x
    ensures res.Success? && r.x > 0 ==> r.x * res.value.y <= area < r.x * res.value.y + r.x
    ensures res.Success? && r.x < 0 ==> r.x * res.value.y + r.x < area <= r.x * res.value.y
  {
    if r.x == 0 then Failure(ZeroDivisionError)
    else Success(Rectangle(r.x, FloorDiv(area, r.x)))
  }

  /** `xxfdel`: both sides set to zero. It is never reachable through the
      property, which has no deleter. */
  function XxFdel(r: Rectangle): (r': Rectangle)
    ensures r'.x == 0 && r'.y == 0
    ensures GetArea(r') == 0
    ensures SetArea(r', 0).Failure?
  {
    Rectangle(0, 0)
  }

  /** Setting the area to its current value changes nothing. */
  lemma GetThenSet(r: Rectangle)
    requires r.x != 0
    ensures SetArea(r, GetArea(r)) == Success(r)
  {
    FloorDivUnique(r.x * r.y, r.x, r.y);
  }

  /** After setting the area, reading it back gives the requested area
      rounded down to a multiple of `x` (towards minus infinity in the
      quotient), and exactly the requested area iff `x` divides it. */
  lemma SetThenGet(r: Rectangle, area: int)
    requires r.x != 0
    ensures var a := GetArea(SetArea(r, area).value);
      && (r.x > 0 ==> a <= area < a + r.x)
      && (r.x < 0 ==> a + r.x < area <= a)
      && (a == area <==> area % r.x == 0)
  {
    var q := FloorDiv(area, r.x);
    var a := r.x * q;
    assert GetArea(SetArea(r, area).value) == a;
    if area % r.x == 0 {
      var k := area / r.x;
      assert area == r.x * k;
      FloorDivUnique(area, r.x, k);
    }
    if a == area {
      ModOfMultiple(r.x, q);
    }
  }

  /** `x * q` is divisible by `x`. */
  lemma ModOfMultiple(x: int, q: int)
    requires x != 0
    ensures (x * q) % x == 0
  {
    var k := (x * q) / x;
    var m := (x * q) % x;
    assert x * q == x * k + m;
    assert 0 <= m < if x > 0 then x else -x;
    assert m == x * (q - k);
    if m != 0 {
      if q - k > 0 {
        MulMonotone(x, 1, q - k);
      } else {
        MulMonotone(x, q - k, -1);
      }
    }
  }

  /** Setting the same area twice is the same as setting it once. */
  lemma SetAreaIdempotent(r: Rectangle, area: int)
    requires r.x != 0
    ensures SetArea(SetArea(r, area).value, area) == SetArea(r, area)
  {
  }
}
