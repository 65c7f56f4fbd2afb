# Class reflection snippets, modelled in Dafny

This project models three small Python 2 snippets that show reflection idioms:

- **Class data** (`tutorial_classtools/class_data.py`). `class_data_from_class` turns a class into the tuple `(metaclass, bases, body, about)`. `class_from_class_data` rebuilds a class from that tuple.
- **`property_from_class`** (`property_decorator.py`). It builds a property from a nested namespace class. `Rectangle.area` is the example.
- **`factored_int`** (`factored_int.py`). An `int` subclass whose value is the product of its arguments and which keeps those arguments as `factors`.

Files:

- `wrappers.dfy`: `Option` and `Result`.
- `py_values.dfy`: the Python values and exceptions the snippets touch, and Python 2 integer floor division.
- `class_data.dfy`: the class-data codec.
- `property_decorator.dfy`: the property and `Rectangle`.
- `factored_int.dfy`: `factored_int`.

How classes are modelled. A class is a record with four parts:

- its metaclass;
- its `__bases__`;
- its own `__dict__`;
- an abstract attribute lookup standing for `getattr`.

`getattr(cls, k, None)` is `ClassData.GetAttr`. The metaclass call `metaclass(name, bases, body)` is `ClassData.NewType`. Its contract states what CPython 2's `type` does:

- every body entry is kept unchanged;
- the only entries it adds are reserved ones: `__module__` (from the caller's module), `__doc__` set to None, and the `__dict__` / `__weakref__` descriptors;
- an empty bases tuple becomes `(object,)`.

The interpreter state the call cannot see is a `Runtime` parameter: the caller's module name and which descriptors are added. Exceptions are modelled as `Failure` values of type `Result`:

- `KeyError` and `TypeError` (a non-string name) in the decoder;
- `ZeroDivisionError` in the area setter;
- `OverflowError` in `int.__new__`.

`Rectangle.__init__` is the `Rectangle(x, y)` datatype constructor: it stores both values unchanged. Reading `area` is the pure function `PropertyDecorator.GetArea`, so reading changes nothing.

Three facts about the code shape the model:

- Line 58 of `tutorial_classtools/class_data.py` calls the metaclass with the bare `body`. The docstring and slots collected in `body_extras` are never passed on (see Findings).
- Line 59's `about['module']` raises `KeyError` when `about` has no module.
- `type()` turns empty bases into `(object,)`, so the demonstration class `type('aaa', (), ...)` encodes with the bases `(object,)`.

## Model

| member | source | states |
|---|---|---|
| ClassData.DunderOfAboutKeys | tutorial_classtools/class_data.py:38 | `'__%s__' % key` maps each descriptive key to its reserved attribute name |
| ClassData.Encode | tutorial_classtools/class_data.py:24-43 | metaclass and bases are copied unchanged. The body's keys are exactly the own-dict keys outside the six reserved names, with the same values. `about` has only descriptive keys and never a None value. A key is present iff its `__key__` attribute is not None. |
| ClassData.EncodedBodyHasNoSpecialKey | tutorial_classtools/class_data.py:6-13 | none of `__dict__`, `__doc__`, `__metaclass__`, `__module__`, `__slots__`, `__weakref__` appears in an encoded body |
| ClassData.AboutDependsOnProbes | tutorial_classtools/class_data.py:36-41 | `about` is determined by the four probed attributes alone |
| ClassData.AboutOfNamedClass | tutorial_classtools/class_data.py:36-41 | a class with a name and a module but no docstring or slots has `about == {name, module}` |
| ClassData.TypeDefaults | tutorial_classtools/class_data.py:58 | the entries the metaclass call adds are reserved names absent from the body. They include `__doc__ = None` and the caller's `__module__`, and never `__slots__`. |
| ClassData.NewType | tutorial_classtools/class_data.py:58 | the new class has the given metaclass and name. It keeps every body entry and gains only reserved ones. Its docstring defaults to None. Empty bases become `(object,)`. |
| ClassData.SetModule | tutorial_classtools/class_data.py:59 | assigning `__module__` rebinds that own-dict entry and its lookup, and changes nothing else |
| ClassData.BodyExtras | tutorial_classtools/class_data.py:49-55 | `body_extras` holds `__doc__` / `__slots__` iff `about` has a non-None doc / slots, with the same value |
| ClassData.Rebuild | tutorial_classtools/class_data.py:57-59 | `KeyError('name')` without a name. `TypeError` for a non-string name. `KeyError('module')` without a module. Otherwise the metaclass-built class with its module assigned. |
| ClassData.Decode | tutorial_classtools/class_data.py:46-61 | as written: succeeds iff `about` has a string name and a module. The result has that name, module and metaclass. Without `__doc__`/`__slots__` in the body, its docstring and slots are None, whatever `about` says. |
| ClassData.DecodeWithExtras | tutorial_classtools/class_data.py:46-61 | corrected: same failures. The rebuilt class also carries `about`'s docstring and slots. |
| ClassData.EncodedBodyOfOwn | tutorial_classtools/class_data.py:29-33 | the encoded body depends only on the own-dict entries outside the reserved names |
| ClassData.RebuiltBody | tutorial_classtools/class_data.py:29-33 | re-encoding a rebuilt class gives back exactly the body it was built from |
| ClassData.RebuiltProbes | tutorial_classtools/class_data.py:57-59 | a rebuilt class's name and module are the decoder's. Its docstring and slots are whatever reached the metaclass call, else None. |
| ClassData.RoundTripWithoutDocOrSlots | tutorial_classtools/class_data.py:64-74 | for a class with a string name, a module, no docstring, no slots and non-empty bases (every new-style class but `object`), encode-decode-encode gives the first encoding back |
| ClassData.RoundTripWithExtras | tutorial_classtools/class_data.py:46-61 | with the corrected decoder the fixed point holds for every class with a string name, a module and non-empty bases (every new-style class but `object`) |
| ClassData.DemoRoundTrip | tutorial_classtools/class_data.py:64-74 | `type('aaa', (), dict(a=3))` in module `'anon'` encodes to `(type, (object,), {'a': 3}, {'name': 'aaa', 'module': 'anon'})` and survives the round trip |
| ClassData.DocstringLostByDecode | tutorial_classtools/class_data.py:49-58 | for the demo class with docstring `'hello'`, the decoder as written drops the docstring, so the round trip fails. The corrected decoder keeps it. |
| PyValues.FloorDiv | property_decorator.py:31 | Python 2 `int / int`: the quotient `q` with `b*q <= a < b*q + b` for positive `b`, and the mirror bounds for negative `b` |
| PyValues.FloorDivUnique | property_decorator.py:31 | those bounds determine the quotient uniquely |
| PropertyDecorator.PropertyFromClass | property_decorator.py:1-12 | `fget`, `fset`, `fdel` come from exactly those own-dict keys and `doc` from `__doc__`. Each absent key gives None. |
| PropertyDecorator.PropertyFromClassReadsOnlyItsKeys | property_decorator.py:4-10 | own dicts that agree on the four keys give equal properties, whatever else they hold |
| PropertyDecorator.PropertyFromClassSeesItsKeys | property_decorator.py:4-10 | equal properties imply agreement on the four keys (the converse) |
| PropertyDecorator.AreaProperty | property_decorator.py:23-34 | `area` gets the nested class's `fget`, `fset` and docstring. Its `fdel` is None because the deleter is stored as `xxfdel`. |
| PropertyDecorator.GetArea | property_decorator.py:27-28 | the area is zero exactly when a side is zero. Its relation to the setter is stated by `GetThenSet` and `SetThenGet`. |
| PropertyDecorator.SetArea | property_decorator.py:30-31 | `x` is unchanged. `y` is the floor quotient of the area by `x`. `ZeroDivisionError` iff `x == 0`. |
| PropertyDecorator.XxFdel | property_decorator.py:33-34 | `xxfdel` sets both `x` and `y` to 0; afterwards the area is 0 and setting the area raises |
| PropertyDecorator.GetThenSet | property_decorator.py:27-31 | setting the area to the value just read leaves the rectangle as it was |
| PropertyDecorator.SetThenGet | property_decorator.py:27-31 | after setting area `a`, the area read back lies within one `x` of `a` on the floor side. It equals `a` iff `x` divides `a`. |
| PropertyDecorator.SetAreaIdempotent | property_decorator.py:30-31 | setting the same area twice equals setting it once |
| FactoredInt.New | factored_int.py:3-13 | the loop's value is the left-to-right product of the arguments from 1. The instance exists iff that product fits a C long, else `OverflowError`. `factors` is the argument sequence unchanged. |
| FactoredInt.ProductAppend | factored_int.py:5-7 | the product of a concatenation is the product of the parts |
| FactoredInt.ProductFoldsAgree | factored_int.py:5-7 | the left fold equals the right fold of the arguments |
| FactoredInt.ProductZero | factored_int.py:5-7 | the value is 0 iff some argument is 0 |
| FactoredInt.SingleFactor | factored_int.py:5-7 | a single argument is its own value |
| FactoredInt.DemoValues | factored_int.py:17-22 | `doit()` is 1, `doit(3)` is 3 and `doit(2, 3, 5)` is 30 |

## Left out

- Attribute lookup through the bases (the MRO) is not modelled. A class built by `NewType` answers only its own dict and its `__name__`, so an inherited `__slots__` is not modelled. An encoded class's lookup stays abstract.
- Several parts of CPython's `type()` are not modelled:
  - choosing the most derived metaclass among the bases;
  - wrapping a plain `__new__` function as a static method;
  - validating `__slots__` and creating a member descriptor for each slot name;
  - deciding whether a class gets `__dict__` / `__weakref__` descriptors, which is taken from the `Runtime` parameter.
- Custom metaclass behaviour is not modelled: `NewType` gives every metaclass exactly `type`'s behaviour. A metaclass whose own `__new__` adds entries outside the reserved names (such as the `_abc_*` caches of `ABCMeta`) would change the re-encoded body, so the round-trip lemmas cover only metaclasses that behave like `type`. Old-style classes (metaclass `types.ClassType`) are not modelled either: their `__bases__` may be `()`, which `classobj` keeps, whereas `NewType` turns empty bases into `(object,)` for every metaclass.
- ClassData.Rebuild / ClassData.Decode / ClassData.DecodeWithExtras: the checks `type()` makes on the bases are not modelled: a duplicate base, an inconsistent MRO and an instance-layout conflict each raise `TypeError` in CPython. The stated success condition (a string name and a module) is therefore exact only for bases that some real class has.
- ClassData.DecodeWithExtras: re-inserting `__slots__` into the body is modelled as a plain dict entry. For a class with non-empty slots, CPython's `type()` would also process the slot names, and they clash with the member descriptors already in the body. The corrected round trip therefore covers docstrings fully and slots only as far as this model of `type()` goes.
- Object identity of rebuilt classes is not modelled; classes are compared by their encoding.
- The descriptor protocol behind `property` is not modelled. Attribute access on `w.area`, and the `AttributeError` raised when deleting an attribute that has no deleter, are left out. Only the four-slot selection is modelled.
- Float arguments are not modelled: `area / self.x` is modelled only for integers, and `factored_int` only for integer arguments.
- FactoredInt.New: assumes a 64-bit C `long`, as on 64-bit Linux and macOS; on a platform with a 32-bit `long` the `OverflowError` bound is narrower.
- All `print` output and the script entry points are demonstration output only and are not modelled.

## Findings

| source | as written | input that shows it | evidently intended | confidence | as-written member | corrected member |
|---|---|---|---|---|---|---|
| tutorial_classtools/class_data.py:49-58 | `body_extras` (docstring and slots from `about`) is built, but the metaclass is called with the bare `body` | `type('aaa', (), {'a': 3, '__doc__': 'hello'})` in module `'anon'`: the encoding has `about['doc'] == 'hello'`, but the rebuilt class's docstring is None, so its encoding differs | call the metaclass with `body` plus `body_extras`, so the docstring and slots survive the round trip | high; not executed | ClassData.DocstringLostByDecode | ClassData.RoundTripWithExtras |
