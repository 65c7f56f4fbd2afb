/** Converting a class to class data (metaclass, bases, body, about) and back.

    A class is modelled as a record: its metaclass, its `__bases__`, its own
    `__dict__`, and its attribute lookup (`getattr`), which is kept abstract
    because it may consult the metaclass and the bases. */
module ClassData {
  import opened Wrappers
  import opened PyValues

  /** Identity of a class object (a metaclass or a base). */
  type ClassId = nat

  const ObjectClass: ClassId := 0
  const TypeClass: ClassId := 1

  datatype Class = Class(
    metaclass: ClassId,
    bases: seq<ClassId>,
    own: map<string, Value>,
    lookup: string -> Option<Value>)

  /** The class data tuple `(metaclass, bases, body, about)`. */
  datatype ClassData = ClassData(
    metaclass: ClassId,
    bases: seq<ClassId>,
    body: map<string, Value>,
    about: map<string, Value>)

  /** Own-dict entries that are derived or reserved, never copied into `body`. */
  const SpecialKeys: set<string> :=
    {"__dict__", "__doc__", "__metaclass__", "__module__", "__slots__", "__weakref__"}

  /** Descriptive keys probed as `__key__` attributes into `about`. */
  const AboutKeys: set<string> := {"doc", "name", "module", "slots"}

  /** `'__%s__' % key` */
  function Dunder(key: string): string {
    "__" + key + "__"
  }

  lemma DunderOfAboutKeys()
    ensures Dunder("doc") == "__doc__"
    ensures Dunder("name") == "__name__"
    ensures Dunder("module") == "__module__"
    ensures Dunder("slots") == "__slots__"
  {
  }

  /** `getattr(cls, attr, None)` */
  function GetAttr(c: Class, attr: string): Value {
    c.lookup(attr).GetOr(NoneVal)
  }

  /** `class_data_from_class`: the metaclass and bases as they are, the own
      dict without the special keys, and every descriptive attribute that is
      not None. */
  function Encode(c: Class): (d: ClassData)
    ensures d.metaclass == c.metaclass
    ensures d.bases == c.bases
    ensures d.body.Keys == c.own.Keys - SpecialKeys
    ensures forall k :: k in d.body ==> d.body[k] == c.own[k]
    ensures d.about.Keys <= AboutKeys
    ensures forall k :: k in d.about ==> d.about[k] != NoneVal && c.lookup(Dunder(k)) == Some(d.about[k])
    ensures forall k :: k in AboutKeys ==> (k in d.about <==> GetAttr(c, Dunder(k)) != NoneVal)
  {
    ClassData(
      c.metaclass,
      c.bases,
      map k | k in c.own && k !in SpecialKeys :: c.own[k],
      map k | k in AboutKeys && GetAttr(c, Dunder(k)) != NoneVal :: GetAttr(c, Dunder(k)))
  }

  /** The encoded body holds none of the six reserved names. */
  lemma EncodedBodyHasNoSpecialKey(c: Class)
    ensures "__dict__" !in Encode(c).body && "__doc__" !in Encode(c).body
    ensures "__metaclass__" !in Encode(c).body && "__module__" !in Encode(c).body
    ensures "__slots__" !in Encode(c).body && "__weakref__" !in Encode(c).body
  {
  }

  /** Two classes whose four descriptive attributes agree have the same `about`. */
  lemma AboutDependsOnProbes(c1: Class, c2: Class)
    requires forall k :: k in AboutKeys ==> GetAttr(c1, Dunder(k)) == GetAttr(c2, Dunder(k))
    ensures Encode(c1).about == Encode(c2).about
  {
  }

  /** The four descriptive attributes, named literally. */
  lemma SameProbes(c1: Class, c2: Class)
    requires GetAttr(c1, "__doc__") == GetAttr(c2, "__doc__")
    requires GetAttr(c1, "__name__") == GetAttr(c2, "__name__")
    requires GetAttr(c1, "__module__") == GetAttr(c2, "__module__")
    requires GetAttr(c1, "__slots__") == GetAttr(c2, "__slots__")
    ensures forall k :: k in AboutKeys ==> GetAttr(c1, Dunder(k)) == GetAttr(c2, Dunder(k))
  {
    DunderOfAboutKeys();
  }

  /** What the interpreter around a `type(...)` call provides that the call's
      arguments do not: the `__name__` of the calling module, and the
      `__dict__` / `__weakref__` descriptors a new class may receive. */
  datatype Runtime = Runtime(
    callerModule: string,
    dictSlot: Option<Value>,
    weakrefSlot: Option<Value>)

  /** The entries `type(name, bases, body)` adds to the new class's dict. */
  function TypeDefaults(body: map<string, Value>, rt: Runtime): (extra: map<string, Value>)
    ensures extra.Keys !! body.Keys
    ensures extra.Keys <= SpecialKeys
    ensures "__doc__" !in body ==> "__doc__" in extra && extra["__doc__"] == NoneVal
    ensures "__module__" !in body ==> "__module__" in extra && extra["__module__"] == StrVal(rt.callerModule)
    ensures "__slots__" !in extra && "__metaclass__" !in extra
  {
    var m := if "__module__" in body then map[] else map["__module__" := StrVal(rt.callerModule)];
    var d := if "__doc__" in body then m else m["__doc__" := NoneVal];
    var s := if "__dict__" in body || rt.dictSlot.None? then d else d["__dict__" := rt.dictSlot.value];
    if "__weakref__" in body || rt.weakrefSlot.None? then s else s["__weakref__" := rt.weakrefSlot.value]
  }

  /** Attribute lookup of a class built by `type`: its name, then its own
      dict. Lookup through the bases is not modelled. */
  function TypeLookup(name: string, own: map<string, Value>): string -> Option<Value> {
    (attr: string) =>
      if attr == "__name__" then Some(StrVal(name))
      else if attr in own then Some(own[attr])
      else None
  }

  /** `metaclass(name, bases, body)`: the class keeps every body entry
      unchanged and gains only special entries; `__doc__` defaults to None;
      an empty bases tuple becomes `(object,)`. */
  function NewType(meta: ClassId, name: string, bases: seq<ClassId>, body: map<string, Value>, rt: Runtime): (c: Class)
    ensures c.metaclass == meta
    ensures bases != [] ==> c.bases == bases
    ensures bases == [] ==> c.bases == [ObjectClass]
    ensures forall k :: k in body ==> k in c.own && c.own[k] == body[k]
    ensures forall k :: k in c.own && k !in body ==> k in SpecialKeys
    ensures "__doc__" !in body ==> "__doc__" in c.own && c.own["__doc__"] == NoneVal
    ensures "__slots__" !in body ==> "__slots__" !in c.own
    ensures c.lookup("__name__") == Some(StrVal(name))
    ensures forall k :: k != "__name__" ==> c.lookup(k) == (if k in c.own then Some(c.own[k]) else None)
  {
    var own := body + TypeDefaults(body, rt);
    Class(meta, if bases == [] then [ObjectClass] else bases, own, TypeLookup(name, own))
  }

  /** `cls.__module__ = moduleVal`: rebinds the entry in the class's own dict. */
  function SetModule(c: Class, moduleVal: Value): (c': Class)
    ensures c'.metaclass == c.metaclass && c'.bases == c.bases
    ensures c'.own.Keys == c.own.Keys + {"__module__"}
    ensures c'.own["__module__"] == moduleVal && c'.lookup("__module__") == Some(moduleVal)
    ensures forall k :: k != "__module__" ==> c'.lookup(k) == c.lookup(k)
    ensures forall k :: k in c.own && k != "__module__" ==> c'.own[k] == c.own[k]
  {
    Class(c.metaclass, c.bases, c.own["__module__" := moduleVal],
      (attr: string) => if attr == "__module__" then Some(moduleVal) else c.lookup(attr))
  }

  /** `body_extras`: the docstring and slots of `about`, under their reserved names. */
  function BodyExtras(about: map<string, Value>): (extras: map<string, Value>)
    ensures extras.Keys <= {"__doc__", "__slots__"}
    ensures "__doc__" in extras <==> "doc" in about && about["doc"] != NoneVal
    ensures "__doc__" in extras ==> extras["__doc__"] == about["doc"]
    ensures "__slots__" in extras <==> "slots" in about && about["slots"] != NoneVal
    ensures "__slots__" in extras ==> extras["__slots__"] == about["slots"]
  {
    DunderOfAboutKeys();
    var d := if "doc" in about && about["doc"] != NoneVal then map[Dunder("doc") := about["doc"]] else map[];
    if "slots" in about && about["slots"] != NoneVal then d[Dunder("slots") := about["slots"]] else d
  }

  /** Shared shape of both decoders: name lookup, metaclass call with the
      given body, module assignment. */
  function Rebuild(d: ClassData, body: map<string, Value>, rt: Runtime): (r: Result<Class, Error>)
    ensures "name" !in d.about ==> r == Failure(KeyError("name"))
    ensures "name" in d.about && !d.about["name"].StrVal? ==> r == Failure(TypeError)
    ensures "name" in d.about && d.about["name"].StrVal? && "module" !in d.about ==> r == Failure(KeyError("module"))
    ensures r.Success? <==> "name" in d.about && d.about["name"].StrVal? && "module" in d.about
    ensures r.Success? ==> r.value == SetModule(NewType(d.metaclass, d.about["name"].s, d.bases, body, rt), d.about["module"])
  {
    if "name" !in d.about then Failure(KeyError("name"))
    else if !d.about["name"].StrVal? then Failure(TypeError)
    else
      var c := NewType(d.metaclass, d.about["name"].s, d.bases, body, rt);
      if "module" !in d.about then Failure(KeyError("module"))
      else Success(SetModule(c, d.about["module"]))
  }

  /** `class_from_class_data` as written: `body_extras` is computed and then
      dropped, so the metaclass receives the bare `body`. */
  function Decode(d: ClassData, rt: Runtime): (r: Result<Class, Error>)
    ensures r.Success? <==> "name" in d.about && d.about["name"].StrVal? && "module" in d.about
    ensures "name" !in d.about ==> r == Failure(KeyError("name"))
    ensures "name" in d.about && !d.about["name"].StrVal? ==> r == Failure(TypeError)
    ensures "name" in d.about && d.about["name"].StrVal? && "module" !in d.about ==> r == Failure(KeyError("module"))
    ensures r.Success? ==> r.value.metaclass == d.metaclass
    ensures r.Success? ==> GetAttr(r.value, "__name__") == d.about["name"]
    ensures r.Success? ==> GetAttr(r.value, "__module__") == d.about["module"]
    ensures r.Success? && "__doc__" !in d.body ==> GetAttr(r.value, "__doc__") == NoneVal
    ensures r.Success? && "__slots__" !in d.body ==> GetAttr(r.value, "__slots__") == NoneVal
  {
    var _ := BodyExtras(d.about);
    Rebuild(d, d.body, rt)
  }

  /** `class_from_class_data` with `body_extras` merged into the body, as the
      computation of `body_extras` evidently intends. */
  function DecodeWithExtras(d: ClassData, rt: Runtime): (r: Result<Class, Error>)
    ensures r.Success? <==> "name" in d.about && d.about["name"].StrVal? && "module" in d.about
    ensures "name" !in d.about ==> r == Failure(KeyError("name"))
    ensures "name" in d.about && !d.about["name"].StrVal? ==> r == Failure(TypeError)
    ensures "name" in d.about && d.about["name"].StrVal? && "module" !in d.about ==> r == Failure(KeyError("module"))
    ensures r.Success? ==> GetAttr(r.value, "__name__") == d.about["name"]
    ensures r.Success? ==> GetAttr(r.value, "__module__") == d.about["module"]
    ensures r.Success? && "doc" in d.about && "__doc__" !in d.body ==> GetAttr(r.value, "__doc__") == d.about["doc"]
    ensures r.Success? && "slots" in d.about && d.about["slots"] != NoneVal && "__slots__" !in d.body
      ==> GetAttr(r.value, "__slots__") == d.about["slots"]
  {
    Rebuild(d, d.body + BodyExtras(d.about), rt)
  }

  /** Outside the reserved names, a class rebuilt from `body` (plus
      reserved extras) holds exactly the entries of `body`. */
  lemma RebuiltOwn(meta: ClassId, name: string, bases: seq<ClassId>,
                   body: map<string, Value>, extras: map<string, Value>,
                   rt: Runtime, moduleVal: Value, k: string)
    requires extras.Keys <= SpecialKeys
    requires k !in SpecialKeys
    ensures var c := SetModule(NewType(meta, name, bases, body + extras, rt), moduleVal);
      && (k in c.own <==> k in body)
      && (k in body ==> c.own[k] == body[k])
  {
    var t := NewType(meta, name, bases, body + extras, rt);
    assert k !in extras && k != "__module__";
    assert k in t.own <==> k in body + extras;
  }

  /** The encoded body is determined by the own dict outside the reserved names. */
  lemma EncodedBodyOfOwn(c: Class, body: map<string, Value>)
    requires body.Keys !! SpecialKeys
    requires forall k :: k !in SpecialKeys ==> (k in c.own <==> k in body)
    requires forall k :: k in body ==> k in c.own && c.own[k] == body[k]
    ensures Encode(c).body == body
  {
    var e := Encode(c).body;
    assert e.Keys == body.Keys;
  }

  /** Re-encoding a class rebuilt from `body` (plus reserved extras) yields
      exactly the entries of `body`, whatever the metaclass call added. */
  lemma RebuiltBody(meta: ClassId, name: string, bases: seq<ClassId>,
                                       body: map<string, Value>, extras: map<string, Value>,
                                       rt: Runtime, moduleVal: Value)
    requires body.Keys !! SpecialKeys
    requires extras.Keys <= SpecialKeys
    ensures Encode(SetModule(NewType(meta, name, bases, body + extras, rt), moduleVal)).body == body
  {
    var c := SetModule(NewType(meta, name, bases, body + extras, rt), moduleVal);
    forall k | k !in SpecialKeys
      ensures (k in c.own <==> k in body) && (k in body ==> c.own[k] == body[k])
    {
      RebuiltOwn(meta, name, bases, body, extras, rt, moduleVal, k);
    }
    EncodedBodyOfOwn(c, body);
  }

  /** The four probes of a rebuilt class: the name and module from the
      decoder, the docstring and slots only when they reached the metaclass
      call through its body. */
  lemma RebuiltProbes(meta: ClassId, name: string, bases: seq<ClassId>,
                                         body: map<string, Value>, rt: Runtime, moduleVal: Value)
    ensures var c := SetModule(NewType(meta, name, bases, body, rt), moduleVal);
      && GetAttr(c, "__name__") == StrVal(name)
      && GetAttr(c, "__module__") == moduleVal
      && GetAttr(c, "__doc__") == (if "__doc__" in body then body["__doc__"] else NoneVal)
      && GetAttr(c, "__slots__") == (if "__slots__" in body then body["__slots__"] else NoneVal)
  {
    var t := NewType(meta, name, bases, body, rt);
    var c := SetModule(t, moduleVal);
    assert c.lookup("__name__") == t.lookup("__name__");
    assert c.lookup("__doc__") == t.lookup("__doc__");
    assert c.lookup("__slots__") == t.lookup("__slots__");
  }

  /** Round trip of the code as written: for a class with a name and a
      module but no docstring and no slots, decoding its class data and
      encoding the result gives the same class data back. */
  lemma RoundTripWithoutDocOrSlots(c: Class, rt: Runtime)
    requires GetAttr(c, "__name__").StrVal?
    requires GetAttr(c, "__module__") != NoneVal
    requires GetAttr(c, "__doc__") == NoneVal
    requires GetAttr(c, "__slots__") == NoneVal
    requires c.bases != []
    ensures Decode(Encode(c), rt).Success?
    ensures Encode(Decode(Encode(c), rt).value) == Encode(c)
  {
    DunderOfAboutKeys();
    var d := Encode(c);
    assert "name" in d.about && "module" in d.about;
    var name := d.about["name"].s;
    var c2 := Decode(d, rt).value;
    assert c2 == SetModule(NewType(d.metaclass, name, d.bases, d.body, rt), d.about["module"]);
    assert d.body + map[] == d.body;
    RebuiltBody(d.metaclass, name, d.bases, d.body, map[], rt, d.about["module"]);
    RebuiltProbes(d.metaclass, name, d.bases, d.body, rt, d.about["module"]);
    SameProbes(c2, c);
    AboutDependsOnProbes(c2, c);
  }

  /** Round trip of the corrected decoder: every class with a name and a
      module, docstring and slots included, reaches the fixed point. */
  lemma RoundTripWithExtras(c: Class, rt: Runtime)
    requires GetAttr(c, "__name__").StrVal?
    requires GetAttr(c, "__module__") != NoneVal
    requires c.bases != []
    ensures DecodeWithExtras(Encode(c), rt).Success?
    ensures Encode(DecodeWithExtras(Encode(c), rt).value) == Encode(c)
  {
    DunderOfAboutKeys();
    var d := Encode(c);
    assert "name" in d.about && "module" in d.about;
    var name := d.about["name"].s;
    var extras := BodyExtras(d.about);
    var c2 := DecodeWithExtras(d, rt).value;
    assert c2 == SetModule(NewType(d.metaclass, name, d.bases, d.body + extras, rt), d.about["module"]);
    RebuiltBody(d.metaclass, name, d.bases, d.body, extras, rt, d.about["module"]);
    RebuiltProbes(d.metaclass, name, d.bases, d.body + extras, rt, d.about["module"]);
    SameProbes(c2, c);
    AboutDependsOnProbes(c2, c);
  }

  /** The demonstration class `type('aaa', (), dict(a=3))` moved to module
      `'anon'`, optionally with a docstring in its body. */
  function DemoClass(doc: Option<string>, rt: Runtime): Class {
    var body := map["a" := IntVal(3)];
    var withDoc := if doc.Some? then body["__doc__" := StrVal(doc.value)] else body;
    SetModule(NewType(TypeClass, "aaa", [], withDoc, rt), StrVal("anon"))
  }

  /** `about` of a class with a name and a module but no docstring or slots. */
  lemma AboutOfNamedClass(c: Class)
    requires GetAttr(c, "__doc__") == NoneVal && GetAttr(c, "__slots__") == NoneVal
    requires GetAttr(c, "__name__") != NoneVal && GetAttr(c, "__module__") != NoneVal
    ensures Encode(c).about == map["name" := GetAttr(c, "__name__"), "module" := GetAttr(c, "__module__")]
  {
    DunderOfAboutKeys();
    var about := Encode(c).about;
    assert about.Keys == {"name", "module"};
  }

  /** The demonstration: the class data is `(type, (object,), {'a': 3},
      {'name': 'aaa', 'module': 'anon'})` and the round trip reproduces it. */
  lemma DemoRoundTrip(rt: Runtime)
    ensures Encode(DemoClass(None, rt)) ==
      ClassData(TypeClass, [ObjectClass], map["a" := IntVal(3)], map["name" := StrVal("aaa"), "module" := StrVal("anon")])
    ensures Decode(Encode(DemoClass(None, rt)), rt).Success?
    ensures Encode(Decode(Encode(DemoClass(None, rt)), rt).value) == Encode(DemoClass(None, rt))
  {
    var body := map["a" := IntVal(3)];
    var c := DemoClass(None, rt);
    assert c == SetModule(NewType(TypeClass, "aaa", [], body, rt), StrVal("anon"));
    assert body.Keys !! SpecialKeys;
    assert body + map[] == body;
    RebuiltBody(TypeClass, "aaa", [], body, map[], rt, StrVal("anon"));
    RebuiltProbes(TypeClass, "aaa", [], body, rt, StrVal("anon"));
    AboutOfNamedClass(c);
    var d := Encode(c);
    assert d.metaclass == TypeClass && d.bases == [ObjectClass];
    assert d.body == body;
    assert d.about == map["name" := StrVal("aaa"), "module" := StrVal("anon")];
    RoundTripWithoutDocOrSlots(c, rt);
  }

  /** The defect: a docstring survives encoding but is lost by the decoder as
      written, so the round trip fails for the demonstration class with
      docstring `'hello'`; the corrected decoder keeps it. */
  lemma DocstringLostByDecode(rt: Runtime)
    ensures var d := Encode(DemoClass(Some("hello"), rt));
      "doc" in d.about && d.about["doc"] == StrVal("hello")
    ensures var d := Encode(DemoClass(Some("hello"), rt));
      && Decode(d, rt).Success?
      && "doc" !in Encode(Decode(d, rt).value).about
      && Encode(Decode(d, rt).value) != d
    ensures var d := Encode(DemoClass(Some("hello"), rt));
      && DecodeWithExtras(d, rt).Success?
      && Encode(DecodeWithExtras(d, rt).value) == d
  {
    var body := map["a" := IntVal(3), "__doc__" := StrVal("hello")];
    var c := DemoClass(Some("hello"), rt);
    assert c == SetModule(NewType(TypeClass, "aaa", [], body, rt), StrVal("anon"));
    DunderOfAboutKeys();
    RebuiltProbes(TypeClass, "aaa", [], body, rt, StrVal("anon"));
    var d := Encode(c);
    assert "doc" in d.about && "name" in d.about && "module" in d.about;
    assert d.about["name"] == StrVal("aaa");
    var c2 := Decode(d, rt).value;
    assert c2 == SetModule(NewType(d.metaclass, "aaa", d.bases, d.body, rt), StrVal("anon"));
    RebuiltProbes(d.metaclass, "aaa", d.bases, d.body, rt, StrVal("anon"));
    assert GetAttr(c2, "__doc__") == NoneVal;
    RoundTripWithExtras(c, rt);
  }
}
