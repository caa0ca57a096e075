/** `TestVisitor` and the scenario of Tests/misc/visitor_test.py.

    The visitor instance owns a list, `value`, that its handlers and its
    `visitLeaf` append to in place.  The class below keeps that list as a
    field and runs the traversal step by step; every method is proved to
    append exactly what the traversal functions of `Engine` say. */
module VisitorTest {
  import opened Nodes
  import opened Handlers
  import Engine

  class TestVisitor {
    /** The handler tables of the visitor class, shared by every instance:
        each lookup reads them as they are at that moment, so registrations
        made after the instance was created are seen too. */
    const registry: VisitorRegistry
    /** The accumulator. */
    var value: seq<Node>

    constructor (registry: VisitorRegistry)
      ensures this.registry == registry && value == []
    {
      this.registry := registry;
      value := [];
    }

    /** `_add(s)` */
    method Add(s: Node)
      modifies this
      ensures value == old(value) + [s]
    {
      value := value + [s];
    }

    /** `visitLeaf(obj)`: the leaf is recorded. */
    method VisitLeaf(obj: Node)
      modifies this
      ensures value == old(value) + [obj]
    {
      Add(obj);
    }

    /** `visit(obj)` */
    method Visit(obj: Node)
      modifies this
      decreases obj, 3
      ensures value == old(value) + Engine.Visit(registry.Current(), obj)
    {
      match obj {
        case Obj(_, _, _) =>
          var handler := Resolve(registry.objHandlers, Mro(obj));
          if handler.Some? {
            var ret := CallObjHandler(handler.value, obj);
            if ret == Stop {
              return;
            }
          }
          VisitObject(obj);
        case List(_) =>
          VisitList(obj);
        case Dict(_) =>
          VisitDict(obj);
        case Leaf(_) =>
          VisitLeaf(obj);
      }
    }

    /** Runs object handler `h` on `obj` and returns what it returns. */
    method CallObjHandler(h: ObjHandler, obj: Node) returns (ret: Signal)
      requires obj.Obj?
      modifies this
      decreases obj, 2
      ensures ret == h.signal
      ensures value == old(value) + Engine.RunObjHandler(registry.Current(), h.steps, obj)
    {
      var i := 0;
      while i < |h.steps|
        invariant 0 <= i <= |h.steps|
        invariant value == old(value) + Engine.RunObjHandler(registry.Current(), h.steps[..i], obj)
      {
        var step := h.steps[i];
        match step {
          case Record(x) => Add(x);
          case RecordNode => Add(obj);
          case DefaultTraversal => VisitObject(obj);
        }
        assert h.steps[..i + 1] == h.steps[..i] + [step];
        Engine.RunObjHandlerAppend(registry.Current(), h.steps[..i], [step], obj);
        i := i + 1;
      }
      assert h.steps[..i] == h.steps;
      ret := h.signal;
    }

    /** `visitObject(obj)`: the public attributes in order, each offered to
        its attribute handler first. */
    method VisitObject(obj: Node)
      requires obj.Obj?
      modifies this
      decreases obj, 1
      ensures value == old(value) + Engine.VisitObject(registry.Current(), obj)
    {
      var chain := Mro(obj);
      var i := 0;
      while i < |obj.attrs|
        invariant 0 <= i <= |obj.attrs|
        invariant value == old(value) + Engine.VisitAttrs(registry.Current(), chain, obj.attrs[..i])
      {
        var a := obj.attrs[i];
        VisitObjectAttr(obj, chain, i);
        assert obj.attrs[..i + 1] == obj.attrs[..i] + [a];
        Engine.VisitAttrsAppend(registry.Current(), chain, obj.attrs[..i], [a]);
        i := i + 1;
      }
      assert obj.attrs[..i] == obj.attrs;
    }

    /** One step of `visitObject`: a private attribute is skipped; a public
        one goes to its attribute handler, if any, and then, unless the
        handler returned False, to `visitAttr`. */
    method VisitObjectAttr(obj: Node, chain: seq<TypeTag>, i: nat)
      requires obj.Obj? && i < |obj.attrs|
      modifies this
      decreases obj, 0
      ensures value == old(value) + Engine.VisitObjectAttr(registry.Current(), chain, obj.attrs[i])
    {
      var a := obj.attrs[i];
      if !IsPrivate(a.name) {
        var handler := Resolve(registry.attrHandlers, AttrKeys(chain, a.name));
        var ret := Continue;
        if handler.Some? {
          ret := CallAttrHandler(handler.value, a);
        }
        if ret == Continue {
          VisitAttr(obj, a.name, a.value);
        }
      }
    }

    /** Runs attribute handler `h` on attribute `a` and returns what it
        returns. */
    method CallAttrHandler(h: AttrHandler, a: Attr) returns (ret: Signal)
      modifies this
      ensures ret == h.signal
      ensures value == old(value) + Engine.RunAttrHandler(h.steps, a)
    {
      var i := 0;
      while i < |h.steps|
        invariant 0 <= i <= |h.steps|
        invariant value == old(value) + Engine.RunAttrHandler(h.steps[..i], a)
      {
        var step := h.steps[i];
        match step {
          case RecordItem(x) => Add(x);
          case RecordName => Add(Leaf(Str(a.name)));
          case RecordValue => Add(a.value);
        }
        assert h.steps[..i + 1] == h.steps[..i] + [step];
        Engine.RunAttrHandlerAppend(h.steps[..i], [step], a);
        i := i + 1;
      }
      assert h.steps[..i] == h.steps;
      ret := h.signal;
    }

    /** `visitAttr(obj, attr, value)`: visits the attribute's value. */
    method VisitAttr(obj: Node, attr: string, v: Node)
      modifies this
      decreases v, 4
      ensures value == old(value) + Engine.Visit(registry.Current(), v)
    {
      Visit(v);
    }

    /** `visitList(obj)` */
    method VisitList(obj: Node)
      requires obj.List?
      modifies this
      decreases obj, 0
      ensures value == old(value) + Engine.VisitList(registry.Current(), obj.items)
    {
      var i := 0;
      while i < |obj.items|
        invariant 0 <= i <= |obj.items|
        invariant value == old(value) + Engine.VisitList(registry.Current(), obj.items[..i])
      {
        Visit(obj.items[i]);
        assert obj.items[..i + 1] == obj.items[..i] + [obj.items[i]];
        Engine.VisitListAppend(registry.Current(), obj.items[..i], [obj.items[i]]);
        i := i + 1;
      }
      assert obj.items[..i] == obj.items;
    }

    /** `visitDict(obj)`: the values only, in insertion order. */
    method VisitDict(obj: Node)
      requires obj.Dict?
      modifies this
      decreases obj, 0
      ensures value == old(value) + Engine.VisitDict(registry.Current(), obj.entries)
    {
      var i := 0;
      while i < |obj.entries|
        invariant 0 <= i <= |obj.entries|
        invariant value == old(value) + Engine.VisitDict(registry.Current(), obj.entries[..i])
      {
        Visit(obj.entries[i].value);
        assert obj.entries[..i + 1] == obj.entries[..i] + [obj.entries[i]];
        Engine.VisitDictAppend(registry.Current(), obj.entries[..i], [obj.entries[i]]);
        i := i + 1;
      }
      assert obj.entries[..i] == obj.entries;
    }
  }

  // -----------------------------------------------------------------------
  // The test's object graph, handlers and expected record.

  function Num(i: int): Node { Leaf(Int(i)) }

  function Text(s: string): Node { Leaf(Str(s)) }

  /** `A()`: attributes assigned in the order a, b, c, _d, e, f. */
  const InstanceA: Node :=
    Obj("A", [], [
      Attr("a", Num(1)),
      Attr("b", List([Num(2), Num(3)])),
      Attr("c", Dict([Entry(Num(4), Num(5)), Entry(Num(6), Num(7))])),
      Attr("_d", Num(8)),
      Attr("e", Num(9)),
      Attr("f", Num(10))])

  /** `B()`: one attribute, an `A`. */
  const InstanceB: Node := Obj("B", [], [Attr("a", InstanceA)])

  /** Object handler of `A`: records "A", returns nothing. */
  const HandleA := ObjHandler([Record(Text("A"))], Continue)

  /** Attribute handler of (A, "e"): records the name and the value,
      returns False. */
  const HandleAE := AttrHandler([RecordName, RecordValue], Stop)

  /** Object handler of `B`: records "B", runs `visitObject`, returns
      False. */
  const HandleB := ObjHandler([Record(Text("B")), DefaultTraversal], Stop)

  /** Attribute handler of (B, "a"): records "B a", returns nothing. */
  const HandleBA := AttrHandler([RecordItem(Text("B a"))], Continue)

  const TestKind := Kind(
    map["A" := HandleA, "B" := HandleB],
    map[("A", "e") := HandleAE, ("B", "a") := HandleBA])

  const Expected: seq<Node> :=
    [Text("B"), Text("B a"), Text("A"), Num(1), Num(2), Num(3), Num(5), Num(7),
     Text("e"), Num(9), Num(10)]

  /** The four decorated handlers, registered on a fresh visitor class in
      the order the test module defines them. */
  method RegisterTestHandlers() returns (registry: VisitorRegistry)
    ensures fresh(registry) && registry.Current() == TestKind
  {
    registry := new VisitorRegistry();
    registry.Register("A", HandleA);
    registry.RegisterAttrs([("A", "e")], HandleAE);
    registry.Register("B", HandleB);
    registry.RegisterAttr("B", "a", HandleBA);
    assert registry.attrHandlers.Keys == {("A", "e"), ("B", "a")};
  }

  /** On an `A` only the attribute `e` has a handler. */
  lemma LookupOnA(name: string)
    ensures Resolve(TestKind.attrHandlers, AttrKeys(["A"], name)) ==
      (if name == "e" then Some(HandleAE) else None)
  {
    assert AttrKeys(["A"], name) == [("A", name)];
  }

  /** The default traversal of `A()` records its public attributes in
      order: 1, the list's elements, the dict's values, then "e" and 9 from
      the (A, "e") handler, which stops the visit of 9 as a leaf, then 10. */
  lemma TraceOfA()
    ensures Engine.VisitObject(TestKind, InstanceA) ==
      [Num(1), Num(2), Num(3), Num(5), Num(7), Text("e"), Num(9), Num(10)]
  {
    var k, chain, attrs := TestKind, ["A"], InstanceA.attrs;
    assert Mro(InstanceA) == chain;
    LookupOnA("a");
    LookupOnA("b");
    LookupOnA("c");
    LookupOnA("e");
    LookupOnA("f");
    assert Engine.VisitObjectAttr(k, chain, attrs[0]) == [Num(1)];
    assert Engine.VisitObjectAttr(k, chain, attrs[1]) == [Num(2), Num(3)];
    assert Engine.VisitObjectAttr(k, chain, attrs[2]) == [Num(5), Num(7)];
    assert Engine.VisitObjectAttr(k, chain, attrs[3]) == [];
    assert Engine.RunAttrHandler(HandleAE.steps, attrs[4]) == [Text("e"), Num(9)];
    assert Engine.VisitObjectAttr(k, chain, attrs[4]) == [Text("e"), Num(9)];
    assert Engine.VisitObjectAttr(k, chain, attrs[5]) == [Num(10)];
    assert attrs[1..][1..][1..][1..][1..][1..] == [];
  }

  /** The default traversal of a `B` whose attribute `a` holds an `A`: the
      (B, "a") handler records "B a" and lets the engine visit the `A`,
      whose object handler records "A" before its default traversal. */
  lemma TraceOfBAttrs(inner: Node)
    requires inner.Obj? && inner.typ == "A" && inner.bases == []
    ensures Engine.VisitObject(TestKind, Obj("B", [], [Attr("a", inner)])) ==
      [Text("B a"), Text("A")] + Engine.VisitObject(TestKind, inner)
  {
    var k, a := TestKind, Attr("a", inner);
    assert Mro(inner) == ["A"];
    assert Resolve(k.objHandlers, Mro(inner)) == Some(HandleA);
    Engine.ObjHandlerSignal(k, inner, HandleA);
    assert Engine.RunObjHandler(k, HandleA.steps, inner) == [Text("A")];
    assert AttrKeys(["B"], "a") == [("B", "a")];
    assert Resolve(k.attrHandlers, AttrKeys(["B"], "a")) == Some(HandleBA);
    Engine.AttrHandlerSignal(k, ["B"], a, HandleBA);
    assert Engine.RunAttrHandler(HandleBA.steps, a) == [Text("B a")];
    assert Engine.VisitAttrs(k, ["B"], [a]) == Engine.VisitObjectAttr(k, ["B"], a) + [];
    var b := Obj("B", [], [a]);
    assert Mro(b) == ["B"];
    assert Engine.VisitObject(k, b) == Engine.VisitAttrs(k, ["B"], [a]);
  }

  /** The traversal of `B()` records exactly the expected list. */
  lemma TestVisitorTrace()
    ensures Engine.Visit(TestKind, InstanceB) == Expected
  {
    assert Mro(InstanceB) == ["B"];
    assert Resolve(TestKind.objHandlers, Mro(InstanceB)) == Some(HandleB);
    Engine.ManualTraversalOnce(TestKind, InstanceB, Text("B"));
    TraceOfBAttrs(InstanceA);
    TraceOfA();
    assert Engine.Visit(TestKind, InstanceB) ==
      [Text("B")] + ([Text("B a"), Text("A")] + Engine.VisitObject(TestKind, InstanceA));
  }

  /** `test_visitor`: build the visitor, visit `B()`, read `value`. */
  method TestVisitorRun() returns (value: seq<Node>)
    ensures value == Expected
  {
    var registry := RegisterTestHandlers();
    var visitor := new TestVisitor(registry);
    visitor.Visit(InstanceB);
    TestVisitorTrace();
    value := visitor.value;
  }
}
