# fontTools Visitor traversal, modelled in Dafny

fontTools' `Visitor` walks an in-memory object graph depth first. Handlers are
registered per visitor class. An object handler is keyed by a node's class
(`register`). An attribute handler is keyed by a (class, attribute name) pair
(`register_attr`, and `register_attrs` for a list of pairs). `visit(obj)` works
like this:

- An object first goes to its object handler. If the handler returns `False`,
  nothing more happens to that object. If it returns nothing, the default
  traversal `visitObject` follows.
- `visitObject` walks the public attributes in order and skips every name that
  starts with `_`. Each attribute first goes to its attribute handler. If that
  handler returns `False`, the value is not visited. Otherwise `visitAttr`
  visits the value.
- A list is visited element by element. A dict is visited value by value, in
  insertion order, and its keys are never visited.
- Anything else goes to `visitLeaf`.

This project models that engine as exercised by `Tests/misc/visitor_test.py`.
In that test, `TestVisitor` appends to an accumulator list `value`. It does so
from its `visitLeaf` override and from four handlers, on `A`, `(A, "e")`, `B`
and `(B, "a")`. The test visits `B()` and checks the recorded list.

Files and modules:

- `nodes.dfy` (`Nodes`): the object graph as a `Node` datatype. `Obj` carries a
  class tag, base classes and attributes in assignment order. The other
  constructors are `List`, `Dict` (entries in insertion order) and `Leaf`.
- `handlers.dfy` (`Handlers`): handlers as scripts of what a handler does to
  the visitor, ending in `Stop` (`return False`) or `Continue` (no return
  value). Also the handler lookup `Resolve`, and the class `VisitorRegistry`,
  whose registration methods update its two handler maps in place.
- `engine.dfy` (`Engine`): the traversal as functions that give the sequence of
  items the accumulator receives. Also the lemmas about that sequence: order,
  private attributes, dict keys, handler return values, and where recorded
  items come from.
- `visitor_test.dfy` (`VisitorTest`): the class `TestVisitor`, whose `value`
  field is appended to in place by methods that run the traversal step by step.
  The visitor holds the class's `VisitorRegistry` itself, not a copy, so each
  lookup sees every registration made so far. Each method is proved to append
  exactly what the `Engine` function says for the registry's current handlers. This
  file also holds the test's object graph, its handlers and the end-to-end
  result.

## Model

| member | source | states |
|---|---|---|
| `Nodes.PublicAttrs` | Tests/misc/visitor_test.py:10 | keeps exactly the attributes whose names do not start with `_` (so `_d` is dropped), and no others; a single attribute is kept or dropped on its own, and nothing comes from nothing |
| `Nodes.PublicAttrsAppend` | Tests/misc/visitor_test.py:7-12 | filtering a concatenation filters each part and keeps their order, so with the one-attribute case the filter keeps the public attributes in their original order and multiplicity |
| `Handlers.Resolve` | Tests/misc/visitor_test.py:32-53 | gives the handler of the first key in the lookup chain that has a registration, and none when no key does. The test's lookups are exact (each chain holds one class); that a more specific registration wins over a base-class fallback is an assumption of this model |
| `Handlers.VisitorRegistry.constructor` | Tests/misc/visitor_test.py:20 | a new visitor class has no handlers |
| `Handlers.VisitorRegistry.Register` | Tests/misc/visitor_test.py:32 | `register(A)` makes the handler the object handler of `A`, replacing any earlier one, and leaves attribute handlers unchanged |
| `Handlers.VisitorRegistry.RegisterAttr` | Tests/misc/visitor_test.py:51 | `register_attr(B, "a")` makes the handler the handler of `(B, "a")`, replacing any earlier one, and leaves everything else unchanged |
| `Handlers.VisitorRegistry.RegisterAttrs` | Tests/misc/visitor_test.py:37 | `register_attrs([(A, "e")])` gives every listed pair the handler, keeps every other pair's handler, adds no other keys and leaves object handlers unchanged |
| `Engine.VisitAttrsAppend` | Tests/misc/visitor_test.py:7-12 | attributes are traversed in declaration order: the record for `xs + ys` is the record for `xs` followed by the record for `ys` |
| `Engine.VisitListAppend` | Tests/misc/visitor_test.py:8 | list elements are visited in order: the record for `xs + ys` is the record for `xs` followed by the record for `ys` |
| `Engine.VisitDictAppend` | Tests/misc/visitor_test.py:9 | dict entries are visited in insertion order, in the same sense |
| `Engine.RunObjHandlerAppend` | Tests/misc/visitor_test.py:44-48 | an object handler's statements take effect in the order written |
| `Engine.RunAttrHandlerAppend` | Tests/misc/visitor_test.py:37-41 | an attribute handler's statements take effect in the order written |
| `Engine.PrivateAttrsIgnored` | Tests/misc/visitor_test.py:10 | an object's default traversal records the same whether or not its private attributes are present |
| `Engine.DictVisitsValues` | Tests/misc/visitor_test.py:9 | a dict is visited exactly as the list of its values, in insertion order |
| `Engine.DictKeysIgnored` | Tests/misc/visitor_test.py:9 | two dicts with the same values in the same order record the same, whatever their keys |
| `Engine.LeafListRecorded` | Tests/misc/visitor_test.py:8 | a list of leaves such as `[2, 3]` records exactly its elements, in order, each through `visitLeaf` |
| `Engine.ObjHandlerSignal` | Tests/misc/visitor_test.py:32-48 | after an object handler returns `False` (as `B`'s does), only what the handler itself did is recorded; after it returns nothing (as `A`'s does), the default traversal follows |
| `Engine.ManualTraversalOnce` | Tests/misc/visitor_test.py:44-48 | a handler that records `x`, calls `visitObject` and returns `False` records `x` and then the attributes, exactly once |
| `Engine.AttrHandlerSignal` | Tests/misc/visitor_test.py:37-53 | after an attribute handler returns `False` (as `(A, "e")`'s does), the value is not visited; after it returns nothing (as `(B, "a")`'s does), the value gets a full visit |
| `Engine.RunAttrHandlerItems` | Tests/misc/visitor_test.py:37-41 | an attribute handler records only its own fixed items, the attribute's name or the attribute's value |
| `Engine.StoppedValueUnseen` | Tests/misc/visitor_test.py:37-41 | under a handler that returns `False` without recording the value, the value makes no difference to the record |
| `Engine.RunAttrHandlerSameValue` | Tests/misc/visitor_test.py:37-41 | a handler script that does not record the value appends the same whatever the value is |
| `Engine.VisitSources` | Tests/misc/visitor_test.py:9-10 | every recorded item is either a fixed item of a registered handler or reachable from the root along public attributes, list elements and dict values (or a public attribute's name). In the test this means the values held only under `_d` or only as dict keys (8, 4 and 6) can be recorded only if some handler records them itself |
| `Engine.RunObjHandlerSources` | Tests/misc/visitor_test.py:44-48 | the same, for the items an object handler's statements record |
| `Engine.ObjectSources` | Tests/misc/visitor_test.py:47 | the same, for `visitObject` |
| `Engine.AttrsSources` | Tests/misc/visitor_test.py:7-12 | the same, for an object's attribute list |
| `Engine.ObjectAttrSources` | Tests/misc/visitor_test.py:10-11 | an item recorded for one attribute comes from a handler or from a public attribute: its name or something reachable from its value |
| `Engine.ListSources` | Tests/misc/visitor_test.py:8 | an item recorded for a list is reachable from one of its elements, or comes from a handler |
| `Engine.DictSources` | Tests/misc/visitor_test.py:9 | an item recorded for a dict is reachable from one of its values, or comes from a handler |
| `Engine.EntrySources` | Tests/misc/visitor_test.py:9 | an item recorded for a dict entry is reachable from its value, or comes from a handler |
| `VisitorTest.TestVisitor.constructor` | Tests/misc/visitor_test.py:21-22 | a new `TestVisitor` starts with an empty `value` and shares its class's handler tables |
| `VisitorTest.TestVisitor.Add` | Tests/misc/visitor_test.py:24-25 | `_add` appends its argument to `value` |
| `VisitorTest.TestVisitor.VisitLeaf` | Tests/misc/visitor_test.py:27-29 | `visitLeaf` appends the leaf to `value` |
| `VisitorTest.TestVisitor.Visit` | Tests/misc/visitor_test.py:60 | `visit(obj)` appends to `value` exactly what `Engine.Visit` gives for the handlers registered on the visitor's class at the time of the call |
| `VisitorTest.TestVisitor.CallObjHandler` | Tests/misc/visitor_test.py:32-48 | running an object handler appends what its statements record and returns its return value |
| `VisitorTest.TestVisitor.VisitObject` | Tests/misc/visitor_test.py:47 | `visitObject(obj)` appends exactly what `Engine.VisitObject` gives |
| `VisitorTest.TestVisitor.VisitObjectAttr` | Tests/misc/visitor_test.py:10-11 | one attribute of `visitObject`: appends nothing for `_d`, and for a public attribute exactly what `Engine.VisitObjectAttr` gives (its handler, then the value's visit unless the handler returned `False`) |
| `VisitorTest.TestVisitor.CallAttrHandler` | Tests/misc/visitor_test.py:37-53 | running an attribute handler appends what its statements record and returns its return value |
| `VisitorTest.TestVisitor.VisitAttr` | Tests/misc/visitor_test.py:17 | visiting an attribute's value appends exactly what `Engine.Visit` gives for that value |
| `VisitorTest.TestVisitor.VisitList` | Tests/misc/visitor_test.py:8 | visiting a list appends exactly what `Engine.VisitList` gives for its elements |
| `VisitorTest.TestVisitor.VisitDict` | Tests/misc/visitor_test.py:9 | visiting a dict appends exactly what `Engine.VisitDict` gives for its entries |
| `VisitorTest.RegisterTestHandlers` | Tests/misc/visitor_test.py:32-53 | the four decorators leave the visitor class with exactly the handlers of `A`, `B`, `(A, "e")` and `(B, "a")` |
| `VisitorTest.LookupOnA` | Tests/misc/visitor_test.py:37-41 | on an `A`, the attribute `e` resolves to the `(A, "e")` handler and every other name resolves to none |
| `VisitorTest.TraceOfA` | Tests/misc/visitor_test.py:5-12 | the default traversal of `A()` records 1, 2, 3, 5, 7, "e", 9, 10 |
| `VisitorTest.TraceOfBAttrs` | Tests/misc/visitor_test.py:51-53 | for a `B` holding any `A`, the default traversal records "B a", then "A", then the `A`'s default traversal |
| `VisitorTest.TestVisitorTrace` | Tests/misc/visitor_test.py:58-61 | the traversal of `B()` records exactly `["B", "B a", "A", 1, 2, 3, 5, 7, "e", 9, 10]` |
| `VisitorTest.TestVisitorRun` | Tests/misc/visitor_test.py:56-61 | `test_visitor` builds the visitor, visits `B()`, and finds `value` equal to that list |

## Left out

- `Lib/fontTools/misc/visitor.py`, the engine's own source, is not part of this model. The traversal rules are the ones `Tests/misc/visitor_test.py` shows, plus the two assumptions of this model named below.
- Only `Obj` values are dispatched to object handlers. Handlers registered for the `list`, `dict`, `int` or `str` classes are not modelled: a list is always walked element by element, a dict value by value, and a scalar always goes to `visitLeaf`. So `Engine.LeafListRecorded` and `Engine.DictVisitsValues` hold for every registry, which is true of the engine only when no such handler is registered.
- Python's run-time classification (`vars()`, `type()`, `isinstance` of list and dict) is replaced by the constructors of `Node` and an explicit class tag.
- The decorator mechanics of `register`, `register_attr` and `register_attrs` are left out. Registration is a map update, and a later registration of the same key replaces the earlier one.
- Handlers are arbitrary Python code. The model's handlers are scripts of the statements the test's handlers use: `_add` of a fixed item, of the attribute name, of the value or of the object, and a call of `visitObject`. Handlers that visit other values, change the graph or raise exceptions are not modelled, and neither is exception propagation.
- Lookup along base classes is not exercised by the test. The test's classes have no registered bases, and the scenario gives them empty base lists. The fallback from a class to its bases, most derived first, is an assumption of this model.
- The base `Visitor.visitLeaf` does nothing. The model's record is that of `TestVisitor`, whose `visitLeaf` appends the leaf. A visitor with the base `visitLeaf` makes the same traversal without the leaf entries.
- Attributes are walked in assignment order; this is an assumption of this model. The test's public names `a, b, c, e, f` are also in alphabetical order, so the test cannot tell assignment order from name order.
- Cycles, shared objects and recursion depth are left out. A `Node` is a finite tree, so an object reachable twice is two equal subtrees.
- `Lib/fontTools/__init__.py` holds only the package version and logger set-up, and is not modelled.
