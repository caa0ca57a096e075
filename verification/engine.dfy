/** The traversal of `Visitor.visit`, as the sequence of items the visitor's
    accumulator receives.

    The visitor modelled is `TestVisitor`: its `visitLeaf` appends every
    leaf it is given, and its handlers append what their scripts say.  The
    functions follow the engine's dispatch: `Visit` classifies a value,
    `VisitObject` walks an object's attributes, `VisitList` and `VisitDict`
    walk a collection's elements and values. */
module Engine {
  import opened Nodes
  import opened Handlers

  /** `visit(obj)`: an object goes to its registered object handler, if
      any, and then (unless the handler stopped) to the default attribute
      traversal; a list or dict is walked; anything else is a leaf. */
  function Visit(k: Kind, n: Node): seq<Node>
    decreases n, 2
  {
    match n
    case Obj(_, _, _) =>
      (match Resolve(k.objHandlers, Mro(n))
       case None => VisitObject(k, n)
       case Some(h) =>
         RunObjHandler(k, h.steps, n) + (if h.signal == Stop then [] else VisitObject(k, n)))
    case List(items) => VisitList(k, items)
    case Dict(entries) => VisitDict(k, entries)
    case Leaf(_) => [n]
  }

  /** What an object handler's steps append when run on `n`. */
  function RunObjHandler(k: Kind, steps: seq<ObjStep>, n: Node): seq<Node>
    requires n.Obj?
    decreases n, 1, |steps|
  {
    if steps == [] then []
    else
      (match steps[0]
       case Record(x) => [x]
       case RecordNode => [n]
       case DefaultTraversal => VisitObject(k, n))
      + RunObjHandler(k, steps[1..], n)
  }

  /** `visitObject(obj)`: the default traversal of an object's attributes. */
  function VisitObject(k: Kind, n: Node): seq<Node>
    requires n.Obj?
    decreases n, 0
  {
    VisitAttrs(k, Mro(n), n.attrs)
  }

  function VisitAttrs(k: Kind, chain: seq<TypeTag>, attrs: seq<Attr>): seq<Node>
    decreases attrs
  {
    if attrs == [] then []
    else VisitObjectAttr(k, chain, attrs[0]) + VisitAttrs(k, chain, attrs[1..])
  }

  /** One attribute of the default traversal of an object whose class chain
      is `chain`: a private attribute is skipped; a public one goes to its
      attribute handler, if any, and then (unless the handler stopped) to
      `visitAttr`, which visits the value. */
  function VisitObjectAttr(k: Kind, chain: seq<TypeTag>, a: Attr): seq<Node>
    decreases a
  {
    if IsPrivate(a.name) then []
    else
      match Resolve(k.attrHandlers, AttrKeys(chain, a.name))
      case None => Visit(k, a.value)
      case Some(h) =>
        RunAttrHandler(h.steps, a) + (if h.signal == Stop then [] else Visit(k, a.value))
  }

  /** What an attribute handler's steps append when run on attribute `a`. */
  function RunAttrHandler(steps: seq<AttrStep>, a: Attr): seq<Node>
  {
    if steps == [] then []
    else
      (match steps[0]
       case RecordItem(x) => [x]
       case RecordName => [Leaf(Str(a.name))]
       case RecordValue => [a.value])
      + RunAttrHandler(steps[1..], a)
  }

  /** `visitList(obj)`: every element, in order. */
  function VisitList(k: Kind, items: seq<Node>): seq<Node>
    decreases items
  {
    if items == [] then [] else Visit(k, items[0]) + VisitList(k, items[1..])
  }

  /** `visitDict(obj)`: every value, in insertion order; keys are not
      visited. */
  function VisitDict(k: Kind, entries: seq<Entry>): seq<Node>
    decreases entries
  {
    if entries == [] then [] else VisitEntry(k, entries[0]) + VisitDict(k, entries[1..])
  }

  /** A dict entry contributes the visit of its value; its key plays no
      part. */
  function VisitEntry(k: Kind, e: Entry): seq<Node>
    decreases e
  {
    Visit(k, e.value)
  }

  // ---------------------------------------------------------------------
  // Order: each walk visits its parts one after the other.

  lemma {:induction false} VisitAttrsAppend(k: Kind, chain: seq<TypeTag>, xs: seq<Attr>, ys: seq<Attr>)
    ensures VisitAttrs(k, chain, xs + ys) == VisitAttrs(k, chain, xs) + VisitAttrs(k, chain, ys)
  {
    if xs == [] {
      assert xs + ys == ys;
    } else {
      assert (xs + ys)[1..] == xs[1..] + ys;
      VisitAttrsAppend(k, chain, xs[1..], ys);
    }
  }

  lemma {:induction false} VisitListAppend(k: Kind, xs: seq<Node>, ys: seq<Node>)
    ensures VisitList(k, xs + ys) == VisitList(k, xs) + VisitList(k, ys)
  {
    if xs == [] {
      assert xs + ys == ys;
    } else {
      assert (xs + ys)[1..] == xs[1..] + ys;
      VisitListAppend(k, xs[1..], ys);
    }
  }

  lemma {:induction false} VisitDictAppend(k: Kind, xs: seq<Entry>, ys: seq<Entry>)
    ensures VisitDict(k, xs + ys) == VisitDict(k, xs) + VisitDict(k, ys)
  {
    if xs == [] {
      assert xs + ys == ys;
    } else {
      assert (xs + ys)[1..] == xs[1..] + ys;
      VisitDictAppend(k, xs[1..], ys);
    }
  }

  lemma {:induction false} RunObjHandlerAppend(k: Kind, xs: seq<ObjStep>, ys: seq<ObjStep>, n: Node)
    requires n.Obj?
    ensures RunObjHandler(k, xs + ys, n) == RunObjHandler(k, xs, n) + RunObjHandler(k, ys, n)
  {
    if xs == [] {
      assert xs + ys == ys;
    } else {
      assert (xs + ys)[1..] == xs[1..] + ys;
      RunObjHandlerAppend(k, xs[1..], ys, n);
    }
  }

  lemma {:induction false} RunAttrHandlerAppend(xs: seq<AttrStep>, ys: seq<AttrStep>, a: Attr)
    ensures RunAttrHandler(xs + ys, a) == RunAttrHandler(xs, a) + RunAttrHandler(ys, a)
  {
    if xs == [] {
      assert xs + ys == ys;
    } else {
      assert (xs + ys)[1..] == xs[1..] + ys;
      RunAttrHandlerAppend(xs[1..], ys, a);
    }
  }

  // ---------------------------------------------------------------------
  // Private attributes and dict keys take no part in the traversal.

  /** Dropping the private attributes of an object does not change what its
      default traversal records. */
  lemma {:induction false} PrivateAttrsIgnored(k: Kind, chain: seq<TypeTag>, attrs: seq<Attr>)
    ensures VisitAttrs(k, chain, attrs) == VisitAttrs(k, chain, PublicAttrs(attrs))
  {
    if attrs != [] {
      PrivateAttrsIgnored(k, chain, attrs[1..]);
      if !IsPrivate(attrs[0].name) {
        var p := [attrs[0]] + PublicAttrs(attrs[1..]);
        assert p[0] == attrs[0] && p[1..] == PublicAttrs(attrs[1..]);
      }
    }
  }

  /** A dict is visited exactly as the list of its values. */
  lemma {:induction false} DictVisitsValues(k: Kind, entries: seq<Entry>)
    ensures VisitDict(k, entries) == VisitList(k, DictValues(entries))
  {
    if entries != [] {
      DictVisitsValues(k, entries[1..]);
      var vs := DictValues(entries);
      assert vs[1..] == DictValues(entries[1..]);
    }
  }

  /** Two dicts with the same values in the same order are visited alike,
      whatever their keys. */
  lemma DictKeysIgnored(k: Kind, xs: seq<Entry>, ys: seq<Entry>)
    requires DictValues(xs) == DictValues(ys)
    ensures VisitDict(k, xs) == VisitDict(k, ys)
  {
    DictVisitsValues(k, xs);
    DictVisitsValues(k, ys);
  }

  /** A list of leaves is recorded element by element, in order. */
  lemma {:induction false} LeafListRecorded(k: Kind, items: seq<Node>)
    requires forall i :: 0 <= i < |items| ==> items[i].Leaf?
    ensures VisitList(k, items) == items
  {
    if items != [] {
      LeafListRecorded(k, items[1..]);
    }
  }

  // ---------------------------------------------------------------------
  // What the handlers' return values decide.

  /** An object handler that returns False leaves the node's attributes to
      whatever its own steps did; one that returns nothing is followed by
      the default traversal. */
  lemma ObjHandlerSignal(k: Kind, n: Node, h: ObjHandler)
    requires n.Obj? && Resolve(k.objHandlers, Mro(n)) == Some(h)
    ensures h.signal == Stop ==> Visit(k, n) == RunObjHandler(k, h.steps, n)
    ensures h.signal == Continue ==>
      Visit(k, n) == RunObjHandler(k, h.steps, n) + VisitObject(k, n)
  {
  }

  /** An object handler that records `x`, runs `visitObject` itself and
      returns False has the node's attributes traversed exactly once, after
      `x`. */
  lemma ManualTraversalOnce(k: Kind, n: Node, x: Node)
    requires n.Obj?
    requires Resolve(k.objHandlers, Mro(n)) == Some(ObjHandler([Record(x), DefaultTraversal], Stop))
    ensures Visit(k, n) == [x] + VisitObject(k, n)
  {
    var steps := [Record(x), DefaultTraversal];
    assert steps[1..] == [DefaultTraversal] && steps[1..][1..] == [];
    assert RunObjHandler(k, steps[1..], n) == VisitObject(k, n) + [];
    assert RunObjHandler(k, steps, n) == [x] + RunObjHandler(k, steps[1..], n);
  }

  /** An attribute handler that returns False suppresses the visit of the
      value; one that returns nothing is followed by a full visit of it. */
  lemma AttrHandlerSignal(k: Kind, chain: seq<TypeTag>, a: Attr, h: AttrHandler)
    requires !IsPrivate(a.name)
    requires Resolve(k.attrHandlers, AttrKeys(chain, a.name)) == Some(h)
    ensures h.signal == Stop ==> VisitObjectAttr(k, chain, a) == RunAttrHandler(h.steps, a)
    ensures h.signal == Continue ==>
      VisitObjectAttr(k, chain, a) == RunAttrHandler(h.steps, a) + Visit(k, a.value)
  {
  }

  /** The items an attribute handler appends come from its own script, the
      attribute's name or the attribute's value. */
  lemma {:induction false} RunAttrHandlerItems(steps: seq<AttrStep>, a: Attr, x: Node)
    requires x in RunAttrHandler(steps, a)
    ensures RecordItem(x) in steps || x == Leaf(Str(a.name)) || x == a.value
  {
    if steps != [] {
      var head := match steps[0]
        case RecordItem(y) => [y]
        case RecordName => [Leaf(Str(a.name))]
        case RecordValue => [a.value];
      assert RunAttrHandler(steps, a) == head + RunAttrHandler(steps[1..], a);
      if x !in head {
        RunAttrHandlerItems(steps[1..], a, x);
      }
    }
  }

  /** With a Stop handler that never records the value, the attribute's
      value makes no difference to the trace. */
  lemma {:induction false} StoppedValueUnseen(k: Kind, chain: seq<TypeTag>, name: string,
                                              v1: Node, v2: Node, h: AttrHandler)
    requires !IsPrivate(name)
    requires Resolve(k.attrHandlers, AttrKeys(chain, name)) == Some(h)
    requires h.signal == Stop && RecordValue !in h.steps
    ensures VisitObjectAttr(k, chain, Attr(name, v1)) == VisitObjectAttr(k, chain, Attr(name, v2))
  {
    RunAttrHandlerSameValue(h.steps, name, v1, v2);
  }

  lemma {:induction false} RunAttrHandlerSameValue(steps: seq<AttrStep>, name: string, v1: Node, v2: Node)
    requires RecordValue !in steps
    ensures RunAttrHandler(steps, Attr(name, v1)) == RunAttrHandler(steps, Attr(name, v2))
  {
    if steps != [] {
      assert steps[0] in steps;
      assert forall s :: s in steps[1..] ==> s in steps;
      RunAttrHandlerSameValue(steps[1..], name, v1, v2);
    }
  }

  // ---------------------------------------------------------------------
  // Where the recorded items come from.

  /** The values reachable from `n` along the paths the default traversal
      follows (public attributes, list elements, dict values), together with
      the names of those public attributes, as strings. */
  ghost function Visible(n: Node): set<Node>
    decreases n, 1
  {
    {n} +
      match n
      case Obj(_, _, attrs) => VisibleAttrs(attrs)
      case List(items) => VisibleList(items)
      case Dict(entries) => VisibleDict(entries)
      case Leaf(_) => {}
  }

  ghost function VisibleAttrs(attrs: seq<Attr>): set<Node>
    decreases attrs
  {
    if attrs == [] then {}
    else if IsPrivate(attrs[0].name) then VisibleAttrs(attrs[1..])
    else {Leaf(Str(attrs[0].name))} + Visible(attrs[0].value) + VisibleAttrs(attrs[1..])
  }

  ghost function VisibleList(items: seq<Node>): set<Node>
    decreases items
  {
    if items == [] then {} else Visible(items[0]) + VisibleList(items[1..])
  }

  ghost function VisibleDict(entries: seq<Entry>): set<Node>
    decreases entries
  {
    if entries == [] then {} else VisibleEntry(entries[0]) + VisibleDict(entries[1..])
  }

  ghost function VisibleEntry(e: Entry): set<Node>
    decreases e
  {
    Visible(e.value)
  }

  /** `x` is a fixed item some registered handler appends. */
  ghost predicate Emits(k: Kind, x: Node)
  {
    (exists t :: t in k.objHandlers && Record(x) in k.objHandlers[t].steps) ||
    (exists p :: p in k.attrHandlers && RecordItem(x) in k.attrHandlers[p].steps)
  }

  /** Every item the traversal records is either a fixed item of some
      registered handler's script or visible from the root.  So a value that
      is neither (one held only under a private attribute or only as a dict
      key, and equal to nothing visible) is never recorded. */
  lemma {:induction false} VisitSources(k: Kind, n: Node, x: Node)
    requires x in Visit(k, n)
    ensures Emits(k, x) || x in Visible(n)
    decreases n, 2
  {
    match n
    case Obj(_, _, _) =>
      match Resolve(k.objHandlers, Mro(n)) {
        case None =>
          ObjectSources(k, n, x);
        case Some(h) =>
          if x in RunObjHandler(k, h.steps, n) {
            RunObjHandlerSources(k, h.steps, n, x);
            if Record(x) in h.steps {
              var i :| 0 <= i < |Mro(n)| && Mro(n)[i] in k.objHandlers && k.objHandlers[Mro(n)[i]] == h;
              assert Record(x) in k.objHandlers[Mro(n)[i]].steps;
            }
          } else {
            ObjectSources(k, n, x);
          }
      }
    case List(items) =>
      ListSources(k, items, x);
    case Dict(entries) =>
      DictSources(k, entries, x);
    case Leaf(_) =>
  }

  lemma {:induction false} RunObjHandlerSources(k: Kind, steps: seq<ObjStep>, n: Node, x: Node)
    requires n.Obj? && x in RunObjHandler(k, steps, n)
    ensures Record(x) in steps || Emits(k, x) || x in Visible(n)
    decreases n, 1, |steps|
  {
    if steps != [] {
      var head := match steps[0]
        case Record(y) => [y]
        case RecordNode => [n]
        case DefaultTraversal => VisitObject(k, n);
      assert RunObjHandler(k, steps, n) == head + RunObjHandler(k, steps[1..], n);
      if x in head {
        if steps[0] == DefaultTraversal {
          ObjectSources(k, n, x);
        }
      } else {
        RunObjHandlerSources(k, steps[1..], n, x);
      }
    }
  }

  lemma {:induction false} ObjectSources(k: Kind, n: Node, x: Node)
    requires n.Obj? && x in VisitObject(k, n)
    ensures Emits(k, x) || x in Visible(n)
    decreases n, 0
  {
    AttrsSources(k, Mro(n), n.attrs, x);
  }

  lemma {:induction false} AttrsSources(k: Kind, chain: seq<TypeTag>, attrs: seq<Attr>, x: Node)
    requires x in VisitAttrs(k, chain, attrs)
    ensures Emits(k, x) || x in VisibleAttrs(attrs)
    decreases attrs
  {
    if x in VisitObjectAttr(k, chain, attrs[0]) {
      ObjectAttrSources(k, chain, attrs[0], x);
    } else {
      AttrsSources(k, chain, attrs[1..], x);
    }
  }

  lemma {:induction false} ObjectAttrSources(k: Kind, chain: seq<TypeTag>, a: Attr, x: Node)
    requires x in VisitObjectAttr(k, chain, a)
    ensures Emits(k, x) || (!IsPrivate(a.name) && (x == Leaf(Str(a.name)) || x in Visible(a.value)))
    decreases a
  {
    var keys := AttrKeys(chain, a.name);
    match Resolve(k.attrHandlers, keys)
    case None =>
      VisitSources(k, a.value, x);
    case Some(h) =>
      if x in RunAttrHandler(h.steps, a) {
        RunAttrHandlerItems(h.steps, a, x);
        if RecordItem(x) in h.steps {
          var i :| 0 <= i < |keys| && keys[i] in k.attrHandlers && k.attrHandlers[keys[i]] == h;
          assert RecordItem(x) in k.attrHandlers[keys[i]].steps;
        }
      } else {
        VisitSources(k, a.value, x);
      }
  }

  lemma {:induction false} ListSources(k: Kind, items: seq<Node>, x: Node)
    requires x in VisitList(k, items)
    ensures Emits(k, x) || x in VisibleList(items)
    decreases items
  {
    if x in Visit(k, items[0]) {
      VisitSources(k, items[0], x);
    } else {
      ListSources(k, items[1..], x);
    }
  }

  lemma {:induction false} DictSources(k: Kind, entries: seq<Entry>, x: Node)
    requires x in VisitDict(k, entries)
    ensures Emits(k, x) || x in VisibleDict(entries)
    decreases entries
  {
    if x in VisitEntry(k, entries[0]) {
      EntrySources(k, entries[0], x);
    } else {
      DictSources(k, entries[1..], x);
    }
  }

  lemma {:induction false} EntrySources(k: Kind, e: Entry, x: Node)
    requires x in VisitEntry(k, e)
    ensures Emits(k, x) || x in VisibleEntry(e)
    decreases e
  {
    VisitSources(k, e.value, x);
  }
}
