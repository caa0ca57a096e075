/** Handlers and the per-visitor registry that holds them.

    A handler in Python is arbitrary code.  The handlers of this model are
    scripts of the few things a handler does to the visitor: append an item
    to the visitor's accumulator, or (an object handler) run the default
    attribute traversal itself.  Each script ends with the value the handler
    returns: `Stop` for `return False`, `Continue` for returning nothing. */
module Handlers {
  import opened Nodes

  datatype Option<T> = None | Some(value: T)

  datatype Signal = Stop | Continue

  /** What an object handler `visit(self, obj)` can do. */
  datatype ObjStep =
    | Record(item: Node)   // self._add(item) with a fixed item
    | RecordNode           // self._add(obj)
    | DefaultTraversal     // self.visitObject(obj)

  /** What an attribute handler `visit(self, obj, attr, value)` can do. */
  datatype AttrStep =
    | RecordItem(item: Node)   // self._add(item) with a fixed item
    | RecordName               // self._add(attr)
    | RecordValue              // self._add(value)

  datatype ObjHandler = ObjHandler(steps: seq<ObjStep>, signal: Signal)

  datatype AttrHandler = AttrHandler(steps: seq<AttrStep>, signal: Signal)

  /** The handlers registered on one visitor class: object handlers keyed
      by class, attribute handlers keyed by (class, attribute name). */
  datatype Kind = Kind(
    objHandlers: map<TypeTag, ObjHandler>,
    attrHandlers: map<(TypeTag, string), AttrHandler>)

  /** The handler of the first key in `keys` that `m` holds: the most
      specific registration wins, and a key without one falls back to the
      next. */
  function Resolve<K, H>(m: map<K, H>, keys: seq<K>): (r: Option<H>)
    ensures r.None? <==> forall i :: 0 <= i < |keys| ==> keys[i] !in m
    ensures r.Some? ==>
      exists i :: 0 <= i < |keys| && keys[i] in m && m[keys[i]] == r.value &&
        forall j :: 0 <= j < i ==> keys[j] !in m
  {
    if keys == [] then None
    else if keys[0] in m then Some(m[keys[0]])
    else
      var r := Resolve(m, keys[1..]);
      assert forall i :: 1 <= i < |keys| ==> keys[i] == keys[1..][i - 1];
      r
  }

  /** The keys searched for the attribute handler of `name` on an object
      whose class chain is `chain`: the name is matched exactly, the class
      falls back along the chain. */
  function AttrKeys(chain: seq<TypeTag>, name: string): seq<(TypeTag, string)>
  {
    seq(|chain|, i requires 0 <= i < |chain| => (chain[i], name))
  }

  /** The class-level handler tables of a visitor class, filled in by the
      registration decorators.  Registering a key again replaces the
      earlier handler. */
  class VisitorRegistry {
    var objHandlers: map<TypeTag, ObjHandler>
    var attrHandlers: map<(TypeTag, string), AttrHandler>

    constructor ()
      ensures objHandlers == map[] && attrHandlers == map[]
    {
      objHandlers := map[];
      attrHandlers := map[];
    }

    /** The registrations made so far, as the value a traversal uses. */
    function Current(): Kind
      reads this
    {
      Kind(objHandlers, attrHandlers)
    }

    /** `register(clazz)`: `h` becomes the object handler of `clazz`. */
    method Register(clazz: TypeTag, h: ObjHandler)
      modifies this
      ensures objHandlers == old(objHandlers)[clazz := h]
      ensures attrHandlers == old(attrHandlers)
    {
      objHandlers := objHandlers[clazz := h];
    }

    /** `register_attr(clazz, attr)`: `h` becomes the handler of attribute
        `attr` of `clazz`. */
    method RegisterAttr(clazz: TypeTag, attr: string, h: AttrHandler)
      modifies this
      ensures attrHandlers == old(attrHandlers)[(clazz, attr) := h]
      ensures objHandlers == old(objHandlers)
    {
      attrHandlers := attrHandlers[(clazz, attr) := h];
    }

    /** `register_attrs(pairs)`: `h` becomes the handler of every
        (class, attribute) pair listed; other pairs keep their handlers. */
    method RegisterAttrs(pairs: seq<(TypeTag, string)>, h: AttrHandler)
      modifies this
      ensures attrHandlers.Keys == old(attrHandlers).Keys + set p | p in pairs
      ensures forall p :: p in pairs ==> attrHandlers[p] == h
      ensures forall p :: p in old(attrHandlers) && p !in pairs ==>
        attrHandlers[p] == old(attrHandlers)[p]
      ensures objHandlers == old(objHandlers)
    {
      var i := 0;
      while i < |pairs|
        invariant 0 <= i <= |pairs|
        invariant attrHandlers.Keys == old(attrHandlers).Keys + set p | p in pairs[..i]
        invariant forall p :: p in pairs[..i] ==> attrHandlers[p] == h
        invariant forall p :: p in old(attrHandlers) && p !in pairs[..i] ==>
          attrHandlers[p] == old(attrHandlers)[p]
        invariant objHandlers == old(objHandlers)
      {
        assert pairs[..i + 1] == pairs[..i] + [pairs[i]];
        attrHandlers := attrHandlers[pairs[i] := h];
        i := i + 1;
      }
      assert pairs[..i] == pairs;
    }
  }
}
