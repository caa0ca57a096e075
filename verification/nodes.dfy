/** The object graph a visitor walks.

    Python classifies a value at run time: an object with instance
    attributes, a list, a dict, or anything else (a leaf).  Here that
    classification is made explicit by the constructor of `Node`, and the
    run-time type of an object is an explicit tag. */
module Nodes {

  /** A terminal value: the ints and strings of the test's object graph. */
  datatype Scalar = Int(i: int) | Str(s: string)

  /** The name of a Python class. */
  type TypeTag = string

  datatype Node =
    /** An instance of class `typ`.  `bases` are the classes it inherits
        from, most derived first; `attrs` are its instance attributes in
        the order they were assigned. */
    | Obj(typ: TypeTag, bases: seq<TypeTag>, attrs: seq<Attr>)
    | List(items: seq<Node>)
    /** A dict, as its (key, value) pairs in insertion order. */
    | Dict(entries: seq<Entry>)
    | Leaf(value: Scalar)

  datatype Attr = Attr(name: string, value: Node)

  datatype Entry = Entry(key: Node, value: Node)

  /** Attribute names that start with an underscore are private. */
  predicate IsPrivate(name: string)
  {
    |name| > 0 && name[0] == '_'
  }

  /** The classes searched for a handler of an object: its own class, then
      its bases. */
  function Mro(n: Node): seq<TypeTag>
    requires n.Obj?
  {
    [n.typ] + n.bases
  }

  /** The public attributes of an object, in their original order.  With
      `PublicAttrsAppend` below, the first two clauses fix the result: the
      filter keeps or drops each attribute on its own, in place. */
  function PublicAttrs(attrs: seq<Attr>): (r: seq<Attr>)
    ensures attrs == [] ==> r == []
    ensures |attrs| == 1 ==> r == (if IsPrivate(attrs[0].name) then [] else attrs)
    ensures |r| <= |attrs|
    ensures forall a :: a in r ==> a in attrs && !IsPrivate(a.name)
    ensures forall a :: a in attrs && !IsPrivate(a.name) ==> a in r
  {
    if attrs == [] then []
    else if IsPrivate(attrs[0].name) then PublicAttrs(attrs[1..])
    else [attrs[0]] + PublicAttrs(attrs[1..])
  }

  /** Filtering a concatenation filters each part and keeps their order. */
  lemma {:induction false} PublicAttrsAppend(xs: seq<Attr>, ys: seq<Attr>)
    ensures PublicAttrs(xs + ys) == PublicAttrs(xs) + PublicAttrs(ys)
  {
    if xs == [] {
      assert xs + ys == ys;
    } else {
      assert (xs + ys)[0] == xs[0] && (xs + ys)[1..] == xs[1..] + ys;
      PublicAttrsAppend(xs[1..], ys);
    }
  }

  /** The values of a dict, in insertion order. */
  function DictValues(entries: seq<Entry>): (r: seq<Node>)
    ensures |r| == |entries|
    ensures forall i :: 0 <= i < |entries| ==> r[i] == entries[i].value
  {
    if entries == [] then [] else [entries[0].value] + DictValues(entries[1..])
  }
}
