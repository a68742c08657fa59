// The common base of every named simulation element: a name and a kind tag.
module BaseObjects {
  import opened Common

  /** The value of a BaseObject. Events and modules embed one by value. */
  datatype BaseObject = BaseObject(name: string, kind: int32)

  /** The `const char*` constructor: a null name gives the empty name; the kind starts at 0. */
  function FromCString(name: Option<string>): (b: BaseObject)
    ensures b.kind == 0
    ensures name.None? ==> b.name == []
    ensures name.Some? ==> b.name == name.value
  {
    BaseObject(if name.Some? then name.value else [], 0)
  }

  /** The `std::string` constructor (also the default constructor, with the empty name). */
  function FromString(name: string): (b: BaseObject)
    ensures b.kind == 0 && b.name == name
    ensures b == FromCString(Some(name))
  {
    BaseObject(name, 0)
  }

  /** operator== compares kind and name, so it is exactly value equality. */
  predicate Equals(a: BaseObject, b: BaseObject)
    ensures Equals(a, b) <==> a == b
  {
    a.kind == b.kind && a.name == b.name
  }

  /** operator!= is the negation of operator==. */
  predicate NotEquals(a: BaseObject, b: BaseObject)
    ensures NotEquals(a, b) <==> a != b
  {
    !Equals(a, b)
  }

  /** setName(const char*): a null name clears the name; the kind is kept. */
  function WithName(b: BaseObject, name: Option<string>): (r: BaseObject)
    ensures r.kind == b.kind
    ensures r.name == FromCString(name).name
  {
    b.(name := if name.Some? then name.value else [])
  }

  /** setName(const std::string&). */
  function WithNameString(b: BaseObject, name: string): (r: BaseObject)
    ensures r.kind == b.kind && r.name == name
    ensures r == WithName(b, Some(name))
  {
    b.(name := name)
  }

  /** setKind: the name is kept. */
  function WithKind(b: BaseObject, kind: int32): (r: BaseObject)
    ensures r.name == b.name && r.kind == kind
  {
    b.(kind := kind)
  }

  /** Setting a name, then a kind, gives an object equal to one built with both. */
  lemma SettersCommute(b: BaseObject, name: string, kind: int32)
    ensures WithKind(WithNameString(b, name), kind) == WithNameString(WithKind(b, kind), name)
    ensures Equals(WithKind(WithNameString(b, name), kind), BaseObject(name, kind))
  {
  }

  /** A BaseObject variable, for the setters and the assignment that update it in place. */
  class BaseObjectVar {
    var name: string
    var kind: int32

    function Value(): BaseObject
      reads this
    {
      BaseObject(name, kind)
    }

    constructor FromPointer(n: Option<string>)
      ensures Value() == FromCString(n)
    {
      name := [];
      kind := 0;
      if n.Some? {
        name := n.value;
      }
    }

    /** Copy constructor: the name starts empty, then operator= copies. */
    constructor Copy(other: BaseObjectVar)
      ensures Value() == other.Value()
    {
      name := [];
      kind := other.kind;
      name := other.name;
    }

    /** operator=: copies name and kind unless the argument is this very object. */
    method Assign(other: BaseObjectVar)
      modifies this
      ensures Value() == old(other.Value())
    {
      if other != this {
        name := other.name;
        kind := other.kind;
      }
    }

    method SetName(n: Option<string>)
      modifies this
      ensures Value() == WithName(old(Value()), n)
    {
      if n.Some? {
        name := n.value;
      } else {
        name := [];
      }
    }

    method SetNameString(n: string)
      modifies this
      ensures Value() == WithNameString(old(Value()), n)
    {
      name := n;
    }

    method SetKind(k: int32)
      modifies this
      ensures Value() == WithKind(old(Value()), k)
    {
      kind := k;
    }
  }
}
