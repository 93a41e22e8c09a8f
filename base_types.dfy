/**
 * Identity and hashing rules of the domain base classes
 * (src/allocation/lib/base_types.py): entities are equal by class and id,
 * value objects hash over their type and every field value.
 *
 * Python's `hash` of a string, of a class or of a tuple is a runtime
 * detail, so it enters as a function parameter; what is modelled is WHICH
 * parts of an object reach it.
 */
module BaseTypes {

  /** A Python class, given by its chain of bases from the root class down to itself. */
  datatype PyClass = PyClass(lineage: seq<string>)

  /** `isinstance(obj, cls)` for an object whose class is `objClass`:
      `cls` is that class or one of its bases. */
  predicate IsInstance(objClass: PyClass, cls: PyClass) {
    cls.lineage <= objClass.lineage
  }

  /** The only parts of an entity that `Entity.__eq__` and `Entity.__hash__` read. */
  datatype Identity = Identity(cls: PyClass, id: string)

  /** `Entity.__eq__`: `other` is an instance of `self`'s class and has the same id. */
  predicate EntityEq(self: Identity, other: Identity) {
    IsInstance(other.cls, self.cls) && other.id == self.id
  }

  /** `Entity.__hash__`: `hash(self.__class__) + hash(self.id)`. */
  function EntityHash(hashClass: PyClass -> int, hashStr: string -> int, self: Identity): int {
    hashClass(self.cls) + hashStr(self.id)
  }

  /** Two entities of one class are equal exactly when their ids are. */
  lemma EntityEqByClassAndId(a: Identity, b: Identity)
    requires a.cls == b.cls
    ensures EntityEq(a, b) <==> a.id == b.id
    ensures EntityEq(a, b) <==> EntityEq(b, a)
  {
  }

  /** Equal entities of one class hash alike, so they can share a set or dict. */
  lemma EqualEntitiesHashAlike(hashClass: PyClass -> int, hashStr: string -> int, a: Identity, b: Identity)
    requires a.cls == b.cls && EntityEq(a, b)
    ensures EntityHash(hashClass, hashStr, a) == EntityHash(hashClass, hashStr, b)
  {
  }

  /** One element of the tuple that `DomainBaseModel.__hash__` hashes. */
  datatype HashItem = ClassItem(cls: PyClass) | StrItem(s: string) | IntItem(i: int) | NoneItem

  /** `(type(self),) + tuple(self.__dict__.values())`. */
  function ValueHashKey(cls: PyClass, fields: seq<HashItem>): (key: seq<HashItem>)
    ensures |key| == |fields| + 1
  {
    [ClassItem(cls)] + fields
  }

  /** `DomainBaseModel.__hash__` (and so `ValueObject.__hash__`). */
  function ValueHash(hashTuple: seq<HashItem> -> int, cls: PyClass, fields: seq<HashItem>): int {
    hashTuple(ValueHashKey(cls, fields))
  }

  /** The hashed tuple determines the type and every field, so a value
      object's hash can depend on each of them. */
  lemma ValueHashKeyDeterminesFields(c1: PyClass, f1: seq<HashItem>, c2: PyClass, f2: seq<HashItem>)
    ensures ValueHashKey(c1, f1) == ValueHashKey(c2, f2) <==> c1 == c2 && f1 == f2
  {
    if ValueHashKey(c1, f1) == ValueHashKey(c2, f2) {
      assert f1 == ValueHashKey(c1, f1)[1..];
      assert f2 == ValueHashKey(c2, f2)[1..];
    }
  }
}
