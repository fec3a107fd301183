/**
 The mutable (type, value) pair the container's map stores for every key.
 */
module InjectableObjects {
  import opened Runtime

  /** The producer kinds of `InjectableObjectType`. */
  datatype Tag = ClassType | ClosureType | ObjectType

  /** The pair as a value, for specifications. */
  datatype Producer = Producer(tag: Tag, value: Value)

  class InjectableObject {
    var tag: Tag  // `$type`
    var value: Value

    ghost function Pair(): Producer
      reads this
    {
      Producer(tag, value)
    }

    constructor (t: Tag, value: Value)
      ensures tag == t && this.value == value
    {
      tag := t;
      this.value := value;
    }

    method GetType() returns (t: Tag)
      ensures t == tag
    {
      t := tag;
    }

    /** Overwrites the type only; returns the object itself. */
    method SetType(t: Tag) returns (self: InjectableObject)
      modifies this
      ensures tag == t && value == old(value)
      ensures self == this
    {
      tag := t;
      self := this;
    }

    method GetValue() returns (v: Value)
      ensures v == value
    {
      v := value;
    }

    /** Overwrites the value only; returns the object itself. */
    method SetValue(v: Value) returns (self: InjectableObject)
      modifies this
      ensures value == v && tag == old(tag)
      ensures self == this
    {
      value := v;
      self := this;
    }
  }
}
