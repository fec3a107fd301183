/**
 The slice of the PHP runtime that the container relies on, as plain values:
 class names, the objects the container hands out, closures, and a fixed
 "type universe" standing in for PHP reflection (`class_implements`,
 `ReflectionClass::getConstructor`, `ReflectionFunction::invokeArgs`).
 */
module Runtime {

  type ClassName = string

  /** Keys of the container are class or interface names. */
  type Key = ClassName

  /** The marker interface `mpstyle\container\Injectable`. */
  const Injectable: ClassName := "mpstyle\\container\\Injectable"

  /** The class of every PHP closure. */
  const ClosureClass: ClassName := "Closure"

  datatype Option<T> = None | Some(value: T)

  /** What reflection tells about one class: the interfaces it implements
      (as `class_implements` lists them: never the class itself nor its
      parents) and its constructor, if it declares one, as the ordered
      list of its parameters' class names. */
  datatype ClassInfo = ClassInfo(interfaces: set<ClassName>, ctor: Option<seq<ClassName>>)

  /** A closure: its identity and the classes of its parameters, in order. */
  datatype Closure = Closure(id: nat, params: seq<ClassName>)

  /** A PHP object: its identity, its runtime class and the arguments its
      constructor received. */
  datatype Obj = Obj(id: nat, cls: ClassName, args: seq<Value>)

  /** The values an injectable object may hold: a class name, an object or a closure. */
  datatype Value = Name(name: ClassName) | Object(obj: Obj) | Callable(fn: Closure)

  /** The type universe: every class reflection knows, and the bodies of
      closures, which the model does not see and only applies. */
  datatype Universe = Universe(classes: map<ClassName, ClassInfo>, call: (Closure, seq<Value>) -> Value)

  datatype Error =
    | NotInjectable(name: ClassName)     // NotInjectableException
    | ReflectionFailure(name: ClassName) // a ReflectionException: no such class, or not callable

  datatype Result<T> = Ok(value: T) | Err(error: Error)

  datatype Outcome = Pass | Fail(error: Error)

  /** `class_implements` of a class name: a class unknown to the universe implements nothing. */
  function Interfaces(u: Universe, cls: ClassName): set<ClassName> {
    if cls in u.classes then u.classes[cls].interfaces else {}
  }

  /** The class a value stands for: `class_implements` and `ReflectionClass`
      accept a class name as well as an object. */
  function ClassOf(v: Value): ClassName {
    match v
    case Name(n) => n
    case Object(o) => o.cls
    case Callable(_) => ClosureClass
  }

  /** The registration guard of `addDefinition` and `addInstance`: the
      produced class implements `Injectable` or the key itself. */
  predicate Satisfies(u: Universe, key: Key, cls: ClassName) {
    Injectable in Interfaces(u, cls) || key in Interfaces(u, cls)
  }

  function CtorParams(info: ClassInfo): seq<ClassName> {
    match info.ctor
    case None => []
    case Some(ps) => ps
  }

  function RankOf(rank: map<ClassName, nat>, cls: ClassName): nat {
    if cls in rank then rank[cls] else 0
  }

  /** `rank` witnesses that the constructor-dependency relation of the
      universe is acyclic: every constructor parameter ranks below its class. */
  ghost predicate Ranked(u: Universe, rank: map<ClassName, nat>) {
    forall c <- u.classes.Keys, p <- CtorParams(u.classes[c]) :: RankOf(rank, p) < RankOf(rank, c)
  }

  /** A strict upper bound of the ranks of `ps`. */
  function ParamsBound(rank: map<ClassName, nat>, ps: seq<ClassName>): (b: nat)
    ensures forall p <- ps :: RankOf(rank, p) < b
  {
    if ps == [] then 0
    else
      var b := ParamsBound(rank, ps[..|ps| - 1]);
      var last := RankOf(rank, ps[|ps| - 1]);
      assert ps == ps[..|ps| - 1] + [ps[|ps| - 1]];
      if last < b then b else last + 1
  }

  /** The identities of every object in `v`, in the order a construction
      allocates them: arguments first, left to right, then the object itself. */
  function Ids(v: Value): seq<nat>
    decreases v, 1
  {
    match v
    case Object(o) => IdsAll(o.args) + [o.id]
    case _ => []
  }

  function IdsAll(vs: seq<Value>): seq<nat>
    decreases vs, 0
  {
    if vs == [] then [] else IdsAll(vs[..|vs| - 1]) + Ids(vs[|vs| - 1])
  }

  /** The identities `lo`, `lo + 1`, ..., `hi - 1`. */
  function Range(lo: nat, hi: nat): (r: seq<nat>)
    requires lo <= hi
    ensures |r| == hi - lo
    ensures forall i :: 0 <= i < |r| ==> r[i] == lo + i
    decreases hi - lo
  {
    if lo == hi then [] else Range(lo, hi - 1) + [hi - 1]
  }

  lemma RangeSplit(lo: nat, mid: nat, hi: nat)
    requires lo <= mid <= hi
    ensures Range(lo, mid) + Range(mid, hi) == Range(lo, hi)
  {
  }
}
