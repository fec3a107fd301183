/**
 The container: a map from keys to injectable objects, guarded registration
 of class definitions and instances, unguarded registration of closures, and
 `get`, which registers an unknown key as a definition of itself, produces
 the instance through the factory and memoises it as an instance entry.

 `Resolve` specifies `get` on the registry's abstract value (key to
 producer) and the allocator's state; `Container.Get` is proved against it.
 */
module Containers {
  import opened Runtime
  import opened InjectableObjects
  import opened Factory

  type Registry = map<Key, Producer>

  // ---------------------------------------------------------------------
  // Specification

  /** The tail of `get`: `addInstance(key, instance)`, then return the value
      stored for `key`. */
  function Memoise(u: Universe, reg: Registry, key: Key, v: Value, next: nat): (Result<Value>, Registry, nat) {
    if Satisfies(u, key, ClassOf(v)) then (Ok(v), reg[key := Producer(ObjectType, v)], next)
    else (Err(NotInjectable(key)), reg, next)
  }

  /** `get(key)` on registry `reg` with allocator state `next`: the result,
      the new registry and the new allocator state. */
  ghost function Resolve(u: Universe, rank: map<ClassName, nat>, reg: Registry, key: Key, next: nat)
    : (Result<Value>, Registry, nat)
    requires Ranked(u, rank)
    decreases if key in reg then 0 else 1
  {
    if key !in reg then
      if !Satisfies(u, key, key) then (Err(NotInjectable(key)), reg, next)
      else
        var (inner, reg', n) := Resolve(u, rank, reg[key := Producer(ClassType, Name(key))], key, next);
        match inner
        case Err(e) => (Err(e), reg', n)
        case Ok(v) => Memoise(u, reg', key, v, n)
    else
      var (produced, n) := Produce(u, rank, reg[key], next);
      match produced
      case Err(e) => (Err(e), reg, n)
      case Ok(v) => Memoise(u, reg, key, v, n)
  }

  /** What registration guarantees of every entry: a class entry names a
      class that passed the capability check for its key, an instance entry
      holds a value that passed it, a closure entry holds a closure. */
  ghost predicate WellRegistered(u: Universe, reg: Registry) {
    forall k <- reg ::
      match reg[k].tag
      case ClassType => reg[k].value.Name? && Satisfies(u, k, reg[k].value.name)
      case ObjectType => Satisfies(u, k, ClassOf(reg[k].value))
      case ClosureType => reg[k].value.Callable?
  }

  // ---------------------------------------------------------------------
  // Properties of the specification

  /** After a successful `get(key)` the entry for `key` is an instance entry
      holding exactly the returned value, which passed the capability check;
      every other entry is as before, so no dependency is memoised. */
  lemma {:induction false} GetMemoises(u: Universe, rank: map<ClassName, nat>, reg: Registry, key: Key, next: nat)
    requires Ranked(u, rank)
    requires Resolve(u, rank, reg, key, next).0.Ok?
    ensures var v := Resolve(u, rank, reg, key, next).0.value;
            && Resolve(u, rank, reg, key, next).1 == reg[key := Producer(ObjectType, v)]
            && Satisfies(u, key, ClassOf(v))
    decreases if key in reg then 0 else 1
  {
    if key !in reg {
      GetMemoises(u, rank, reg[key := Producer(ClassType, Name(key))], key, next);
    }
  }

  /** `get(key)` never touches an entry other than `key`'s, whether it
      succeeds or fails. */
  lemma {:induction false} GetChangesOnlyKey(u: Universe, rank: map<ClassName, nat>, reg: Registry, key: Key, next: nat)
    requires Ranked(u, rank)
    ensures Resolve(u, rank, reg, key, next).1 - {key} == reg - {key}
    ensures next <= Resolve(u, rank, reg, key, next).2
    decreases if key in reg then 0 else 1
  {
    if key !in reg {
      var reg1 := reg[key := Producer(ClassType, Name(key))];
      GetChangesOnlyKey(u, rank, reg1, key, next);
      assert reg1 - {key} == reg - {key};
    } else {
      ProduceAdvances(u, rank, reg[key], next);
    }
  }

  /** The registry bypass: what `get(key)` produces depends on the entry for
      `key` alone; no other entry, memoised instance or definition is
      consulted. */
  lemma {:induction false} GetIgnoresOtherEntries(u: Universe, rank: map<ClassName, nat>, reg1: Registry, reg2: Registry, key: Key, next: nat)
    requires Ranked(u, rank)
    requires key in reg1 <==> key in reg2
    requires key in reg1 ==> reg1[key] == reg2[key]
    ensures Resolve(u, rank, reg1, key, next).0 == Resolve(u, rank, reg2, key, next).0
    ensures Resolve(u, rank, reg1, key, next).2 == Resolve(u, rank, reg2, key, next).2
    decreases if key in reg1 then 0 else 1
  {
    if key !in reg1 {
      var self := Producer(ClassType, Name(key));
      GetIgnoresOtherEntries(u, rank, reg1[key := self], reg2[key := self], key, next);
      if Satisfies(u, key, key) {
        var (inner1, r1, n1) := Resolve(u, rank, reg1[key := self], key, next);
        var (inner2, r2, n2) := Resolve(u, rank, reg2[key := self], key, next);
        if inner1.Ok? {
          GetMemoises(u, rank, reg1[key := self], key, next);
          GetMemoises(u, rank, reg2[key := self], key, next);
        }
      }
    }
  }

  /** Self-registration: `get` on an unregistered key first registers the key
      as a definition of itself. It fails with NotInjectable, changing
      nothing, when the key's class implements neither `Injectable` nor the
      key; otherwise it succeeds exactly when the class can be built, with a
      fresh instance of that class, and a failed construction leaves the
      self-definition in place. */
  lemma SelfRegistration(u: Universe, rank: map<ClassName, nat>, reg: Registry, key: Key, next: nat)
    requires Ranked(u, rank)
    requires key !in reg
    ensures !Satisfies(u, key, key) ==> Resolve(u, rank, reg, key, next) == (Err(NotInjectable(key)), reg, next)
    ensures Satisfies(u, key, key) ==>
              var (r, reg', n') := Resolve(u, rank, reg, key, next);
              && next <= n'
              && (r.Ok? <==> Constructible(u, rank, key))
              && (r.Ok? ==> r.value.Object? && r.value.obj.cls == key && Ids(r.value) == Range(next, n')
                            && reg' == reg[key := Producer(ObjectType, r.value)])
              && (r.Err? ==> r.error.ReflectionFailure? && reg' == reg[key := Producer(ClassType, Name(key))])
  {
    if Satisfies(u, key, key) {
      BuildSucceeds(u, rank, key, next);
      BuildAllocates(u, rank, key, next);
    }
  }

  /** An instance entry that passed registration is served as stored: the
      same value, no allocation, and the registry unchanged. */
  lemma StoredInstanceServed(u: Universe, rank: map<ClassName, nat>, reg: Registry, key: Key, next: nat)
    requires Ranked(u, rank)
    requires WellRegistered(u, reg)
    requires key in reg && reg[key].tag == ObjectType
    ensures Resolve(u, rank, reg, key, next) == (Ok(reg[key].value), reg, next)
  {
    assert reg[key := Producer(ObjectType, reg[key].value)] == reg;
  }

  /** A definition that passed registration is never rejected when its
      instance is memoised: `get` on it succeeds exactly when its class can
      be built, with an instance of that class, and fails otherwise only
      with a reflection failure. */
  lemma DefinitionResolves(u: Universe, rank: map<ClassName, nat>, reg: Registry, key: Key, next: nat)
    requires Ranked(u, rank)
    requires WellRegistered(u, reg)
    requires key in reg && reg[key].tag == ClassType
    ensures var r := Resolve(u, rank, reg, key, next).0;
            && (r.Ok? <==> Constructible(u, rank, ClassOf(reg[key].value)))
            && (r.Ok? ==> r.value.Object? && r.value.obj.cls == ClassOf(reg[key].value))
            && (r.Err? ==> r.error.ReflectionFailure?)
  {
    BuildSucceeds(u, rank, ClassOf(reg[key].value), next);
    BuildAllocates(u, rank, ClassOf(reg[key].value), next);
  }

  /** A failed `get` on a registered definition leaves the registry as it
      was: nothing is memoised and the definition stays. */
  lemma DefinitionFailureKeepsRegistry(u: Universe, rank: map<ClassName, nat>, reg: Registry, key: Key, next: nat)
    requires Ranked(u, rank)
    requires key in reg && reg[key].tag == ClassType
    requires Resolve(u, rank, reg, key, next).0.Err?
    ensures Resolve(u, rank, reg, key, next).1 == reg
    ensures Resolve(u, rank, reg, key, next).2 == Build(u, rank, ClassOf(reg[key].value), next).1
  {
  }

  /** Memoisation: once `get(key)` succeeded, a second `get(key)` returns the
      identical value, allocates nothing and leaves the registry equal. */
  lemma GetTwice(u: Universe, rank: map<ClassName, nat>, reg: Registry, key: Key, next: nat)
    requires Ranked(u, rank)
    requires Resolve(u, rank, reg, key, next).0.Ok?
    ensures var (r, reg', n') := Resolve(u, rank, reg, key, next);
            Resolve(u, rank, reg', key, n') == (r, reg', n')
  {
    GetMemoises(u, rank, reg, key, next);
    var (r, reg', n') := Resolve(u, rank, reg, key, next);
    assert reg'[key := Producer(ObjectType, r.value)] == reg';
  }

  /** The capability check is deferred for closures: a closure whose result
      implements neither `Injectable` nor the key makes `get` fail with
      NotInjectable at the memoising step, and the closure entry stays. */
  lemma ClosureCheckedOnGet(u: Universe, rank: map<ClassName, nat>, reg: Registry, key: Key, c: Closure, next: nat)
    requires Ranked(u, rank)
    requires key in reg && reg[key] == Producer(ClosureType, Callable(c))
    requires Invoke(u, rank, c, next).0.Ok?
    requires !Satisfies(u, key, ClassOf(Invoke(u, rank, c, next).0.value))
    ensures Resolve(u, rank, reg, key, next) == (Err(NotInjectable(key)), reg, Invoke(u, rank, c, next).1)
  {
  }

  /** `get` preserves what registration guarantees of every entry. */
  lemma GetKeepsWellRegistered(u: Universe, rank: map<ClassName, nat>, reg: Registry, key: Key, next: nat)
    requires Ranked(u, rank)
    requires WellRegistered(u, reg)
    ensures WellRegistered(u, Resolve(u, rank, reg, key, next).1)
  {
    GetChangesOnlyKey(u, rank, reg, key, next);
    var (r, reg', n') := Resolve(u, rank, reg, key, next);
    if r.Ok? {
      GetMemoises(u, rank, reg, key, next);
    } else if key !in reg {
      SelfRegistration(u, rank, reg, key, next);
    }
    forall k | k in reg' && k != key
      ensures k in reg && reg'[k] == reg[k]
    {
      assert k in reg' - {key};
    }
  }

  /** After `clear()`, a key whose instance was built by self-registration is
      built again: `get` succeeds once more, with a new instance that is not
      the one handed out before. */
  lemma ClearRebuilds(u: Universe, rank: map<ClassName, nat>, reg: Registry, key: Key, next: nat, later: nat)
    requires Ranked(u, rank)
    requires key !in reg
    requires Resolve(u, rank, reg, key, next).0.Ok?
    requires Resolve(u, rank, reg, key, next).2 <= later
    ensures Resolve(u, rank, map[], key, later).0.Ok?
    ensures Resolve(u, rank, map[], key, later).0 != Resolve(u, rank, reg, key, next).0
  {
    SelfRegistration(u, rank, reg, key, next);
    SelfRegistration(u, rank, map[], key, later);
    var (r1, _, n1) := Resolve(u, rank, reg, key, next);
    var (r2, _, n2) := Resolve(u, rank, map[], key, later);
    assert Ids(r1.value)[|Ids(r1.value)| - 1] == r1.value.obj.id;
    assert Ids(r2.value)[|Ids(r2.value)| - 1] == r2.value.obj.id;
  }

  // ---------------------------------------------------------------------
  // Implementation

  class Container {
    /** `$injectableObjects` */
    var injectableObjects: map<Key, InjectableObject>
    /** `$instance`, the factory */
    const instance: InstanceFactory

    /** The abstract value of the map: each key's (type, value) pair. */
    ghost function Registry(): Registry
      reads this, injectableObjects.Values
    {
      map k | k in injectableObjects :: injectableObjects[k].Pair()
    }

    ghost predicate Valid()
      reads this, injectableObjects.Values
    {
      instance.Valid() && WellRegistered(instance.universe, Registry())
    }

    constructor (u: Universe, ghost ranking: map<ClassName, nat>)
      requires Ranked(u, ranking)
      ensures Valid() && Registry() == map[]
      ensures fresh(instance) && instance.universe == u && instance.rank == ranking && instance.nextId == 0
    {
      injectableObjects := map[];
      instance := new InstanceFactory(u, ranking);
    }

    /** Removes every definition and instance. */
    method Clear()
      requires Valid()
      modifies this
      ensures Valid() && Registry() == map[]
    {
      injectableObjects := map[];
    }

    /** Registers `cls` as the class producing `key`, provided `cls`
        implements `Injectable` or `key`; otherwise fails with the class's
        name and changes nothing. */
    method AddDefinition(key: Key, cls: ClassName) returns (r: Outcome)
      requires Valid()
      modifies this
      ensures Valid()
      ensures r == if Satisfies(instance.universe, key, cls) then Pass else Fail(NotInjectable(cls))
      ensures Registry() == if r.Pass? then old(Registry())[key := Producer(ClassType, Name(cls))] else old(Registry())
    {
      var implemented := Interfaces(instance.universe, cls);
      if Injectable !in implemented && key !in implemented {
        return Fail(NotInjectable(cls));
      }
      var entry := new InjectableObject(ClassType, Name(cls));
      injectableObjects := injectableObjects[key := entry];
      r := Pass;
      assert Registry() == old(Registry())[key := Producer(ClassType, Name(cls))];
    }

    /** Registers `obj` as the instance for `key`, provided its class
        implements `Injectable` or `key`; otherwise fails with the key and
        changes nothing. */
    method AddInstance(key: Key, obj: Value) returns (r: Outcome)
      requires Valid()
      modifies this
      ensures Valid()
      ensures r == if Satisfies(instance.universe, key, ClassOf(obj)) then Pass else Fail(NotInjectable(key))
      ensures Registry() == if r.Pass? then old(Registry())[key := Producer(ObjectType, obj)] else old(Registry())
    {
      var implemented := Interfaces(instance.universe, ClassOf(obj));
      if Injectable !in implemented && key !in implemented {
        return Fail(NotInjectable(key));
      }
      var entry := new InjectableObject(ObjectType, obj);
      injectableObjects := injectableObjects[key := entry];
      r := Pass;
      assert Registry() == old(Registry())[key := Producer(ObjectType, obj)];
    }

    /** Registers closure `c` for `key`, with no capability check. */
    method AddClosure(key: Key, c: Closure)
      requires Valid()
      modifies this
      ensures Valid()
      ensures Registry() == old(Registry())[key := Producer(ClosureType, Callable(c))]
    {
      var entry := new InjectableObject(ClosureType, Callable(c));
      injectableObjects := injectableObjects[key := entry];
      assert Registry() == old(Registry())[key := Producer(ClosureType, Callable(c))];
    }

    /** `get(key)`: self-registers an unknown key, produces the instance and
        memoises it. */
    method Get(key: Key) returns (r: Result<Value>)
      requires Valid()
      modifies this, instance
      decreases if key in injectableObjects then 0 else 1
      ensures Valid()
      ensures (r, Registry(), instance.nextId)
              == Resolve(instance.universe, instance.rank, old(Registry()), key, old(instance.nextId))
    {
      var produced: Value;
      if key !in injectableObjects {
        var defined := AddDefinition(key, key);
        if defined.Fail? {
          return Err(defined.error);
        }
        assert key in Registry();
        var inner := Get(key);
        if inner.Err? {
          return inner;
        }
        produced := inner.value;
      } else {
        var entry := injectableObjects[key];
        assert entry.Pair() == Registry()[key];
        var made := instance.GetInjectableObject(entry);
        if made.Err? {
          return made;
        }
        produced := made.value;
      }
      var memoised := AddInstance(key, produced);
      if memoised.Fail? {
        return Err(memoised.error);
      }
      assert key in Registry();
      var stored := injectableObjects[key].GetValue();
      assert stored == Registry()[key].value;
      r := Ok(stored);
    }
  }
}
