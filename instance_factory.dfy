/**
 The instance factory: turns one injectable object into an instance, by one
 of three behaviours chosen by the object's tag. The class behaviour builds
 every constructor argument through a fresh class producer for the
 parameter's class, so dependencies never go back through the container.

 `Build`, `BuildArgs`, `Invoke` and `Produce` specify the behaviours as
 functions of the allocator's state (the next free object identity); the
 class `InstanceFactory` runs them step by step and is proved against them.
 */
module Factory {
  import opened Runtime
  import opened InjectableObjects

  // ---------------------------------------------------------------------
  // Specification

  /** The class behaviour on class `cls`: reflect the class, build every
      constructor argument in order, then allocate the instance. */
  ghost function Build(u: Universe, rank: map<ClassName, nat>, cls: ClassName, next: nat): (Result<Value>, nat)
    requires Ranked(u, rank)
    decreases RankOf(rank, cls), 1, 0
  {
    if cls !in u.classes then (Err(ReflectionFailure(cls)), next)
    else
      var ps := CtorParams(u.classes[cls]);
      var (args, n) := BuildArgs(u, rank, ps, |ps|, RankOf(rank, cls), next);
      match args
      case Err(e) => (Err(e), n)
      case Ok(a) => (Ok(Object(Obj(n, cls, a))), n + 1)
  }

  /** Builds one instance for each of the first `k` parameter classes, left
      to right, stopping at the first failure. `bound` only serves
      termination. */
  ghost function BuildArgs(u: Universe, rank: map<ClassName, nat>, ps: seq<ClassName>, k: nat, bound: nat, next: nat)
    : (Result<seq<Value>>, nat)
    requires Ranked(u, rank)
    requires k <= |ps|
    requires forall p <- ps :: RankOf(rank, p) < bound
    decreases bound, 0, k
  {
    if k == 0 then (Ok([]), next)
    else
      var (prefix, n) := BuildArgs(u, rank, ps, k - 1, bound, next);
      match prefix
      case Err(e) => (Err(e), n)
      case Ok(a) =>
        var (last, n') := Build(u, rank, ps[k - 1], n);
        match last
        case Err(e) => (Err(e), n')
        case Ok(v) => (Ok(a + [v]), n')
  }

  /** The closure behaviour: build one instance per closure parameter, then
      apply the closure to them. */
  ghost function Invoke(u: Universe, rank: map<ClassName, nat>, c: Closure, next: nat): (Result<Value>, nat)
    requires Ranked(u, rank)
  {
    var (args, n) := BuildArgs(u, rank, c.params, |c.params|, ParamsBound(rank, c.params), next);
    match args
    case Err(e) => (Err(e), n)
    case Ok(a) => (Ok(u.call(c, a)), n)
  }

  /** `getInjectableObject`: the behaviour selected by the producer's tag. */
  ghost function Produce(u: Universe, rank: map<ClassName, nat>, p: Producer, next: nat): (Result<Value>, nat)
    requires Ranked(u, rank)
  {
    match p.tag
    case ClassType => Build(u, rank, ClassOf(p.value), next)
    case ClosureType =>
      (match p.value
       case Callable(c) => Invoke(u, rank, c, next)
       case _ => (Err(ReflectionFailure(ClassOf(p.value))), next))
    case ObjectType => (Ok(p.value), next)
  }

  /** A class the class behaviour can build: it is known, and so is,
      recursively, the class of every constructor parameter. */
  ghost predicate Constructible(u: Universe, rank: map<ClassName, nat>, cls: ClassName)
    requires Ranked(u, rank)
    decreases RankOf(rank, cls)
  {
    && cls in u.classes
    && forall p <- CtorParams(u.classes[cls]) :: Constructible(u, rank, p)
  }

  // ---------------------------------------------------------------------
  // Properties of the specification

  /** The class behaviour fails exactly when some class it needs is unknown
      to reflection, and then with a reflection failure. */
  lemma {:induction false} BuildSucceeds(u: Universe, rank: map<ClassName, nat>, cls: ClassName, next: nat)
    requires Ranked(u, rank)
    ensures Build(u, rank, cls, next).0.Ok? <==> Constructible(u, rank, cls)
    ensures Build(u, rank, cls, next).0.Err? ==> Build(u, rank, cls, next).0.error.ReflectionFailure?
    decreases RankOf(rank, cls), 1, 0
  {
    if cls in u.classes {
      var ps := CtorParams(u.classes[cls]);
      BuildArgsSucceed(u, rank, ps, |ps|, RankOf(rank, cls), next);
    }
  }

  lemma {:induction false} BuildArgsSucceed(u: Universe, rank: map<ClassName, nat>, ps: seq<ClassName>, k: nat, bound: nat, next: nat)
    requires Ranked(u, rank)
    requires k <= |ps|
    requires forall p <- ps :: RankOf(rank, p) < bound
    ensures BuildArgs(u, rank, ps, k, bound, next).0.Ok? <==> forall i :: 0 <= i < k ==> Constructible(u, rank, ps[i])
    ensures BuildArgs(u, rank, ps, k, bound, next).0.Err? ==> BuildArgs(u, rank, ps, k, bound, next).0.error.ReflectionFailure?
    decreases bound, 0, k
  {
    if k > 0 {
      BuildArgsSucceed(u, rank, ps, k - 1, bound, next);
      var (prefix, n) := BuildArgs(u, rank, ps, k - 1, bound, next);
      BuildSucceeds(u, rank, ps[k - 1], n);
    }
  }

  /** What the class behaviour allocates: an instance of `cls` whose object
      tree holds exactly the identities `next`, ..., `n' - 1`, each once, in
      allocation order; every one of them is fresh. */
  lemma {:induction false} BuildAllocates(u: Universe, rank: map<ClassName, nat>, cls: ClassName, next: nat)
    requires Ranked(u, rank)
    ensures next <= Build(u, rank, cls, next).1
    ensures Build(u, rank, cls, next).0.Ok? ==>
              var v := Build(u, rank, cls, next).0.value;
              && v.Object? && v.obj.cls == cls
              && Ids(v) == Range(next, Build(u, rank, cls, next).1)
    decreases RankOf(rank, cls), 1, 0
  {
    if cls in u.classes {
      var ps := CtorParams(u.classes[cls]);
      BuildArgsAllocate(u, rank, ps, |ps|, RankOf(rank, cls), next);
      var (args, n) := BuildArgs(u, rank, ps, |ps|, RankOf(rank, cls), next);
      if args.Ok? {
        RangeSplit(next, n, n + 1);
      }
    }
  }

  /** The arguments built for the first `k` parameters: one instance per
      parameter, of that parameter's class, in order, all freshly allocated. */
  lemma {:induction false} BuildArgsAllocate(u: Universe, rank: map<ClassName, nat>, ps: seq<ClassName>, k: nat, bound: nat, next: nat)
    requires Ranked(u, rank)
    requires k <= |ps|
    requires forall p <- ps :: RankOf(rank, p) < bound
    ensures next <= BuildArgs(u, rank, ps, k, bound, next).1
    ensures BuildArgs(u, rank, ps, k, bound, next).0.Ok? ==>
              var a := BuildArgs(u, rank, ps, k, bound, next).0.value;
              && |a| == k
              && (forall i :: 0 <= i < k ==> a[i].Object? && a[i].obj.cls == ps[i])
              && IdsAll(a) == Range(next, BuildArgs(u, rank, ps, k, bound, next).1)
    decreases bound, 0, k
  {
    if k > 0 {
      BuildArgsAllocate(u, rank, ps, k - 1, bound, next);
      var (prefix, n) := BuildArgs(u, rank, ps, k - 1, bound, next);
      BuildAllocates(u, rank, ps[k - 1], n);
      if prefix.Ok? {
        var (v, n') := Build(u, rank, ps[k - 1], n);
        if v.Ok? {
          var a := prefix.value + [v.value];
          assert a[..|a| - 1] == prefix.value;
          RangeSplit(next, n, n');
        }
      }
    }
  }

  /** The class behaviour hands the constructor one argument per declared
      parameter, in order, each an instance of that parameter's class; a
      class without a constructor gets no arguments. */
  lemma ConstructorArguments(u: Universe, rank: map<ClassName, nat>, cls: ClassName, next: nat)
    requires Ranked(u, rank)
    requires Build(u, rank, cls, next).0.Ok?
    ensures cls in u.classes
    ensures var o := Build(u, rank, cls, next).0.value.obj;
            && o.cls == cls
            && |o.args| == |CtorParams(u.classes[cls])|
            && (u.classes[cls].ctor.None? ==> o.args == [])
            && forall i :: 0 <= i < |o.args| ==>
                 o.args[i].Object? && o.args[i].obj.cls == CtorParams(u.classes[cls])[i]
  {
    var ps := CtorParams(u.classes[cls]);
    BuildArgsAllocate(u, rank, ps, |ps|, RankOf(rank, cls), next);
  }

  /** Every object the class behaviour produces, the instance and all its
      dependencies, is new: its identity was not allocated before, and no
      two of them share an identity. */
  lemma FreshInstances(u: Universe, rank: map<ClassName, nat>, cls: ClassName, next: nat)
    requires Ranked(u, rank)
    requires Build(u, rank, cls, next).0.Ok?
    ensures var ids := Ids(Build(u, rank, cls, next).0.value);
            && (forall i :: 0 <= i < |ids| ==> next <= ids[i] < Build(u, rank, cls, next).1)
            && (forall i, j :: 0 <= i < j < |ids| ==> ids[i] != ids[j])
  {
    BuildAllocates(u, rank, cls, next);
  }

  /** The closure behaviour returns the closure's own result, applied to one
      fresh instance per closure parameter, of that parameter's class, in
      order; it fails exactly when some parameter class cannot be built. */
  lemma ClosureResult(u: Universe, rank: map<ClassName, nat>, c: Closure, next: nat)
    requires Ranked(u, rank)
    ensures Invoke(u, rank, c, next).0.Ok? <==> forall p <- c.params :: Constructible(u, rank, p)
    ensures next <= Invoke(u, rank, c, next).1
    ensures Invoke(u, rank, c, next).0.Ok? ==>
              exists args: seq<Value> ::
                && |args| == |c.params|
                && (forall i :: 0 <= i < |args| ==> args[i].Object? && args[i].obj.cls == c.params[i])
                && IdsAll(args) == Range(next, Invoke(u, rank, c, next).1)
                && Invoke(u, rank, c, next).0.value == u.call(c, args)
  {
    var bound := ParamsBound(rank, c.params);
    BuildArgsSucceed(u, rank, c.params, |c.params|, bound, next);
    BuildArgsAllocate(u, rank, c.params, |c.params|, bound, next);
  }

  /** A failure while building one argument aborts the rest: the first
      failing parameter ends the class and closure behaviours. */
  lemma {:induction false} BuildArgsAbort(u: Universe, rank: map<ClassName, nat>, ps: seq<ClassName>, k: nat, bound: nat, next: nat)
    requires Ranked(u, rank)
    requires k <= |ps|
    requires forall p <- ps :: RankOf(rank, p) < bound
    requires BuildArgs(u, rank, ps, k, bound, next).0.Err?
    ensures BuildArgs(u, rank, ps, |ps|, bound, next) == BuildArgs(u, rank, ps, k, bound, next)
    decreases |ps| - k
  {
    if k < |ps| {
      BuildArgsAbort(u, rank, ps, k + 1, bound, next);
    }
  }

  /** The allocator only moves forward: no behaviour ever reuses an identity. */
  lemma ProduceAdvances(u: Universe, rank: map<ClassName, nat>, p: Producer, next: nat)
    requires Ranked(u, rank)
    ensures next <= Produce(u, rank, p, next).1
  {
    match p.tag
    case ClassType => BuildAllocates(u, rank, ClassOf(p.value), next);
    case ClosureType => if p.value.Callable? { ClosureResult(u, rank, p.value.fn, next); }
    case ObjectType =>
  }

  // ---------------------------------------------------------------------
  // Implementation

  /** The measure the mutually recursive behaviours decrease. */
  ghost function Measure(rank: map<ClassName, nat>, p: Producer): nat {
    match p.tag
    case ClassType => RankOf(rank, ClassOf(p.value))
    case ClosureType => if p.value.Callable? then ParamsBound(rank, p.value.fn.params) else 0
    case ObjectType => 0
  }

  class InstanceFactory {
    /** The classes and closures reflection can see. */
    const universe: Universe
    /** Witness that no class depends on itself through its constructor. */
    ghost const rank: map<ClassName, nat>
    /** The allocator: every object allocated so far has an identity below `nextId`. */
    var nextId: nat

    ghost predicate Valid() {
      Ranked(universe, rank)
    }

    constructor (u: Universe, ghost ranking: map<ClassName, nat>)
      requires Ranked(u, ranking)
      ensures Valid() && universe == u && rank == ranking && nextId == 0
    {
      universe := u;
      rank := ranking;
      nextId := 0;
    }

    /** The behaviour for class producers: reflect the class (given by name,
        or by an object of it), instantiate each constructor parameter
        through a fresh class producer, then allocate the instance. */
    method ClassBehavior(value: Value) returns (r: Result<Value>)
      requires Valid()
      modifies this
      decreases RankOf(rank, ClassOf(value)), 2
      ensures (r, nextId) == Build(universe, rank, ClassOf(value), old(nextId))
    {
      var cls := ClassOf(value);
      if cls !in universe.classes {
        return Err(ReflectionFailure(cls));
      }
      var paramsInstances: seq<Value> := [];
      var info := universe.classes[cls];
      if info.ctor.Some? {
        var params := info.ctor.value;
        var bound := RankOf(rank, cls);
        var i := 0;
        while i < |params|
          invariant 0 <= i <= |params|
          invariant BuildArgs(universe, rank, params, i, bound, old(nextId)) == (Ok(paramsInstances), nextId)
        {
          var producer := new InjectableObject(ClassType, Name(params[i]));
          var instance := GetInjectableObject(producer);
          if instance.Err? {
            BuildArgsAbort(universe, rank, params, i + 1, bound, old(nextId));
            return instance;
          }
          paramsInstances := paramsInstances + [instance.value];
          i := i + 1;
        }
      }
      r := Ok(Object(Obj(nextId, cls, paramsInstances)));
      nextId := nextId + 1;
    }

    /** The behaviour for closure producers: instantiate each closure
        parameter through a fresh class producer, then invoke the closure. */
    method ClosureBehavior(value: Value) returns (r: Result<Value>)
      requires Valid()
      modifies this
      decreases if value.Callable? then ParamsBound(rank, value.fn.params) else 0, 2
      ensures (r, nextId) == Produce(universe, rank, Producer(ClosureType, value), old(nextId))
    {
      if !value.Callable? {
        return Err(ReflectionFailure(ClassOf(value)));
      }
      var closure := value.fn;
      var params := closure.params;
      var bound := ParamsBound(rank, params);
      var paramsInstances: seq<Value> := [];
      var i := 0;
      while i < |params|
        invariant 0 <= i <= |params|
        invariant BuildArgs(universe, rank, params, i, bound, old(nextId)) == (Ok(paramsInstances), nextId)
      {
        var producer := new InjectableObject(ClassType, Name(params[i]));
        var instance := GetInjectableObject(producer);
        if instance.Err? {
          BuildArgsAbort(universe, rank, params, i + 1, bound, old(nextId));
          return instance;
        }
        paramsInstances := paramsInstances + [instance.value];
        i := i + 1;
      }
      r := Ok(universe.call(closure, paramsInstances));
    }

    /** `getInjectableObject`: runs the behaviour the producer's tag selects.
        The object behaviour returns the stored value as it is. */
    method GetInjectableObject(producer: InjectableObject) returns (r: Result<Value>)
      requires Valid()
      modifies this
      decreases Measure(rank, producer.Pair()), 3
      ensures (r, nextId) == Produce(universe, rank, producer.Pair(), old(nextId))
      ensures producer.tag == ObjectType ==> r == Ok(producer.value) && nextId == old(nextId)
    {
      var tag := producer.GetType();
      var value := producer.GetValue();
      match tag
      case ClassType =>
        r := ClassBehavior(value);
      case ClosureType =>
        r := ClosureBehavior(value);
      case ObjectType =>
        r := Ok(value);
    }
  }
}
