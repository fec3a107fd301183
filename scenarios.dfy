/**
 The dummy services of the repository's tests as a concrete universe, and
 the scenarios the tests run against the container, stated on the model.
 */
module Scenarios {
  import opened Runtime
  import opened InjectableObjects
  import opened Factory
  import opened Containers

  const BaseService: ClassName := "mpstyle\\container\\dummy\\BaseService"
  const ServiceA: ClassName := "mpstyle\\container\\dummy\\ServiceA"
  const ServiceB: ClassName := "mpstyle\\container\\dummy\\ServiceB"
  const ServiceC: ClassName := "mpstyle\\container\\dummy\\ServiceC"
  const ServiceD: ClassName := "mpstyle\\container\\dummy\\ServiceD"

  /** ServiceB is injectable, implements BaseService and takes a ServiceA and
      a ServiceC (test/mpstyle/container/dummy/ServiceB.php). The classes of
      ServiceA, ServiceC and ServiceD are not part of this model: that
      ServiceA and ServiceC are injectable and take no arguments, and that
      ServiceD implements nothing, is read off how ContainerTest.php uses
      them. The closure of the tests builds a ServiceB from its two
      arguments; the unfit closure returns a ServiceD. Objects a closure
      makes get identities from 1000 on, apart from the factory's, which
      the scenarios keep below 1000. */
  function Dummies(): Universe {
    Universe(
      map[
        BaseService := ClassInfo({}, None),
        ServiceA := ClassInfo({Injectable}, None),
        ServiceB := ClassInfo({Injectable, BaseService}, Some([ServiceA, ServiceC])),
        ServiceC := ClassInfo({Injectable}, None),
        ServiceD := ClassInfo({}, None)
      ],
      (c: Closure, args: seq<Value>) =>
        if c.id == UnfitClosure.id then Object(Obj(1000 + c.id, ServiceD, [])) else Object(Obj(1000 + c.id, ServiceB, args)))
  }

  /** `function (ServiceA $serviceA, ServiceC $serviceC) { return new ServiceB($serviceA, $serviceC); }` */
  const ServiceBClosure: Closure := Closure(1, [ServiceA, ServiceC])

  /** `function () { return new ServiceD(); }` */
  const UnfitClosure: Closure := Closure(2, [])

  function DummyRanks(): map<ClassName, nat> {
    map[ServiceA := 1, ServiceC := 1, ServiceB := 2]
  }

  lemma DummiesRanked()
    ensures Ranked(Dummies(), DummyRanks())
  {
  }

  /** The class behaviour on ServiceB builds a ServiceA, then a ServiceC,
      then the ServiceB that receives them, in that order. */
  lemma ServiceBBuilt()
    ensures Build(Dummies(), DummyRanks(), ServiceB, 0)
            == (Ok(Object(Obj(2, ServiceB, [Object(Obj(0, ServiceA, [])), Object(Obj(1, ServiceC, []))]))), 3)
  {
    var u, rank := Dummies(), DummyRanks();
    var a, c := Object(Obj(0, ServiceA, [])), Object(Obj(1, ServiceC, []));
    var params := [ServiceA, ServiceC];
    assert u.classes[ServiceB].ctor == Some(params);
    assert RankOf(rank, ServiceB) == 2;
    assert Build(u, rank, ServiceA, 0) == (Ok(a), 1);
    assert Build(u, rank, ServiceC, 1) == (Ok(c), 2);
    assert params[0] == ServiceA && params[1] == ServiceC;
    assert BuildArgs(u, rank, params, 0, 2, 0) == (Ok([]), 0);
    assert BuildArgs(u, rank, params, 1, 2, 0) == (Ok([] + [a]), 1);
    assert [] + [a] == [a];
    assert BuildArgs(u, rank, params, 2, 2, 0) == (Ok([a] + [c]), 2);
    assert [a] + [c] == [a, c];
  }

  /** A ServiceB bound to BaseService resolves to a ServiceB built from a
      fresh ServiceA and a fresh ServiceC; only BaseService is memoised. */
  lemma DefinitionResolved()
    ensures var b := Object(Obj(2, ServiceB, [Object(Obj(0, ServiceA, [])), Object(Obj(1, ServiceC, []))]));
            Resolve(Dummies(), DummyRanks(), map[BaseService := Producer(ClassType, Name(ServiceB))], BaseService, 0)
            == (Ok(b), map[BaseService := Producer(ObjectType, b)], 3)
  {
    var u, rank := Dummies(), DummyRanks();
    var reg := map[BaseService := Producer(ClassType, Name(ServiceB))];
    ServiceBBuilt();
    assert Produce(u, rank, reg[BaseService], 0) == Build(u, rank, ServiceB, 0);
    assert Satisfies(u, BaseService, ServiceB) by {
      assert Interfaces(u, ServiceB) == {Injectable, BaseService};
    }
    var b := Object(Obj(2, ServiceB, [Object(Obj(0, ServiceA, [])), Object(Obj(1, ServiceC, []))]));
    assert ClassOf(b) == ServiceB;
    assert Memoise(u, reg, BaseService, b, 3) == (Ok(b), reg[BaseService := Producer(ObjectType, b)], 3);
    assert reg[BaseService := Producer(ObjectType, b)] == map[BaseService := Producer(ObjectType, b)];
    assert Resolve(u, rank, reg, BaseService, 0) == Memoise(u, reg, BaseService, b, 3);
  }

  /** `get` on the unregistered, non-injectable ServiceD fails with
      NotInjectable and registers nothing. */
  lemma NonInjectableRejected()
    ensures Resolve(Dummies(), DummyRanks(), map[], ServiceD, 0) == (Err(NotInjectable(ServiceD)), map[], 0)
  {
    assert Interfaces(Dummies(), ServiceD) == {};
  }

  /** `get` on the unregistered, injectable ServiceA self-registers it and
      returns a new ServiceA. */
  lemma SelfRegisteredResolved()
    ensures var a := Object(Obj(0, ServiceA, []));
            Resolve(Dummies(), DummyRanks(), map[], ServiceA, 0) == (Ok(a), map[ServiceA := Producer(ObjectType, a)], 1)
  {
    var u, rank := Dummies(), DummyRanks();
    var a := Object(Obj(0, ServiceA, []));
    var self := map[ServiceA := Producer(ClassType, Name(ServiceA))];
    assert Satisfies(u, ServiceA, ServiceA) by {
      assert Interfaces(u, ServiceA) == {Injectable};
    }
    assert Build(u, rank, ServiceA, 0) == (Ok(a), 1);
    assert Resolve(u, rank, self, ServiceA, 0) == (Ok(a), self[ServiceA := Producer(ObjectType, a)], 1);
    var memo := map[ServiceA := Producer(ObjectType, a)];
    assert self[ServiceA := Producer(ObjectType, a)] == memo;
    assert memo[ServiceA := Producer(ObjectType, a)] == memo;
    var empty: Registry := map[];
    assert empty[ServiceA := Producer(ClassType, Name(ServiceA))] == self;
    assert Resolve(u, rank, empty, ServiceA, 0) == Memoise(u, memo, ServiceA, a, 1);
  }

  /** A closure taking a ServiceA and a ServiceC, bound to BaseService,
      receives fresh instances of both and its ServiceB is memoised. */
  lemma ClosureResolved()
    ensures var b := Object(Obj(1000 + ServiceBClosure.id, ServiceB, [Object(Obj(0, ServiceA, [])), Object(Obj(1, ServiceC, []))]));
            Resolve(Dummies(), DummyRanks(), map[BaseService := Producer(ClosureType, Callable(ServiceBClosure))], BaseService, 0)
            == (Ok(b), map[BaseService := Producer(ObjectType, b)], 2)
  {
    var u, rank := Dummies(), DummyRanks();
    var reg := map[BaseService := Producer(ClosureType, Callable(ServiceBClosure))];
    var a, c := Object(Obj(0, ServiceA, [])), Object(Obj(1, ServiceC, []));
    var params := ServiceBClosure.params;
    var b := Object(Obj(1000 + ServiceBClosure.id, ServiceB, [a, c]));
    assert Build(u, rank, ServiceA, 0) == (Ok(a), 1);
    assert Build(u, rank, ServiceC, 1) == (Ok(c), 2);
    var bound := ParamsBound(rank, params);
    assert params[0] == ServiceA && params[1] == ServiceC;
    assert BuildArgs(u, rank, params, 0, bound, 0) == (Ok([]), 0);
    assert BuildArgs(u, rank, params, 1, bound, 0) == (Ok([] + [a]), 1);
    assert [] + [a] == [a];
    assert BuildArgs(u, rank, params, 2, bound, 0) == (Ok([a] + [c]), 2);
    assert [a] + [c] == [a, c];
    assert u.call(ServiceBClosure, [a, c]) == b;
    assert Produce(u, rank, reg[BaseService], 0) == (Ok(b), 2);
    assert Satisfies(u, BaseService, ServiceB) by {
      assert Interfaces(u, ServiceB) == {Injectable, BaseService};
    }
    assert reg[BaseService := Producer(ObjectType, b)] == map[BaseService := Producer(ObjectType, b)];
    assert Resolve(u, rank, reg, BaseService, 0) == Memoise(u, reg, BaseService, b, 2);
  }

  /** A closure returning a ServiceD is accepted for ServiceA, but `get`
      rejects its result and keeps the closure entry. */
  lemma UnfitClosureRejectedOnGet()
    ensures var reg := map[ServiceA := Producer(ClosureType, Callable(UnfitClosure))];
            Resolve(Dummies(), DummyRanks(), reg, ServiceA, 0) == (Err(NotInjectable(ServiceA)), reg, 0)
  {
    var u, rank := Dummies(), DummyRanks();
    var reg := map[ServiceA := Producer(ClosureType, Callable(UnfitClosure))];
    assert BuildArgs(u, rank, [], 0, 0, 0) == (Ok([]), 0);
    assert Invoke(u, rank, UnfitClosure, 0) == (Ok(Object(Obj(1000 + UnfitClosure.id, ServiceD, []))), 0);
    assert !Satisfies(u, ServiceA, ServiceD) by {
      assert Interfaces(u, ServiceD) == {};
    }
    ClosureCheckedOnGet(u, rank, reg, ServiceA, UnfitClosure, 0);
  }

  /** The container's own methods: a rejected and an accepted definition
      for BaseService, then two `get`s that hand out the same ServiceB. */
  method DefinitionUsage()
  {
    DummiesRanked();
    var container := new Container(Dummies(), DummyRanks());
    var rejected := container.AddDefinition(BaseService, "ciao");
    assert rejected == Fail(NotInjectable("ciao"));
    var defined := container.AddDefinition(BaseService, ServiceB);
    assert defined == Pass by {
      assert Interfaces(Dummies(), ServiceB) == {Injectable, BaseService};
    }
    DefinitionResolved();
    var first := container.Get(BaseService);
    var second := container.Get(BaseService);
    assert first.Ok? && second == first;
  }

  /** The container's own methods: `get` on the non-injectable ServiceD fails,
      and after `clear` the container is empty again. */
  method RejectionUsage()
  {
    DummiesRanked();
    var container := new Container(Dummies(), DummyRanks());
    var defined := container.AddDefinition(ServiceA, ServiceA);
    assert defined == Pass by {
      assert Interfaces(Dummies(), ServiceA) == {Injectable};
    }
    container.Clear();
    NonInjectableRejected();
    var missing := container.Get(ServiceD);
    assert missing == Err(NotInjectable(ServiceD));
  }
}
