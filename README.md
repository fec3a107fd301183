# MpStyle/container in Dafny

A model of the lazy dependency-injection container of `mpstyle\container`:

- **`Container`** keeps a map from keys (class or interface names) to injectable objects.
  - `addDefinition` and `addInstance` register an entry only when the class implements `Injectable` or the key itself.
  - `addClosure` registers a closure with no check.
  - `clear` empties the map.
  - `get` resolves a key. An unknown key is first registered as a definition of itself. The key's producer is then run through the factory, and the result is memoised as an instance entry through `addInstance`.
- **`InstanceFactory`** runs one of three behaviours chosen by the injectable object's type tag:
  - a class producer reflects the class and builds every constructor argument through a fresh class producer, without consulting the container;
  - a closure producer builds the closure's arguments the same way and invokes it;
  - an object producer returns the stored object.
- **`InjectableObject`** is the mutable (type, value) pair stored in the map.

PHP reflection is replaced by a fixed type universe (`Runtime.Universe`). It maps each class name to its implemented interfaces, as `class_implements` reports them, and to its constructor's parameter classes, in order.

Objects are values `Obj(id, cls, args)`. The factory's counter `nextId` hands out their identities, so "a new object" means "an identity not handed out before". Closures are an identity plus their parameter classes. Their bodies are the universe's `call` function, which the model applies without looking inside.

The source has no guard against a class whose constructor depends on itself. The model therefore asks for a rank witness (`Runtime.Ranked`): every constructor parameter must rank below its class.

The stateful classes are Dafny classes:

| Dafny member | proved equal to the ghost function |
|---|---|
| `Factory.InstanceFactory.ClassBehavior` | `Factory.Build` |
| `Factory.InstanceFactory.ClosureBehavior` | `Factory.Invoke`, through `Factory.Produce` |
| `Factory.InstanceFactory.GetInjectableObject` | `Factory.Produce` |
| `Containers.Container.Get` | `Containers.Resolve`, on the abstract registry `Container.Registry()` |

The source's properties are lemmas about these ghost functions.

Files:

- `runtime.dfy`: the type universe, values, errors and identity ranges.
- `injectable_object.dfy`: the `InjectableObject` class.
- `instance_factory.dfy`: the factory's specification, its properties and the `InstanceFactory` class.
- `container.dfy`: the container's specification, its properties and the `Container` class.
- `scenarios.dfy`: the dummy services of the repository's tests and the tests' scenarios.

Where the repository's tests and the code disagree, the model follows the code:

- `test/mpstyle/container/ContainerTest.php:34-48` expects `addClosure` to reject a closure whose result is not injectable. `Container.php` performs no check there; the check only happens when `get` memoises the result (`Scenarios.UnfitClosureRejectedOnGet`).
- The tests call `getInstance`. The code's operation is `get`.

## Model

| member | source | states |
|---|---|---|
| InjectableObjects.InjectableObject.constructor | src/mpstyle/container/InjectableObject.php:25-29 | the new pair holds exactly the given type and value |
| InjectableObjects.InjectableObject.GetType | src/mpstyle/container/InjectableObject.php:34-37 | returns the stored type |
| InjectableObjects.InjectableObject.GetValue | src/mpstyle/container/InjectableObject.php:53-56 | returns the stored value |
| InjectableObjects.InjectableObject.SetType | src/mpstyle/container/InjectableObject.php:43-48 | overwrites the type only, keeps the value, and returns the same object |
| InjectableObjects.InjectableObject.SetValue | src/mpstyle/container/InjectableObject.php:62-67 | overwrites the value only, keeps the type, and returns the same object |
| Factory.BuildSucceeds | src/mpstyle/container/InstanceFactory.php:13-38 | the class behaviour succeeds iff the class and, recursively, every constructor parameter class is known to reflection; otherwise it fails with a reflection failure |
| Factory.BuildArgsSucceed | src/mpstyle/container/InstanceFactory.php:22-32 | building the first k constructor arguments succeeds iff each of those k parameter classes is constructible; a failure is a reflection failure |
| Factory.BuildAllocates | src/mpstyle/container/InstanceFactory.php:15-37 | the class behaviour yields an object of the requested class; the allocator never moves backwards; the identities in the object tree are exactly the newly allocated ones, each once, arguments before the object |
| Factory.BuildArgsAllocate | src/mpstyle/container/InstanceFactory.php:22-32 | the first k arguments are one object per parameter, in declared order, each of its parameter's class, together holding exactly the newly allocated identities |
| Factory.ConstructorArguments | src/mpstyle/container/InstanceFactory.php:18-35 | the instance gets one argument per constructor parameter, in order, each an instance of the parameter's class; a class without a constructor gets no arguments |
| Factory.FreshInstances | src/mpstyle/container/InstanceFactory.php:35 | every object the class behaviour produces, dependencies included, has an identity not allocated before, and no two share one |
| Factory.ClosureResult | src/mpstyle/container/InstanceFactory.php:40-61 | the closure behaviour succeeds iff every parameter class is constructible; its result is the closure's own result on one fresh instance per parameter, in order |
| Factory.BuildArgsAbort | src/mpstyle/container/InstanceFactory.php:24-32 | the first failing parameter ends the argument loop: the whole list fails as that prefix did |
| Factory.ProduceAdvances | src/mpstyle/container/InstanceFactory.php:73-76 | no behaviour moves the allocator backwards |
| Factory.InstanceFactory.constructor | src/mpstyle/container/InstanceFactory.php:11-67 | a factory over the given type universe that has allocated nothing yet |
| Factory.InstanceFactory.ClassBehavior | src/mpstyle/container/InstanceFactory.php:13-38 | the loop builds the constructor arguments through fresh class producers and allocates the instance, with result and allocator state exactly those of `Build` |
| Factory.InstanceFactory.ClosureBehavior | src/mpstyle/container/InstanceFactory.php:40-61 | the loop builds the closure's arguments through fresh class producers and invokes the closure, with result and allocator state exactly those of `Invoke`; a value that is not a closure is a reflection failure |
| Factory.InstanceFactory.GetInjectableObject | src/mpstyle/container/InstanceFactory.php:63-76 | runs exactly the behaviour the producer's tag selects; an object producer's value is returned unchanged, with no allocation |
| Containers.GetMemoises | src/mpstyle/container/Container.php:115-120 | after a successful `get(key)` the entry for key is an instance entry holding the returned value, which passed the capability check; every other entry is unchanged |
| Containers.GetChangesOnlyKey | src/mpstyle/container/Container.php:106-121 | `get(key)` never changes an entry other than key's, whether it succeeds or fails, and never moves the allocator backwards |
| Containers.GetIgnoresOtherEntries | src/mpstyle/container/Container.php:115 | registry bypass: the result of `get(key)` and the identities it allocates depend on key's entry alone |
| Containers.SelfRegistration | src/mpstyle/container/Container.php:108-111 | on an unregistered key, `get` fails with NotInjectable(key) and changes nothing when the key's class implements neither `Injectable` nor the key; otherwise it succeeds iff the class is constructible, with a fresh instance of that class that is then memoised, and on failure the self-definition stays |
| Containers.StoredInstanceServed | src/mpstyle/container/Container.php:115-120 | a registered instance is returned as stored, with no allocation and the registry unchanged |
| Containers.DefinitionResolves | src/mpstyle/container/Container.php:115-120 | `get` on a registered definition succeeds iff its class is constructible, returns an instance of that class, and never fails the memoising check |
| Containers.DefinitionFailureKeepsRegistry | src/mpstyle/container/Container.php:115-118 | a failed `get` on a registered definition memoises nothing: the registry is unchanged and the allocator is where the class behaviour left it |
| Containers.GetTwice | src/mpstyle/container/Container.php:106-121 | after a successful `get(key)`, a second `get(key)` returns the identical value, allocates nothing and leaves the registry equal |
| Containers.ClosureCheckedOnGet | src/mpstyle/container/Container.php:115-118 | a closure whose result implements neither `Injectable` nor the key makes `get` fail with NotInjectable(key) at the memoising step, and the closure entry stays |
| Containers.GetKeepsWellRegistered | src/mpstyle/container/Container.php:106-121 | `get` preserves the registration invariant: definitions and instances passed the capability check, and closure entries hold closures |
| Containers.ClearRebuilds | src/mpstyle/container/Container.php:48-51 | after `clear()`, `get` on a key that was built by self-registration succeeds again, with a newly built object different from the one handed out before |
| Containers.Container.constructor | src/mpstyle/container/Container.php:40-43 | an empty map and a new factory that has allocated nothing |
| Containers.Container.Clear | src/mpstyle/container/Container.php:48-51 | the map becomes empty |
| Containers.Container.AddDefinition | src/mpstyle/container/Container.php:61-69 | succeeds iff the class implements `Injectable` or the key, then sets key to a class entry and changes nothing else; otherwise it fails with NotInjectable carrying the class name and the map is unchanged |
| Containers.Container.AddInstance | src/mpstyle/container/Container.php:79-87 | succeeds iff the object's class implements `Injectable` or the key, then sets key to an instance entry and changes nothing else; otherwise it fails with NotInjectable carrying the key and the map is unchanged |
| Containers.Container.AddClosure | src/mpstyle/container/Container.php:95-98 | always sets key to a closure entry, with no check, and changes nothing else |
| Containers.Container.Get | src/mpstyle/container/Container.php:106-121 | self-registration, production through the factory and memoisation, with result, map and allocator state exactly those of `Resolve` |
| Scenarios.DummiesRanked | test/mpstyle/container/dummy/ServiceB.php:24-28 | no dummy service depends on itself through its constructor |
| Scenarios.ServiceBBuilt | test/mpstyle/container/dummy/ServiceB.php:24-28 | building ServiceB builds a ServiceA, then a ServiceC, then the ServiceB that receives them |
| Scenarios.DefinitionResolved | test/mpstyle/container/ContainerTest.php:63-71 | BaseService defined as ServiceB resolves to a ServiceB holding a new ServiceA and a new ServiceC |
| Scenarios.NonInjectableRejected | test/mpstyle/container/ContainerTest.php:16-20 | `get` on the non-injectable ServiceD fails with NotInjectable |
| Scenarios.SelfRegisteredResolved | test/mpstyle/container/ContainerTest.php:22-26 | `get` on the unregistered ServiceA returns a ServiceA and memoises it |
| Scenarios.ClosureResolved | test/mpstyle/container/ContainerTest.php:50-61 | a closure taking a ServiceA and a ServiceC resolves to its ServiceB, built from new instances of both |
| Scenarios.UnfitClosureRejectedOnGet | test/mpstyle/container/ContainerTest.php:42-48 | a closure returning a ServiceD is accepted for ServiceA, and `get` rejects its result |

Two further items have no row:

- `Scenarios.DefinitionUsage` and `Scenarios.RejectionUsage` drive the `Container` class through the same scenarios.
- No container operation changes an existing `InjectableObject`. Every `Container` method modifies only the container itself (and `Get` also the factory), never the stored pairs. Only `SetType` and `SetValue` modify one.

## Left out

- `src/mpstyle/container/UniqueContainer.php`: the process-wide singleton around one `Container` is global-state glue and is not part of this model.
- Exception classes: only their messages differ. NotInjectableException becomes the error value `NotInjectable(name)`, and ClassDoesNotExistException is never thrown by the modelled code.
- PHP reflection:
  - `ReflectionClass`, `ReflectionFunction`, `getClass()`, `newInstanceArgs` and `invokeArgs` are replaced by the type universe.
  - Any exception they raise becomes `ReflectionFailure`.
  - Interfaces, abstract classes and private constructors are not distinguished from instantiable classes.
  - A closure value reflected as a class has class `Closure`, which fails unless the universe lists it.
- Scalar or untyped constructor and closure parameters are not modelled. In PHP, `getClass()` is null for them and the code fails.
- PHP warnings and notices, such as `class_implements` on an unknown class, are not modelled. An unknown class implements nothing.
- Closure bodies are opaque (`Universe.call`). Objects they allocate are not drawn from the factory's counter, and side effects inside them are not modelled.
- Objects passed to `addInstance` come from outside the container. The model does not track their identities.
- Factory.InstanceFactory.ClassBehavior: requires an acyclic constructor-dependency relation (`Ranked`). In PHP, a cycle recurses until the stack is exhausted.
- Factory.InstanceFactory.ClosureBehavior: has the same acyclicity requirement.
- Containers.Container.Get: has the same acyclicity requirement, through its factory.
- The factory's `$behavior` table of three closures, filled in its constructor, is modelled as a match on the tag. The table never changes after construction.
- PHP's array-key casting, where numeric-string keys become integers, is not modelled. Keys are strings.
- The allocator starts at identity 0 for each factory. Identities are only compared within one factory.
- `fromIni`, `fromPHP`, `existsKey`, `getInstance` and the `addClosure` return-type check are used by the repository's tests but absent from `Container.php`, so they are not part of this model. The same goes for the stale usage example in the class's doc comment (`Container.php:20-24`).
- The type tag is one of the three `InjectableObjectType` constants. PHP's `InjectableObject` accepts any string as its type. For any other string, `getInjectableObject` (`InstanceFactory.php:75`) finds no behaviour and fails fatally. The model has no such path.
- The scenarios' facts about ServiceA, ServiceC and ServiceD are inferred from how `ContainerTest.php` uses them, because their class files are not part of this model: ServiceA and ServiceC are injectable and take no arguments, and ServiceD implements nothing.
- Objects made by the scenarios' closures get identities from 1000 on, apart from the factory's. The model does not relate closure-made identities to the factory's counter.
- Fixtures (`resources/definitions.php`) and the dummy services other than those the scenarios need are not part of this model.
