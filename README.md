# ApplicationContext: a verified model of a small inversion-of-control container

`ApplicationContext` discovers component classes and bean factory methods. It then builds one bean
for each of them and keeps every bean in a registry that maps names to instances (`dependencyMap`).

- **Components.** A component is built by its first public constructor. Each constructor parameter
  is resolved to a bean first.
- **Factories.** A factory method is invoked on the instance of its declaring ("config") class.
  Its own parameters are resolved the same way.
- **Parameter resolution.** A parameter type is resolved *factory first*: if some factory returns
  that type, the value comes from the first such factory and is registered under the factory's
  name. Otherwise the type itself is built.
- **Memoization.** Every build is memoized under a name. For a class, that name is the simple name
  with its first letter lower-cased. For a factory, it is the factory's method name.

The project has four modules:

- `Naming` (naming.dfy) covers the bean name derived from a class name.
- `Beans` (beans.dfy) holds the descriptors and the registry. It also defines the invariant the
  registry keeps: every entry is "wired", meaning it was built by the descriptor its name belongs
  to, from beans registered under the names its parameters resolve to. The lemmas about resolution
  live here too.
- `Container` (application_context.dfy) holds the class `ApplicationContext`. Its field
  `dependencyMap` is updated in place by the methods `Init`, `CreateComponents`, `CreateBeans`,
  `CreateBeanByType`, `CreateBeanByMethod`, `GetConfigInstance` and `GetDependencies`.
  `GetDependencies` fills an array of the parameter list's length.
- `Scenarios` (scenarios.dfy) states small object graphs as client methods whose assertions
  follow from the container's contracts, and shows that a cyclic graph cannot be given to it.

**Reflection.** Reflection is abstracted by a `World` value:

- a class table: each class's simple name and its public constructors' parameter types;
- the discovered components and factory methods, as sequences in some fixed but arbitrary
  iteration order;
- two predicates saying when a constructor call or a factory invocation throws.

A built bean is an `Instance` token recording how it was made: `Object(class, args)` or
`Product(factory, receiver, args)`.

**Termination.** The source resolves dependencies recursively and has no cycle check. The model
therefore needs a ghost ranking of the dependency graph at construction (`Ranked`: the rank drops
along every edge). That ranking is the termination measure. No termination is claimed for cyclic
graphs. `SelfDependencyUnranked` and `MutualDependencyUnranked` show that such graphs admit no
ranking at all.

**Errors.** An operation that throws in the source returns `Fail(reason)` in the model, and the
failure propagates the way the exception does. `Init` catches it and reports it as `failed`,
leaving the registry partially filled.

**Registry size.** A complete initialization registers more beans than there are components and
factories: the declaring class of a factory is registered even when it is not a component, and so
is every non-component type built for a parameter (`Scenarios.FactoryOnConfigClass`, `appConfig`).

**Success.** `Builds(w, rank, n)` says that building vertex `n` cannot throw: the class has a
simple name and a public constructor that never throws (or the factory never throws and its
declaring class builds), and every parameter's provider builds in turn. It looks only at the part of
the graph reachable from `n`. Every building method promises `Ok` when its vertex builds, and
`Init` promises success when every component and every factory builds, whatever else the class
table holds (`Scenarios.UnreachedFailure`).

## Model

| member | source | states |
|---|---|---|
| Naming.ClassName | src/main/java/com/ll/framework/ioc/ApplicationContext.java:126-128 | requires a non-empty simple name (substring(0, 1)); the name has the same length, its first character is the lower-cased first character and is no capital, and every later character is unchanged |
| Naming.ClassNameIdempotent | src/main/java/com/ll/framework/ioc/ApplicationContext.java:126-128 | deriving a name from an already derived name gives the same name |
| Naming.ClassNameFixedPoint | src/main/java/com/ll/framework/ioc/ApplicationContext.java:126-128 | a simple name is its own bean name if and only if it does not start with a capital |
| Naming.ClassNameCollision | src/main/java/com/ll/framework/ioc/ApplicationContext.java:126-128 | two simple names get the same bean name if and only if they have the same length, the same characters after the first, and first characters that lower-case alike |
| Beans.FirstFactory | src/main/java/com/ll/framework/ioc/ApplicationContext.java:130-137 | the result is None exactly when no factory returns the type; otherwise it is a factory of the list that returns the type, and every factory before it returns some other type |
| Beans.OwnerOfDerivedName | src/main/java/com/ll/framework/ioc/ApplicationContext.java:72-80 | in a wired registry, the bean under a class's derived name is an object of that class, built by its first constructor (which did not throw) from the beans registered for its parameter types; so the memo hit returns that class's bean |
| Beans.OwnerOfFactoryName | src/main/java/com/ll/framework/ioc/ApplicationContext.java:86-94 | in a wired registry, the bean under a factory's name is that factory's product, invoked on the registered instance of its declaring class with the registered beans for its parameters |
| Beans.SuppliedFromWired | src/main/java/com/ll/framework/ioc/ApplicationContext.java:103-121 | a registered dependency of type p comes from the first factory returning p when there is one, and from p's own constructor otherwise |
| Beans.AllSuppliedFromWired | src/main/java/com/ll/framework/ioc/ApplicationContext.java:99-124 | the same for every position of a resolved parameter list |
| Beans.WiredPut | src/main/java/com/ll/framework/ioc/ApplicationContext.java:79-80 | putting a wired bean under a name that is not yet a key keeps the registry wired and keeps every old entry unchanged |
| Beans.DerivedNameStillFree | src/main/java/com/ll/framework/ioc/ApplicationContext.java:76-80 | while a class's dependencies are resolved, which registers only vertices ranked below the class, the class's own name stays free, so the put at line 80 creates a new key |
| Beans.FactoryNameStillFree | src/main/java/com/ll/framework/ioc/ApplicationContext.java:90-94 | the same for a factory: its name stays free until its own put |
| Beans.SelfDependencyUnranked | src/main/java/com/ll/framework/ioc/ApplicationContext.java:76-77 | a class whose first constructor needs its own type, with no factory for it, admits no ranking |
| Beans.MutualDependencyUnranked | src/main/java/com/ll/framework/ioc/ApplicationContext.java:76-77 | two classes whose first constructors need each other, with no factory for either, admit no ranking |
| Beans.InfallibleBuilds | src/main/java/com/ll/framework/ioc/ApplicationContext.java:70-97 | in a well-formed graph where no class lacks a name or constructor and nothing throws, every described class and every discovered factory builds |
| Container.ApplicationContext.constructor | src/main/java/com/ll/framework/ioc/ApplicationContext.java:17-24 | the registry starts empty, over a well-formed (acyclic, closed, uniquely named) graph |
| Container.ApplicationContext.Init | src/main/java/com/ll/framework/ioc/ApplicationContext.java:26-35 | builds components and then factories; the registry only grows, old entries are unchanged and all entries stay wired; failed holds exactly when some component's or factory's name is missing afterwards; it does not fail when every component and every factory builds (the reachable graph cannot throw), in particular when nothing in the world can throw |
| Container.ApplicationContext.GenBean | src/main/java/com/ll/framework/ioc/ApplicationContext.java:37-39 | returns Some exactly when the name is a key, with the registered bean, and None for an absent name |
| Container.ApplicationContext.ComponentLookup | src/main/java/com/ll/framework/ioc/ApplicationContext.java:58-62 | after a complete initialization, every component has a derived name, and looking it up yields that component's own bean |
| Container.ApplicationContext.FactoryLookup | src/main/java/com/ll/framework/ioc/ApplicationContext.java:64-68 | after a complete initialization, looking up a factory's name yields that factory's product |
| Container.ApplicationContext.CreateComponents | src/main/java/com/ll/framework/ioc/ApplicationContext.java:58-62 | on success every component's derived name is a key; on failure some component's name is missing; it succeeds when every component builds; the registry only grows and stays wired |
| Container.ApplicationContext.CreateBeans | src/main/java/com/ll/framework/ioc/ApplicationContext.java:64-68 | on success every factory's name is a key; on failure some factory's name is missing; it succeeds when every factory builds; the registry only grows and stays wired |
| Container.ApplicationContext.CreateBeanByType | src/main/java/com/ll/framework/ioc/ApplicationContext.java:70-83 | an empty simple name and a class without public constructors fail; a memo hit returns the registered bean and leaves the registry unchanged; the result is Ok exactly when the derived name is a key afterwards, and then the registry maps that name to the result, which the first constructor built from the resolved parameters; only vertices ranked at most the class's own are added; the result is Ok whenever the class builds |
| Container.ApplicationContext.CreateBeanByMethod | src/main/java/com/ll/framework/ioc/ApplicationContext.java:85-97 | a memo hit returns the registered bean and leaves the registry unchanged; the result is Ok exactly when the factory's name is a key afterwards, and then the registry maps that name to the result, which the factory produced on the registered config instance from the resolved parameters; the result is Ok whenever the factory builds |
| Container.ApplicationContext.GetDependencies | src/main/java/com/ll/framework/ioc/ApplicationContext.java:99-124 | on success returns one bean per parameter type, in order; each comes from the first factory returning its type and is registered under that factory's name, or otherwise is built by the type and registered under the derived name; the result is Ok whenever every parameter's provider builds; the registry only grows |
| Container.ApplicationContext.ResolveParameter | src/main/java/com/ll/framework/ioc/ApplicationContext.java:103-121 | the bean returned for one parameter type is the one registered under the name resolution prefers (the first matching factory's name, else the derived name); the result is Ok whenever that provider builds |
| Container.ApplicationContext.GetConfigInstance | src/main/java/com/ll/framework/ioc/ApplicationContext.java:139-145 | returns the declaring class's registered instance, building it by type first when it is missing; the re-put stores what was just stored, so no entry changes; the result is built by that class's constructor; the result is Ok whenever the class builds |
| Container.ApplicationContext.FindFactoryMethod | src/main/java/com/ll/framework/ioc/ApplicationContext.java:130-137 | the loop returns exactly FirstFactory of the discovered factories: the first one whose return type matches, or None when none does |
| Scenarios.MutualPairIsRejected | src/main/java/com/ll/framework/ioc/ApplicationContext.java:76-77 | the graph "A requires B, B requires A" admits no ranking, so no container can be built over it |

## Left out

- `scan` (src/main/java/com/ll/framework/ioc/ApplicationContext.java:41-56): classpath scanning with the Reflections library, and dropping annotation types from the components. The discovered classes and factories are given to the constructor as part of `World`. A repeated `init` adds the same content to the sets again, so fixing them at construction gives the same result.
- Reflection (`getConstructors()[0]`, `newInstance`, `invoke`, `getParameterTypes`, `getDeclaringClass`): it is modelled by descriptor data and the two failure predicates of `World`; a bean is a token that records how it was built.
- Console output (lines 33, 54-55, 81, 95, 116): output only. `Init`'s `failed` stands for the diagnostic at line 33.
- Null beans: a factory method may return null, and a void one makes `invoke` return null. Line 94 then registers null, `containsKey` holds for that name, dependents receive null, and `genBean` returns null just as for an absent name. The model treats every factory result as an ordinary `Product` token, so `GenBean` returns `Some` for that name.
- Exception types: every exception is a `Failure` value with a reason. Exceptions thrown by `scan` are not modelled.
- Unchecked generic casts `(T)` in `genBean`, `createBeanByType` and `createBeanByMethod`.
- `basePackage` (line 18): it is used only by `scan`.
- Cyclic dependency graphs: the constructor requires a ranking, so the model claims nothing about them. The source recurses without end on a cycle it reaches before any failure. The model excludes every cyclic graph, including those on which the source stops first with an exception (say `A(X, B)`, `B(A)` where `X`'s constructor throws, or a class with an empty simple name).
- Container.ApplicationContext.constructor: requires `UniqueNames` (no two descriptors derive the same bean name); the source does not check this. Under a collision, the first writer does not always win. Take component `Foo(Bar)` and factory `foo(): Bar`. Building `Foo` first registers the factory's bean under `foo` while it resolves `Bar`, then overwrites that entry with the `Foo` object at line 80. The registry would then no longer keep its entries unchanged.
- Naming.ClassName: only ASCII capitals are lower-cased. Java's locale-sensitive Unicode `toLowerCase` is not modelled; for U+0130 it even changes the length.
- The factory branch of `getDependencies` (lines 106-117) repeats the body of `createBeanByMethod` inline. `ResolveParameter` calls `CreateBeanByMethod` for it, which behaves the same.
- Container.ApplicationContext.Init: that components are processed before factories is expressed by the order of the calls in its body. The contract states only the combined outcome.
- Factory precedence applies only to parameter resolution. `CreateComponents` builds a component by type even when a factory returns that type. `Scenarios.FactoryTakesPrecedence` shows both beans.
- Sets with arbitrary iteration order (components, factories): each is fixed as one sequence. When several factories return the same type, the pick of "first" depends on that order.
