/** The container: a registry from bean names to beans, filled in place by
    building every discovered component and every discovered factory's bean,
    resolving constructor and factory parameters recursively and memoizing
    every bean under its name. */
module Container {
  import opened Naming
  import opened Beans

  class ApplicationContext {
    /** The discovered components and factory methods, and what reflection reports. */
    const world: World
    /** A ranking of the dependency graph, which must be acyclic. */
    ghost const rank: Node -> nat
    /** The name-to-bean registry. */
    var dependencyMap: Registry

    ghost predicate Valid()
      reads this
    {
      WellFormed(world, rank) && Wired(world, dependencyMap)
    }

    constructor (world: World, ghost rank: Node -> nat)
      requires WellFormed(world, rank)
      ensures this.world == world && this.rank == rank
      ensures dependencyMap == map[] && Valid()
    {
      this.world := world;
      this.rank := rank;
      dependencyMap := map[];
    }

    /** Builds every component, then every factory's bean. On a failure the
        remaining work is skipped, the registry stays partially filled, and
        the failure is only reported as the diagnostic `failed`. */
    method Init() returns (failed: bool)
      requires Valid()
      modifies this
      ensures Valid() && Extends(old(dependencyMap), dependencyMap)
      ensures failed <==> !AllRegistered(world, dependencyMap)
      ensures ((forall c :: c in world.components ==> Builds(world, rank, TypeNode(c))) &&
               (forall f :: f in world.beanMethods ==> Builds(world, rank, FactoryNode(f))))
              ==> !failed
      ensures Infallible(world) ==> !failed
    {
      if Infallible(world) {
        forall c | c in world.components ensures Builds(world, rank, TypeNode(c)) {
          InfallibleBuilds(world, rank, TypeNode(c));
        }
        forall f | f in world.beanMethods ensures Builds(world, rank, FactoryNode(f)) {
          InfallibleBuilds(world, rank, FactoryNode(f));
        }
      }
      var r := CreateComponents();
      if r.Fail? {
        return true;
      }
      r := CreateBeans();
      failed := r.Fail?;
    }

    /** The bean registered under beanName, or None when there is none. */
    function GenBean(beanName: string): (r: Option<Instance>)
      reads this
      ensures r.Some? <==> beanName in dependencyMap
      ensures r.Some? ==> r.value == dependencyMap[beanName]
    {
      if beanName in dependencyMap then Some(dependencyMap[beanName]) else None
    }

    /** After a complete initialization, looking up a component's derived name
        yields the bean that component's first constructor built. */
    lemma ComponentLookup(c: TypeId)
      requires Valid() && AllRegistered(world, dependencyMap) && c in world.components
      ensures DerivedName(world, c).Some?
      ensures GenBean(DerivedName(world, c).value).Some?
      ensures BuiltBy(world, dependencyMap, c, GenBean(DerivedName(world, c).value).value)
    {
      assert ComponentRegistered(world, dependencyMap, c);
      OwnerOfDerivedName(world, dependencyMap, c);
    }

    /** After a complete initialization, looking up a factory's name yields
        the value that factory returned. */
    lemma FactoryLookup(f: Factory)
      requires Valid() && AllRegistered(world, dependencyMap) && f in world.beanMethods
      ensures GenBean(f.name).Some?
      ensures ProducedBy(world, dependencyMap, f, GenBean(f.name).value)
    {
      OwnerOfFactoryName(world, dependencyMap, f);
    }

    method CreateComponents() returns (r: Result<()>)
      requires Valid()
      modifies this
      ensures Valid() && Extends(old(dependencyMap), dependencyMap)
      ensures r.Ok? ==> forall c :: c in world.components ==> ComponentRegistered(world, dependencyMap, c)
      ensures r.Fail? ==> exists c :: c in world.components && !ComponentRegistered(world, dependencyMap, c)
      ensures (forall c :: c in world.components ==> Builds(world, rank, TypeNode(c))) ==> r.Ok?
    {
      for i := 0 to |world.components|
        invariant Valid() && Extends(old(dependencyMap), dependencyMap)
        invariant forall j :: 0 <= j < i ==> ComponentRegistered(world, dependencyMap, world.components[j])
      {
        var c := world.components[i];
        var bean := CreateBeanByType(c);
        if bean.Fail? {
          assert !ComponentRegistered(world, dependencyMap, c);
          return Fail(bean.error);
        }
      }
      return Ok(());
    }

    method CreateBeans() returns (r: Result<()>)
      requires Valid()
      modifies this
      ensures Valid() && Extends(old(dependencyMap), dependencyMap)
      ensures r.Ok? ==> forall f :: f in world.beanMethods ==> f.name in dependencyMap
      ensures r.Fail? ==> exists f :: f in world.beanMethods && f.name !in dependencyMap
      ensures (forall f :: f in world.beanMethods ==> Builds(world, rank, FactoryNode(f))) ==> r.Ok?
    {
      for i := 0 to |world.beanMethods|
        invariant Valid() && Extends(old(dependencyMap), dependencyMap)
        invariant forall j :: 0 <= j < i ==> world.beanMethods[j].name in dependencyMap
      {
        var f := world.beanMethods[i];
        var bean := CreateBeanByMethod(f);
        if bean.Fail? {
          return Fail(bean.error);
        }
      }
      return Ok(());
    }

    /** The bean for class t under its derived name: the registered one if
        there is one, otherwise a new one built by t's first constructor from
        the beans resolved for that constructor's parameter types. */
    method CreateBeanByType(t: TypeId) returns (r: Result<Instance>)
      requires Valid() && t in world.classes
      modifies this
      decreases rank(TypeNode(t)), 2
      ensures Valid() && Extends(old(dependencyMap), dependencyMap)
      ensures AddedBelow(rank, old(dependencyMap), dependencyMap, rank(TypeNode(t)) + 1)
      ensures DerivedName(world, t).None? ==>
                r == Fail(EmptySimpleName(t)) && dependencyMap == old(dependencyMap)
      ensures DerivedName(world, t).Some? ==>
                var className := DerivedName(world, t).value;
                && (className in old(dependencyMap) ==>
                      r == Ok(old(dependencyMap)[className]) && dependencyMap == old(dependencyMap))
                && (className !in old(dependencyMap) && |world.classes[t].constructors| == 0 ==>
                      r == Fail(NoPublicConstructor(t)) && dependencyMap == old(dependencyMap))
                && (r.Ok? <==> className in dependencyMap)
                && (r.Ok? ==> dependencyMap[className] == r.value)
      ensures r.Ok? ==> BuiltBy(world, dependencyMap, t, r.value)
      ensures Builds(world, rank, TypeNode(t)) ==> r.Ok?
    {
      var name := DerivedName(world, t);
      if name.None? {
        return Fail(EmptySimpleName(t));
      }
      var className := name.value;
      if className in dependencyMap {
        OwnerOfDerivedName(world, dependencyMap, t);
        return Ok(dependencyMap[className]);
      }
      var constructors := world.classes[t].constructors;
      if |constructors| == 0 {
        return Fail(NoPublicConstructor(t));
      }
      ghost var before := dependencyMap;
      var args := GetDependencies(constructors[0], rank(TypeNode(t)));
      DerivedNameStillFree(world, rank, before, dependencyMap, t);
      if args.Fail? {
        return Fail(args.error);
      }
      if world.constructorFails(t, args.value) {
        return Fail(ConstructorThrew(t));
      }
      var bean := Object(t, args.value);
      ghost var resolved := dependencyMap;
      ArgsWiredGrow(world, resolved, resolved[className := bean], constructors[0], args.value);
      WiredPut(world, resolved, className, bean);
      dependencyMap := dependencyMap[className := bean];
      AddedBelowChain(rank, before, resolved, dependencyMap, rank(TypeNode(t)), rank(TypeNode(t)) + 1);
      return Ok(bean);
    }

    /** The bean of factory f under f's name: the registered one if there is
        one, otherwise the value f returns when invoked on its declaring
        class's instance with the beans resolved for its parameter types. */
    method CreateBeanByMethod(f: Factory) returns (r: Result<Instance>)
      requires Valid() && f in world.beanMethods
      modifies this
      decreases rank(FactoryNode(f)), 2
      ensures Valid() && Extends(old(dependencyMap), dependencyMap)
      ensures AddedBelow(rank, old(dependencyMap), dependencyMap, rank(FactoryNode(f)) + 1)
      ensures f.name in old(dependencyMap) ==>
                r == Ok(old(dependencyMap)[f.name]) && dependencyMap == old(dependencyMap)
      ensures r.Ok? <==> f.name in dependencyMap
      ensures r.Ok? ==> dependencyMap[f.name] == r.value
      ensures r.Ok? ==> ProducedBy(world, dependencyMap, f, r.value)
      ensures Builds(world, rank, FactoryNode(f)) ==> r.Ok?
    {
      if f.name in dependencyMap {
        OwnerOfFactoryName(world, dependencyMap, f);
        return Ok(dependencyMap[f.name]);
      }
      ghost var before := dependencyMap;
      var configClass := GetConfigInstance(f.declaringClass);
      FactoryNameStillFree(world, rank, before, dependencyMap, f);
      if configClass.Fail? {
        return Fail(configClass.error);
      }
      ghost var configured := dependencyMap;
      var args := GetDependencies(f.parameterTypes, rank(FactoryNode(f)));
      AddedBelowChain(rank, before, configured, dependencyMap, rank(TypeNode(f.declaringClass)) + 1, rank(FactoryNode(f)));
      FactoryNameStillFree(world, rank, before, dependencyMap, f);
      if args.Fail? {
        return Fail(args.error);
      }
      if world.invocationFails(f, configClass.value, args.value) {
        return Fail(FactoryThrew(f));
      }
      var bean := Product(f, configClass.value, args.value);
      ghost var resolved := dependencyMap;
      ArgsWiredGrow(world, resolved, resolved[f.name := bean], f.parameterTypes, args.value);
      WiredPut(world, resolved, f.name, bean);
      dependencyMap := dependencyMap[f.name := bean];
      AddedBelowChain(rank, before, resolved, dependencyMap, rank(FactoryNode(f)), rank(FactoryNode(f)) + 1);
      return Ok(bean);
    }

    /** The beans for a parameter list, one per parameter type and in order,
        filled into an array of the list's length. */
    method GetDependencies(paramTypes: seq<TypeId>, ghost above: nat) returns (r: Result<seq<Instance>>)
      requires Valid()
      requires forall p :: p in paramTypes ==> Resolvable(world, p) && Cost(world, rank, p) < above
      modifies this
      decreases above, 1
      ensures Valid() && Extends(old(dependencyMap), dependencyMap)
      ensures AddedBelow(rank, old(dependencyMap), dependencyMap, above)
      ensures r.Ok? ==> |r.value| == |paramTypes|
      ensures r.Ok? ==> forall i :: 0 <= i < |paramTypes| ==> Supplied(world, dependencyMap, paramTypes[i], r.value[i])
      ensures (forall p :: p in paramTypes ==> Builds(world, rank, Provider(world, p))) ==> r.Ok?
    {
      var dependencies := new Instance[|paramTypes|];
      ghost var filled: seq<Instance> := [];
      for i := 0 to |paramTypes|
        invariant Valid() && Extends(old(dependencyMap), dependencyMap)
        invariant AddedBelow(rank, old(dependencyMap), dependencyMap, above)
        invariant dependencies[..i] == filled
        invariant ArgsWired(world, dependencyMap, paramTypes[..i], filled)
      {
        assert paramTypes[i] in paramTypes;
        ghost var before := dependencyMap;
        var bean := ResolveParameter(paramTypes[i], above);
        if bean.Fail? {
          return Fail(bean.error);
        }
        dependencies[i] := bean.value;
        ArgsWiredGrow(world, before, dependencyMap, paramTypes[..i], filled);
        ArgsWiredSnoc(world, dependencyMap, paramTypes[..i], filled, paramTypes[i], bean.value);
        assert paramTypes[..i] + [paramTypes[i]] == paramTypes[..i + 1];
        filled := filled + [bean.value];
      }
      assert paramTypes[..|paramTypes|] == paramTypes;
      AllSuppliedFromWired(world, dependencyMap, paramTypes, filled);
      return Ok(dependencies[..]);
    }

    /** The bean for one parameter type. A type that some factory returns is
        resolved through the first such factory, under the factory's name; any
        other type is built by type, under its derived name. */
    method ResolveParameter(p: TypeId, ghost above: nat) returns (r: Result<Instance>)
      requires Valid() && Resolvable(world, p) && Cost(world, rank, p) < above
      modifies this
      decreases above, 0
      ensures Valid() && Extends(old(dependencyMap), dependencyMap)
      ensures AddedBelow(rank, old(dependencyMap), dependencyMap, above)
      ensures r.Ok? ==> ArgWired(world, dependencyMap, p, r.value)
      ensures Builds(world, rank, Provider(world, p)) ==> r.Ok?
    {
      ghost var before := dependencyMap;
      var factoryMethod := FindFactoryMethod(p);
      if factoryMethod.Some? {
        r := CreateBeanByMethod(factoryMethod.value);
        AddedBelowChain(rank, before, before, dependencyMap, 0, rank(FactoryNode(factoryMethod.value)) + 1);
      } else {
        r := CreateBeanByType(p);
        AddedBelowChain(rank, before, before, dependencyMap, 0, rank(TypeNode(p)) + 1);
      }
    }

    /** The instance of a factory's declaring class, built by type under its
        derived name when it is not registered yet. */
    method GetConfigInstance(configClass: TypeId) returns (r: Result<Instance>)
      requires Valid() && configClass in world.classes
      modifies this
      decreases rank(TypeNode(configClass)), 3
      ensures Valid() && Extends(old(dependencyMap), dependencyMap)
      ensures AddedBelow(rank, old(dependencyMap), dependencyMap, rank(TypeNode(configClass)) + 1)
      ensures DerivedName(world, configClass).None? ==>
                r == Fail(EmptySimpleName(configClass)) && dependencyMap == old(dependencyMap)
      ensures DerivedName(world, configClass).Some? ==>
                var configClassName := DerivedName(world, configClass).value;
                && (configClassName in old(dependencyMap) ==>
                      r == Ok(old(dependencyMap)[configClassName]) && dependencyMap == old(dependencyMap))
                && (r.Ok? <==> configClassName in dependencyMap)
                && (r.Ok? ==> dependencyMap[configClassName] == r.value)
      ensures r.Ok? ==> BuiltBy(world, dependencyMap, configClass, r.value)
      ensures Builds(world, rank, TypeNode(configClass)) ==> r.Ok?
    {
      var name := DerivedName(world, configClass);
      if name.None? {
        return Fail(EmptySimpleName(configClass));
      }
      var configClassName := name.value;
      if configClassName !in dependencyMap {
        var bean := CreateBeanByType(configClass);
        if bean.Fail? {
          return bean;
        }
        ghost var built := dependencyMap;
        // The put stores exactly what createBeanByType has just stored.
        dependencyMap := dependencyMap[configClassName := bean.value];
        assert dependencyMap == built;
      }
      OwnerOfDerivedName(world, dependencyMap, configClass);
      return Ok(dependencyMap[configClassName]);
    }

    /** The first discovered factory, in iteration order, whose return type is t. */
    method FindFactoryMethod(t: TypeId) returns (r: Option<Factory>)
      ensures r == FirstFactory(world.beanMethods, t)
    {
      var fs := world.beanMethods;
      var i := 0;
      while i < |fs|
        invariant 0 <= i <= |fs|
        invariant FirstFactory(fs[i..], t) == FirstFactory(fs, t)
      {
        if fs[i].returnType == t {
          return Some(fs[i]);
        }
        assert fs[i..][1..] == fs[i + 1..];
        i := i + 1;
      }
      return None;
    }
  }
}
