/** Descriptors of what the container builds, the registry of built beans,
    and the invariants the registry keeps. Reflection is abstracted: a class
    is described by its simple name and the parameter types of its public
    constructors, a factory method by its name, declaring class, return type
    and parameter types, and a built object by a token recording how it was
    made. */
module Beans {
  import opened Naming

  type TypeId = nat

  datatype Option<T> = None | Some(value: T)

  /** What reflection reports about one class: its simple name and the
      parameter types of each public constructor, in the order in which
      getConstructors() lists them. */
  datatype ClassInfo = ClassInfo(simpleName: string, constructors: seq<seq<TypeId>>)

  /** A method annotated as a bean factory. */
  datatype Factory = Factory(name: string, declaringClass: TypeId, returnType: TypeId, parameterTypes: seq<TypeId>)

  /** A bean: an object built by a class's first constructor, or the value a
      factory method returned when invoked on its receiver. */
  datatype Instance =
    | Object(cls: TypeId, args: seq<Instance>)
    | Product(factory: Factory, receiver: Instance, args: seq<Instance>)

  /** Why building a bean threw: the class has an empty simple name
      (substring(0, 1) fails), the class has no public constructor
      (getConstructors()[0] fails), the constructor threw, or the factory threw. */
  datatype Failure =
    | EmptySimpleName(cls: TypeId)
    | NoPublicConstructor(cls: TypeId)
    | ConstructorThrew(cls: TypeId)
    | FactoryThrew(factory: Factory)

  datatype Result<T> = Ok(value: T) | Fail(error: Failure)

  /** What discovery and reflection report: the classes the graph touches, the
      discovered components and factory methods (each set in some fixed but
      arbitrary iteration order), and when a constructor or an invocation throws. */
  datatype World = World(
    classes: map<TypeId, ClassInfo>,
    components: seq<TypeId>,
    beanMethods: seq<Factory>,
    constructorFails: (TypeId, seq<Instance>) -> bool,
    invocationFails: (Factory, Instance, seq<Instance>) -> bool)

  type Registry = map<string, Instance>

  /** A vertex of the dependency graph: building by type, or invoking a factory. */
  datatype Node = TypeNode(cls: TypeId) | FactoryNode(factory: Factory)

  /** The first factory, in iteration order, whose return type is t. */
  function FirstFactory(fs: seq<Factory>, t: TypeId): (r: Option<Factory>)
    ensures r.None? <==> forall f :: f in fs ==> f.returnType != t
    ensures r.Some? ==> r.value in fs && r.value.returnType == t
    ensures r.Some? ==> exists i :: 0 <= i < |fs| && fs[i] == r.value &&
                                    forall j :: 0 <= j < i ==> fs[j].returnType != t
  {
    if fs == [] then None
    else if fs[0].returnType == t then Some(fs[0])
    else FirstFactory(fs[1..], t)
  }

  /** The name getClassName gives class t, or None when it throws. */
  function DerivedName(w: World, t: TypeId): Option<string> {
    if t in w.classes && |w.classes[t].simpleName| > 0
    then Some(ClassName(w.classes[t].simpleName))
    else None
  }

  /** The parameter types of the first public constructor of t. */
  function Params(w: World, t: TypeId): seq<TypeId> {
    if t in w.classes && |w.classes[t].constructors| > 0 then w.classes[t].constructors[0] else []
  }

  /** The registry name under which a dependency of type p is found: the name
      of the first factory returning p, otherwise the name derived from p. */
  function Key(w: World, p: TypeId): Option<string> {
    match FirstFactory(w.beanMethods, p)
    case Some(f) => Some(f.name)
    case None => DerivedName(w, p)
  }

  function NodeOf(v: Instance): Node {
    match v
    case Object(t, _) => TypeNode(t)
    case Product(f, _, _) => FactoryNode(f)
  }

  ghost predicate Resolvable(w: World, p: TypeId) {
    FirstFactory(w.beanMethods, p).Some? || p in w.classes
  }

  /** Every class that may be built by type is described. */
  ghost predicate Closed(w: World) {
    && (forall c :: c in w.components ==> c in w.classes)
    && (forall t, p :: t in w.classes && p in Params(w, t) ==> Resolvable(w, p))
    && (forall f :: f in w.beanMethods ==> f.declaringClass in w.classes)
    && (forall f, p :: f in w.beanMethods && p in f.parameterTypes ==> Resolvable(w, p))
  }

  /** The rank of the vertex that resolving a parameter of type p visits. */
  ghost function Cost(w: World, rank: Node -> nat, p: TypeId): nat {
    match FirstFactory(w.beanMethods, p)
    case Some(f) => rank(FactoryNode(f))
    case None => rank(TypeNode(p))
  }

  /** The vertex that resolving a parameter of type p visits: the first
      factory returning p, otherwise building p by type. */
  function Provider(w: World, p: TypeId): Node {
    match FirstFactory(w.beanMethods, p)
    case Some(f) => FactoryNode(f)
    case None => TypeNode(p)
  }

  /** Building vertex n cannot throw: for a class, it has a simple name and a
      public constructor, that constructor never throws, and every parameter's
      provider builds; for a factory, its declaring class builds, it never
      throws, and every parameter's provider builds. Only the part of the graph
      reachable from n matters. */
  ghost predicate Builds(w: World, rank: Node -> nat, n: Node)
    decreases rank(n)
  {
    match n
    case TypeNode(t) =>
      && t in w.classes && |w.classes[t].simpleName| > 0 && |w.classes[t].constructors| > 0
      && (forall args :: !w.constructorFails(t, args))
      && (forall p :: p in Params(w, t) ==>
            rank(Provider(w, p)) < rank(n) && Builds(w, rank, Provider(w, p)))
    case FactoryNode(f) =>
      && f in w.beanMethods
      && rank(TypeNode(f.declaringClass)) < rank(n) && Builds(w, rank, TypeNode(f.declaringClass))
      && (forall recv, args :: !w.invocationFails(f, recv, args))
      && (forall p :: p in f.parameterTypes ==>
            rank(Provider(w, p)) < rank(n) && Builds(w, rank, Provider(w, p)))
  }

  /** rank strictly decreases along every dependency edge: the graph is acyclic. */
  ghost predicate Ranked(w: World, rank: Node -> nat) {
    && (forall t, p :: t in w.classes && p in Params(w, t) ==> Cost(w, rank, p) < rank(TypeNode(t)))
    && (forall f :: f in w.beanMethods ==> rank(TypeNode(f.declaringClass)) < rank(FactoryNode(f)))
    && (forall f, p :: f in w.beanMethods && p in f.parameterTypes ==> Cost(w, rank, p) < rank(FactoryNode(f)))
  }

  /** No two descriptors produce the same bean name. */
  ghost predicate UniqueNames(w: World) {
    && (forall t1, t2 :: DerivedName(w, t1).Some? && DerivedName(w, t1) == DerivedName(w, t2) ==> t1 == t2)
    && (forall f1, f2 :: f1 in w.beanMethods && f2 in w.beanMethods && f1.name == f2.name ==> f1 == f2)
    && (forall t, f :: f in w.beanMethods ==> DerivedName(w, t) != Some(f.name))
  }

  ghost predicate WellFormed(w: World, rank: Node -> nat) {
    Closed(w) && Ranked(w, rank) && UniqueNames(w)
  }

  /** Nothing can throw: every class has a name and a public constructor, and
      no constructor or invocation fails. */
  ghost predicate Infallible(w: World) {
    && (forall t :: t in w.classes ==> |w.classes[t].simpleName| > 0 && |w.classes[t].constructors| > 0)
    && (forall t, args :: !w.constructorFails(t, args))
    && (forall f, recv, args :: !w.invocationFails(f, recv, args))
  }

  /** In an infallible well-formed graph every described class and every
      discovered factory builds. */
  lemma {:induction false} InfallibleBuilds(w: World, rank: Node -> nat, n: Node)
    requires WellFormed(w, rank) && Infallible(w)
    requires match n case TypeNode(t) => t in w.classes case FactoryNode(f) => f in w.beanMethods
    ensures Builds(w, rank, n)
    decreases rank(n), 0
  {
    match n
    case TypeNode(t) =>
      forall p | p in Params(w, t) ensures rank(Provider(w, p)) < rank(n) && Builds(w, rank, Provider(w, p)) {
        ProviderBuilds(w, rank, p);
      }
    case FactoryNode(f) =>
      InfallibleBuilds(w, rank, TypeNode(f.declaringClass));
      forall p | p in f.parameterTypes ensures rank(Provider(w, p)) < rank(n) && Builds(w, rank, Provider(w, p)) {
        ProviderBuilds(w, rank, p);
      }
  }

  lemma {:induction false} ProviderBuilds(w: World, rank: Node -> nat, p: TypeId)
    requires WellFormed(w, rank) && Infallible(w) && Resolvable(w, p)
    ensures Builds(w, rank, Provider(w, p)) && rank(Provider(w, p)) == Cost(w, rank, p)
    decreases Cost(w, rank, p), 1
  {
    InfallibleBuilds(w, rank, Provider(w, p));
  }

  /** m1 keeps every entry of m0 with the same value. */
  ghost predicate Extends(m0: Registry, m1: Registry) {
    forall k :: k in m0 ==> k in m1 && m1[k] == m0[k]
  }

  /** Every entry of m1 that m0 lacks belongs to a vertex ranked below bound. */
  ghost predicate AddedBelow(rank: Node -> nat, m0: Registry, m1: Registry, bound: nat) {
    forall k :: k in m1 && k !in m0 ==> rank(NodeOf(m1[k])) < bound
  }

  /** a is the bean registered for a parameter of type p. */
  ghost predicate ArgWired(w: World, m: Registry, p: TypeId, a: Instance) {
    Key(w, p).Some? && Key(w, p).value in m && m[Key(w, p).value] == a
  }

  ghost predicate ArgsWired(w: World, m: Registry, ps: seq<TypeId>, args: seq<Instance>) {
    |args| == |ps| && forall i :: 0 <= i < |ps| ==> ArgWired(w, m, ps[i], args[i])
  }

  /** v was built by the first constructor of t, which did not throw, from
      the registered beans for its parameters. */
  ghost predicate BuiltBy(w: World, m: Registry, t: TypeId, v: Instance) {
    && v.Object? && v.cls == t
    && t in w.classes && |w.classes[t].constructors| > 0
    && ArgsWired(w, m, Params(w, t), v.args)
    && !w.constructorFails(t, v.args)
  }

  /** v was returned by factory f, invoked without throwing on the registered
      instance of its declaring class with the registered beans for its parameters. */
  ghost predicate ProducedBy(w: World, m: Registry, f: Factory, v: Instance) {
    && v.Product? && v.factory == f && f in w.beanMethods
    && DerivedName(w, f.declaringClass).Some?
    && DerivedName(w, f.declaringClass).value in m
    && m[DerivedName(w, f.declaringClass).value] == v.receiver
    && ArgsWired(w, m, f.parameterTypes, v.args)
    && !w.invocationFails(f, v.receiver, v.args)
  }

  /** The entry k := v is what building the descriptor named k stores. */
  ghost predicate BeanWired(w: World, m: Registry, k: string, v: Instance) {
    match v
    case Object(t, _) => DerivedName(w, t) == Some(k) && BuiltBy(w, m, t, v)
    case Product(f, _, _) => f.name == k && ProducedBy(w, m, f, v)
  }

  /** Every registered bean is wired to registered beans. */
  ghost predicate Wired(w: World, m: Registry) {
    forall k {:trigger BeanWired(w, m, k, m[k])} :: k in m ==> BeanWired(w, m, k, m[k])
  }

  /** a is the bean for a parameter of type p, and it comes from the first
      factory returning p if there is one, otherwise from p's constructor. */
  ghost predicate Supplied(w: World, m: Registry, p: TypeId, a: Instance) {
    && ArgWired(w, m, p, a)
    && match FirstFactory(w.beanMethods, p)
       case Some(f) => ProducedBy(w, m, f, a)
       case None => BuiltBy(w, m, p, a)
  }

  ghost predicate ComponentRegistered(w: World, m: Registry, c: TypeId) {
    DerivedName(w, c).Some? && DerivedName(w, c).value in m
  }

  /** Every component and every factory method has its bean. */
  ghost predicate AllRegistered(w: World, m: Registry) {
    && (forall c :: c in w.components ==> ComponentRegistered(w, m, c))
    && (forall f :: f in w.beanMethods ==> f.name in m)
  }

  lemma ArgsWiredGrow(w: World, m0: Registry, m1: Registry, ps: seq<TypeId>, args: seq<Instance>)
    requires Extends(m0, m1) && ArgsWired(w, m0, ps, args)
    ensures ArgsWired(w, m1, ps, args)
  {
    forall i | 0 <= i < |ps| ensures ArgWired(w, m1, ps[i], args[i]) {
      assert ArgWired(w, m0, ps[i], args[i]);
    }
  }

  /** Appending the bean for one more parameter. */
  lemma ArgsWiredSnoc(w: World, m: Registry, ps: seq<TypeId>, args: seq<Instance>, p: TypeId, a: Instance)
    requires ArgsWired(w, m, ps, args) && ArgWired(w, m, p, a)
    ensures ArgsWired(w, m, ps + [p], args + [a])
  {
    forall i | 0 <= i < |ps| + 1 ensures ArgWired(w, m, (ps + [p])[i], (args + [a])[i]) {
      if i < |ps| {
        assert (ps + [p])[i] == ps[i] && (args + [a])[i] == args[i];
      }
    }
  }

  lemma BeanWiredGrow(w: World, m0: Registry, m1: Registry, k: string, v: Instance)
    requires Extends(m0, m1) && BeanWired(w, m0, k, v)
    ensures BeanWired(w, m1, k, v)
  {
    match v
    case Object(t, args) =>
      ArgsWiredGrow(w, m0, m1, Params(w, t), args);
    case Product(f, _, args) =>
      ArgsWiredGrow(w, m0, m1, f.parameterTypes, args);
  }

  /** Adding a wired entry under a fresh name keeps the registry wired. */
  lemma WiredPut(w: World, m: Registry, k: string, v: Instance)
    requires Wired(w, m) && k !in m && BeanWired(w, m[k := v], k, v)
    ensures Wired(w, m[k := v]) && Extends(m, m[k := v])
  {
    var m' := m[k := v];
    forall k' | k' in m' ensures BeanWired(w, m', k', m'[k']) {
      if k' != k {
        BeanWiredGrow(w, m, m', k', m[k']);
      }
    }
  }

  lemma AddedBelowChain(rank: Node -> nat, m0: Registry, m1: Registry, m2: Registry, b1: nat, b2: nat)
    requires Extends(m1, m2) && AddedBelow(rank, m0, m1, b1) && AddedBelow(rank, m1, m2, b2)
    ensures AddedBelow(rank, m0, m2, if b1 < b2 then b2 else b1)
  {
  }

  /** In a wired registry the bean under a class's derived name was built by that class. */
  lemma OwnerOfDerivedName(w: World, m: Registry, t: TypeId)
    requires UniqueNames(w) && Wired(w, m)
    requires DerivedName(w, t).Some? && DerivedName(w, t).value in m
    ensures BuiltBy(w, m, t, m[DerivedName(w, t).value])
  {
    var k := DerivedName(w, t).value;
    assert BeanWired(w, m, k, m[k]);
    match m[k]
    case Object(t', _) =>
      assert DerivedName(w, t') == DerivedName(w, t);
    case Product(f, _, _) =>
  }

  /** In a wired registry the bean under a factory's name was produced by that factory. */
  lemma OwnerOfFactoryName(w: World, m: Registry, f: Factory)
    requires UniqueNames(w) && Wired(w, m)
    requires f in w.beanMethods && f.name in m
    ensures ProducedBy(w, m, f, m[f.name])
  {
    assert BeanWired(w, m, f.name, m[f.name]);
    match m[f.name]
    case Object(t, _) =>
    case Product(f', _, _) =>
      assert f' in w.beanMethods && f'.name == f.name;
  }

  /** In a wired registry each registered dependency comes from the provider
      that resolution prefers: the first factory returning its type, if any. */
  lemma SuppliedFromWired(w: World, m: Registry, p: TypeId, a: Instance)
    requires UniqueNames(w) && Wired(w, m) && ArgWired(w, m, p, a)
    ensures Supplied(w, m, p, a)
  {
    match FirstFactory(w.beanMethods, p)
    case Some(f) =>
      OwnerOfFactoryName(w, m, f);
    case None =>
      OwnerOfDerivedName(w, m, p);
  }

  /** The same for a whole parameter list. */
  lemma AllSuppliedFromWired(w: World, m: Registry, ps: seq<TypeId>, args: seq<Instance>)
    requires UniqueNames(w) && Wired(w, m) && ArgsWired(w, m, ps, args)
    ensures forall i :: 0 <= i < |ps| ==> Supplied(w, m, ps[i], args[i])
  {
    forall i | 0 <= i < |ps| ensures Supplied(w, m, ps[i], args[i]) {
      SuppliedFromWired(w, m, ps[i], args[i]);
    }
  }

  /** While a class is being built, resolving its dependencies (which only
      registers vertices ranked below it) cannot register its own name. */
  lemma DerivedNameStillFree(w: World, rank: Node -> nat, m0: Registry, m1: Registry, t: TypeId)
    requires UniqueNames(w) && Wired(w, m1)
    requires DerivedName(w, t).Some? && DerivedName(w, t).value !in m0
    requires AddedBelow(rank, m0, m1, rank(TypeNode(t)))
    ensures DerivedName(w, t).value !in m1
  {
    var k := DerivedName(w, t).value;
    if k in m1 {
      OwnerOfDerivedName(w, m1, t);
    }
  }

  /** The same for a factory whose dependencies are being resolved. */
  lemma FactoryNameStillFree(w: World, rank: Node -> nat, m0: Registry, m1: Registry, f: Factory)
    requires UniqueNames(w) && Wired(w, m1) && f in w.beanMethods
    requires f.name !in m0
    requires AddedBelow(rank, m0, m1, rank(FactoryNode(f)))
    ensures f.name !in m1
  {
    if f.name in m1 {
      OwnerOfFactoryName(w, m1, f);
    }
  }

  /** A class whose first constructor needs its own type, with no factory for
      that type, admits no ranking: building it reaches it again before it is
      registered. */
  lemma SelfDependencyUnranked(w: World, rank: Node -> nat, t: TypeId)
    requires t in w.classes && t in Params(w, t)
    requires FirstFactory(w.beanMethods, t).None?
    ensures !Ranked(w, rank)
  {
    assert Cost(w, rank, t) == rank(TypeNode(t));

  }

  /** Two classes whose first constructors need each other, with no factory
      for either type, admit no ranking. */
  lemma MutualDependencyUnranked(w: World, rank: Node -> nat, a: TypeId, b: TypeId)
    requires a in w.classes && b in w.classes
    requires b in Params(w, a) && a in Params(w, b)
    requires FirstFactory(w.beanMethods, a).None? && FirstFactory(w.beanMethods, b).None?
    ensures !Ranked(w, rank)
  {
    assert Cost(w, rank, a) == rank(TypeNode(a)) && Cost(w, rank, b) == rank(TypeNode(b));

  }
}
