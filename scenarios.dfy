/** Small object graphs stated as client methods of the container, and a
    cyclic one that it cannot be given. Every fact asserted here follows from
    the contracts of ApplicationContext alone. */
module Scenarios {
  import opened Naming
  import opened Beans
  import opened Container

  lemma NameIs(simpleName: string, name: string)
    requires |simpleName| > 0 && |name| == |simpleName| && name[0] == Lower(simpleName[0])
    requires forall i :: 1 <= i < |name| ==> name[i] == simpleName[i]
    ensures ClassName(simpleName) == name
  {
  }

  /** A container over w after an initialization that succeeded. */
  method Initialized(w: World, ghost rank: Node -> nat) returns (ctx: ApplicationContext)
    requires WellFormed(w, rank) && Infallible(w)
    ensures fresh(ctx) && ctx.world == w && ctx.rank == rank
    ensures ctx.Valid() && AllRegistered(w, ctx.dependencyMap)
  {
    ctx := new ApplicationContext(w, rank);
    var failed := ctx.Init();
  }

  function ServiceWorld(components: seq<TypeId>, constructorFails: (TypeId, seq<Instance>) -> bool): World {
    World(
      map[0 := ClassInfo("Repository", [[]]), 1 := ClassInfo("Service", [[0]])],
      components, [],
      constructorFails, (f, recv, args) => false)
  }

  function ServiceRank(n: Node): nat {
    match n
    case TypeNode(t) => t
    case FactoryNode(_) => 0
  }

  lemma ServiceWorldNames(components: seq<TypeId>, constructorFails: (TypeId, seq<Instance>) -> bool)
    requires forall c :: c in components ==> c in {0, 1}
    ensures DerivedName(ServiceWorld(components, constructorFails), 0) == Some("repository")
    ensures DerivedName(ServiceWorld(components, constructorFails), 1) == Some("service")
    ensures WellFormed(ServiceWorld(components, constructorFails), ServiceRank)
  {
    NameIs("Repository", "repository");
    NameIs("Service", "service");
    var w := ServiceWorld(components, constructorFails);
    assert Params(w, 0) == [] && Params(w, 1) == [0];
  }

  /** A repository with no dependencies and a service that needs it. */
  method RepositoryAndService() {
    var w := ServiceWorld([1, 0], (t, args) => false);
    ServiceWorldNames([1, 0], (t, args) => false);
    var ctx := Initialized(w, ServiceRank);
    ctx.ComponentLookup(0);
    ctx.ComponentLookup(1);
    var repository := ctx.GenBean("repository");
    var service := ctx.GenBean("service");
    assert repository == Some(Object(0, []));
    // The service is bound to that very repository.
    assert Params(w, 1) == [0] && Key(w, 0) == Some("repository");
    assert service.value.args == [repository.value];
    assert service == Some(Object(1, [repository.value]));
  }

  /** The service's constructor throws: initialization reports the failure
      and the service is not registered. */
  method FailingConstructor() {
    var w := ServiceWorld([1, 0], (t, args) => t == 1);
    ServiceWorldNames([1, 0], (t, args) => t == 1);
    var ctx := new ApplicationContext(w, ServiceRank);
    var failed := ctx.Init();
    // A registered service would have been built by a constructor that did not throw.
    if !failed {
      ctx.ComponentLookup(1);
    }
    assert failed;
    if "service" in ctx.dependencyMap {
      OwnerOfDerivedName(w, ctx.dependencyMap, 1);
    }
    assert ctx.GenBean("service").None?;
  }

  /** Only the repository is a component. The service's constructor would
      throw, but nothing reaches the service, so initialization succeeds. */
  method UnreachedFailure() {
    var w := ServiceWorld([0], (t, args) => t == 1);
    ServiceWorldNames([0], (t, args) => t == 1);
    assert Params(w, 0) == [];
    assert Builds(w, ServiceRank, TypeNode(0));
    var ctx := new ApplicationContext(w, ServiceRank);
    var failed := ctx.Init();
    assert !failed;
    ctx.ComponentLookup(0);
    assert ctx.GenBean("repository") == Some(Object(0, []));
  }

  const DataSourceFactory := Factory("dataSource", 0, 2, [])

  function ConfigWorld(): World {
    World(
      map[0 := ClassInfo("AppConfig", [[]]), 1 := ClassInfo("Repository", [[2]])],
      [1], [DataSourceFactory],
      (t, args) => false, (f, recv, args) => false)
  }

  function ConfigRank(n: Node): nat {
    match n
    case TypeNode(t) => if t == 1 then 2 else 0
    case FactoryNode(_) => 1
  }

  lemma ConfigNames()
    ensures DerivedName(ConfigWorld(), 0) == Some("appConfig")
    ensures DerivedName(ConfigWorld(), 1) == Some("repository")
    ensures forall t :: t !in {0, 1} ==> DerivedName(ConfigWorld(), t).None?
  {
    NameIs("AppConfig", "appConfig");
    NameIs("Repository", "repository");
  }

  lemma ConfigWorldNames()
    ensures DerivedName(ConfigWorld(), 0) == Some("appConfig")
    ensures DerivedName(ConfigWorld(), 1) == Some("repository")
    ensures WellFormed(ConfigWorld(), ConfigRank)
  {
    ConfigNames();
    assert UniqueNames(ConfigWorld());
    ConfigAcyclic();
  }

  lemma ConfigAcyclic()
    ensures Closed(ConfigWorld()) && Ranked(ConfigWorld(), ConfigRank)
  {
    var w := ConfigWorld();
    forall t | t in w.classes ensures Params(w, t) == if t == 1 then [2] else [] {
    }
    assert Cost(w, ConfigRank, 2) == 1;
  }

  /** A factory dataSource() on AppConfig returning DataSource, and a
      repository that needs a DataSource. */
  method FactoryOnConfigClass() {
    var w := ConfigWorld();
    ConfigWorldNames();
    var ctx := Initialized(w, ConfigRank);
    ctx.ComponentLookup(1);
    ctx.FactoryLookup(DataSourceFactory);
    var config := ctx.GenBean("appConfig");
    var source := ctx.GenBean("dataSource");
    var repository := ctx.GenBean("repository");
    assert config.Some? && source.Some? && repository.Some?;
    assert source.value == Product(DataSourceFactory, config.value, []);
    assert repository.value == Object(1, [source.value]);
    // AppConfig is no component, yet it is registered too: the registry holds
    // more entries than there are components and factories.
    assert 0 !in w.components && "appConfig" in ctx.dependencyMap;
  }

  const MainDataSourceFactory := Factory("mainDataSource", 0, 2, [])

  function PrecedenceWorld(): World {
    World(
      map[0 := ClassInfo("AppConfig", [[]]), 1 := ClassInfo("Repository", [[2]]),
          2 := ClassInfo("DataSource", [[]])],
      [2, 1], [MainDataSourceFactory],
      (t, args) => false, (f, recv, args) => false)
  }

  lemma PrecedenceNames()
    ensures DerivedName(PrecedenceWorld(), 0) == Some("appConfig")
    ensures DerivedName(PrecedenceWorld(), 1) == Some("repository")
    ensures DerivedName(PrecedenceWorld(), 2) == Some("dataSource")
    ensures forall t :: t !in {0, 1, 2} ==> DerivedName(PrecedenceWorld(), t).None?
  {
    NameIs("AppConfig", "appConfig");
    NameIs("Repository", "repository");
    NameIs("DataSource", "dataSource");
  }

  lemma PrecedenceUnique()
    ensures UniqueNames(PrecedenceWorld())
  {
    PrecedenceNames();
    assert "repository"[0] != "dataSource"[0];
  }

  lemma PrecedenceWorldNames()
    ensures DerivedName(PrecedenceWorld(), 0) == Some("appConfig")
    ensures DerivedName(PrecedenceWorld(), 1) == Some("repository")
    ensures DerivedName(PrecedenceWorld(), 2) == Some("dataSource")
    ensures Params(PrecedenceWorld(), 1) == [2]
    ensures Key(PrecedenceWorld(), 2) == Some("mainDataSource")
    ensures WellFormed(PrecedenceWorld(), ConfigRank)
  {
    PrecedenceNames();
    PrecedenceUnique();
    PrecedenceAcyclic();
  }

  lemma PrecedenceAcyclic()
    ensures Closed(PrecedenceWorld()) && Ranked(PrecedenceWorld(), ConfigRank)
  {
    var w := PrecedenceWorld();
    forall t | t in w.classes ensures Params(w, t) == if t == 1 then [2] else [] {
    }
    assert Cost(w, ConfigRank, 2) == 1;
  }

  /** DataSource is itself a component, and a factory mainDataSource() also
      returns DataSource: the repository receives the factory's value, while
      the component is still built by type under its own name. */
  method FactoryTakesPrecedence() {
    var w := PrecedenceWorld();
    PrecedenceWorldNames();
    var ctx := Initialized(w, ConfigRank);
    ctx.ComponentLookup(1);
    ctx.ComponentLookup(2);
    ctx.FactoryLookup(MainDataSourceFactory);
    var byType := ctx.GenBean("dataSource");
    var byFactory := ctx.GenBean("mainDataSource");
    var repository := ctx.GenBean("repository");
    assert byType == Some(Object(2, []));
    assert byFactory.Some? && byFactory.value.Product?;
    assert repository.value.args == [byFactory.value];
    assert repository == Some(Object(1, [byFactory.value]));
  }

  function MutualPair(): World {
    World(
      map[0 := ClassInfo("A", [[1]]), 1 := ClassInfo("B", [[0]])],
      [0, 1], [],
      (t, args) => false, (f, recv, args) => false)
  }

  /** A requires B and B requires A: no ranking exists, so no container can be
      built over this graph. Nothing in it can throw, so the source would
      recurse without end on it. */
  lemma MutualPairIsRejected(rank: Node -> nat)
    ensures !WellFormed(MutualPair(), rank)
  {
    var w := MutualPair();
    assert Params(w, 0) == [1] && Params(w, 1) == [0];
    MutualDependencyUnranked(w, rank, 0, 1);
  }
}
