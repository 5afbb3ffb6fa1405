/**
 * DefaultHibernate4Factory: creates and destroys the SessionFactory of one named configuration.
 * Creation announces itself, obtains the data source (creating it once per name), derives the
 * Hibernate configuration, sets the schema policy, builds the factory and runs every bootstrap
 * on one session that is always closed; destruction mirrors it and then closes the data source.
 */
module Factory {
  import opened Wrappers
  import opened JavaText
  import opened ConfigValues
  import opened Hibernate
  import opened ConfigHelper

  /** The name of the unnamed session factory. */
  const KEY_DEFAULT := "default"
  const HBM2DDL_AUTO := "hibernate.hbm2ddl.auto"
  const DEFAULT_SCHEMA := "create-drop"
  const ERROR_INSTANCE_NULL := "Argument 'instance' must not be null"

  /** The blocks under the `sessionFactories` key (getPluralKey): their names in the configuration's iteration order, and each block. */
  datatype NamedConfigs = NamedConfigs(names: seq<string>, configs: map<string, SessionConfig>)

  /** The plugin's configuration: the block under the `sessionFactory` key (getSingleKey) and the named blocks, each present or not. */
  datatype Settings = Settings(single: Option<SessionConfig>, plural: Option<NamedConfigs>)

  /** narrowConfig / getConfigurationFor: the block a name selects; an unknown name gets an empty block. */
  function NarrowConfig(settings: Settings, name: string): SessionConfig {
    if name == KEY_DEFAULT && settings.single.Some? then settings.single.value
    else if settings.plural.Some? && name in settings.plural.value.configs then settings.plural.value.configs[name]
    else map[]
  }

  predicate Distinct(names: seq<string>) {
    forall i, j :: 0 <= i < j < |names| ==> names[i] != names[j]
  }

  /** LinkedHashSet.addAll: appends, in order, each name not yet present. */
  function AddAll(acc: seq<string>, names: seq<string>): (r: seq<string>)
    ensures forall n :: n in r <==> n in acc || n in names
    ensures Distinct(acc) ==> Distinct(r)
    ensures |acc| <= |r| && r[..|acc|] == acc
  {
    if names == [] then acc
    else
      var r0 := AddAll(acc, names[..|names| - 1]);
      var n := names[|names| - 1];
      assert forall m :: m in names <==> m in names[..|names| - 1] || m == n;
      if n in r0 then r0 else r0 + [n]
  }

  /** getSessionFactoryNames: the default name when the single block exists, then the named blocks' names. */
  function SessionFactoryNames(settings: Settings): seq<string> {
    AddAll(if settings.single.Some? then [KEY_DEFAULT] else [],
           if settings.plural.Some? then settings.plural.value.names else [])
  }

  /** A Hibernate4Bootstrap the injector supplies, by whether its init and destroy throw. */
  datatype Bootstrap = Bootstrap(id: nat, failsOnInit: bool, failsOnDestroy: bool)

  predicate Fails(b: Bootstrap, phase: Phase) {
    match phase
    case Init => b.failsOnInit
    case Destroy => b.failsOnDestroy
  }

  /** What the factory is given from outside: its configuration, the bootstraps in injector order, the class loader, the type-loader lines and the dialect detector. */
  datatype Setup = Setup(
    settings: Settings,
    bootstraps: seq<Bootstrap>,
    loader: ClassLoader,
    mappingLines: seq<string>,
    dialectOf: DataSource -> string)

  /** The calls a bootstrap loop makes and the exception that ends it, if any. */
  datatype BootstrapRun = BootstrapRun(calls: seq<Event>, failure: Option<Error>)

  /** Proof aid: regroups a trace extended by a run and one more event. */
  lemma EventsAssoc(a: seq<Event>, b: seq<Event>, e: Event)
    ensures a + b + [e] == a + (b + [e])
  {
  }

  /** Proof aid: regroups a trace extended by one event and then a run. */
  lemma EventsAssocFront(a: seq<Event>, e: Event, b: seq<Event>)
    ensures a + ([e] + b) == a + [e] + b
  {
  }

  /** The bootstrap loop: each bootstrap in order on the same session, until one throws. */
  function BootstrapCalls(bs: seq<Bootstrap>, phase: Phase, name: string, s: Session): BootstrapRun {
    if bs == [] then BootstrapRun([], None)
    else
      var call := BootstrapCalled(bs[0].id, phase, name, s);
      if Fails(bs[0], phase) then BootstrapRun([call], Some(BootstrapFailed(bs[0].id, phase)))
      else
        var rest := BootstrapCalls(bs[1..], phase, name, s);
        BootstrapRun([call] + rest.calls, rest.failure)
  }

  /** The bootstrap loop calls the bootstraps in order, each on the same session, at least the first one. */
  lemma {:induction false} BootstrapCallsMade(bs: seq<Bootstrap>, phase: Phase, name: string, s: Session)
    ensures var r := BootstrapCalls(bs, phase, name, s);
      && (1 <= |r.calls| <= |bs| || (bs == [] && r.calls == []))
      && (forall i :: 0 <= i < |r.calls| ==> r.calls[i] == BootstrapCalled(bs[i].id, phase, name, s))
  {
    if bs != [] && !Fails(bs[0], phase) {
      BootstrapCallsMade(bs[1..], phase, name, s);
      var rest := BootstrapCalls(bs[1..], phase, name, s);
      var calls := [BootstrapCalled(bs[0].id, phase, name, s)] + rest.calls;
      forall i | 0 < i < |calls|
        ensures calls[i] == BootstrapCalled(bs[i].id, phase, name, s)
      {
        assert calls[i] == rest.calls[i - 1] && bs[1..][i - 1] == bs[i];
      }
    }
  }

  /**
   * The bootstrap loop ends in an exception exactly when some bootstrap throws; the last call
   * made is then to the first bootstrap that throws, and otherwise every bootstrap is called.
   */
  lemma {:induction false} BootstrapCallsFailure(bs: seq<Bootstrap>, phase: Phase, name: string, s: Session)
    ensures var r := BootstrapCalls(bs, phase, name, s);
      && (r.failure.None? <==> forall i :: 0 <= i < |bs| ==> !Fails(bs[i], phase))
      && (r.failure.None? ==> |r.calls| == |bs|)
      && (r.failure.Some? ==>
            && 1 <= |r.calls| <= |bs|
            && Fails(bs[|r.calls| - 1], phase)
            && r.failure.value == BootstrapFailed(bs[|r.calls| - 1].id, phase)
            && forall i :: 0 <= i < |r.calls| - 1 ==> !Fails(bs[i], phase))
  {
    if bs != [] && !Fails(bs[0], phase) {
      BootstrapCallsFailure(bs[1..], phase, name, s);
      assert forall i :: 1 <= i < |bs| ==> bs[1..][i - 1] == bs[i];
    }
  }

  /** createSchema's value: the `schema` setting, "create-drop" when absent; null and non-strings throw. */
  function SchemaSetting(config: SessionConfig): Result<string, Error> {
    match GetConfigValue(config, "schema")
    case None => Ok(DEFAULT_SCHEMA)
    case Some(Str(s)) => Ok(s)
    case Some(Null) => Err(NullPointer(""))
    case Some(_) => Err(ClassCast)
  }

  /** getDataSource: the stored data source, or a new one that is stored under the name. */
  function ObtainDataSource(w: World, name: string): Effect<DataSource> {
    if name in w.dataSources then Effect(w, w.dataSources[name])
    else
      var ds := DataSource(|w.trace|);
      var w1 := Emit(w, DataSourceCreated(name, ds));
      Effect(w1.(dataSources := w1.dataSources[name := ds]), ds)
  }

  /** closeDataSource: destroy the stored data source, then remove it; nothing when there is none. */
  function ReleaseDataSource(w: World, name: string): World {
    if name in w.dataSources then
      var w1 := Emit(w, DataSourceDestroyed(name, w.dataSources[name]));
      w1.(dataSources := w1.dataSources - {name})
    else w
  }

  /** True of the events a session block emits: opening and closing a session, and calling a bootstrap. */
  predicate IsSessionEvent(e: Event) {
    e.SessionOpened? || e.SessionClosed? || e.BootstrapCalled?
  }

  predicate NoSessionEvents(events: seq<Event>) {
    forall i :: 0 <= i < |events| ==> !IsSessionEvent(events[i])
  }

  /** In `events` exactly one session is opened and later closed, and every bootstrap call lies between the two, on that session. */
  ghost predicate OneBootstrapSession(events: seq<Event>) {
    exists a, b :: Brackets(events, a, b)
  }

  predicate Brackets(events: seq<Event>, a: int, b: int) {
    && 0 <= a < b < |events|
    && events[a].SessionOpened?
    && events[b] == SessionClosed(events[a].session)
    && (forall i :: 0 <= i < |events| && events[i].SessionOpened? ==> i == a)
    && (forall i :: 0 <= i < |events| && events[i].SessionClosed? ==> i == b)
    && (forall i :: 0 <= i < |events| && events[i].BootstrapCalled? ==> a < i < b && events[i].session == events[a].session)
  }

  /** `w2` keeps `w`'s trace and may append to it. */
  predicate Extends(w: World, w2: World) {
    |w.trace| <= |w2.trace| && w2.trace[..|w.trace|] == w.trace
  }

  /** The events appended since `w`. */
  function Since(w: World, w2: World): seq<Event>
    requires |w.trace| <= |w2.trace|
  {
    w2.trace[|w.trace|..]
  }

  lemma SinceChain(w0: World, w1: World, w2: World)
    requires Extends(w0, w1) && Extends(w1, w2)
    ensures Extends(w0, w2) && Since(w0, w2) == Since(w0, w1) + Since(w1, w2)
  {
    assert w2.trace[..|w0.trace|] == w2.trace[..|w1.trace|][..|w0.trace|];
  }

  lemma SinceAppend(w: World, events: seq<Event>, w2: World)
    requires w2.trace == w.trace + events
    ensures Extends(w, w2) && Since(w, w2) == events
  {
    assert w2.trace[..|w.trace|] == w.trace;
  }

  lemma OpenCallsClose(sf: SessionFactory, s: Session, calls: seq<Event>)
    requires forall i :: 0 <= i < |calls| ==> calls[i].BootstrapCalled? && calls[i].session == s
    ensures OneBootstrapSession([SessionOpened(sf, s)] + calls + [SessionClosed(s)])
  {
    var events := [SessionOpened(sf, s)] + calls + [SessionClosed(s)];
    forall i | 0 <= i < |events| && IsSessionEvent(events[i])
      ensures events[i].SessionOpened? ==> i == 0
      ensures events[i].SessionClosed? ==> i == |calls| + 1
      ensures events[i].BootstrapCalled? ==> 0 < i < |calls| + 1 && events[i].session == s
    {
      if 0 < i < |calls| + 1 {
        assert events[i] == calls[i - 1];
      }
    }
    assert Brackets(events, 0, |calls| + 1);
  }

  /** Events that open, close or use no session keep a single bracketed session intact. */
  lemma OneBootstrapSessionFrame(pre: seq<Event>, mid: seq<Event>, post: seq<Event>)
    requires NoSessionEvents(pre) && NoSessionEvents(post) && OneBootstrapSession(mid)
    ensures OneBootstrapSession(pre + mid + post)
  {
    var a, b :| Brackets(mid, a, b);
    var events := pre + mid + post;
    forall i | 0 <= i < |events| && !(|pre| <= i < |pre| + |mid|)
      ensures !IsSessionEvent(events[i])
    {
      if i < |pre| {
        assert events[i] == pre[i];
      } else {
        assert events[i] == post[i - |pre| - |mid|];
      }
    }
    assert forall i :: |pre| <= i < |pre| + |mid| ==> events[i] == mid[i - |pre|];
    assert events[|pre| + a] == mid[a] && events[|pre| + b] == mid[b];
    assert Brackets(events, |pre| + a, |pre| + b);
  }

  /**
   * The session block of create and destroy: open a session on the factory, call every
   * bootstrap on it in injector order until one throws, and close the session in any case.
   */
  function BootstrapSession(bs: seq<Bootstrap>, phase: Phase, name: string, sf: SessionFactory, w: World): Effect<Option<Error>> {
    var s := Session(|w.trace|);
    var run := BootstrapCalls(bs, phase, name, s);
    Effect(EmitAll(w, [SessionOpened(sf, s)] + run.calls + [SessionClosed(s)]), run.failure)
  }

  /**
   * The session block opens one session and closes it, calls the bootstraps on it in injector
   * order, changes neither storage, and fails exactly when some bootstrap throws.
   */
  lemma BootstrapSessionShape(bs: seq<Bootstrap>, phase: Phase, name: string, sf: SessionFactory, w: World)
    ensures var e := BootstrapSession(bs, phase, name, sf, w);
      && Extends(w, e.world) && e.world.dataSources == w.dataSources && e.world.sessionFactories == w.sessionFactories
      && OneBootstrapSession(Since(w, e.world))
      && (forall i :: |w.trace| <= i < |e.world.trace| ==> IsSessionEvent(e.world.trace[i]))
      && 2 <= |Since(w, e.world)| <= |bs| + 2
      && (forall i :: 0 < i < |Since(w, e.world)| - 1 ==>
            Since(w, e.world)[i] == BootstrapCalled(bs[i - 1].id, phase, name, Session(|w.trace|)))
      && (e.result.None? <==> forall i :: 0 <= i < |bs| ==> !Fails(bs[i], phase))
      && (e.result.Some? ==> e.result.value.BootstrapFailed?)
  {
    var s := Session(|w.trace|);
    var run := BootstrapCalls(bs, phase, name, s);
    var events := [SessionOpened(sf, s)] + run.calls + [SessionClosed(s)];
    BootstrapCallsMade(bs, phase, name, s);
    BootstrapCallsFailure(bs, phase, name, s);
    OpenCallsClose(sf, s, run.calls);
    var w2 := EmitAll(w, events);
    assert BootstrapSession(bs, phase, name, sf, w) == Effect(w2, run.failure);
    assert Since(w, w2) == events;
    forall i | 0 < i < |events| - 1
      ensures events[i] == BootstrapCalled(bs[i - 1].id, phase, name, s)
    {
      assert events[i] == run.calls[i - 1];
    }
    forall i | |w.trace| <= i < |w2.trace|
      ensures IsSessionEvent(w2.trace[i])
    {
      assert w2.trace[i] == events[i - |w.trace|];
    }
  }

  /** Proof aid: regroups the events of a bootstrapped session, for `BootstrapSessionShape`. */
  lemma Regroup(t: seq<Event>, first: Event, middle: seq<Event>, last: Event)
    ensures t + [first] + middle + [last] == t + ([first] + middle + [last])
  {
  }

  /** A world built by appending `first`, then the events of a block, then `post`, has appended exactly those. */
  lemma SinceAppended(w: World, first: Event, w1: World, w2: World, post: seq<Event>, w3: World)
    requires w1.trace == w.trace + [first] && Extends(w1, w2) && w3.trace == w2.trace + post
    ensures Extends(w, w3) && Since(w, w3) == [first] + Since(w1, w2) + post
  {
    assert w2.trace == w1.trace + Since(w1, w2);
    assert w3.trace == w.trace + ([first] + Since(w1, w2) + post);
  }

  lemma BootstrapSessionOf(bs: seq<Bootstrap>, phase: Phase, name: string, sf: SessionFactory, w: World, trace: seq<Event>, failure: Option<Error>)
    requires var s := Session(|w.trace|); var run := BootstrapCalls(bs, phase, name, s);
      trace == w.trace + ([SessionOpened(sf, s)] + run.calls + [SessionClosed(s)]) && failure == run.failure
    ensures BootstrapSession(bs, phase, name, sf, w) == Effect(w.(trace := trace), failure)
  {
  }

  /** The data source create uses: the one stored under the name after ConnectStart, or a new one. */
  function PreparedDataSource(setup: Setup, w: World, name: string): DataSource {
    ObtainDataSource(Emit(w, ConnectStart(name)), name).result
  }

  /** The configuration create derives for the name. */
  function Derived(setup: Setup, w: World, name: string): Result<ConfigState, Error> {
    var ds := PreparedDataSource(setup, w, name);
    Derive(NarrowConfig(setup.settings, name), ds, setup.loader, setup.mappingLines, setup.dialectOf(ds))
  }

  /** create up to ConfigurationAvailable: announce the connection, obtain the data source, derive the configuration. */
  function Prepare(setup: Setup, w: World, name: string): (e: Effect<Result<ConfigState, Error>>)
    ensures Extends(w, e.world) && |w.trace| < |e.world.trace|
    ensures e.world.trace[|w.trace|] == ConnectStart(name)
    ensures forall i :: |w.trace| < i < |e.world.trace| ==>
      e.world.trace[i].DataSourceCreated? || e.world.trace[i].ConfigurationAvailable?
    ensures e.world.sessionFactories == w.sessionFactories
    ensures e.result == Derived(setup, w, name)
  {
    var d := ObtainDataSource(Emit(w, ConnectStart(name)), name);
    var derived := Derived(setup, w, name);
    if derived.Err? then Effect(d.world, Err(derived.error))
    else Effect(Emit(d.world, ConfigurationAvailable(name, derived.value.properties)), Ok(derived.value))
  }

  /** create after the configuration is available: set the schema policy, build the factory, run the bootstraps' init, announce the end. */
  function Launch(setup: Setup, name: string, p: Effect<Result<ConfigState, Error>>): Effect<Result<SessionFactory, Error>> {
    var schema := SchemaSetting(NarrowConfig(setup.settings, name));
    if p.result.Err? then Effect(p.world, Err(p.result.error))
    else if schema.Err? then Effect(p.world, Err(schema.error))
    else
      var sf := SessionFactory(|p.world.trace|);
      var w1 := Emit(p.world, SessionFactoryBuilt(name, p.result.value.properties[HBM2DDL_AUTO := Text(schema.value)], p.result.value.resources, sf));
      var b := BootstrapSession(setup.bootstraps, Init, name, sf, w1);
      if b.result.Some? then Effect(b.world, Err(b.result.value))
      else Effect(Emit(b.world, ConnectEnd(name, sf)), Ok(sf))
  }

  /** create */
  function Connect(setup: Setup, w: World, name: string): Effect<Result<SessionFactory, Error>> {
    Launch(setup, name, Prepare(setup, w, name))
  }

  /** destroy */
  function Disconnect(setup: Setup, w: World, name: string, instance: Option<SessionFactory>): Effect<Option<Error>> {
    if instance.None? then Effect(w, Some(NullPointer(ERROR_INSTANCE_NULL)))
    else
      var sf := instance.value;
      var w1 := Emit(w, DisconnectStart(name, sf));
      var b := BootstrapSession(setup.bootstraps, Destroy, name, sf, w1);
      if b.result.Some? then b
      else Effect(Emit(ReleaseDataSource(b.world, name), DisconnectEnd(name)), None)
  }

  // ---------------------------------------------------------------------------------------------
  // Properties

  /** The names: each configured name once, the default name first when the single block exists. */
  lemma SessionFactoryNamesShape(settings: Settings)
    ensures Distinct(SessionFactoryNames(settings))
    ensures forall n :: n in SessionFactoryNames(settings) <==>
      (n == KEY_DEFAULT && settings.single.Some?) || (settings.plural.Some? && n in settings.plural.value.names)
    ensures settings.single.Some? ==> SessionFactoryNames(settings)[0] == KEY_DEFAULT
  {
  }

  /** getDataSource creates and stores a data source only when none is stored; it touches no other name. */
  lemma ObtainDataSourceGetOrCreate(w: World, name: string)
    ensures var d := ObtainDataSource(w, name);
      && (name in w.dataSources ==> d == Effect(w, w.dataSources[name]))
      && (name !in w.dataSources ==>
            && d.world.trace == w.trace + [DataSourceCreated(name, d.result)]
            && d.world.dataSources == w.dataSources[name := d.result]
            && d.world.sessionFactories == w.sessionFactories)
      && name in d.world.dataSources && d.world.dataSources[name] == d.result
      && ObtainDataSource(d.world, name) == Effect(d.world, d.result)
  {
  }

  /** closeDataSource destroys and removes a present data source, does nothing otherwise, and a second call changes nothing. */
  lemma ReleaseDataSourceIdempotent(w: World, name: string)
    ensures name in w.dataSources ==>
      ReleaseDataSource(w, name) == World(w.trace + [DataSourceDestroyed(name, w.dataSources[name])], w.dataSources - {name}, w.sessionFactories)
    ensures name !in w.dataSources ==> ReleaseDataSource(w, name) == w
    ensures ReleaseDataSource(ReleaseDataSource(w, name), name) == ReleaseDataSource(w, name)
  {
  }

  /** After the configuration: ConnectEnd is emitted last exactly when create succeeds, and nowhere else; session-factory storage is untouched. */
  lemma LaunchOrder(setup: Setup, name: string, p: Effect<Result<ConfigState, Error>>)
    ensures var e := Launch(setup, name, p);
      && Extends(p.world, e.world)
      && e.world.sessionFactories == p.world.sessionFactories
      && (e.result.Ok? ==> |p.world.trace| < |e.world.trace| && e.world.trace[|e.world.trace| - 1] == ConnectEnd(name, e.result.value))
      && (forall i :: |p.world.trace| <= i < |e.world.trace| && e.world.trace[i].ConnectEnd? ==> e.result.Ok? && i == |e.world.trace| - 1)
  {
    var schema := SchemaSetting(NarrowConfig(setup.settings, name));
    if p.result.Ok? && schema.Ok? {
      var sf := SessionFactory(|p.world.trace|);
      var w1 := Emit(p.world, SessionFactoryBuilt(name, p.result.value.properties[HBM2DDL_AUTO := Text(schema.value)], p.result.value.resources, sf));
      var b := BootstrapSession(setup.bootstraps, Init, name, sf, w1);
      BootstrapSessionShape(setup.bootstraps, Init, name, sf, w1);
      var e := Launch(setup, name, p);
      assert Extends(w1, e.world);
      forall i | |p.world.trace| <= i < |b.world.trace|
        ensures !e.world.trace[i].ConnectEnd?
      {
        assert e.world.trace[i] == b.world.trace[i];
        if i > |p.world.trace| {
          assert IsSessionEvent(b.world.trace[i]);
        }
      }
    }
  }

  /** After the configuration, create either stops at once or opens exactly one session, runs the init bootstraps on it and closes it. */
  lemma LaunchSession(setup: Setup, name: string, p: Effect<Result<ConfigState, Error>>)
    ensures var e := Launch(setup, name, p);
      Extends(p.world, e.world) &&
      if p.result.Ok? && SchemaSetting(NarrowConfig(setup.settings, name)).Ok? then
        OneBootstrapSession(Since(p.world, e.world))
      else
        e.world == p.world
  {
    var schema := SchemaSetting(NarrowConfig(setup.settings, name));
    if p.result.Ok? && schema.Ok? {
      var sf := SessionFactory(|p.world.trace|);
      var built := SessionFactoryBuilt(name, p.result.value.properties[HBM2DDL_AUTO := Text(schema.value)], p.result.value.resources, sf);
      var w1 := Emit(p.world, built);
      var b := BootstrapSession(setup.bootstraps, Init, name, sf, w1);
      BootstrapSessionShape(setup.bootstraps, Init, name, sf, w1);
      var e := Launch(setup, name, p);
      var post := if b.result.Some? then [] else [ConnectEnd(name, sf)];
      SinceAppended(p.world, built, w1, b.world, post, e.world);
      OneBootstrapSessionFrame([built], Since(w1, b.world), post);
    }
  }

  /** The factory is built with hibernate.hbm2ddl.auto set to the `schema` setting, "create-drop" when it is absent. */
  lemma LaunchSchema(setup: Setup, name: string, p: Effect<Result<ConfigState, Error>>)
    ensures var e := Launch(setup, name, p);
      var config := NarrowConfig(setup.settings, name);
      forall i :: |p.world.trace| <= i < |e.world.trace| && e.world.trace[i].SessionFactoryBuilt? ==>
        && HBM2DDL_AUTO in e.world.trace[i].properties
        && e.world.trace[i].properties[HBM2DDL_AUTO] ==
             Text(if "schema" in config then config["schema"].s else DEFAULT_SCHEMA)
        && ("schema" in config ==> config["schema"].Str?)
  {
    var schema := SchemaSetting(NarrowConfig(setup.settings, name));
    if p.result.Ok? && schema.Ok? {
      var sf := SessionFactory(|p.world.trace|);
      var built := SessionFactoryBuilt(name, p.result.value.properties[HBM2DDL_AUTO := Text(schema.value)], p.result.value.resources, sf);
      var w1 := Emit(p.world, built);
      var b := BootstrapSession(setup.bootstraps, Init, name, sf, w1);
      BootstrapSessionShape(setup.bootstraps, Init, name, sf, w1);
      var e := Launch(setup, name, p);
      assert Extends(w1, e.world);
      forall i | |p.world.trace| < i < |e.world.trace|
        ensures !e.world.trace[i].SessionFactoryBuilt?
      {
        if i < |b.world.trace| {
          assert e.world.trace[i] == b.world.trace[i];
          assert IsSessionEvent(b.world.trace[i]);
        }
      }
    }
  }

  /**
   * create emits ConnectStart first, keeps the earlier trace, and ends with ConnectEnd exactly
   * when it succeeds; ConnectEnd appears nowhere else. It never touches session-factory storage.
   */
  lemma ConnectEventOrder(setup: Setup, w: World, name: string)
    ensures var e := Connect(setup, w, name);
      && Extends(w, e.world) && |w.trace| < |e.world.trace|
      && e.world.trace[|w.trace|] == ConnectStart(name)
      && e.world.sessionFactories == w.sessionFactories
      && (e.result.Ok? ==> e.world.trace[|e.world.trace| - 1] == ConnectEnd(name, e.result.value))
      && (forall i :: |w.trace| <= i < |e.world.trace| && e.world.trace[i].ConnectEnd? ==> e.result.Ok? && i == |e.world.trace| - 1)
  {
    var p := Prepare(setup, w, name);
    var e := Connect(setup, w, name);
    LaunchOrder(setup, name, p);
    SinceChain(w, p.world, e.world);
    forall i | |w.trace| <= i < |p.world.trace|
      ensures e.world.trace[i] == p.world.trace[i]
    {
      assert e.world.trace[..|p.world.trace|][i] == e.world.trace[i];
    }
  }

  /** create succeeds exactly when the configuration derives, the schema setting is a string or absent, and no bootstrap's init throws. */
  lemma ConnectSucceedsIff(setup: Setup, w: World, name: string)
    ensures Connect(setup, w, name).result.Ok? <==>
      && Derived(setup, w, name).Ok?
      && SchemaSetting(NarrowConfig(setup.settings, name)).Ok?
      && forall i :: 0 <= i < |setup.bootstraps| ==> !Fails(setup.bootstraps[i], Init)
  {
    var p := Prepare(setup, w, name);
    var schema := SchemaSetting(NarrowConfig(setup.settings, name));
    if p.result.Ok? && schema.Ok? {
      var sf := SessionFactory(|p.world.trace|);
      var w1 := Emit(p.world, SessionFactoryBuilt(name, p.result.value.properties[HBM2DDL_AUTO := Text(schema.value)], p.result.value.resources, sf));
      BootstrapSessionShape(setup.bootstraps, Init, name, sf, w1);
    }
  }

  /**
   * Once the factory is built, create opens exactly one session, runs the bootstraps' init on it
   * and closes it, whether or not a bootstrap throws; when it stops earlier, no session is opened.
   */
  lemma ConnectBootstrapSession(setup: Setup, w: World, name: string)
    ensures var e := Connect(setup, w, name);
      Extends(w, e.world) &&
      if Derived(setup, w, name).Ok? && SchemaSetting(NarrowConfig(setup.settings, name)).Ok? then
        OneBootstrapSession(Since(w, e.world))
      else
        NoSessionEvents(Since(w, e.world))
  {
    var p := Prepare(setup, w, name);
    var e := Connect(setup, w, name);
    LaunchSession(setup, name, p);
    SinceChain(w, p.world, e.world);
    var pre := Since(w, p.world);
    assert NoSessionEvents(pre) by {
      forall i | 0 <= i < |pre| ensures !IsSessionEvent(pre[i]) {
        assert pre[i] == p.world.trace[|w.trace| + i];
      }
    }
    if p.result.Ok? && SchemaSetting(NarrowConfig(setup.settings, name)).Ok? {
      OneBootstrapSessionFrame(pre, Since(p.world, e.world), []);
      assert Since(w, e.world) == pre + Since(p.world, e.world) + [];
    }
  }

  /** create builds the factory with hibernate.hbm2ddl.auto set to the `schema` setting, "create-drop" when it is absent. */
  lemma ConnectSchemaDefault(setup: Setup, w: World, name: string)
    ensures var e := Connect(setup, w, name);
      var config := NarrowConfig(setup.settings, name);
      forall i :: |w.trace| <= i < |e.world.trace| && e.world.trace[i].SessionFactoryBuilt? ==>
        && HBM2DDL_AUTO in e.world.trace[i].properties
        && e.world.trace[i].properties[HBM2DDL_AUTO] ==
             Text(if "schema" in config then config["schema"].s else DEFAULT_SCHEMA)
        && ("schema" in config ==> config["schema"].Str?)
  {
    var p := Prepare(setup, w, name);
    var e := Connect(setup, w, name);
    LaunchSchema(setup, name, p);
    LaunchOrder(setup, name, p);
    forall i | |w.trace| <= i < |p.world.trace|
      ensures !e.world.trace[i].SessionFactoryBuilt?
    {
      assert e.world.trace[..|p.world.trace|][i] == e.world.trace[i];
    }
  }

  /**
   * destroy rejects a null instance without effect; otherwise it emits DisconnectStart first,
   * runs the bootstraps' destroy on one session that it always closes, and leaves session-factory
   * storage alone.
   */
  lemma DisconnectSession(setup: Setup, w: World, name: string, instance: Option<SessionFactory>)
    ensures var e := Disconnect(setup, w, name, instance);
      && (instance.None? ==> e == Effect(w, Some(NullPointer(ERROR_INSTANCE_NULL))))
      && (instance.Some? ==>
            && Extends(w, e.world) && |w.trace| < |e.world.trace|
            && e.world.trace[|w.trace|] == DisconnectStart(name, instance.value)
            && OneBootstrapSession(Since(w, e.world))
            && e.world.sessionFactories == w.sessionFactories)
  {
    if instance.Some? {
      var sf := instance.value;
      var w1 := Emit(w, DisconnectStart(name, sf));
      var b := BootstrapSession(setup.bootstraps, Destroy, name, sf, w1);
      BootstrapSessionShape(setup.bootstraps, Destroy, name, sf, w1);
      var e := Disconnect(setup, w, name, instance);
      var post := if b.result.Some? then []
        else if name in w.dataSources then [DataSourceDestroyed(name, w.dataSources[name]), DisconnectEnd(name)]
        else [DisconnectEnd(name)];
      SinceAppended(w, DisconnectStart(name, sf), w1, b.world, post, e.world);
      OneBootstrapSessionFrame([DisconnectStart(name, sf)], Since(w1, b.world), post);
      assert e.world.trace[|w.trace|] == Since(w, e.world)[0];
    }
  }

  /**
   * When every bootstrap's destroy succeeds, destroy closes the data source (destroying a stored
   * one just before the end) and ends with DisconnectEnd; when one throws, the data source stays
   * and the last event is the session's close.
   */
  lemma DisconnectOutcome(setup: Setup, w: World, name: string, sf: SessionFactory)
    ensures var e := Disconnect(setup, w, name, Some(sf));
      && (e.result.None? <==> forall i :: 0 <= i < |setup.bootstraps| ==> !Fails(setup.bootstraps[i], Destroy))
      && (e.result.None? ==>
            && e.world.trace[|e.world.trace| - 1] == DisconnectEnd(name)
            && e.world.dataSources == w.dataSources - {name}
            && (name in w.dataSources ==>
                  e.world.trace[|e.world.trace| - 2] == DataSourceDestroyed(name, w.dataSources[name])))
      && (e.result.Some? ==>
            && e.world.trace[|e.world.trace| - 1].SessionClosed?
            && e.world.dataSources == w.dataSources)
  {
    var w1 := Emit(w, DisconnectStart(name, sf));
    var b := BootstrapSession(setup.bootstraps, Destroy, name, sf, w1);
    BootstrapSessionShape(setup.bootstraps, Destroy, name, sf, w1);
    if b.result.Some? {
      var t := Since(w1, b.world);
      assert b.world.trace[|b.world.trace| - 1] == t[|t| - 1];
    }
  }

  /** The session block neither reads nor writes session-factory storage. */
  lemma BootstrapSessionIgnoresSessionFactories(bs: seq<Bootstrap>, phase: Phase, name: string, sf: SessionFactory, w: World, sfs: map<string, SessionFactory>)
    ensures var b := BootstrapSession(bs, phase, name, sf, w);
      BootstrapSession(bs, phase, name, sf, w.(sessionFactories := sfs)) == Effect(b.world.(sessionFactories := sfs), b.result)
  {
  }

  lemma PrepareIgnoresSessionFactories(setup: Setup, w: World, name: string, sfs: map<string, SessionFactory>)
    ensures var p := Prepare(setup, w, name);
      Prepare(setup, w.(sessionFactories := sfs), name) == Effect(p.world.(sessionFactories := sfs), p.result)
  {
    var w2 := w.(sessionFactories := sfs);
    assert PreparedDataSource(setup, w2, name) == PreparedDataSource(setup, w, name);
    assert Derived(setup, w2, name) == Derived(setup, w, name);
  }

  lemma LaunchIgnoresSessionFactories(setup: Setup, name: string, p: Effect<Result<ConfigState, Error>>, sfs: map<string, SessionFactory>)
    ensures var e := Launch(setup, name, p);
      Launch(setup, name, Effect(p.world.(sessionFactories := sfs), p.result)) == Effect(e.world.(sessionFactories := sfs), e.result)
  {
    var schema := SchemaSetting(NarrowConfig(setup.settings, name));
    if p.result.Ok? && schema.Ok? {
      var sf := SessionFactory(|p.world.trace|);
      var w1 := Emit(p.world, SessionFactoryBuilt(name, p.result.value.properties[HBM2DDL_AUTO := Text(schema.value)], p.result.value.resources, sf));
      BootstrapSessionIgnoresSessionFactories(setup.bootstraps, Init, name, sf, w1, sfs);
    }
  }

  /** create neither reads nor writes session-factory storage: with other storage contents it does the same. */
  lemma ConnectIgnoresSessionFactories(setup: Setup, w: World, name: string, sfs: map<string, SessionFactory>)
    ensures var e := Connect(setup, w, name);
      Connect(setup, w.(sessionFactories := sfs), name) == Effect(e.world.(sessionFactories := sfs), e.result)
  {
    PrepareIgnoresSessionFactories(setup, w, name, sfs);
    LaunchIgnoresSessionFactories(setup, name, Prepare(setup, w, name), sfs);
  }

  /** destroy neither reads nor writes session-factory storage. */
  lemma DisconnectIgnoresSessionFactories(setup: Setup, w: World, name: string, instance: Option<SessionFactory>, sfs: map<string, SessionFactory>)
    ensures var e := Disconnect(setup, w, name, instance);
      Disconnect(setup, w.(sessionFactories := sfs), name, instance) == Effect(e.world.(sessionFactories := sfs), e.result)
  {
    if instance.Some? {
      BootstrapSessionIgnoresSessionFactories(setup.bootstraps, Destroy, name, instance.value, Emit(w, DisconnectStart(name, instance.value)), sfs);
    }
  }

  // ---------------------------------------------------------------------------------------------
  // The mutable objects

  class DefaultHibernate4Factory {
    const setup: Setup
    const log: EventLog
    const dataSourceStorage: Storage<DataSource>

    constructor (setup: Setup, log: EventLog, dataSourceStorage: Storage<DataSource>)
      ensures this.setup == setup && this.log == log && this.dataSourceStorage == dataSourceStorage
    {
      this.setup := setup;
      this.log := log;
      this.dataSourceStorage := dataSourceStorage;
    }

    /** The world as this factory sees it, with the given session-factory storage. */
    function View(sessionFactories: map<string, SessionFactory>): World
      reads log, dataSourceStorage
    {
      World(log.trace, dataSourceStorage.entries, sessionFactories)
    }

    method Create(name: string) returns (r: Result<SessionFactory, Error>)
      modifies log, dataSourceStorage
      ensures Connect(setup, old(View(map[])), name) == Effect(View(map[]), r)
    {
      var config := NarrowConfig(setup.settings, name);
      log.Append(ConnectStart(name));
      var configuration := CreateConfiguration(config, name);
      if configuration.Err? {
        return Err(configuration.error);
      }
      var c := configuration.value;
      var schemaError := CreateSchema(name, config, c);
      if schemaError.Some? {
        return Err(schemaError.value);
      }
      var sf := BuildSessionFactory(name, c);
      var failure := WithBootstrapSession(Init, name, sf);
      if failure.Some? {
        return Err(failure.value);
      }
      log.Append(ConnectEnd(name, sf));
      return Ok(sf);
    }

    method Destroy(name: string, instance: Option<SessionFactory>) returns (err: Option<Error>)
      modifies log, dataSourceStorage
      ensures Disconnect(setup, old(View(map[])), name, instance) == Effect(View(map[]), err)
    {
      if instance.None? {
        return Some(NullPointer(ERROR_INSTANCE_NULL));
      }
      log.Append(DisconnectStart(name, instance.value));
      var failure := WithBootstrapSession(Phase.Destroy, name, instance.value);
      if failure.Some? {
        return failure;
      }
      CloseDataSource(name);
      log.Append(DisconnectEnd(name));
      return None;
    }

    method CreateConfiguration(config: SessionConfig, dataSourceName: string) returns (r: Result<Configuration, Error>)
      modifies log, dataSourceStorage
      ensures var d := ObtainDataSource(old(View(map[])), dataSourceName);
        var derived := Derive(config, d.result, setup.loader, setup.mappingLines, setup.dialectOf(d.result));
        && (r.Ok? <==> derived.Ok?)
        && (r.Ok? ==> fresh(r.value) && r.value.State() == derived.value
                      && View(map[]) == Emit(d.world, ConfigurationAvailable(dataSourceName, derived.value.properties)))
        && (r.Err? ==> r.error == derived.error && View(map[]) == d.world)
    {
      var ds := GetDataSource(dataSourceName);
      var helper := new HibernateConfigurationHelper(config, dataSourceName, ds, setup.loader, setup.mappingLines, setup.dialectOf(ds));
      r := helper.BuildConfiguration();
      if r.Ok? {
        log.Append(ConfigurationAvailable(dataSourceName, r.value.properties));
      }
    }

    method CreateSchema(dataSourceName: string, config: SessionConfig, configuration: Configuration) returns (err: Option<Error>)
      modifies configuration
      ensures SchemaSetting(config).Err? ==> err == Some(SchemaSetting(config).error) && configuration.State() == old(configuration.State())
      ensures SchemaSetting(config).Ok? ==>
        && err.None?
        && configuration.State() == old(configuration.State()).(properties := old(configuration.properties)[HBM2DDL_AUTO := Text(SchemaSetting(config).value)])
    {
      match SchemaSetting(config) {
        case Err(e) => err := Some(e);
        case Ok(schema) =>
          configuration.SetProperty(HBM2DDL_AUTO, Text(schema));
          err := None;
      }
    }

    method CloseDataSource(dataSourceName: string)
      modifies log, dataSourceStorage
      ensures View(map[]) == ReleaseDataSource(old(View(map[])), dataSourceName)
    {
      var ds := dataSourceStorage.Get(dataSourceName);
      if ds.Some? {
        log.Append(DataSourceDestroyed(dataSourceName, ds.value));
        dataSourceStorage.Remove(dataSourceName);
      }
    }

    method GetDataSource(dataSourceName: string) returns (ds: DataSource)
      modifies log, dataSourceStorage
      ensures ObtainDataSource(old(View(map[])), dataSourceName) == Effect(View(map[]), ds)
    {
      var stored := dataSourceStorage.Get(dataSourceName);
      if stored.Some? {
        return stored.value;
      }
      ds := DataSource(|log.trace|);
      log.Append(DataSourceCreated(dataSourceName, ds));
      dataSourceStorage.Set(dataSourceName, ds);
    }

    /** Configuration.buildSessionFactory. */
    method BuildSessionFactory(name: string, configuration: Configuration) returns (sf: SessionFactory)
      modifies log
      ensures sf == SessionFactory(|old(log.trace)|)
      ensures log.trace == old(log.trace) + [SessionFactoryBuilt(name, configuration.properties, configuration.resources, sf)]
    {
      sf := SessionFactory(|log.trace|);
      log.Append(SessionFactoryBuilt(name, configuration.properties, configuration.resources, sf));
    }

    /** The try/finally block of create and destroy: the session is closed whether or not a bootstrap throws. */
    method WithBootstrapSession(phase: Phase, name: string, sf: SessionFactory) returns (failure: Option<Error>)
      modifies log
      ensures BootstrapSession(setup.bootstraps, phase, name, sf, old(View(map[]))) == Effect(View(map[]), failure)
    {
      ghost var w0 := View(map[]);
      var session := OpenSession(name, sf);
      failure := RunBootstraps(phase, name, session);
      log.Append(SessionClosed(session));
      ghost var run := BootstrapCalls(setup.bootstraps, phase, name, session);
      Regroup(w0.trace, SessionOpened(sf, session), run.calls, SessionClosed(session));
      BootstrapSessionOf(setup.bootstraps, phase, name, sf, w0, log.trace, failure);

    }

    method OpenSession(sessionFactoryName: string, sf: SessionFactory) returns (s: Session)
      modifies log
      ensures s == Session(|old(log.trace)|) && log.trace == old(log.trace) + [SessionOpened(sf, s)]
    {
      s := Session(|log.trace|);
      log.Append(SessionOpened(sf, s));
    }

    /** The loop over the injector's bootstraps; the caller's finally block closes the session. */
    method RunBootstraps(phase: Phase, name: string, session: Session) returns (failure: Option<Error>)
      modifies log
      ensures var run := BootstrapCalls(setup.bootstraps, phase, name, session);
        log.trace == old(log.trace) + run.calls && failure == run.failure
    {
      var bs := setup.bootstraps;
      ghost var run := BootstrapCalls(bs, phase, name, session);
      ghost var start := log.trace;
      ghost var calls: seq<Event> := [];
      var i := 0;
      while i < |bs|
        invariant 0 <= i <= |bs|
        invariant log.trace == start + calls
        invariant var rest := BootstrapCalls(bs[i..], phase, name, session);
          run.calls == calls + rest.calls && run.failure == rest.failure
      {
        var call := BootstrapCalled(bs[i].id, phase, name, session);
        log.Append(call);
        EventsAssoc(start, calls, call);
        assert bs[i..][1..] == bs[i + 1..];
        if Fails(bs[i], phase) {
          return Some(BootstrapFailed(bs[i].id, phase));
        }
        EventsAssocFront(calls, call, BootstrapCalls(bs[i + 1..], phase, name, session).calls);
        calls := calls + [call];
        i := i + 1;
      }
      return None;
    }
  }
}
