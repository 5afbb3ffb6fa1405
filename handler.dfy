/**
 * DefaultHibernate4Handler: runs a callback on a fresh session of a named session factory inside
 * one transaction, creating and storing the factory on first use, and closes named factories.
 */
module Handler {
  import opened Wrappers
  import opened JavaText
  import opened Hibernate
  import opened Factory

  const ERROR_SESSION_FACTORY_NAME_BLANK := "Argument 'sessionFactoryName' must not be blank"
  const ERROR_CALLBACK_NULL := "Argument 'callback' must not be null"
  const ERROR_FACTORY_NULL := "Argument 'hibernate4Factory' must not be null"
  const ERROR_STORAGE_NULL := "Argument 'hibernate4Storage' must not be null"

  /** A Hibernate4Callback: what its handle method returns or throws, and whether it rolls the transaction back. */
  datatype Callback<R> = Callback(outcome: Result<R, Error>, rollsBack: bool)

  /** Which of the session's own calls in the finally block throw. */
  datatype SessionFaults = SessionFaults(commitFails: bool, closeFails: bool)

  /** getSessionFactory: the stored factory, or a new one from create that is then stored; create's exception passes through. */
  function GetOrCreate(setup: Setup, w: World, name: string): Effect<Result<SessionFactory, Error>> {
    if name in w.sessionFactories then Effect(w, Ok(w.sessionFactories[name]))
    else
      var c := Connect(setup, w, name);
      if c.result.Err? then c
      else Effect(c.world.(sessionFactories := c.world.sessionFactories[name := c.result.value]), c.result)
  }

  /**
   * The try/catch/finally of withHbm4Session on an open factory: open a session, begin a
   * transaction, run the callback; then commit unless it was rolled back, and close the session.
   * An exception of the callback is wrapped; one of commit or close replaces any outcome, and a
   * failed commit skips the close.
   */
  function Transaction<R>(w: World, name: string, sf: SessionFactory, callback: Callback<R>, faults: SessionFaults): Effect<Result<R, Error>> {
    var s := Session(|w.trace|);
    var w1 := EmitAll(w, [SessionOpened(sf, s), TransactionBegun(s), CallbackInvoked(name, s)] + (if callback.rollsBack then [RolledBack(s)] else []));
    var pending: Result<R, Error> := match callback.outcome
      case Ok(v) => Ok(v)
      case Err(e) => Err(RuntimeHibernate4(name, e));
    var w2 := if callback.rollsBack then w1 else Emit(w1, Committed(s));
    if !callback.rollsBack && faults.commitFails then Effect(w2, Err(RuntimeHibernate4(name, CommitFailed(s))))
    else
      var w3 := Emit(w2, SessionClosed(s));
      if faults.closeFails then Effect(w3, Err(RuntimeHibernate4(name, CloseFailed(s))))
      else Effect(w3, pending)
  }

  /** withHbm4Session(name, callback) */
  function Execute<R>(setup: Setup, w: World, name: string, callback: Option<Callback<R>>, faults: SessionFaults): Effect<Result<R, Error>> {
    if IsBlank(name) then Effect(w, Err(IllegalArgument(ERROR_SESSION_FACTORY_NAME_BLANK)))
    else if callback.None? then Effect(w, Err(NullPointer(ERROR_CALLBACK_NULL)))
    else
      var g := GetOrCreate(setup, w, name);
      if g.result.Err? then Effect(g.world, Err(g.result.error))
      else Transaction(g.world, name, g.result.value, callback.value, faults)
  }

  /** closeHbm4Session(name): destroy the stored factory and then forget it; nothing when none is stored. */
  function Close(setup: Setup, w: World, name: string): Effect<Option<Error>> {
    if IsBlank(name) then Effect(w, Some(IllegalArgument(ERROR_SESSION_FACTORY_NAME_BLANK)))
    else if name !in w.sessionFactories then Effect(w, None)
    else
      var d := Disconnect(setup, w, name, Some(w.sessionFactories[name]));
      if d.result.Some? then d
      else Effect(d.world.(sessionFactories := d.world.sessionFactories - {name}), None)
  }

  // ---------------------------------------------------------------------------------------------
  // Properties

  /**
   * A stored factory is returned without effect; otherwise create runs once and, when it
   * succeeds, its factory is stored under the name with every other entry kept; when it fails
   * nothing is stored.
   */
  lemma GetOrCreateStores(setup: Setup, w: World, name: string)
    ensures var g := GetOrCreate(setup, w, name);
      && (name in w.sessionFactories ==> g == Effect(w, Ok(w.sessionFactories[name])))
      && (name !in w.sessionFactories ==> g.result == Connect(setup, w, name).result)
      && (g.result.Ok? ==> name in g.world.sessionFactories && g.world.sessionFactories[name] == g.result.value)
      && (g.result.Ok? ==> g.world.sessionFactories == w.sessionFactories[name := g.result.value])
      && (g.result.Err? ==> g.world.sessionFactories == w.sessionFactories)
  {
    ConnectEventOrder(setup, w, name);
  }

  /** The events of the transaction, case by case. */
  lemma TransactionTrace<R>(w: World, name: string, sf: SessionFactory, callback: Callback<R>, faults: SessionFaults)
    ensures var e := Transaction(w, name, sf, callback, faults);
      var s := Session(|w.trace|);
      && Extends(w, e.world) && e.world.dataSources == w.dataSources && e.world.sessionFactories == w.sessionFactories
      && Since(w, e.world) ==
           if callback.rollsBack then [SessionOpened(sf, s), TransactionBegun(s), CallbackInvoked(name, s), RolledBack(s), SessionClosed(s)]
           else if faults.commitFails then [SessionOpened(sf, s), TransactionBegun(s), CallbackInvoked(name, s), Committed(s)]
           else [SessionOpened(sf, s), TransactionBegun(s), CallbackInvoked(name, s), Committed(s), SessionClosed(s)]
  {
    var e := Transaction(w, name, sf, callback, faults);
    var s := Session(|w.trace|);
    if callback.rollsBack {
      SinceAppend(w, [SessionOpened(sf, s), TransactionBegun(s), CallbackInvoked(name, s), RolledBack(s), SessionClosed(s)], e.world);
    } else if faults.commitFails {
      SinceAppend(w, [SessionOpened(sf, s), TransactionBegun(s), CallbackInvoked(name, s), Committed(s)], e.world);
    } else {
      SinceAppend(w, [SessionOpened(sf, s), TransactionBegun(s), CallbackInvoked(name, s), Committed(s), SessionClosed(s)], e.world);
    }
  }

  /** Every session in the trace is named by the position of the event that opened it. */
  predicate SessionsNumbered(trace: seq<Event>) {
    forall i :: 0 <= i < |trace| && trace[i].SessionOpened? ==> trace[i].session.id == i
  }

  /**
   * The transaction opens a session no earlier event opened, begins a transaction and calls the
   * callback, in that order, and touches neither storage.
   */
  lemma TransactionOpensNewSession<R>(w: World, name: string, sf: SessionFactory, callback: Callback<R>, faults: SessionFaults)
    requires SessionsNumbered(w.trace)
    ensures var e := Transaction(w, name, sf, callback, faults);
      var s := Session(|w.trace|);
      && Extends(w, e.world) && e.world.dataSources == w.dataSources && e.world.sessionFactories == w.sessionFactories
      && |Since(w, e.world)| >= 3
      && Since(w, e.world)[..3] == [SessionOpened(sf, s), TransactionBegun(s), CallbackInvoked(name, s)]
      && (forall i :: 0 <= i < |w.trace| && w.trace[i].SessionOpened? ==> w.trace[i].session != s)
      && SessionsNumbered(e.world.trace)
  {
    TransactionTrace(w, name, sf, callback, faults);
    var e := Transaction(w, name, sf, callback, faults);
    forall i | |w.trace| < i < |e.world.trace|
      ensures !e.world.trace[i].SessionOpened?
    {
      assert e.world.trace[i] == Since(w, e.world)[i - |w.trace|];
    }
  }

  /** The transaction commits exactly when the callback did not roll it back, and the session is closed unless the commit threw. */
  lemma TransactionCommitsUnlessRolledBack<R>(w: World, name: string, sf: SessionFactory, callback: Callback<R>, faults: SessionFaults)
    ensures var e := Transaction(w, name, sf, callback, faults);
      var s := Session(|w.trace|);
      && Extends(w, e.world)
      && (Committed(s) in Since(w, e.world) <==> !callback.rollsBack)
      && (RolledBack(s) in Since(w, e.world) <==> callback.rollsBack)
      && (SessionClosed(s) in Since(w, e.world) <==> (callback.rollsBack || !faults.commitFails))
  {
    TransactionTrace(w, name, sf, callback, faults);
  }

  /**
   * The outcome: an exception of commit or close wins over everything, every exception is a
   * RuntimeHibernate4Exception naming the factory, and otherwise the callback's value is returned.
   */
  lemma TransactionOutcome<R>(w: World, name: string, sf: SessionFactory, callback: Callback<R>, faults: SessionFaults)
    ensures var e := Transaction(w, name, sf, callback, faults);
      var s := Session(|w.trace|);
      && (e.result.Ok? <==> callback.outcome.Ok? && (callback.rollsBack || !faults.commitFails) && !faults.closeFails)
      && (e.result.Ok? ==> e.result.value == callback.outcome.value)
      && (e.result.Err? ==> e.result.error.RuntimeHibernate4? && e.result.error.sessionFactoryName == name)
      && (!callback.rollsBack && faults.commitFails ==> e.result == Err(RuntimeHibernate4(name, CommitFailed(s))))
      && ((callback.rollsBack || !faults.commitFails) && faults.closeFails ==> e.result == Err(RuntimeHibernate4(name, CloseFailed(s))))
      && ((callback.rollsBack || !faults.commitFails) && !faults.closeFails && callback.outcome.Err? ==>
            e.result == Err(RuntimeHibernate4(name, callback.outcome.error)))
  {
  }

  /**
   * withHbm4Session checks its arguments first and then has no effect when they are wrong; an
   * exception of create is not wrapped and stores nothing.
   */
  lemma ExecuteArguments<R>(setup: Setup, w: World, name: string, callback: Option<Callback<R>>, faults: SessionFaults)
    ensures var e := Execute(setup, w, name, callback, faults);
      && (IsBlank(name) ==> e == Effect(w, Err(IllegalArgument(ERROR_SESSION_FACTORY_NAME_BLANK))))
      && (!IsBlank(name) && callback.None? ==> e == Effect(w, Err(NullPointer(ERROR_CALLBACK_NULL))))
      && (!IsBlank(name) && callback.Some? && GetOrCreate(setup, w, name).result.Err? ==>
            && e.result == Err(GetOrCreate(setup, w, name).result.error)
            && e.world.sessionFactories == w.sessionFactories)
  {
    if !IsBlank(name) && callback.Some? {
      GetOrCreateStores(setup, w, name);
    }
  }

  /** After a call with valid arguments whose factory could be obtained, the factory is stored under the name and every other entry is kept. */
  lemma ExecuteStoresFactory<R>(setup: Setup, w: World, name: string, callback: Callback<R>, faults: SessionFaults)
    requires !IsBlank(name) && GetOrCreate(setup, w, name).result.Ok?
    ensures var e := Execute(setup, w, name, Some(callback), faults);
      var sf := GetOrCreate(setup, w, name).result.value;
      && e.world.sessionFactories == w.sessionFactories[name := sf]
      && (name in w.sessionFactories ==> sf == w.sessionFactories[name])
  {
    GetOrCreateStores(setup, w, name);
  }

  /** withHbm4Session only ever adds the named entry: every factory stored before stays stored. */
  lemma ExecuteKeepsFactories<R>(setup: Setup, w: World, name: string, callback: Option<Callback<R>>, faults: SessionFaults)
    ensures var e := Execute(setup, w, name, callback, faults);
      && (forall n :: n in w.sessionFactories ==> n in e.world.sessionFactories && e.world.sessionFactories[n] == w.sessionFactories[n])
      && (forall n :: n in e.world.sessionFactories ==> n in w.sessionFactories || n == name)
  {
    var e := Execute(setup, w, name, callback, faults);
    if !IsBlank(name) && callback.Some? {
      var g := GetOrCreate(setup, w, name);
      GetOrCreateStores(setup, w, name);
      if g.result.Ok? {
        TransactionTrace(g.world, name, g.result.value, callback.value, faults);
        assert e.world.sessionFactories == w.sessionFactories[name := g.result.value];
      } else {
        assert e.world.sessionFactories == w.sessionFactories;
      }
    }
  }

  /**
   * closeHbm4Session: a blank name is rejected; an absent name is a no-op; a stored factory is
   * destroyed and forgotten, every other entry kept, unless destroy throws, when it stays.
   */
  lemma CloseForgetsFactory(setup: Setup, w: World, name: string)
    ensures var c := Close(setup, w, name);
      && (IsBlank(name) ==> c == Effect(w, Some(IllegalArgument(ERROR_SESSION_FACTORY_NAME_BLANK))))
      && (!IsBlank(name) && name !in w.sessionFactories ==> c == Effect(w, None))
      && (c.result.None? ==> c.world.sessionFactories == w.sessionFactories - {name})
      && (c.result.Some? ==> c.world.sessionFactories == w.sessionFactories)
      && (!IsBlank(name) && name in w.sessionFactories ==>
            c == (var d := Disconnect(setup, w, name, Some(w.sessionFactories[name]));
                  if d.result.Some? then d else Effect(d.world.(sessionFactories := d.world.sessionFactories - {name}), None)))
  {
    if !IsBlank(name) && name in w.sessionFactories {
      DisconnectSession(setup, w, name, Some(w.sessionFactories[name]));
    }
  }

  /** Closing twice is closing once: after a successful close the second call changes nothing. */
  lemma CloseIdempotent(setup: Setup, w: World, name: string)
    ensures var c := Close(setup, w, name);
      c.result.None? ==> Close(setup, c.world, name) == Effect(c.world, None)
  {
    CloseForgetsFactory(setup, w, name);
  }

  // ---------------------------------------------------------------------------------------------
  // The mutable object

  class DefaultHibernate4Handler {
    const factory: DefaultHibernate4Factory
    const storage: Storage<SessionFactory>

    constructor (factory: DefaultHibernate4Factory, storage: Storage<SessionFactory>)
      ensures this.factory == factory && this.storage == storage
    {
      this.factory := factory;
      this.storage := storage;
    }

    /** The injected constructor: both collaborators must be present. */
    static method New(factory: DefaultHibernate4Factory?, storage: Storage?<SessionFactory>) returns (r: Result<DefaultHibernate4Handler, Error>)
      ensures factory == null ==> r == Err(NullPointer(ERROR_FACTORY_NULL))
      ensures factory != null && storage == null ==> r == Err(NullPointer(ERROR_STORAGE_NULL))
      ensures factory != null && storage != null ==>
        r.Ok? && fresh(r.value) && r.value.factory == factory && r.value.storage == storage
    {
      if factory == null {
        return Err(NullPointer(ERROR_FACTORY_NULL));
      }
      if storage == null {
        return Err(NullPointer(ERROR_STORAGE_NULL));
      }
      var h := new DefaultHibernate4Handler(factory, storage);
      return Ok(h);
    }

    /** The world as this handler sees it: the shared trace and both storages. */
    function View(): World
      reads factory.log, factory.dataSourceStorage, storage
    {
      World(factory.log.trace, factory.dataSourceStorage.entries, storage.entries)
    }

    method WithSession<R>(name: string, callback: Option<Callback<R>>, faults: SessionFaults) returns (r: Result<R, Error>)
      modifies factory.log, factory.dataSourceStorage, storage
      ensures Execute(factory.setup, old(View()), name, callback, faults) == Effect(View(), r)
    {
      if IsBlank(name) {
        return Err(IllegalArgument(ERROR_SESSION_FACTORY_NAME_BLANK));
      }
      if callback.None? {
        return Err(NullPointer(ERROR_CALLBACK_NULL));
      }
      var sf := GetSessionFactory(name);
      if sf.Err? {
        return Err(sf.error);
      }
      r := RunTransaction(name, sf.value, callback.value, faults);
    }

    /** withHbm4Session(callback): the default session factory. */
    method WithDefaultSession<R>(callback: Option<Callback<R>>, faults: SessionFaults) returns (r: Result<R, Error>)
      modifies factory.log, factory.dataSourceStorage, storage
      ensures Execute(factory.setup, old(View()), KEY_DEFAULT, callback, faults) == Effect(View(), r)
    {
      r := WithSession(KEY_DEFAULT, callback, faults);
    }

    method CloseSession(name: string) returns (err: Option<Error>)
      modifies factory.log, factory.dataSourceStorage, storage
      ensures Close(factory.setup, old(View()), name) == Effect(View(), err)
    {
      if IsBlank(name) {
        return Some(IllegalArgument(ERROR_SESSION_FACTORY_NAME_BLANK));
      }
      var stored := storage.Get(name);
      if stored.None? {
        return None;
      }
      DisconnectIgnoresSessionFactories(factory.setup, factory.View(map[]), name, stored, storage.entries);
      err := factory.Destroy(name, stored);
      if err.Some? {
        return;
      }
      storage.Remove(name);
    }

    /** closeHbm4Session(): the default session factory. */
    method CloseDefaultSession() returns (err: Option<Error>)
      modifies factory.log, factory.dataSourceStorage, storage
      ensures Close(factory.setup, old(View()), KEY_DEFAULT) == Effect(View(), err)
    {
      err := CloseSession(KEY_DEFAULT);
    }

    method GetSessionFactory(name: string) returns (r: Result<SessionFactory, Error>)
      modifies factory.log, factory.dataSourceStorage, storage
      ensures GetOrCreate(factory.setup, old(View()), name) == Effect(View(), r)
    {
      var stored := storage.Get(name);
      if stored.Some? {
        return Ok(stored.value);
      }
      ConnectIgnoresSessionFactories(factory.setup, factory.View(map[]), name, storage.entries);
      r := factory.Create(name);
      if r.Err? {
        return;
      }
      storage.Set(name, r.value);
    }

    /** The session, transaction and finally block of withHbm4Session. */
    method RunTransaction<R>(name: string, sf: SessionFactory, callback: Callback<R>, faults: SessionFaults) returns (r: Result<R, Error>)
      modifies factory.log
      ensures Transaction(old(View()), name, sf, callback, faults) == Effect(View(), r)
    {
      var log := factory.log;
      var s := Session(|log.trace|);
      log.Append(SessionOpened(sf, s));
      log.Append(TransactionBegun(s));
      log.Append(CallbackInvoked(name, s));
      if callback.rollsBack {
        log.Append(RolledBack(s));
      }
      r := match callback.outcome
        case Ok(v) => Ok(v)
        case Err(e) => Err(RuntimeHibernate4(name, e));
      if !callback.rollsBack {
        log.Append(Committed(s));
        if faults.commitFails {
          return Err(RuntimeHibernate4(name, CommitFailed(s)));
        }
      }
      log.Append(SessionClosed(s));
      if faults.closeFails {
        return Err(RuntimeHibernate4(name, CloseFailed(s)));
      }
    }
  }
}
