/**
 * Hibernate4Addon: at application start, opens and commits one empty transaction on every
 * session factory configured with `connect_on_startup`; at shutdown, closes every configured one.
 */
module Addon {
  import opened Wrappers
  import opened ConfigValues
  import opened Hibernate
  import opened Factory
  import opened Handler

  const CONNECT_ON_STARTUP := "connect_on_startup"

  /** The callback onStartupStart passes: it returns null and neither throws nor rolls back. */
  const NO_OP: Callback<()> := Callback(Ok(()), false)

  /** Whether a session factory's block asks for a connection at startup; absent means no. */
  predicate ConnectsOnStartup(settings: Settings, name: string) {
    ConfigFlag(NarrowConfig(settings, name), CONNECT_ON_STARTUP, false)
  }

  /** The startup loop over `names`, from the first; the first exception ends it. */
  function Startup(setup: Setup, w: World, names: seq<string>, faults: string -> SessionFaults): Effect<Option<Error>>
    decreases |names|
  {
    if names == [] then Effect(w, None)
    else if !ConnectsOnStartup(setup.settings, names[0]) then Startup(setup, w, names[1..], faults)
    else
      var e := Execute(setup, w, names[0], Some(NO_OP), faults(names[0]));
      if e.result.Err? then Effect(e.world, Some(e.result.error))
      else Startup(setup, e.world, names[1..], faults)
  }

  /** onStartupStart */
  function OnStartup(setup: Setup, w: World, faults: string -> SessionFaults): Effect<Option<Error>> {
    Startup(setup, w, SessionFactoryNames(setup.settings), faults)
  }

  /** The shutdown loop over `names`, from the first; the first exception ends it. */
  function Shutdown(setup: Setup, w: World, names: seq<string>): Effect<Option<Error>>
    decreases |names|
  {
    if names == [] then Effect(w, None)
    else
      var c := Close(setup, w, names[0]);
      if c.result.Some? then c else Shutdown(setup, c.world, names[1..])
  }

  /** onShutdownStart */
  function OnShutdown(setup: Setup, w: World): Effect<Option<Error>> {
    Shutdown(setup, w, SessionFactoryNames(setup.settings))
  }

  // ---------------------------------------------------------------------------------------------
  // Properties

  /** Startup keeps every stored factory and adds factories only for names it connects. */
  lemma {:induction false} StartupOnlyAdds(setup: Setup, w: World, names: seq<string>, faults: string -> SessionFaults)
    ensures var e := Startup(setup, w, names, faults);
      && (forall n :: n in w.sessionFactories ==> n in e.world.sessionFactories && e.world.sessionFactories[n] == w.sessionFactories[n])
      && (forall n :: n in e.world.sessionFactories ==> n in w.sessionFactories || (n in names && ConnectsOnStartup(setup.settings, n)))
    decreases |names|
  {
    if names != [] {
      var n0 := names[0];
      assert forall n :: n in names[1..] ==> n in names;
      if !ConnectsOnStartup(setup.settings, n0) {
        StartupOnlyAdds(setup, w, names[1..], faults);
      } else {
        var e := Execute(setup, w, n0, Some(NO_OP), faults(n0));
        ExecuteKeepsFactories(setup, w, n0, Some(NO_OP), faults(n0));
        if e.result.Ok? {
          StartupOnlyAdds(setup, e.world, names[1..], faults);
        }
      }
    }
  }

  /** When startup completes, every name it was given that asks for a connection has a stored factory. */
  lemma {:induction false} StartupConnectsFlagged(setup: Setup, w: World, names: seq<string>, faults: string -> SessionFaults)
    ensures var e := Startup(setup, w, names, faults);
      e.result.None? ==>
        forall i :: 0 <= i < |names| && ConnectsOnStartup(setup.settings, names[i]) ==> names[i] in e.world.sessionFactories
    decreases |names|
  {
    if names != [] {
      var n0 := names[0];
      if !ConnectsOnStartup(setup.settings, n0) {
        StartupConnectsFlagged(setup, w, names[1..], faults);
      } else {
        var e := Execute(setup, w, n0, Some(NO_OP), faults(n0));
        if e.result.Ok? {
          ExecuteArguments(setup, w, n0, Some(NO_OP), faults(n0));
          ExecuteStoresFactory(setup, w, n0, NO_OP, faults(n0));
          StartupConnectsFlagged(setup, e.world, names[1..], faults);
          StartupOnlyAdds(setup, e.world, names[1..], faults);
        }
      }
    }
  }

  /** Shutdown forgets factories only for the names it is given, and keeps every other one. */
  lemma {:induction false} ShutdownOnlyRemoves(setup: Setup, w: World, names: seq<string>)
    ensures var e := Shutdown(setup, w, names);
      && (forall n :: n in e.world.sessionFactories ==> n in w.sessionFactories && e.world.sessionFactories[n] == w.sessionFactories[n])
      && (forall n :: n in w.sessionFactories && n !in names ==> n in e.world.sessionFactories)
    decreases |names|
  {
    if names != [] {
      CloseForgetsFactory(setup, w, names[0]);
      var c := Close(setup, w, names[0]);
      if c.result.None? {
        ShutdownOnlyRemoves(setup, c.world, names[1..]);
      }
    }
  }

  /** When shutdown completes, no name it was given has a stored factory. */
  lemma {:induction false} ShutdownClears(setup: Setup, w: World, names: seq<string>)
    ensures var e := Shutdown(setup, w, names);
      e.result.None? ==> forall i :: 0 <= i < |names| ==> names[i] !in e.world.sessionFactories
    decreases |names|
  {
    if names != [] {
      CloseForgetsFactory(setup, w, names[0]);
      var c := Close(setup, w, names[0]);
      if c.result.None? {
        ShutdownClears(setup, c.world, names[1..]);
        ShutdownOnlyRemoves(setup, c.world, names[1..]);
        assert forall i :: 1 <= i < |names| ==> names[i] == names[1..][i - 1];
      }
    }
  }

  /** Shutdown of names none of which has a stored factory changes nothing. */
  lemma {:induction false} ShutdownOfAbsentNames(setup: Setup, w: World, names: seq<string>)
    requires forall i :: 0 <= i < |names| ==> !JavaText.IsBlank(names[i]) && names[i] !in w.sessionFactories
    ensures Shutdown(setup, w, names) == Effect(w, None)
    decreases |names|
  {
    if names != [] {
      CloseForgetsFactory(setup, w, names[0]);
      ShutdownOfAbsentNames(setup, w, names[1..]);
    }
  }

  /** The names a shutdown loop can act on: those that are blank or may have a stored factory. */
  function WithoutAbsent(names: seq<string>, stored: set<string>): seq<string> {
    if names == [] then []
    else (if JavaText.IsBlank(names[0]) || names[0] in stored then [names[0]] else []) + WithoutAbsent(names[1..], stored)
  }

  /**
   * Inside any list, a non-blank name with no stored factory causes no destroy and no event:
   * shutdown has the same effect and result once every such name is dropped.
   */
  lemma {:induction false} ShutdownSkipsAbsent(setup: Setup, w: World, names: seq<string>, stored: set<string>)
    requires w.sessionFactories.Keys <= stored
    ensures Shutdown(setup, w, names) == Shutdown(setup, w, WithoutAbsent(names, stored))
    decreases |names|
  {
    if names != [] {
      var h := names[0];
      var rest := WithoutAbsent(names[1..], stored);
      CloseForgetsFactory(setup, w, h);
      if JavaText.IsBlank(h) || h in stored {
        assert WithoutAbsent(names, stored) == [h] + rest;
        assert ([h] + rest)[1..] == rest;
        var c := Close(setup, w, h);
        if c.result.None? {
          ShutdownSkipsAbsent(setup, c.world, names[1..], stored);
        }
      } else {
        assert WithoutAbsent(names, stored) == rest;
        ShutdownSkipsAbsent(setup, w, names[1..], stored);
      }
    }
  }

  /** After onShutdownStart completes, no configured session factory is stored. */
  lemma OnShutdownClearsConfigured(setup: Setup, w: World)
    ensures var e := OnShutdown(setup, w);
      e.result.None? ==> forall n :: n in SessionFactoryNames(setup.settings) ==> n !in e.world.sessionFactories
  {
    ShutdownClears(setup, w, SessionFactoryNames(setup.settings));
  }

  /** After onStartupStart completes, every configured session factory that asks for it is stored. */
  lemma OnStartupConnectsConfigured(setup: Setup, w: World, faults: string -> SessionFaults)
    ensures var e := OnStartup(setup, w, faults);
      e.result.None? ==> forall n :: n in SessionFactoryNames(setup.settings) && ConnectsOnStartup(setup.settings, n) ==> n in e.world.sessionFactories
  {
    StartupConnectsFlagged(setup, w, SessionFactoryNames(setup.settings), faults);
  }

  // ---------------------------------------------------------------------------------------------
  // The mutable object

  class Hibernate4Addon {
    const handler: DefaultHibernate4Handler

    constructor (handler: DefaultHibernate4Handler)
      ensures this.handler == handler
    {
      this.handler := handler;
    }

    function View(): World
      reads handler.factory.log, handler.factory.dataSourceStorage, handler.storage
    {
      handler.View()
    }

    method OnStartupStart(faults: string -> SessionFaults) returns (err: Option<Error>)
      modifies handler.factory.log, handler.factory.dataSourceStorage, handler.storage
      ensures OnStartup(handler.factory.setup, old(View()), faults) == Effect(View(), err)
    {
      var setup := handler.factory.setup;
      var names := SessionFactoryNames(setup.settings);
      var i := 0;
      while i < |names|
        invariant 0 <= i <= |names|
        invariant OnStartup(setup, old(View()), faults) == Startup(setup, View(), names[i..], faults)
      {
        var name := names[i];
        assert names[i..][1..] == names[i + 1..];
        if ConfigFlag(NarrowConfig(setup.settings, name), CONNECT_ON_STARTUP, false) {
          var r := handler.WithSession(name, Some(NO_OP), faults(name));
          if r.Err? {
            return Some(r.error);
          }
        }
        i := i + 1;
      }
      return None;
    }

    method OnShutdownStart() returns (err: Option<Error>)
      modifies handler.factory.log, handler.factory.dataSourceStorage, handler.storage
      ensures OnShutdown(handler.factory.setup, old(View())) == Effect(View(), err)
    {
      var setup := handler.factory.setup;
      var names := SessionFactoryNames(setup.settings);
      var i := 0;
      while i < |names|
        invariant 0 <= i <= |names|
        invariant OnShutdown(setup, old(View())) == Shutdown(setup, View(), names[i..])
      {
        assert names[i..][1..] == names[i + 1..];
        err := handler.CloseSession(names[i]);
        if err.Some? {
          return;
        }
        i := i + 1;
      }
      return None;
    }
  }
}
