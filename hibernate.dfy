/**
 * What the plugin sees of Hibernate and of the Griffon runtime: opaque handles, the exceptions
 * that can surface, and the observable effects of each run, recorded as an append-only trace.
 *
 * A handle's id is the position in the trace of the event that created it, so a handle created
 * during a run is different from every handle that existed before it.
 */
module Hibernate {
  import opened Wrappers

  datatype DataSource = DataSource(id: nat)
  datatype SessionFactory = SessionFactory(id: nat)
  datatype Session = Session(id: nat)

  /** A value of a Hibernate Configuration property: text, or the DataSource object itself. */
  datatype PropValue = Text(text: string) | DataSourceRef(ds: DataSource)

  type Properties = map<string, PropValue>

  /** When a Hibernate4Bootstrap is called: while connecting (init) or while disconnecting (destroy). */
  datatype Phase = Init | Destroy

  /** A Java exception, by class and, where the plugin decides it, message. */
  datatype Error =
    | IllegalArgument(message: string)
    | NullPointer(message: string)
    | ClassCast
    | ConstructorFailed(className: string)             // thrown by a class's no-argument constructor or static initialiser
    | BootstrapFailed(bootstrap: nat, phase: Phase)   // thrown by a Hibernate4Bootstrap
    | CallbackFailed(code: nat)                        // thrown by a Hibernate4Callback
    | CommitFailed(session: Session)                   // thrown by Transaction.commit
    | CloseFailed(session: Session)                    // thrown by Session.close
    | RuntimeHibernate4(sessionFactoryName: string, cause: Error)

  /** One observable effect: an application event, a storage-visible creation, or a call on Hibernate. */
  datatype Event =
    | ConnectStart(name: string)                                   // "Hibernate4ConnectStart"
    | ConfigurationAvailable(name: string, properties: Properties) // "Hibernate4ConfigurationAvailable"
    | ConnectEnd(name: string, factory: SessionFactory)            // "Hibernate4ConnectEnd"
    | DisconnectStart(name: string, factory: SessionFactory)       // "Hibernate4DisconnectStart"
    | DisconnectEnd(name: string)                                  // "Hibernate4DisconnectEnd"
    | DataSourceCreated(name: string, ds: DataSource)              // DataSourceFactory.create
    | DataSourceDestroyed(name: string, ds: DataSource)            // DataSourceFactory.destroy
    | SessionFactoryBuilt(name: string, properties: Properties, resources: seq<string>, factory: SessionFactory)
    | SessionOpened(factory: SessionFactory, session: Session)     // SessionFactory.openSession
    | BootstrapCalled(bootstrap: nat, phase: Phase, name: string, session: Session)
    | TransactionBegun(session: Session)
    | CallbackInvoked(name: string, session: Session)
    | RolledBack(session: Session)                                 // the callback rolled the transaction back
    | Committed(session: Session)                                  // Transaction.commit was called
    | SessionClosed(session: Session)                              // Session.close was called

  /** Everything the plugin's operations change: the trace and the two storages. */
  datatype World = World(
    trace: seq<Event>,
    dataSources: map<string, DataSource>,
    sessionFactories: map<string, SessionFactory>)

  function Emit(w: World, e: Event): World {
    w.(trace := w.trace + [e])
  }

  function EmitAll(w: World, es: seq<Event>): World {
    w.(trace := w.trace + es)
  }

  /** The state an operation leaves behind together with what it returns. */
  datatype Effect<+T> = Effect(world: World, result: T)

  /** The shared sink every component appends its effects to. */
  class EventLog {
    var trace: seq<Event>

    constructor ()
      ensures trace == []
    {
      trace := [];
    }

    method Append(e: Event)
      modifies this
      ensures trace == old(trace) + [e]
    {
      trace := trace + [e];
    }
  }

  /** An object storage (the data-source storage, the session-factory storage): objects by name. */
  class Storage<T> {
    var entries: map<string, T>

    constructor ()
      ensures entries == map[]
    {
      entries := map[];
    }

    method Get(name: string) returns (r: Option<T>)
      ensures r == if name in entries then Some(entries[name]) else None
    {
      r := if name in entries then Some(entries[name]) else None;
    }

    method Set(name: string, value: T)
      modifies this
      ensures entries == old(entries)[name := value]
    {
      entries := entries[name := value];
    }

    method Remove(name: string)
      modifies this
      ensures entries == old(entries) - {name}
    {
      entries := entries - {name};
    }
  }
}
