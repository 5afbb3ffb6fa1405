# griffon-hibernate4 core, modelled in Dafny

This project models the core of the Griffon Hibernate 4 plugin and proves properties of it. The
plugin's core has four parts:

- **HibernateConfigurationHelper** derives a Hibernate `Configuration` from one session
  configuration block. Its steps run in a fixed order: entity interceptor, naming strategy,
  properties (`props`, `logSql`, `formatSql`), dialect, then mapping resources (type-loader lines
  first, then the `mappings` list).
- **DefaultHibernate4Factory** creates and destroys the `SessionFactory` of a named configuration.
  It emits the `Hibernate4ConnectStart` / `Hibernate4ConnectEnd` events (and the disconnect pair).
  It obtains a data source from data-source storage, creating one on first use. It sets
  `hibernate.hbm2ddl.auto` (default `create-drop`). It runs every `Hibernate4Bootstrap` in injector
  order on one session and always closes that session. On destroy it closes the data source.
- **DefaultHibernate4Handler** keeps the session-factory storage. It gets or creates the factory of
  a name, runs a callback in a transaction on a new session (commit unless rolled back, then close,
  wrapping every exception), and closes named factories.
- **Hibernate4Addon** connects, at startup, every configured factory flagged `connect_on_startup`.
  At shutdown it closes every configured factory.

Each part has two layers:

- **Pure specification functions** over a `World`: an append-only trace of observable events plus
  the two storages. Examples are `ConfigHelper.Derive`, `Factory.Connect`, `Handler.Execute` and
  `Addon.OnStartup`. The lemmas state the plugin's promises about these functions.
- **Imperative classes** with the plugin's own classes, fields and loops:
  `HibernateConfigurationHelper` over a mutable `Configuration`, `DefaultHibernate4Factory`,
  `DefaultHibernate4Handler` and `Hibernate4Addon`. Each method is proved to leave exactly the state
  its specification function describes. A method therefore inherits every lemma proved about that
  function.

Java exceptions are values (`Result`, `Option<Error>`). Hibernate objects are opaque handles. Each
handle is numbered by the trace position of the event that created it. Things outside the plugin
are parameters:

- the bootstraps, and whether each one's `init` or `destroy` throws;
- the callback's outcome;
- whether commit or close throws;
- the class loader;
- the type-loader lines;
- the dialect detector.

Some behaviours of the code are easy to misread. The model follows the code:

- Every entry of the `mappings` list becomes a resource, blank or not. Only type-loader lines are
  skipped when blank.
- A `dialect` value that is present but null selects the detected dialect, just like an absent one.
- An exception from commit skips `session.close()`, because both calls share one inner `try` block.
- The suffix test in `applyMappings` runs after every dot has been replaced. It therefore never
  holds, and a mapping already named `x.hbm.xml` becomes `x/hbm/xml.hbm.xml`. That doubled path
  usually names no resource, so Hibernate's `addResource` would then throw
  MappingNotFoundException. The model does not capture that failure (see "## Left out").

## Model

| member | source | states |
|---|---|---|
| ConfigHelper.DerivedProperties | subprojects/griffon-hibernate4-core/src/main/java/org/codehaus/griffon/runtime/hibernate4/internal/HibernateConfigurationHelper.java:74-85 | The final property set is what `props` gave the data-source entry, then the logSql/formatSql flags over it, then `hibernate.dialect` over that. The step order decides which setting wins. |
| ConfigHelper.SqlFlagsOverrideProps | subprojects/griffon-hibernate4-core/src/main/java/org/codehaus/griffon/runtime/hibernate4/internal/HibernateConfigurationHelper.java:115-120 | A true `logSql`/`formatSql` sets `hibernate.show_sql`/`hibernate.format_sql` to "true", overriding `props`. A false one leaves the key exactly as `props` left it, present or absent. |
| ConfigHelper.OtherPropertiesFromProps | subprojects/griffon-hibernate4-core/src/main/java/org/codehaus/griffon/runtime/hibernate4/internal/HibernateConfigurationHelper.java:105-113 | Every key other than show_sql, format_sql and dialect is present after the build exactly when `props` produced it, with the same value. |
| ConfigHelper.PropsValueKinds | subprojects/griffon-hibernate4-core/src/main/java/org/codehaus/griffon/runtime/hibernate4/internal/HibernateConfigurationHelper.java:105-113 | A Properties value replaces the whole property set, so the data-source entry survives only if listed. A Map whose keys and values are all Strings adds its keys to the set, the last entry per key winning. Any other value, or none, leaves only the data-source entry. |
| ConfigHelper.PropsFailureIff | subprojects/griffon-hibernate4-core/src/main/java/org/codehaus/griffon/runtime/hibernate4/internal/HibernateConfigurationHelper.java:109-112 | The Map loop throws exactly when some entry cannot be set. The exception is that of the first such entry: ClassCastException when its key or value is not a String, otherwise NullPointerException for a null key or value. Every entry before it is a pair of Strings. |
| ConfigHelper.SetPrefix | subprojects/griffon-hibernate4-core/src/main/java/org/codehaus/griffon/runtime/hibernate4/internal/HibernateConfigurationHelper.java:110-112 | The loop sets a prefix of the entries: every entry in it can be set, and the entry just after it, if any, throws. |
| ConfigHelper.SetPrefixStops | subprojects/griffon-hibernate4-core/src/main/java/org/codehaus/griffon/runtime/hibernate4/internal/HibernateConfigurationHelper.java:110-112 | The loop stops at the first entry that throws, and sets every entry when none does. |
| ConfigHelper.SetAll | subprojects/griffon-hibernate4-core/src/main/java/org/codehaus/griffon/runtime/hibernate4/internal/HibernateConfigurationHelper.java:110-112 | Setting the entries one by one yields the old keys plus the entries' keys. Each entry key holds its last entry's value, and every other key keeps its old value. |
| ConfigHelper.DerivedDialect | subprojects/griffon-hibernate4-core/src/main/java/org/codehaus/griffon/runtime/hibernate4/internal/HibernateConfigurationHelper.java:123-133 | `hibernate.dialect` is always set: to a Class's name, to the text of any other non-null value, and to the detected dialect exactly when the value is absent or null. |
| ConfigValues.EntryTexts | subprojects/griffon-hibernate4-core/src/main/java/org/codehaus/griffon/runtime/hibernate4/internal/HibernateConfigurationHelper.java:126-129 | When a Map or Properties dialect value is printed by `toString()`, the i-th entry prints as its key, "=", then its value. |
| ConfigHelper.DerivedInterceptorAndNamingStrategy | subprojects/griffon-hibernate4-core/src/main/java/org/codehaus/griffon/runtime/hibernate4/internal/HibernateConfigurationHelper.java:87-103 | After a successful build, the interceptor and the naming strategy are exactly the classes their settings name, and unset for every other kind of value. |
| ConfigHelper.InstantiateOnlyClassOrString | subprojects/griffon-hibernate4-core/src/main/java/org/codehaus/griffon/runtime/hibernate4/internal/HibernateConfigurationHelper.java:157-171 | Only a Class or a String value is instantiated. An unloadable name, or a class that `newInstance` cannot instantiate (InstantiationException, IllegalAccessException), gives IllegalArgumentException "Cannot instantiate class <name>". An exception thrown by the class's own constructor or static initialiser passes through unwrapped. Any other value installs nothing and cannot fail. The lemma that states what `buildConfiguration` actually installs is `ConfigHelper.DerivedInterceptorAndNamingStrategy`. |
| ConfigHelper.DeriveFailures | subprojects/griffon-hibernate4-core/src/main/java/org/codehaus/griffon/runtime/hibernate4/internal/HibernateConfigurationHelper.java:74-85 | The build fails exactly when the interceptor or the naming strategy cannot be instantiated, a `props` Map holds a key or value that is not a String or is null, or `mappings` is not a list. The interceptor's failure is the one reported first. |
| ConfigHelper.TypeLineResourceShape | subprojects/griffon-hibernate4-core/src/main/java/org/codehaus/griffon/runtime/hibernate4/internal/HibernateConfigurationHelper.java:138-144 | A type-loader line adds nothing exactly when it is blank after trimming. Otherwise it adds its trimmed text with every dot turned into a slash (no dot left), followed by ".hbm.xml". |
| ConfigHelper.TypeResourcesComplete | subprojects/griffon-hibernate4-core/src/main/java/org/codehaus/griffon/runtime/hibernate4/internal/HibernateConfigurationHelper.java:136-145 | Every line that is not blank after trimming contributes its resource. |
| ConfigHelper.TypeResourcesSound | subprojects/griffon-hibernate4-core/src/main/java/org/codehaus/griffon/runtime/hibernate4/internal/HibernateConfigurationHelper.java:136-145 | Every type-loader resource comes from some line, so blank lines contribute nothing. |
| ConfigHelper.MappingResource | subprojects/griffon-hibernate4-core/src/main/java/org/codehaus/griffon/runtime/hibernate4/internal/HibernateConfigurationHelper.java:148-151 | Whatever the `endsWith` test would decide, a mapping always becomes its dot-replaced text plus ".hbm.xml". |
| ConfigHelper.ReplacedNeverEndsWithSuffix | subprojects/griffon-hibernate4-core/src/main/java/org/codehaus/griffon/runtime/hibernate4/internal/HibernateConfigurationHelper.java:148-149 | After every dot is replaced by a slash, the text cannot end with ".hbm.xml", so the suffix test never holds. |
| ConfigHelper.MappingSuffixQuirk | subprojects/griffon-hibernate4-core/src/main/java/org/codehaus/griffon/runtime/hibernate4/internal/HibernateConfigurationHelper.java:147-151 | A mapping named "a.hbm.xml" becomes "a/hbm/xml.hbm.xml": the suffix is appended again. |
| ConfigHelper.MappingResourcesAt | subprojects/griffon-hibernate4-core/src/main/java/org/codehaus/griffon/runtime/hibernate4/internal/HibernateConfigurationHelper.java:147-154 | The `mappings` loop adds one resource per entry, in list order: the i-th resource is the i-th entry, dot-replaced, plus the suffix. |
| ConfigHelper.DerivedResources | subprojects/griffon-hibernate4-core/src/main/java/org/codehaus/griffon/runtime/hibernate4/internal/HibernateConfigurationHelper.java:135-155 | After a successful build, the resources are the type-loader resources followed by the mapping resources, and `mappings` was a list. |
| ConfigHelper.DerivedResourcesInOrder | subprojects/griffon-hibernate4-core/src/main/java/org/codehaus/griffon/runtime/hibernate4/internal/HibernateConfigurationHelper.java:135-155 | The resources start with every type-loader resource. After them come exactly one resource per `mappings` entry, in list order. |
| ConfigHelper.HibernateConfigurationHelper.constructor | subprojects/griffon-hibernate4-core/src/main/java/org/codehaus/griffon/runtime/hibernate4/internal/HibernateConfigurationHelper.java:59-64 | The helper keeps the session configuration, the data-source name and the data source it is given. |
| ConfigHelper.HibernateConfigurationHelper.BuildConfiguration | subprojects/griffon-hibernate4-core/src/main/java/org/codehaus/griffon/runtime/hibernate4/internal/HibernateConfigurationHelper.java:74-85 | It returns a new Configuration whose state is the derivation's result exactly when the derivation succeeds. Otherwise it fails with the derivation's exception. |
| ConfigHelper.HibernateConfigurationHelper.NewConfiguration | subprojects/griffon-hibernate4-core/src/main/java/org/codehaus/griffon/runtime/hibernate4/internal/HibernateConfigurationHelper.java:175-179 | A new Configuration whose only property is the data source. |
| ConfigHelper.HibernateConfigurationHelper.ApplyEntityInterceptor | subprojects/griffon-hibernate4-core/src/main/java/org/codehaus/griffon/runtime/hibernate4/internal/HibernateConfigurationHelper.java:87-94 | It performs the interceptor step on the Configuration, or reports its exception and leaves the Configuration unchanged. |
| ConfigHelper.HibernateConfigurationHelper.ApplyNamingStrategy | subprojects/griffon-hibernate4-core/src/main/java/org/codehaus/griffon/runtime/hibernate4/internal/HibernateConfigurationHelper.java:96-103 | It performs the naming-strategy step on the Configuration, or reports its exception and leaves the Configuration unchanged. |
| ConfigHelper.HibernateConfigurationHelper.ApplyProperties | subprojects/griffon-hibernate4-core/src/main/java/org/codehaus/griffon/runtime/hibernate4/internal/HibernateConfigurationHelper.java:105-121 | On success the new state is the properties step applied to the old one. When a Map entry throws, it reports that exception: the entries before it stay set and the flags are not applied. |
| ConfigHelper.HibernateConfigurationHelper.SetMapEntries | subprojects/griffon-hibernate4-core/src/main/java/org/codehaus/griffon/runtime/hibernate4/internal/HibernateConfigurationHelper.java:109-113 | It casts and sets the Map's entries in order, up to the first one that throws, and returns that entry's exception. With no such entry it sets every entry. |
| ConfigHelper.HibernateConfigurationHelper.ApplyDialect | subprojects/griffon-hibernate4-core/src/main/java/org/codehaus/griffon/runtime/hibernate4/internal/HibernateConfigurationHelper.java:123-133 | The Configuration's new state is the dialect step applied to the old one. |
| ConfigHelper.HibernateConfigurationHelper.ApplyMappings | subprojects/griffon-hibernate4-core/src/main/java/org/codehaus/griffon/runtime/hibernate4/internal/HibernateConfigurationHelper.java:135-155 | It performs the mappings step on the Configuration. When `mappings` is not a list it reports the exception, and the Configuration keeps the type-loader resources already added. |
| ConfigHelper.HibernateConfigurationHelper.LoadTypeResources | subprojects/griffon-hibernate4-core/src/main/java/org/codehaus/griffon/runtime/hibernate4/internal/HibernateConfigurationHelper.java:136-145 | It appends the type-loader resources of all lines, in line order, and changes nothing else. |
| ConfigHelper.HibernateConfigurationHelper.ProcessTypeLine | subprojects/griffon-hibernate4-core/src/main/java/org/codehaus/griffon/runtime/hibernate4/internal/HibernateConfigurationHelper.java:138-144 | It appends one line's resource, or nothing for a blank line. |
| ConfigHelper.HibernateConfigurationHelper.AddMappingResources | subprojects/griffon-hibernate4-core/src/main/java/org/codehaus/griffon/runtime/hibernate4/internal/HibernateConfigurationHelper.java:147-154 | It appends one mapping resource per entry, in list order, and changes nothing else. |
| Factory.SessionFactoryNamesShape | subprojects/griffon-hibernate4-core/src/main/java/org/codehaus/griffon/runtime/hibernate4/DefaultHibernate4Factory.java:59-69 | Each configured name is listed once. The names are "default" when a `sessionFactory` block exists and the names of the `sessionFactories` blocks, and "default" comes first. |
| Factory.BootstrapCallsMade | subprojects/griffon-hibernate4-core/src/main/java/org/codehaus/griffon/runtime/hibernate4/DefaultHibernate4Factory.java:84-86 | The bootstrap loop calls the bootstraps in injector order, all on the same session, starting with the first. |
| Factory.BootstrapCallsFailure | subprojects/griffon-hibernate4-core/src/main/java/org/codehaus/griffon/runtime/hibernate4/DefaultHibernate4Factory.java:84-86 | The loop throws exactly when some bootstrap throws. The last bootstrap called is then the first one that throws, with its exception. Otherwise every bootstrap is called. |
| Factory.BootstrapSessionShape | subprojects/griffon-hibernate4-core/src/main/java/org/codehaus/griffon/runtime/hibernate4/DefaultHibernate4Factory.java:81-91 | The session block opens exactly one session, calls the bootstraps between opening and closing it, and closes it whether or not one throws. It changes neither storage, and fails exactly when a bootstrap throws. |
| Factory.ObtainDataSourceGetOrCreate | subprojects/griffon-hibernate4-core/src/main/java/org/codehaus/griffon/runtime/hibernate4/DefaultHibernate4Factory.java:146-154 | A stored data source is returned without effect. Otherwise one is created and stored under the name, with every other entry kept. Afterwards the name maps to the returned data source, and a second call is a no-op. |
| Factory.ReleaseDataSourceIdempotent | subprojects/griffon-hibernate4-core/src/main/java/org/codehaus/griffon/runtime/hibernate4/DefaultHibernate4Factory.java:138-144 | A stored data source is destroyed and then removed, with nothing else changed. Without one nothing happens, and a second close changes nothing. |
| Factory.Prepare | subprojects/griffon-hibernate4-core/src/main/java/org/codehaus/griffon/runtime/hibernate4/DefaultHibernate4Factory.java:122-132 | Up to the configuration: ConnectStart comes first, and after it only a data-source creation and the ConfigurationAvailable event. Session-factory storage is untouched, and the result is the derived configuration. |
| Factory.LaunchOrder | subprojects/griffon-hibernate4-core/src/main/java/org/codehaus/griffon/runtime/hibernate4/DefaultHibernate4Factory.java:78-95 | After the configuration, ConnectEnd is emitted last exactly when create succeeds, and nowhere else. |
| Factory.LaunchSession | subprojects/griffon-hibernate4-core/src/main/java/org/codehaus/griffon/runtime/hibernate4/DefaultHibernate4Factory.java:80-91 | Once the factory is built, exactly one bootstrap session is opened and closed. An earlier failure has no further effect. |
| Factory.LaunchSchema | subprojects/griffon-hibernate4-core/src/main/java/org/codehaus/griffon/runtime/hibernate4/DefaultHibernate4Factory.java:134-136 | The factory is built with `hibernate.hbm2ddl.auto` set to the `schema` string, or "create-drop" when it is absent. |
| Factory.ConnectEventOrder | subprojects/griffon-hibernate4-core/src/main/java/org/codehaus/griffon/runtime/hibernate4/DefaultHibernate4Factory.java:73-95 | create keeps the earlier trace and emits ConnectStart first. It ends with ConnectEnd (carrying the returned factory) exactly when it succeeds, with no ConnectEnd anywhere else. Session-factory storage is untouched. |
| Factory.ConnectSucceedsIff | subprojects/griffon-hibernate4-core/src/main/java/org/codehaus/griffon/runtime/hibernate4/DefaultHibernate4Factory.java:73-95 | create succeeds exactly when the configuration derives, the schema setting is a string or absent, and no bootstrap's init throws. |
| Factory.ConnectBootstrapSession | subprojects/griffon-hibernate4-core/src/main/java/org/codehaus/griffon/runtime/hibernate4/DefaultHibernate4Factory.java:80-91 | Once the factory is built, create opens exactly one session, runs every init on it and closes it, even when an init throws. When create stops earlier, no session event happens at all. |
| Factory.ConnectSchemaDefault | subprojects/griffon-hibernate4-core/src/main/java/org/codehaus/griffon/runtime/hibernate4/DefaultHibernate4Factory.java:78-80 | Every factory create builds carries `hibernate.hbm2ddl.auto`, set to the `schema` string or "create-drop", before it is built. |
| Factory.DisconnectSession | subprojects/griffon-hibernate4-core/src/main/java/org/codehaus/griffon/runtime/hibernate4/DefaultHibernate4Factory.java:98-113 | A null instance is rejected with no effect. Otherwise DisconnectStart comes first, then exactly one bootstrap session that is always closed. Session-factory storage is untouched. |
| Factory.DisconnectOutcome | subprojects/griffon-hibernate4-core/src/main/java/org/codehaus/griffon/runtime/hibernate4/DefaultHibernate4Factory.java:103-118 | destroy succeeds exactly when no bootstrap's destroy throws. It then destroys the stored data source just before the final DisconnectEnd and removes it. Otherwise the data source stays and the session's close is the last event. |
| Factory.ConnectIgnoresSessionFactories | subprojects/griffon-hibernate4-core/src/main/java/org/codehaus/griffon/runtime/hibernate4/DefaultHibernate4Factory.java:73-95 | create neither reads nor writes session-factory storage: with any other storage contents it does the same. |
| Factory.DisconnectIgnoresSessionFactories | subprojects/griffon-hibernate4-core/src/main/java/org/codehaus/griffon/runtime/hibernate4/DefaultHibernate4Factory.java:98-118 | destroy neither reads nor writes session-factory storage. |
| Factory.DefaultHibernate4Factory.constructor | subprojects/griffon-hibernate4-core/src/main/java/org/codehaus/griffon/runtime/hibernate4/DefaultHibernate4Factory.java:55-57 | The factory keeps its configuration, its event sink and its data-source storage. |
| Factory.DefaultHibernate4Factory.Create | subprojects/griffon-hibernate4-core/src/main/java/org/codehaus/griffon/runtime/hibernate4/DefaultHibernate4Factory.java:73-95 | The new trace and data-source storage, and the result, are those of create's specification, so every Connect lemma holds of it. |
| Factory.DefaultHibernate4Factory.Destroy | subprojects/griffon-hibernate4-core/src/main/java/org/codehaus/griffon/runtime/hibernate4/DefaultHibernate4Factory.java:98-118 | The new trace and data-source storage, and the result, are those of destroy's specification. |
| Factory.DefaultHibernate4Factory.CreateConfiguration | subprojects/griffon-hibernate4-core/src/main/java/org/codehaus/griffon/runtime/hibernate4/DefaultHibernate4Factory.java:122-132 | It obtains the data source, and returns a new Configuration with the derived state exactly when derivation succeeds, announcing it with ConfigurationAvailable. Otherwise it fails with the derivation's exception. |
| Factory.DefaultHibernate4Factory.CreateSchema | subprojects/griffon-hibernate4-core/src/main/java/org/codehaus/griffon/runtime/hibernate4/DefaultHibernate4Factory.java:134-136 | It sets `hibernate.hbm2ddl.auto` to the schema setting and changes nothing else. A null or non-string setting throws and changes nothing. |
| Factory.DefaultHibernate4Factory.CloseDataSource | subprojects/griffon-hibernate4-core/src/main/java/org/codehaus/griffon/runtime/hibernate4/DefaultHibernate4Factory.java:138-144 | Its effect is closeDataSource's specification (destroy, then remove, when stored). |
| Factory.DefaultHibernate4Factory.GetDataSource | subprojects/griffon-hibernate4-core/src/main/java/org/codehaus/griffon/runtime/hibernate4/DefaultHibernate4Factory.java:147-154 | Its effect and result are getDataSource's get-or-create specification. |
| Factory.DefaultHibernate4Factory.WithBootstrapSession | subprojects/griffon-hibernate4-core/src/main/java/org/codehaus/griffon/runtime/hibernate4/DefaultHibernate4Factory.java:81-91 | Its effect and result are the session block's specification: open, run the bootstraps, always close. |
| Factory.DefaultHibernate4Factory.RunBootstraps | subprojects/griffon-hibernate4-core/src/main/java/org/codehaus/griffon/runtime/hibernate4/DefaultHibernate4Factory.java:84-86 | The loop appends exactly the calls of the bootstrap run and returns its exception. |
| Factory.DefaultHibernate4Factory.OpenSession | subprojects/griffon-hibernate4-core/src/main/java/org/codehaus/griffon/runtime/hibernate4/DefaultHibernate4Factory.java:157-159 | It opens a session on the given factory, numbered by its trace position, and records that. |
| Handler.GetOrCreateStores | subprojects/griffon-hibernate4-core/src/main/java/org/codehaus/griffon/runtime/hibernate4/DefaultHibernate4Handler.java:103-110 | A stored factory is returned without any effect. Otherwise create runs once: when it succeeds, its factory is stored under the name with every other entry kept; when it fails, nothing is stored. |
| Handler.TransactionTrace | subprojects/griffon-hibernate4-core/src/main/java/org/codehaus/griffon/runtime/hibernate4/DefaultHibernate4Handler.java:69-84 | The exact session calls in each case: open, begin, callback, then rollback-and-close, commit-and-close, or a commit that throws with no close. Neither storage changes. |
| Handler.TransactionOpensNewSession | subprojects/griffon-hibernate4-core/src/main/java/org/codehaus/griffon/runtime/hibernate4/DefaultHibernate4Handler.java:69-72 | A session that no earlier event opened is opened, then a transaction is begun on it, then the callback runs on it. The trace stays numbered by position. |
| Handler.TransactionCommitsUnlessRolledBack | subprojects/griffon-hibernate4-core/src/main/java/org/codehaus/griffon/runtime/hibernate4/DefaultHibernate4Handler.java:75-80 | Commit happens exactly when the callback did not roll back. The session is closed unless that commit threw. |
| Handler.TransactionOutcome | subprojects/griffon-hibernate4-core/src/main/java/org/codehaus/griffon/runtime/hibernate4/DefaultHibernate4Handler.java:72-84 | The callback's value is returned exactly when neither the callback, nor the commit (when made), nor the close throws. A commit or close exception overrides the callback's outcome. Every exception is a RuntimeHibernate4Exception naming the factory. |
| Handler.ExecuteArguments | subprojects/griffon-hibernate4-core/src/main/java/org/codehaus/griffon/runtime/hibernate4/DefaultHibernate4Handler.java:61-65 | A blank name, then a null callback, is rejected with no effect at all. An exception of create passes through unwrapped and stores nothing. |
| Handler.ExecuteStoresFactory | subprojects/griffon-hibernate4-core/src/main/java/org/codehaus/griffon/runtime/hibernate4/DefaultHibernate4Handler.java:61-65 | With valid arguments and an obtainable factory, that factory is stored under the name afterwards and every other entry is kept. A stored factory is the one reused. |
| Handler.ExecuteKeepsFactories | subprojects/griffon-hibernate4-core/src/main/java/org/codehaus/griffon/runtime/hibernate4/DefaultHibernate4Handler.java:61-85 | withHbm4Session keeps every stored factory and can add only the named one. |
| Handler.CloseForgetsFactory | subprojects/griffon-hibernate4-core/src/main/java/org/codehaus/griffon/runtime/hibernate4/DefaultHibernate4Handler.java:93-100 | A blank name is rejected with no effect, and an absent name is a no-op. A stored factory is destroyed, then removed with every other entry kept. If destroy throws, it stays. |
| Handler.CloseIdempotent | subprojects/griffon-hibernate4-core/src/main/java/org/codehaus/griffon/runtime/hibernate4/DefaultHibernate4Handler.java:93-100 | After a successful close, a second close of the same name changes nothing. |
| Handler.DefaultHibernate4Handler.New | subprojects/griffon-hibernate4-core/src/main/java/org/codehaus/griffon/runtime/hibernate4/DefaultHibernate4Handler.java:47-50 | A null factory, then a null storage, is rejected with its NullPointerException message. Otherwise a new handler holds both. |
| Handler.DefaultHibernate4Handler.WithSession | subprojects/griffon-hibernate4-core/src/main/java/org/codehaus/griffon/runtime/hibernate4/DefaultHibernate4Handler.java:61-85 | The new trace, both storages and the result are those of withHbm4Session's specification. |
| Handler.DefaultHibernate4Handler.WithDefaultSession | subprojects/griffon-hibernate4-core/src/main/java/org/codehaus/griffon/runtime/hibernate4/DefaultHibernate4Handler.java:54-56 | It behaves exactly as the named overload with "default". |
| Handler.DefaultHibernate4Handler.CloseSession | subprojects/griffon-hibernate4-core/src/main/java/org/codehaus/griffon/runtime/hibernate4/DefaultHibernate4Handler.java:93-100 | Its effect and result are closeHbm4Session's specification. |
| Handler.DefaultHibernate4Handler.CloseDefaultSession | subprojects/griffon-hibernate4-core/src/main/java/org/codehaus/griffon/runtime/hibernate4/DefaultHibernate4Handler.java:88-90 | It behaves exactly as the named overload with "default". |
| Handler.DefaultHibernate4Handler.GetSessionFactory | subprojects/griffon-hibernate4-core/src/main/java/org/codehaus/griffon/runtime/hibernate4/DefaultHibernate4Handler.java:103-110 | Its effect and result are the get-or-create specification. |
| Handler.DefaultHibernate4Handler.RunTransaction | subprojects/griffon-hibernate4-core/src/main/java/org/codehaus/griffon/runtime/hibernate4/DefaultHibernate4Handler.java:69-84 | Its effect and result are the transaction's specification. |
| Addon.StartupOnlyAdds | subprojects/griffon-hibernate4-core/src/main/java/org/codehaus/griffon/runtime/hibernate4/Hibernate4Addon.java:46-58 | The startup loop keeps every stored factory. It adds factories only for names that are flagged `connect_on_startup`. |
| Addon.StartupConnectsFlagged | subprojects/griffon-hibernate4-core/src/main/java/org/codehaus/griffon/runtime/hibernate4/Hibernate4Addon.java:46-58 | When the startup loop completes, every flagged name it was given has a stored factory. |
| Addon.OnStartupConnectsConfigured | subprojects/griffon-hibernate4-core/src/main/java/org/codehaus/griffon/runtime/hibernate4/Hibernate4Addon.java:46-58 | After onStartupStart completes, every configured factory flagged `connect_on_startup` (default false) is stored. |
| Addon.ShutdownOnlyRemoves | subprojects/griffon-hibernate4-core/src/main/java/org/codehaus/griffon/runtime/hibernate4/Hibernate4Addon.java:60-64 | The shutdown loop never adds or changes an entry. It forgets only the names it is given. |
| Addon.ShutdownClears | subprojects/griffon-hibernate4-core/src/main/java/org/codehaus/griffon/runtime/hibernate4/Hibernate4Addon.java:60-64 | When the shutdown loop completes, none of its names has a stored factory. |
| Addon.ShutdownSkipsAbsent | subprojects/griffon-hibernate4-core/src/main/java/org/codehaus/griffon/runtime/hibernate4/Hibernate4Addon.java:60-64 | Anywhere in the list, a non-blank name with no stored factory causes no destroy and no event. Shutdown has the same effect and result once every such name is dropped from the list. |
| Addon.ShutdownOfAbsentNames | subprojects/griffon-hibernate4-core/src/main/java/org/codehaus/griffon/runtime/hibernate4/Hibernate4Addon.java:60-64 | Shutting down non-blank names with no stored factory changes nothing: no destroy runs and no event is emitted. |
| Addon.OnShutdownClearsConfigured | subprojects/griffon-hibernate4-core/src/main/java/org/codehaus/griffon/runtime/hibernate4/Hibernate4Addon.java:60-64 | After onShutdownStart completes, no configured session factory is stored. |
| Addon.Hibernate4Addon.OnStartupStart | subprojects/griffon-hibernate4-core/src/main/java/org/codehaus/griffon/runtime/hibernate4/Hibernate4Addon.java:46-58 | The loop's effect and result are onStartupStart's specification: withHbm4Session with the no-op callback, for each flagged name in order. |
| Addon.Hibernate4Addon.OnShutdownStart | subprojects/griffon-hibernate4-core/src/main/java/org/codehaus/griffon/runtime/hibernate4/Hibernate4Addon.java:60-64 | The loop's effect and result are onShutdownStart's specification: closeHbm4Session for each configured name, in order. |

## Left out

- Hibernate itself is not modelled: building a factory, opening a session, transactions and connections.
- These external calls are taken never to throw: `buildSessionFactory`, `openSession`, `beginTransaction`, `getTransaction`, `Transaction.wasRolledBack`, `DataSourceFactory.create`, `DataSourceFactory.destroy`, every application event listener, Hibernate's `Configuration.addResource` (which in Hibernate 4 throws MappingNotFoundException for a missing resource and InvalidMappingException for a malformed mapping file), and the dialect detector (which opens a JDBC connection to the data source). Only the callback, commit and close in the handler, the bootstraps, and the failures the helper raises itself (instantiation, the `props` Map casts) may throw. `ConfigHelper.DeriveFailures`, `Factory.ConnectSucceedsIff` and `Factory.DisconnectOutcome` state their "exactly when" under this assumption.
- `session.close()` in the factory's finally block is taken never to throw.
- A `Configuration` starts with no properties. Hibernate's own defaults (`hibernate.properties`, system properties) are not modelled.
- Reflective instantiation is abstracted to three name sets in the class loader: the classes it can load, those `newInstance` can instantiate, and those whose constructor or static initialiser throws. Such an exception is a single `ConstructorFailed` error naming the class; its own type and message are not modelled. The cast to Interceptor or NamingStrategy (a ClassCastException for a class of another kind) is not modelled. A Class that is an interface would print as "interface X" in the message; the model prints "class X".
- The TypeLoader's reading of `META-INF/types` from the class path is an input list of lines. Its comment and resource handling are not part of this model.
- DialectDetector is a total function from data source to dialect name, supplied as a parameter; like the other calls listed above, it is taken never to throw.
- The Griffon framework code the plugin calls is modelled from its documented behaviour, since its source is not part of this model:
  - `narrowConfig`: "default" selects the `sessionFactory` block, any other name the matching `sessionFactories` block, and an unknown name an empty block.
  - `getSessionFactoryNames`: "default" first when that block exists, then the named blocks in configuration order, each once.
  - `getConfigValue` and `getConfigValueAsBoolean`.
  - `requireNonBlank` and `isBlank`.
  - the event router, which becomes the trace.
- The events record the name, the factory or data source, and the properties and resources. The full configuration maps passed to listeners, and the `Configuration` object itself (which a listener could change), are not recorded.
- ConfigFlag: "true" is matched ignoring ASCII case only. No other Unicode case folding is modelled.
- Null names, null strings inside lists, and non-string elements of `mappings` are not modelled. A `props` Properties object is taken to hold only String keys and values. Java null appears only as the `Null` configuration value, as a null key or value of a `props` Map, and as the absent callback, instance, factory or storage.
- `config.setProperties` installs the application's own Properties object, so the later `setProperty` calls also write into that object: show_sql, format_sql and the dialect in the helper, and `hibernate.hbm2ddl.auto` in the factory. The model copies the entries into the Configuration's property set, so this aliasing is not modelled.
- Logging (slf4j), SessionFactoryDecorator, LinkedSession, SessionFactoryMonitor, Hibernate4Module and the Groovy AST transformation are not modelled. They add no decisions to the core.
- A callback that throws a `java.lang.Error` rather than an Exception is not modelled. `catch (Exception e)` would not catch it, so after the finally block it would propagate unwrapped. Every callback failure in the model is an Exception, which is wrapped.
- Concurrency is not modelled: every operation runs to completion before the next.
- Handler.TransactionOpensNewSession: the freshness of the opened session is proved only for traces whose sessions are numbered by position (`SessionsNumbered`), since a `World` carries no invariant of its own.
- Factory.ObtainDataSourceGetOrCreate: it does not state that a new data source differs from every stored one, since a `World` carries no invariant that relates stored handles to trace positions.
