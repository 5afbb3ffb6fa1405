/**
 * HibernateConfigurationHelper: derives a Hibernate Configuration from one session configuration
 * block. The derivation is a fixed sequence of steps (interceptor, naming strategy, properties,
 * dialect, mappings) over a mutable Configuration; each step is specified here by a function on
 * the configuration's state, and the helper's methods are proved to perform exactly those steps.
 */
module ConfigHelper {
  import opened Wrappers
  import opened JavaText
  import opened ConfigValues
  import opened Hibernate

  const ENTITY_INTERCEPTOR := "entityInterceptor"
  const NAMING_STRATEGY := "namingStrategy"
  const PROPS := "props"
  const HBM_XML_SUFFIX := ".hbm.xml"
  /** Hibernate's Environment.DATASOURCE. */
  const DATASOURCE := "hibernate.connection.datasource"
  const SHOW_SQL := "hibernate.show_sql"
  const FORMAT_SQL := "hibernate.format_sql"
  const DIALECT := "hibernate.dialect"

  /**
   * The context class loader: the class names it can load; those Class.newInstance may
   * instantiate (a concrete class with an accessible no-argument constructor); and, among
   * these, those whose constructor or static initialiser throws.
   */
  datatype ClassLoader = ClassLoader(loadable: set<string>, instantiable: set<string>, throwing: set<string>)

  /** What the helper sets on a Configuration: its properties, its resources in order, its interceptor and naming strategy classes. */
  datatype ConfigState = ConfigState(
    properties: Properties,
    resources: seq<string>,
    interceptor: Option<string>,
    namingStrategy: Option<string>)

  // ---------------------------------------------------------------------------------------------
  // The steps, as functions

  /** newConfiguration: an empty Configuration whose properties hold the data source. */
  function NewConfigurationState(ds: DataSource): ConfigState {
    ConfigState(map[DATASOURCE := DataSourceRef(ds)], [], None, None)
  }

  /** The message newInstanceOf(Class) gives: "Cannot instantiate " followed by the Class's toString(). */
  function CannotInstantiate(name: string): string {
    "Cannot instantiate " + Render(Class(name))
  }

  /**
   * newInstanceOf(Class): InstantiationException and IllegalAccessException become an
   * IllegalArgumentException; what the constructor itself throws passes through unwrapped.
   */
  function NewInstance(n: string, loader: ClassLoader): Result<Option<string>, Error> {
    if n !in loader.instantiable then Err(IllegalArgument(CannotInstantiate(n)))
    else if n in loader.throwing then Err(ConstructorFailed(n))
    else Ok(Some(n))
  }

  /**
   * newInstanceOf applied to a configuration value: a Class is instantiated, a String is first
   * loaded (ClassNotFoundException becomes an IllegalArgumentException); any other value
   * installs nothing.
   */
  function Instantiate(v: Option<ConfigValue>, loader: ClassLoader): Result<Option<string>, Error> {
    match v
    case Some(Class(n)) => NewInstance(n, loader)
    case Some(Str(n)) =>
      if n !in loader.loadable then Err(IllegalArgument("Cannot instantiate class " + n))
      else NewInstance(n, loader)
    case _ => Ok(None)
  }

  /** applyEntityInterceptor */
  function InterceptorStep(s: ConfigState, config: SessionConfig, loader: ClassLoader): Result<ConfigState, Error> {
    var c :- Instantiate(GetConfigValue(config, ENTITY_INTERCEPTOR), loader);
    Ok(if c.Some? then s.(interceptor := c) else s)
  }

  /** applyNamingStrategy */
  function NamingStrategyStep(s: ConfigState, config: SessionConfig, loader: ClassLoader): Result<ConfigState, Error> {
    var c :- Instantiate(GetConfigValue(config, NAMING_STRATEGY), loader);
    Ok(if c.Some? then s.(namingStrategy := c) else s)
  }

  function KeysOf(entries: seq<(string, string)>): set<string> {
    set i | 0 <= i < |entries| :: entries[i].0
  }

  /** The value of the last entry for `key`, the one that wins when the entries are set in order. */
  function LastValue(entries: seq<(string, string)>, key: string): (r: Option<string>)
    ensures r.None? <==> key !in KeysOf(entries)
  {
    if entries == [] then None
    else if entries[|entries| - 1].0 == key then Some(entries[|entries| - 1].1)
    else
      assert KeysOf(entries) == KeysOf(entries[..|entries| - 1]) + {entries[|entries| - 1].0};
      LastValue(entries[..|entries| - 1], key)
  }

  /** One Configuration.setProperty per entry, in order. */
  function SetAll(p: Properties, entries: seq<(string, string)>): (r: Properties)
    ensures r.Keys == p.Keys + KeysOf(entries)
    ensures forall k :: k in r ==> r[k] == match LastValue(entries, k) case Some(v) => Text(v) case None => p[k]
  {
    if entries == [] then p
    else
      var front := entries[..|entries| - 1];
      assert KeysOf(entries) == KeysOf(front) + {entries[|entries| - 1].0};
      SetAll(p, front)[entries[|entries| - 1].0 := Text(entries[|entries| - 1].1)]
  }

  /**
   * What setting one Map entry throws: the casts of the key and of the value to String fail for
   * any other object, and Properties.setProperty fails for a null key or value.
   */
  function EntryFailure(entry: (MapItem, MapItem)): Option<Error> {
    if entry.0.ItemOther? || entry.1.ItemOther? then Some(ClassCast)
    else if entry.0.ItemNull? || entry.1.ItemNull? then Some(NullPointer(""))
    else None
  }

  /** How many entries of a Map are set before one of them throws. */
  function SetPrefix(entries: seq<(MapItem, MapItem)>): (n: nat)
    ensures n <= |entries|
    ensures forall i :: 0 <= i < n ==> EntryFailure(entries[i]).None?
    ensures n < |entries| ==> EntryFailure(entries[n]).Some?
  {
    if entries == [] || EntryFailure(entries[0]).Some? then 0
    else
      var n := SetPrefix(entries[1..]);
      assert forall i :: 1 <= i < 1 + n ==> entries[i] == entries[1..][i - 1];
      1 + n
  }

  /** The entries are set up to the first one that throws, and all of them when none does. */
  lemma SetPrefixStops(entries: seq<(MapItem, MapItem)>, i: nat)
    requires i <= |entries|
    requires forall j :: 0 <= j < i ==> EntryFailure(entries[j]).None?
    requires i < |entries| ==> EntryFailure(entries[i]).Some?
    ensures SetPrefix(entries) == i
  {
  }

  /**
   * The first half of applyProperties, as far as it gets: a Properties value replaces the whole
   * property set, and a Map is set entry by entry up to the entry that throws.
   */
  function WithProps(p: Properties, v: Option<ConfigValue>): Properties {
    match v
    case Some(Props(es)) => SetAll(map[], es)
    case Some(PropMap(es)) => SetAll(p, ItemTexts(es)[..SetPrefix(es)])
    case _ => p
  }

  /** The exception the first half of applyProperties throws, if any: that of the Map's first entry that cannot be set. */
  function PropsFailure(v: Option<ConfigValue>): Option<Error> {
    match v
    case Some(PropMap(es)) => if SetPrefix(es) < |es| then EntryFailure(es[SetPrefix(es)]) else None
    case _ => None
  }

  /** The second half of applyProperties: logSql and formatSql, both false by default. */
  function WithSqlFlags(p: Properties, config: SessionConfig): Properties {
    var p1 := if ConfigFlag(config, "logSql", false) then p[SHOW_SQL := Text("true")] else p;
    if ConfigFlag(config, "formatSql", false) then p1[FORMAT_SQL := Text("true")] else p1
  }

  /** Setting one more entry extends the set of the entries before it. */
  lemma SetAllStep(p: Properties, entries: seq<(string, string)>, i: nat)
    requires i < |entries|
    ensures SetAll(p, entries[..i + 1]) == SetAll(p, entries[..i])[entries[i].0 := Text(entries[i].1)]
  {
    assert entries[..i + 1][..i] == entries[..i];
  }

  /** applyProperties */
  function PropertiesStep(s: ConfigState, config: SessionConfig): Result<ConfigState, Error> {
    var v := GetConfigValue(config, PROPS);
    match PropsFailure(v)
    case Some(e) => Err(e)
    case None => Ok(s.(properties := WithSqlFlags(WithProps(s.properties, v), config)))
  }

  /** The dialect applyDialect sets: a Class's name, any other non-null value's text, else the detector's answer. */
  function DialectName(config: SessionConfig, detected: string): string {
    match GetConfigValue(config, "dialect")
    case Some(Class(n)) => n
    case Some(Null) => detected
    case Some(v) => Render(v)
    case None => detected
  }

  /** applyDialect */
  function DialectStep(s: ConfigState, config: SessionConfig, detected: string): ConfigState {
    s.(properties := s.properties[DIALECT := Text(DialectName(config, detected))])
  }

  /** What the type-loader line processor adds for one line: nothing for a blank line. */
  function TypeLineResource(line: string): Option<string> {
    var t := Trim(line);
    if IsBlank(t) then None else Some(Replace(t, '.', '/') + HBM_XML_SUFFIX)
  }

  /** The resources one line adds: none or one. */
  function TypeLineResources(line: string): seq<string> {
    match TypeLineResource(line) case Some(r) => [r] case None => []
  }

  lemma TypeLineResourcesOne(line: string)
    requires TypeLineResource(line).Some?
    ensures TypeLineResources(line) == [TypeLineResource(line).value]
  {
  }

  function TypeResources(lines: seq<string>): seq<string> {
    if lines == [] then [] else TypeResources(lines[..|lines| - 1]) + TypeLineResources(lines[|lines| - 1])
  }

  /** Proof aid: regroups a concatenation of three resource lists, for the mapping proofs below. */
  lemma AppendAssoc(a: seq<string>, b: seq<string>, c: seq<string>)
    ensures a + b + c == a + (b + c)
  {
  }

  /** The resource one entry of `mappings` becomes. */
  function MappingResource(mapping: string): (r: string)
    ensures r == Replace(mapping, '.', '/') + HBM_XML_SUFFIX
  {
    var m := Replace(mapping, '.', '/');
    if !EndsWith(m, HBM_XML_SUFFIX) then m + HBM_XML_SUFFIX
    else
      ReplacedNeverEndsWithSuffix(mapping);
      assert false;
      m
  }

  /** After every dot is replaced no dot is left, so the replaced text cannot end with ".hbm.xml". */
  lemma ReplacedNeverEndsWithSuffix(mapping: string)
    ensures !EndsWith(Replace(mapping, '.', '/'), HBM_XML_SUFFIX)
  {
    var m := Replace(mapping, '.', '/');
    if |HBM_XML_SUFFIX| <= |m| {
      assert m[|m| - |HBM_XML_SUFFIX|..][0] != HBM_XML_SUFFIX[0];
    }
  }

  function MappingResources(mappings: seq<string>): seq<string> {
    if mappings == [] then []
    else MappingResources(mappings[..|mappings| - 1]) + [MappingResource(mappings[|mappings| - 1])]
  }

  /** The `mappings` value as the for-each loop sees it: absent is the empty list; null and non-lists throw. */
  function MappingList(config: SessionConfig): Result<seq<string>, Error> {
    match GetConfigValue(config, "mappings")
    case None => Ok([])
    case Some(StrList(xs)) => Ok(xs)
    case Some(Null) => Err(NullPointer(""))
    case Some(_) => Err(ClassCast)
  }

  /** applyMappings */
  function MappingsStep(s: ConfigState, config: SessionConfig, lines: seq<string>): Result<ConfigState, Error> {
    var s1 := s.(resources := s.resources + TypeResources(lines));
    var ms :- MappingList(config);
    Ok(s1.(resources := s1.resources + MappingResources(ms)))
  }

  /** buildConfiguration: the steps in their fixed order; the first exception ends it. */
  function Derive(config: SessionConfig, ds: DataSource, loader: ClassLoader, lines: seq<string>, detected: string): Result<ConfigState, Error> {
    var s1 :- InterceptorStep(NewConfigurationState(ds), config, loader);
    var s2 :- NamingStrategyStep(s1, config, loader);
    var s3 :- PropertiesStep(s2, config);
    MappingsStep(DialectStep(s3, config, detected), config, lines)
  }

  /** The property set `props` alone produces, before the flags and the dialect are applied. */
  function PropsOnly(config: SessionConfig, ds: DataSource): Properties {
    WithProps(map[DATASOURCE := DataSourceRef(ds)], GetConfigValue(config, PROPS))
  }

  // ---------------------------------------------------------------------------------------------
  // Properties of the derivation

  /** The properties buildConfiguration ends with: those `props` gives, then the two flags, then the dialect. */
  lemma DerivedProperties(config: SessionConfig, ds: DataSource, loader: ClassLoader, lines: seq<string>, detected: string)
    requires Derive(config, ds, loader, lines, detected).Ok?
    ensures Derive(config, ds, loader, lines, detected).value.properties
      == WithSqlFlags(PropsOnly(config, ds), config)[DIALECT := Text(DialectName(config, detected))]
  {
    var s1 := InterceptorStep(NewConfigurationState(ds), config, loader).value;
    var s2 := NamingStrategyStep(s1, config, loader).value;
    assert s2.properties == map[DATASOURCE := DataSourceRef(ds)];
  }

  /** The resources buildConfiguration ends with: the type-loader ones, then the configured mappings. */
  lemma DerivedResources(config: SessionConfig, ds: DataSource, loader: ClassLoader, lines: seq<string>, detected: string)
    requires Derive(config, ds, loader, lines, detected).Ok?
    ensures MappingList(config).Ok?
    ensures Derive(config, ds, loader, lines, detected).value.resources
      == TypeResources(lines) + MappingResources(MappingList(config).value)
  {
    var s1 := InterceptorStep(NewConfigurationState(ds), config, loader).value;
    var s2 := NamingStrategyStep(s1, config, loader).value;
    var s3 := DialectStep(PropertiesStep(s2, config).value, config, detected);
    assert Derive(config, ds, loader, lines, detected) == MappingsStep(s3, config, lines);
    assert s3.resources == [];
    var ms := MappingList(config).value;
    assert MappingsStep(s3, config, lines).value.resources == [] + TypeResources(lines) + MappingResources(ms);
    AppendAssoc([], TypeResources(lines), MappingResources(ms));
  }

  /** A `props` Map has an entry that cannot be set: a key or value that is not a String, or is null. */
  predicate HasBadEntry(config: SessionConfig) {
    PROPS in config && config[PROPS].PropMap?
    && exists i :: 0 <= i < |config[PROPS].pairs| && EntryFailure(config[PROPS].pairs[i]).Some?
  }

  /**
   * Derivation fails exactly when an instantiation fails, a `props` Map holds an entry that cannot
   * be set, or `mappings` is not a list; the interceptor's failure comes first.
   */
  lemma DeriveFailures(config: SessionConfig, ds: DataSource, loader: ClassLoader, lines: seq<string>, detected: string)
    ensures Derive(config, ds, loader, lines, detected).Err? <==>
      (|| Instantiate(GetConfigValue(config, ENTITY_INTERCEPTOR), loader).Err?
       || Instantiate(GetConfigValue(config, NAMING_STRATEGY), loader).Err?
       || HasBadEntry(config)
       || MappingList(config).Err?)
    ensures Instantiate(GetConfigValue(config, ENTITY_INTERCEPTOR), loader).Err? ==>
      Derive(config, ds, loader, lines, detected).error == Instantiate(GetConfigValue(config, ENTITY_INTERCEPTOR), loader).error
  {
    PropsFailureIff(GetConfigValue(config, PROPS));
  }

  /**
   * The Map loop throws exactly when some entry cannot be set, with the exception of the first
   * such entry: ClassCastException when its key or value is not a String, NullPointerException
   * when one of them is null.
   */
  lemma PropsFailureIff(v: Option<ConfigValue>)
    ensures PropsFailure(v).Some? <==>
      v.Some? && v.value.PropMap? && exists i :: 0 <= i < |v.value.pairs| && EntryFailure(v.value.pairs[i]).Some?
    ensures PropsFailure(v).Some? ==>
      var es := v.value.pairs;
      var n := SetPrefix(es);
      && (forall i :: 0 <= i < n ==> es[i].0.ItemStr? && es[i].1.ItemStr?)
      && PropsFailure(v).value == (if es[n].0.ItemOther? || es[n].1.ItemOther? then ClassCast else NullPointer(""))
  {
  }

  /**
   * An interceptor or naming strategy is installed only for a Class or a String, and is that
   * class. A failed load or instantiation is an IllegalArgumentException naming it; an exception
   * from the class's own constructor is reported as it is.
   */
  lemma InstantiateOnlyClassOrString(v: Option<ConfigValue>, loader: ClassLoader)
    ensures !(v.Some? && (v.value.Class? || v.value.Str?)) ==> Instantiate(v, loader) == Ok(None)
    ensures v.Some? && (v.value.Class? || v.value.Str?) ==>
      var n := if v.value.Class? then v.value.name else v.value.s;
      Instantiate(v, loader) ==
        if v.value.Str? && n !in loader.loadable then Err(IllegalArgument("Cannot instantiate class " + n))
        else if n !in loader.instantiable then Err(IllegalArgument("Cannot instantiate class " + n))
        else if n in loader.throwing then Err(ConstructorFailed(n))
        else Ok(Some(n))
  {
    if v.Some? && (v.value.Class? || v.value.Str?) {
      var n := if v.value.Class? then v.value.name else v.value.s;
      assert CannotInstantiate(n) == "Cannot instantiate class " + n;
    }
  }

  /** After buildConfiguration the interceptor and naming strategy are exactly what their values name, and unset for any other value. */
  lemma DerivedInterceptorAndNamingStrategy(config: SessionConfig, ds: DataSource, loader: ClassLoader, lines: seq<string>, detected: string)
    requires Derive(config, ds, loader, lines, detected).Ok?
    ensures Derive(config, ds, loader, lines, detected).value.interceptor == Instantiate(GetConfigValue(config, ENTITY_INTERCEPTOR), loader).value
    ensures Derive(config, ds, loader, lines, detected).value.namingStrategy == Instantiate(GetConfigValue(config, NAMING_STRATEGY), loader).value
  {
  }

  /** hibernate.dialect is always set: to a Class's name, to any other non-null value's text, and to the detector's answer only when the value is absent or null. */
  lemma DerivedDialect(config: SessionConfig, ds: DataSource, loader: ClassLoader, lines: seq<string>, detected: string)
    requires Derive(config, ds, loader, lines, detected).Ok?
    ensures var p := Derive(config, ds, loader, lines, detected).value.properties;
      && DIALECT in p
      && ("dialect" !in config || config["dialect"].Null? ==> p[DIALECT] == Text(detected))
      && ("dialect" in config && config["dialect"].Class? ==> p[DIALECT] == Text(config["dialect"].name))
      && ("dialect" in config && !config["dialect"].Class? && !config["dialect"].Null? ==> p[DIALECT] == Text(Render(config["dialect"])))
  {
    DerivedProperties(config, ds, loader, lines, detected);
  }

  /** logSql and formatSql, when true, override whatever `props` gave those keys; when false, the keys keep what `props` gave them. */
  lemma SqlFlagsOverrideProps(config: SessionConfig, ds: DataSource, loader: ClassLoader, lines: seq<string>, detected: string)
    requires Derive(config, ds, loader, lines, detected).Ok?
    ensures var p := Derive(config, ds, loader, lines, detected).value.properties;
      var q := PropsOnly(config, ds);
      && (ConfigFlag(config, "logSql", false) ==> p[SHOW_SQL] == Text("true"))
      && (ConfigFlag(config, "formatSql", false) ==> p[FORMAT_SQL] == Text("true"))
      && (!ConfigFlag(config, "logSql", false) ==> (SHOW_SQL in p <==> SHOW_SQL in q) && (SHOW_SQL in q ==> p[SHOW_SQL] == q[SHOW_SQL]))
      && (!ConfigFlag(config, "formatSql", false) ==> (FORMAT_SQL in p <==> FORMAT_SQL in q) && (FORMAT_SQL in q ==> p[FORMAT_SQL] == q[FORMAT_SQL]))
  {
    DerivedProperties(config, ds, loader, lines, detected);
  }

  /** Every key other than the three the later steps own has exactly the value `props` gave it. */
  lemma OtherPropertiesFromProps(config: SessionConfig, ds: DataSource, loader: ClassLoader, lines: seq<string>, detected: string, k: string)
    requires Derive(config, ds, loader, lines, detected).Ok?
    requires k != SHOW_SQL && k != FORMAT_SQL && k != DIALECT
    ensures var p := Derive(config, ds, loader, lines, detected).value.properties;
      (k in p <==> k in PropsOnly(config, ds)) && (k in p ==> p[k] == PropsOnly(config, ds)[k])
  {
    DerivedProperties(config, ds, loader, lines, detected);
  }

  /**
   * `props` as a Properties replaces the whole property set (so the data source entry is gone
   * unless it is listed); as a Map it adds or overwrites one key per entry, the last entry for a
   * key winning; any other value, or none, leaves the data source entry alone.
   */
  lemma PropsValueKinds(config: SessionConfig, ds: DataSource)
    ensures PROPS in config && config[PROPS].Props? ==>
      && PropsOnly(config, ds).Keys == KeysOf(config[PROPS].entries)
      && forall k :: k in KeysOf(config[PROPS].entries) ==> PropsOnly(config, ds)[k] == Text(LastValue(config[PROPS].entries, k).value)
    ensures PROPS in config && config[PROPS].PropMap? && !HasBadEntry(config) ==>
      var es := ItemTexts(config[PROPS].pairs);
      && (forall i :: 0 <= i < |config[PROPS].pairs| ==> config[PROPS].pairs[i] == (ItemStr(es[i].0), ItemStr(es[i].1)))
      && PropsOnly(config, ds).Keys == {DATASOURCE} + KeysOf(es)
      && (DATASOURCE !in KeysOf(es) ==> PropsOnly(config, ds)[DATASOURCE] == DataSourceRef(ds))
      && forall k :: k in KeysOf(es) ==> PropsOnly(config, ds)[k] == Text(LastValue(es, k).value)
    ensures !(PROPS in config && (config[PROPS].Props? || config[PROPS].PropMap?)) ==>
      PropsOnly(config, ds) == map[DATASOURCE := DataSourceRef(ds)]
  {
    if PROPS in config && config[PROPS].PropMap? && !HasBadEntry(config) {
      var es := config[PROPS].pairs;
      assert ItemTexts(es)[..SetPrefix(es)] == ItemTexts(es);
    }
  }

  /** One type-loader line: nothing when blank after trimming, otherwise its trimmed text with dots turned into slashes, then the suffix. */
  lemma TypeLineResourceShape(line: string)
    ensures TypeLineResource(line).None? <==> IsBlank(Trim(line))
    ensures TypeLineResource(line).Some? ==>
      var r := TypeLineResource(line).value;
      && EndsWith(r, HBM_XML_SUFFIX)
      && r[..|r| - |HBM_XML_SUFFIX|] == Replace(Trim(line), '.', '/')
      && '.' !in r[..|r| - |HBM_XML_SUFFIX|]
  {
    if !IsBlank(Trim(line)) {
      var t := Replace(Trim(line), '.', '/');
      var r := t + HBM_XML_SUFFIX;
      assert r[..|r| - |HBM_XML_SUFFIX|] == t;
      assert r[|r| - |HBM_XML_SUFFIX|..] == HBM_XML_SUFFIX;
    }
  }

  /** A line's resource sits at some position of the type-loader resources. */
  lemma {:induction false} TypeResourcesHas(lines: seq<string>, i: nat) returns (k: nat)
    requires i < |lines| && TypeLineResource(lines[i]).Some?
    ensures k < |TypeResources(lines)| && TypeResources(lines)[k] == TypeLineResource(lines[i]).value
  {
    var front := lines[..|lines| - 1];
    var last := TypeLineResources(lines[|lines| - 1]);
    assert TypeResources(lines) == TypeResources(front) + last;
    if i < |front| {
      assert lines[i] == front[i];
      k := TypeResourcesHas(front, i);
      assert TypeResources(lines)[k] == TypeResources(front)[k];
      assert TypeResources(lines)[k] == TypeLineResource(lines[i]).value;
    } else {
      assert i == |lines| - 1;
      TypeLineResourcesOne(lines[|lines| - 1]);
      k := |TypeResources(front)|;
      assert TypeResources(lines)[k] == last[0];
      assert TypeResources(lines)[k] == TypeLineResource(lines[i]).value;
    }
  }

  /** Every line that is not blank after trimming contributes its resource. */
  lemma TypeResourcesComplete(lines: seq<string>, i: nat)
    requires i < |lines| && !IsBlank(Trim(lines[i]))
    ensures TypeLineResource(lines[i]).Some? && TypeLineResource(lines[i]).value in TypeResources(lines)
  {
    var k := TypeResourcesHas(lines, i);
  }

  /** Every type-loader resource comes from one of the lines, so blank lines contribute nothing. */
  lemma {:induction false} TypeResourcesSound(lines: seq<string>, r: string)
    requires r in TypeResources(lines)
    ensures exists i :: 0 <= i < |lines| && TypeLineResource(lines[i]) == Some(r)
  {
    var front := lines[..|lines| - 1];
    if r in TypeResources(front) {
      TypeResourcesSound(front, r);
      var i :| 0 <= i < |front| && TypeLineResource(front[i]) == Some(r);
      assert lines[i] == front[i];
    } else {
      assert TypeLineResource(lines[|lines| - 1]) == Some(r);
    }
  }

  /** The i-th configured mapping becomes the i-th mapping resource. */
  lemma {:induction false} MappingResourcesAt(mappings: seq<string>, i: nat)
    requires i < |mappings|
    ensures |MappingResources(mappings)| == |mappings|
    ensures MappingResources(mappings)[i] == Replace(mappings[i], '.', '/') + HBM_XML_SUFFIX
  {
    if i < |mappings| - 1 {
      MappingResourcesAt(mappings[..|mappings| - 1], i);
    } else if |mappings| > 1 {
      MappingResourcesAt(mappings[..|mappings| - 1], 0);
    }
  }

  /** Resources are added in order: every type-loader resource first, then one per configured mapping, in list order. */
  lemma DerivedResourcesInOrder(config: SessionConfig, ds: DataSource, loader: ClassLoader, lines: seq<string>, detected: string)
    requires Derive(config, ds, loader, lines, detected).Ok?
    ensures MappingList(config).Ok?
    ensures var rs := Derive(config, ds, loader, lines, detected).value.resources;
      var ms := MappingList(config).value;
      && rs[..|TypeResources(lines)|] == TypeResources(lines)
      && |rs| == |TypeResources(lines)| + |ms|
      && forall i :: 0 <= i < |ms| ==> rs[|TypeResources(lines)| + i] == Replace(ms[i], '.', '/') + HBM_XML_SUFFIX
  {
    DerivedResources(config, ds, loader, lines, detected);
    var ms := MappingList(config).value;
    if ms != [] {
      MappingResourcesAt(ms, 0);
    }
    forall i | 0 <= i < |ms|
      ensures MappingResources(ms)[i] == Replace(ms[i], '.', '/') + HBM_XML_SUFFIX
    {
      MappingResourcesAt(ms, i);
    }
  }

  lemma ReplaceExample()
    ensures Replace("a.hbm.xml", '.', '/') == "a/hbm/xml"
  {
    var s := "a.hbm.xml";
    assert s[0] == 'a' && s[1] == '.' && s[2] == 'h' && s[3] == 'b' && s[4] == 'm';
    assert s[5] == '.' && s[6] == 'x' && s[7] == 'm' && s[8] == 'l';
  }

  /** The suffix test never holds, so a name that already ends in ".hbm.xml" gets the suffix a second time. */
  lemma MappingSuffixQuirk()
    ensures MappingResource("a.hbm.xml") == "a/hbm/xml" + HBM_XML_SUFFIX
  {
    ReplaceExample();
  }

  // ---------------------------------------------------------------------------------------------
  // The mutable objects

  /** org.hibernate.cfg.Configuration, as far as the helper uses it. */
  class Configuration {
    var properties: Properties
    var resources: seq<string>
    var interceptor: Option<string>
    var namingStrategy: Option<string>

    function State(): ConfigState
      reads this
    {
      ConfigState(properties, resources, interceptor, namingStrategy)
    }

    constructor ()
      ensures State() == ConfigState(map[], [], None, None)
    {
      properties := map[];
      resources := [];
      interceptor := None;
      namingStrategy := None;
    }

    method SetProperty(key: string, value: PropValue)
      modifies this
      ensures State() == old(State()).(properties := old(properties)[key := value])
    {
      properties := properties[key := value];
    }

    /** Installs the given set as the whole property set. */
    method SetProperties(p: Properties)
      modifies this
      ensures State() == old(State()).(properties := p)
    {
      properties := p;
    }

    method AddResource(path: string)
      modifies this
      ensures State() == old(State()).(resources := old(resources) + [path])
    {
      resources := resources + [path];
    }

    method SetInterceptor(className: string)
      modifies this
      ensures State() == old(State()).(interceptor := Some(className))
    {
      interceptor := Some(className);
    }

    method SetNamingStrategy(className: string)
      modifies this
      ensures State() == old(State()).(namingStrategy := Some(className))
    {
      namingStrategy := Some(className);
    }
  }

  class HibernateConfigurationHelper {
    const sessionConfig: SessionConfig
    const dataSourceName: string
    const dataSource: DataSource
    /** The context class loader. */
    const loader: ClassLoader
    /** The lines the TypeLoader reads from META-INF/types for Hibernate4Mapping, in order. */
    const mappingLines: seq<string>
    /** What DialectDetector answers for `dataSource`. */
    const detectedDialect: string

    constructor (sessionConfig: SessionConfig, dataSourceName: string, dataSource: DataSource,
                 loader: ClassLoader, mappingLines: seq<string>, detectedDialect: string)
      ensures this.sessionConfig == sessionConfig && this.dataSourceName == dataSourceName
      ensures this.dataSource == dataSource && this.loader == loader
      ensures this.mappingLines == mappingLines && this.detectedDialect == detectedDialect
    {
      this.sessionConfig := sessionConfig;
      this.dataSourceName := dataSourceName;
      this.dataSource := dataSource;
      this.loader := loader;
      this.mappingLines := mappingLines;
      this.detectedDialect := detectedDialect;
    }

    function Derivation(): Result<ConfigState, Error> {
      Derive(sessionConfig, dataSource, loader, mappingLines, detectedDialect)
    }

    method BuildConfiguration() returns (r: Result<Configuration, Error>)
      ensures r.Ok? <==> Derivation().Ok?
      ensures r.Ok? ==> fresh(r.value) && r.value.State() == Derivation().value
      ensures r.Err? ==> r.error == Derivation().error
    {
      var config := NewConfiguration();
      var err := ApplyEntityInterceptor(config);
      if err.Some? {
        return Err(err.value);
      }
      err := ApplyNamingStrategy(config);
      if err.Some? {
        return Err(err.value);
      }
      err := ApplyProperties(config);
      if err.Some? {
        return Err(err.value);
      }
      ApplyDialect(config);
      err := ApplyMappings(config);
      if err.Some? {
        return Err(err.value);
      }
      return Ok(config);
    }

    method NewConfiguration() returns (config: Configuration)
      ensures fresh(config) && config.State() == NewConfigurationState(dataSource)
    {
      config := new Configuration();
      config.SetProperty(DATASOURCE, DataSourceRef(dataSource));
    }

    method ApplyEntityInterceptor(config: Configuration) returns (err: Option<Error>)
      modifies config
      ensures var step := InterceptorStep(old(config.State()), sessionConfig, loader);
        && (step.Ok? ==> err.None? && config.State() == step.value)
        && (step.Err? ==> err == Some(step.error) && config.State() == old(config.State()))
    {
      match Instantiate(GetConfigValue(sessionConfig, ENTITY_INTERCEPTOR), loader) {
        case Err(e) => err := Some(e);
        case Ok(c) =>
          if c.Some? {
            config.SetInterceptor(c.value);
          }
          err := None;
      }
    }

    method ApplyNamingStrategy(config: Configuration) returns (err: Option<Error>)
      modifies config
      ensures var step := NamingStrategyStep(old(config.State()), sessionConfig, loader);
        && (step.Ok? ==> err.None? && config.State() == step.value)
        && (step.Err? ==> err == Some(step.error) && config.State() == old(config.State()))
    {
      match Instantiate(GetConfigValue(sessionConfig, NAMING_STRATEGY), loader) {
        case Err(e) => err := Some(e);
        case Ok(c) =>
          if c.Some? {
            config.SetNamingStrategy(c.value);
          }
          err := None;
      }
    }

    /** On an exception the Map entries before the one that threw stay set. */
    method ApplyProperties(config: Configuration) returns (err: Option<Error>)
      modifies config
      ensures var step := PropertiesStep(old(config.State()), sessionConfig);
        && (step.Ok? ==> err.None? && config.State() == step.value)
        && (step.Err? ==> err == Some(step.error)
                          && config.State() == old(config.State()).(properties := WithProps(old(config.properties), GetConfigValue(sessionConfig, PROPS))))
    {
      match GetConfigValue(sessionConfig, PROPS) {
        case Some(Props(es)) =>
          config.SetProperties(SetAll(map[], es));
        case Some(PropMap(es)) =>
          err := SetMapEntries(config, es);
          if err.Some? {
            return;
          }
        case _ =>
      }
      if ConfigFlag(sessionConfig, "logSql", false) {
        config.SetProperty(SHOW_SQL, Text("true"));
      }
      if ConfigFlag(sessionConfig, "formatSql", false) {
        config.SetProperty(FORMAT_SQL, Text("true"));
      }
      err := None;
    }

    /** The for-each over a `props` Map: each entry's key and value are cast to String and set, until one throws. */
    method SetMapEntries(config: Configuration, es: seq<(MapItem, MapItem)>) returns (err: Option<Error>)
      modifies config
      ensures err == (if SetPrefix(es) < |es| then EntryFailure(es[SetPrefix(es)]) else None)
      ensures config.State() == old(config.State()).(properties := SetAll(old(config.properties), ItemTexts(es)[..SetPrefix(es)]))
    {
      ghost var s0 := config.State();
      ghost var texts := ItemTexts(es);
      var i := 0;
      while i < |es|
        invariant 0 <= i <= |es|
        invariant forall j :: 0 <= j < i ==> EntryFailure(es[j]).None?
        invariant config.State() == s0.(properties := SetAll(s0.properties, texts[..i]))
      {
        var key := es[i].0;
        var value := es[i].1;
        if key.ItemOther? || value.ItemOther? {
          SetPrefixStops(es, i);
          return Some(ClassCast);
        }
        if key.ItemNull? || value.ItemNull? {
          SetPrefixStops(es, i);
          return Some(NullPointer(""));
        }
        assert texts[i] == (key.s, value.s);
        SetAllStep(s0.properties, texts, i);
        config.SetProperty(key.s, Text(value.s));
        i := i + 1;
      }
      SetPrefixStops(es, i);
      return None;
    }

    method ApplyDialect(config: Configuration)
      modifies config
      ensures config.State() == DialectStep(old(config.State()), sessionConfig, detectedDialect)
    {
      match GetConfigValue(sessionConfig, "dialect") {
        case Some(Class(n)) => config.SetProperty(DIALECT, Text(n));
        case Some(Null) => config.SetProperty(DIALECT, Text(detectedDialect));
        case Some(v) => config.SetProperty(DIALECT, Text(Render(v)));
        case None => config.SetProperty(DIALECT, Text(detectedDialect));
      }
    }

    method ApplyMappings(config: Configuration) returns (err: Option<Error>)
      modifies config
      ensures var step := MappingsStep(old(config.State()), sessionConfig, mappingLines);
        && (step.Ok? ==> err.None? && config.State() == step.value)
        && (step.Err? ==> err == Some(step.error)
                          && config.State() == old(config.State()).(resources := old(config.resources) + TypeResources(mappingLines)))
    {
      LoadTypeResources(config);
      match MappingList(sessionConfig) {
        case Err(e) => err := Some(e);
        case Ok(ms) =>
          AddMappingResources(config, ms);
          err := None;
      }
    }

    /** TypeLoader.load: the line processor applied to every line, in order. */
    method LoadTypeResources(config: Configuration)
      modifies config
      ensures config.State() == old(config.State()).(resources := old(config.resources) + TypeResources(mappingLines))
    {
      var i := 0;
      while i < |mappingLines|
        invariant 0 <= i <= |mappingLines|
        invariant config.State() == old(config.State()).(resources := old(config.resources) + TypeResources(mappingLines[..i]))
      {
        assert mappingLines[..i + 1][..i] == mappingLines[..i];
        AppendAssoc(old(config.resources), TypeResources(mappingLines[..i]), TypeLineResources(mappingLines[i]));
        ProcessTypeLine(config, mappingLines[i]);
        i := i + 1;
      }
      assert mappingLines[..i] == mappingLines;
    }

    /** The TypeLoader.LineProcessor of applyMappings, for one line. */
    method ProcessTypeLine(config: Configuration, line: string)
      modifies config
      ensures config.State() == old(config.State()).(resources := old(config.resources) + TypeLineResources(line))
    {
      var t := Trim(line);
      if IsBlank(t) {
        return;
      }
      t := Replace(t, '.', '/');
      config.AddResource(t + HBM_XML_SUFFIX);
    }

    /** The for-each over `mappings`: one resource per entry, in list order. */
    method AddMappingResources(config: Configuration, mappings: seq<string>)
      modifies config
      ensures config.State() == old(config.State()).(resources := old(config.resources) + MappingResources(mappings))
    {
      var j := 0;
      while j < |mappings|
        invariant 0 <= j <= |mappings|
        invariant config.State() == old(config.State()).(resources := old(config.resources) + MappingResources(mappings[..j]))
      {
        assert mappings[..j + 1][..j] == mappings[..j];
        AppendAssoc(old(config.resources), MappingResources(mappings[..j]), [MappingResource(mappings[j])]);
        var mapping := Replace(mappings[j], '.', '/');
        if !EndsWith(mapping, HBM_XML_SUFFIX) {
          mapping := mapping + HBM_XML_SUFFIX;
        }
        config.AddResource(mapping);
        j := j + 1;
      }
      assert mappings[..j] == mappings;
    }
  }
}
