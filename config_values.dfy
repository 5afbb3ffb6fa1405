/**
 * The values a session configuration block can hold, and the two framework lookups the plugin
 * applies to them: ConfigUtils.getConfigValue and ConfigUtils.getConfigValueAsBoolean.
 */
module ConfigValues {
  import opened Wrappers
  import opened JavaText

  /** A configuration value, by its Java run-time class. */
  datatype ConfigValue =
    | Class(name: string)                        // a java.lang.Class, by its binary name
    | Str(s: string)                             // a java.lang.String
    | Bool(b: bool)                              // a java.lang.Boolean
    | PropMap(pairs: seq<(MapItem, MapItem)>)    // a java.util.Map, its keys and values in iteration order
    | Props(entries: seq<(string, string)>)      // a java.util.Properties, in iteration order
    | StrList(items: seq<string>)                // a java.util.List<String>
    | Other(text: string)                        // any other object, by what its toString() returns
    | Null                                       // a key that is present with the value null

  /** A key or a value held in a java.util.Map, by its Java run-time class. */
  datatype MapItem =
    | ItemStr(s: string)        // a java.lang.String
    | ItemOther(text: string)   // any other object, by what its toString() returns
    | ItemNull                  // null

  /** String.valueOf for a Map key or value. */
  function ItemText(x: MapItem): string {
    match x
    case ItemStr(s) => s
    case ItemOther(t) => t
    case ItemNull => "null"
  }

  /** A Map's entries as the texts its toString() prints. */
  function ItemTexts(entries: seq<(MapItem, MapItem)>): seq<(string, string)> {
    seq(|entries|, i requires 0 <= i < |entries| => (ItemText(entries[i].0), ItemText(entries[i].1)))
  }

  /** A session configuration block; a key that is not in the map is absent. */
  type SessionConfig = map<string, ConfigValue>

  /** getConfigValue(config, key, default): the stored value, or None when the key is absent. */
  function GetConfigValue(config: SessionConfig, key: string): Option<ConfigValue> {
    if key in config then Some(config[key]) else None
  }

  /** The "key=value" texts AbstractMap.toString and Hashtable.toString print, one per entry, in order. */
  function EntryTexts(entries: seq<(string, string)>): (r: seq<string>)
    ensures |r| == |entries|
    ensures forall i :: 0 <= i < |r| ==> r[i] == entries[i].0 + "=" + entries[i].1
  {
    if entries == [] then []
    else EntryTexts(entries[..|entries| - 1]) + [entries[|entries| - 1].0 + "=" + entries[|entries| - 1].1]
  }

  /** String.valueOf(v): what Java prints for the value. */
  function Render(v: ConfigValue): string {
    match v
    case Class(n) => "class " + n
    case Str(s) => s
    case Bool(b) => if b then "true" else "false"
    case PropMap(es) => "{" + JoinComma(EntryTexts(ItemTexts(es))) + "}"
    case Props(es) => "{" + JoinComma(EntryTexts(es)) + "}"
    case StrList(xs) => "[" + JoinComma(xs) + "]"
    case Other(t) => t
    case Null => "null"
  }

  function LowerAscii(c: char): char {
    if 'A' <= c <= 'Z' then (c as int + 32) as char else c
  }

  /** "true".equalsIgnoreCase(s). */
  predicate IsTrueIgnoringCase(s: string) {
    |s| == 4 && LowerAscii(s[0]) == 't' && LowerAscii(s[1]) == 'r' && LowerAscii(s[2]) == 'u' && LowerAscii(s[3]) == 'e'
  }

  /**
   * getConfigValueAsBoolean(config, key, default): the default when the key is absent; a Boolean
   * as it is; null as false; any other value is true exactly when its text is "true" in any case.
   */
  function ConfigFlag(config: SessionConfig, key: string, default: bool): (r: bool)
    ensures key !in config ==> r == default
    ensures key in config && config[key].Bool? ==> r == config[key].b
    ensures key in config && config[key].Null? ==> !r
  {
    match GetConfigValue(config, key)
    case None => default
    case Some(Bool(b)) => b
    case Some(Null) => false
    case Some(v) => IsTrueIgnoringCase(Render(v))
  }
}
