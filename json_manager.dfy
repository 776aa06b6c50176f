/**
 * Loading the JSON resources with their defaults. Reading and parsing a file
 * is external: a file is given as `None` when it does not exist and as its
 * parsed content otherwise.
 */
module JsonConfig {
  import opened Wrappers

  /** A JSON value, as far as the configuration tells values apart. */
  datatype Json = JStr(s: string) | JNum(n: real) | JOther

  /** A parsed `main_config.json`: the JSON `null`, or an object. */
  datatype ConfigDoc = JNull | Object(entries: map<string, Json>)

  /** Text resources and profiles: a key, then a language or an action, then a string. */
  type Table = map<string, map<string, string>>

  /** `load_json(filename, default)`: the parsed file, or the default when it does not exist. */
  function LoadJson<T>(file: Option<T>, default: T): (r: T)
    ensures file.None? ==> r == default
    ensures file.Some? ==> r == file.value
  {
    match file
    case None => default
    case Some(content) => content
  }

  function LoadProfiles(file: Option<Table>): Table
  {
    LoadJson(file, map[])
  }

  function LoadTexts(file: Option<Table>): Table
  {
    LoadJson(file, map[])
  }

  function LoadGestures(file: Option<seq<map<string, Json>>>): seq<map<string, Json>>
  {
    LoadJson(file, [])
  }

  /** Without their files, the profiles and texts are empty and the gesture list is empty. */
  lemma MissingFilesGiveDefaults(profiles: Table, texts: Table, gestures: seq<map<string, Json>>)
    ensures LoadProfiles(None) == map[] && LoadTexts(None) == map[] && LoadGestures(None) == []
    ensures LoadProfiles(Some(profiles)) == profiles && LoadTexts(Some(texts)) == texts
    ensures LoadGestures(Some(gestures)) == gestures
  {
  }

  /** The three default settings and their order. */
  const DefaultKeys: seq<string> := ["last_profile", "lang", "scale"]

  const DefaultConfig: map<string, Json> :=
    map["last_profile" := JStr("default"), "lang" := JStr("uk"), "scale" := JNum(1.5)]

  /** `config.setdefault(key, value)` for every default: missing defaults added, nothing else touched. */
  function WithDefaults(config: map<string, Json>): (r: map<string, Json>)
    ensures r.Keys == config.Keys + DefaultConfig.Keys
    ensures forall k :: k in config ==> r[k] == config[k]
    ensures forall k :: k in DefaultConfig && k !in config ==> r[k] == DefaultConfig[k]
  {
    map k | k in config.Keys + DefaultConfig.Keys :: if k in config then config[k] else DefaultConfig[k]
  }

  /** Merging the defaults into an already merged configuration changes nothing. */
  lemma WithDefaultsIdempotent(config: map<string, Json>)
    ensures WithDefaults(WithDefaults(config)) == WithDefaults(config)
  {
  }

  /**
   * `load_main_config`: the defaults when the file is missing or holds
   * `null`; otherwise the stored object with every missing default added.
   */
  method LoadMainConfig(file: Option<ConfigDoc>) returns (config: map<string, Json>)
    ensures file.None? || file == Some(JNull) ==> config == DefaultConfig
    ensures file.Some? && file.value.Object? ==> config == WithDefaults(file.value.entries)
    ensures forall k :: k in DefaultConfig ==> k in config
  {
    var doc := LoadJson(file, JNull);
    if doc.JNull? {
      return DefaultConfig;
    }
    config := doc.entries;
    for i := 0 to |DefaultKeys|
      invariant doc.entries.Keys <= config.Keys <= doc.entries.Keys + DefaultConfig.Keys
      invariant forall k :: k in config ==> config[k] == WithDefaults(doc.entries)[k]
      invariant forall j :: 0 <= j < i ==> DefaultKeys[j] in config
    {
      var key := DefaultKeys[i];
      if key !in config {
        config := config[key := DefaultConfig[key]];
      }
    }
    assert DefaultKeys[0] == "last_profile" && DefaultKeys[1] == "lang" && DefaultKeys[2] == "scale";
  }
}
