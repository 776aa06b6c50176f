/**
 * The command-line session: the mode and language chosen from the arguments
 * and the stored configuration, the profile for that mode, the text lookup
 * with its fallbacks, and the configuration written back.
 */
module Cli {
  import opened Wrappers
  import opened JsonConfig

  /** The parsed arguments: the optional positional mode and the optional `--lang`. */
  datatype Args = Args(mode: Option<string>, lang: Option<string>)

  const ModeChoices: set<string> := {"default", "touch", "scroll", "help", "configuration"}
  const LangChoices: set<string> := {"uk", "en"}

  /** What the argument parser accepts; anything else ends the program before this code runs. */
  predicate ValidArgs(args: Args)
  {
    (args.mode.Some? ==> args.mode.value in ModeChoices)
    && (args.lang.Some? ==> args.lang.value in LangChoices)
  }

  /** `args.lang or main_config.get("lang", "uk")`. */
  function ResolveLang(args: Args, config: map<string, Json>): (lang: Json)
    ensures args.lang.Some? && args.lang.value != "" ==> lang == JStr(args.lang.value)
    ensures (args.lang.None? || args.lang.value == "") && "lang" in config ==> lang == config["lang"]
    ensures (args.lang.None? || args.lang.value == "") && "lang" !in config ==> lang == JStr("uk")
  {
    if args.lang.Some? && args.lang.value != "" then JStr(args.lang.value)
    else if "lang" in config then config["lang"]
    else JStr("uk")
  }

  /** A valid `--lang` always wins over the stored language. */
  lemma ArgumentLangWins(args: Args, config: map<string, Json>)
    requires ValidArgs(args) && args.lang.Some?
    ensures ResolveLang(args, config) == JStr(args.lang.value)
    ensures ResolveLang(args, config).s in LangChoices
  {
  }

  /** The mode: the argument if given, else the stored last profile, with `help` never restored. */
  function ResolveMode(args: Args, config: map<string, Json>): (mode: Json)
    ensures args.mode.Some? ==> mode == JStr(args.mode.value)
    ensures args.mode.None? && "last_profile" in config && config["last_profile"] != JStr("help")
      ==> mode == config["last_profile"]
    ensures args.mode.None? && ("last_profile" !in config || config["last_profile"] == JStr("help"))
      ==> mode == JStr("default")
    ensures args.mode.None? ==> mode != JStr("help")
  {
    if args.mode.Some? then JStr(args.mode.value)
    else
      var stored := if "last_profile" in config then config["last_profile"] else JStr("default");
      if stored == JStr("help") then JStr("default") else stored
  }

  /** `profiles.get(mode, profiles.get("default", {}))`. */
  function ResolveProfile(profiles: Table, mode: Json): (profile: map<string, string>)
    ensures mode.JStr? && mode.s in profiles ==> profile == profiles[mode.s]
    ensures !(mode.JStr? && mode.s in profiles) && "default" in profiles ==> profile == profiles["default"]
    ensures !(mode.JStr? && mode.s in profiles) && "default" !in profiles ==> profile == map[]
  {
    if mode.JStr? && mode.s in profiles then profiles[mode.s]
    else if "default" in profiles then profiles["default"]
    else map[]
  }

  /** The configuration after the session start: `last_profile` unless in help mode, and `lang`. */
  function UpdatedConfig(config: map<string, Json>, mode: Json, lang: Json): (r: map<string, Json>)
  {
    var withMode := if mode != JStr("help") then config["last_profile" := mode] else config;
    withMode["lang" := lang]
  }

  /** The update writes `lang` always, `last_profile` except in help mode, and nothing else. */
  lemma UpdatedConfigMeaning(config: map<string, Json>, mode: Json, lang: Json)
    ensures var r := UpdatedConfig(config, mode, lang);
      && r["lang"] == lang
      && (mode != JStr("help") ==> r["last_profile"] == mode)
      && (mode == JStr("help") ==> ("last_profile" in r <==> "last_profile" in config))
      && (mode == JStr("help") && "last_profile" in config ==> r["last_profile"] == config["last_profile"])
      && r.Keys == config.Keys + {"lang"} + (if mode != JStr("help") then {"last_profile"} else {})
      && forall k :: k in config && k != "lang" && k != "last_profile" ==> r[k] == config[k]
  {
  }

  /** A session that started in a remembered mode restores the same mode and language next time. */
  lemma SessionRoundTrip(args: Args, config: map<string, Json>)
    requires args.mode.None? || args.mode.value != "help"
    ensures var mode := ResolveMode(args, config);
      var lang := ResolveLang(args, config);
      var saved := UpdatedConfig(config, mode, lang);
      ResolveMode(Args(None, None), saved) == mode && ResolveLang(Args(None, None), saved) == lang
  {
  }

  /**
   * `texts.get(key, {}).get(lang, texts.get(key, {}).get("uk", key))`:
   * the text in the language, else in Ukrainian, else the key itself.
   */
  function LookupText(texts: Table, key: string, lang: Json): (r: string)
    ensures key in texts && lang.JStr? && lang.s in texts[key] ==> r == texts[key][lang.s]
    ensures key in texts && !(lang.JStr? && lang.s in texts[key]) && "uk" in texts[key] ==> r == texts[key]["uk"]
    ensures (key !in texts || (!(lang.JStr? && lang.s in texts[key]) && "uk" !in texts[key])) ==> r == key
  {
    var entry := if key in texts then texts[key] else map[];
    if lang.JStr? && lang.s in entry then entry[lang.s]
    else if "uk" in entry then entry["uk"]
    else key
  }

  /** `CLIManager`: the session settings, the configuration it keeps and the last one it saved. */
  class CliManager {
    const args: Args
    const texts: Table
    const profiles: Table
    const lang: Json
    const mode: Json
    const currentProfile: map<string, string>
    var mainConfig: map<string, Json>
    /** The configuration most recently written to `main_config.json`. */
    var savedConfig: map<string, Json>

    /** The loaded resources are parameters; the configuration is saved once at the end. */
    constructor (args: Args, texts: Table, profiles: Table, loadedConfig: map<string, Json>)
      ensures this.args == args && this.texts == texts && this.profiles == profiles
      ensures lang == ResolveLang(args, loadedConfig)
      ensures mode == ResolveMode(args, loadedConfig)
      ensures currentProfile == ResolveProfile(profiles, mode)
      ensures mainConfig == UpdatedConfig(loadedConfig, mode, lang)
      ensures savedConfig == mainConfig
    {
      this.args := args;
      this.texts := texts;
      this.profiles := profiles;
      lang := ResolveLang(args, loadedConfig);
      var chosen: Json;
      if args.mode.Some? {
        chosen := JStr(args.mode.value);
      } else {
        chosen := if "last_profile" in loadedConfig then loadedConfig["last_profile"] else JStr("default");
        if chosen == JStr("help") {
          chosen := JStr("default");
        }
      }
      mode := chosen;
      currentProfile := ResolveProfile(profiles, chosen);
      mainConfig := loadedConfig;
      savedConfig := loadedConfig;
      new;
      if mode != JStr("help") {
        mainConfig := mainConfig["last_profile" := mode];
      }
      mainConfig := mainConfig["lang" := lang];
      savedConfig := mainConfig;
    }

    /** `get_text`: the lookup in the session language. */
    function GetText(key: string): string
    {
      LookupText(texts, key, lang)
    }

    /** `is_help_requested`. */
    predicate IsHelpRequested()
    {
      mode == JStr("help")
    }

    /** `persist_state`: writes the kept configuration; nothing else changes. */
    method PersistState()
      modifies this
      ensures savedConfig == mainConfig
      ensures mainConfig == old(mainConfig)
    {
      savedConfig := mainConfig;
    }
  }

  /** Help is requested exactly when the argument asks for it; a stored `help` is never restored. */
  lemma HelpOnlyFromArguments(args: Args, config: map<string, Json>)
    ensures ResolveMode(args, config) == JStr("help") <==> args.mode == Some("help")
  {
  }
}
