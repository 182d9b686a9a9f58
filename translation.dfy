/**
  The Lingualizer translation store: the current locale, the default-locale
  and active-locale tables, the reload that refills them from the
  localization directory, the two-tier resolver, the locale-changed events,
  and the process-wide default settings with their configuration merge.

  The pure functions below (Load, ChangeLocale, Resolve, Merge) say what each
  operation does to a snapshot of the store; the classes Defaults and
  Lingualizer hold that state in mutable fields, as the source does, and
  their methods are proved to act as those functions say.
*/
module Translation {
  import opened Wrappers
  import opened Common

  /** A locale tag such as "en-US"; `None` is the `null` locale. */
  type Locale = Option<string>

  /** The arguments of one locale-changed dispatch. */
  datatype ChangeEvent = ChangeEvent(oldLocale: Locale, newLocale: Locale)

  /** The two errors the reload throws. */
  datatype LoadError =
    | DirectoryNotFound(dir: string)
    | TranslationFileNotFound(locale: Locale, path: string)

  /** The directories that exist and the parsed contents of the files that exist. */
  datatype FileSystem = FileSystem(dirs: set<string>, files: map<string, Json>)

  /** What a reload reads from outside the store: the file system, the
      localization directory and the base file name (both resolved by the
      path helpers, which are not part of this model). */
  datatype Env = Env(fs: FileSystem, dir: string, baseName: string)

  /** A snapshot of the store's instance fields. */
  datatype State = State(locale: Locale, defaultTable: Json, activeTable: Json, events: seq<ChangeEvent>)

  /** The state after an operation, and the error it threw, if any. The state
      is returned on both paths because what happened before a throw stays. */
  datatype Outcome = Outcome(state: State, error: Option<LoadError>)

  /** The process-wide defaults (the static fields of the store). */
  datatype Settings = Settings(
    defaultLocale: Locale,
    translationFileName: string,
    localizationDirName: string,
    translationFileExt: string,
    cwd: string)

  const BuiltIn := Settings(Some("en-US"), "%project%", "localization", "json", "")

  /** A configuration object; a key holding a falsy value is the same as an
      absent key to every reader of it. */
  type Config = map<string, string>

  /** The default locale is a real, non-empty tag. */
  predicate ValidSettings(d: Settings)
  {
    d.defaultLocale.Some? && d.defaultLocale.value != ""
  }

  /** The store before its first load: the default locale and two empty objects. */
  function Initial(defaultLocale: Locale): State
  {
    State(defaultLocale, Obj(map[]), Obj(map[]), [])
  }

  // ---------------------------------------------------------------------------
  // File names

  /** `${locale}` in a template literal. */
  function LocaleText(l: Locale): string
  {
    match l
    case None => "null"
    case Some(s) => s
  }

  function PathJoin(dir: string, name: string): string
  {
    dir + "/" + name
  }

  /** `<dir>/<base>.<ext>`: inside the directory, ending in the extension. */
  function DefaultFile(env: Env, ext: string): (p: string)
    ensures |p| == |env.dir| + |env.baseName| + |ext| + 2
    ensures p[..|env.dir| + 1] == env.dir + "/"
    ensures p[|env.dir| + 1..|env.dir| + 1 + |env.baseName|] == env.baseName
    ensures p[|p| - |ext| - 1..] == "." + ext
  {
    PathJoin(env.dir, env.baseName + "." + ext)
  }

  /** `<dir>/<base>.<locale>.<ext>`: inside the same directory, with the
      locale tag before the extension, and never the default file's path. */
  function LocaleFile(env: Env, l: Locale, ext: string): (p: string)
    ensures |p| == |DefaultFile(env, ext)| + |LocaleText(l)| + 1
    ensures p[..|env.dir| + 1] == env.dir + "/"
    ensures p[|env.dir| + 1..|env.dir| + 1 + |env.baseName|] == env.baseName
    ensures p[|p| - |ext| - |LocaleText(l)| - 2..] == "." + LocaleText(l) + "." + ext
    ensures p != DefaultFile(env, ext)
  {
    PathJoin(env.dir, env.baseName + "." + LocaleText(l) + "." + ext)
  }

  // ---------------------------------------------------------------------------
  // Reload

  function Repeat(e: ChangeEvent, n: nat): (r: seq<ChangeEvent>)
    ensures |r| == n && forall i :: 0 <= i < n ==> r[i] == e
  {
    if n == 0 then [] else [e] + Repeat(e, n - 1)
  }

  /** The reload replaces the default table: the directory and the default file exist. */
  predicate DefaultReplaced(env: Env, ext: string)
  {
    env.dir in env.fs.dirs && DefaultFile(env, ext) in env.fs.files
  }

  /** The reload replaces the active table: a non-default locale whose file exists. */
  predicate ActiveReplaced(l: Locale, defaultLocale: Locale, ext: string, env: Env)
  {
    env.dir in env.fs.dirs && l != defaultLocale && LocaleFile(env, l, ext) in env.fs.files
  }

  /** `initTranslations(oldLocale)`: refills the tables for the state's locale. */
  function Load(s: State, defaultLocale: Locale, ext: string, env: Env, oldLocale: Locale): (r: Outcome)
    // the reload never changes the locale
    ensures r.state.locale == s.locale
    // a missing directory throws before anything changes
    ensures env.dir !in env.fs.dirs ==> r == Outcome(s, Some(DirectoryNotFound(env.dir)))
    // the default table is replaced whenever its file exists, even on a path that throws later
    ensures r.state.defaultTable ==
      if DefaultReplaced(env, ext) then env.fs.files[DefaultFile(env, ext)] else s.defaultTable
    // the active table is only ever replaced, never cleared
    ensures r.state.activeTable ==
      if ActiveReplaced(s.locale, defaultLocale, ext, env)
      then env.fs.files[LocaleFile(env, s.locale, ext)] else s.activeTable
    // one (old, current) event per table loaded, appended to the log
    ensures r.state.events == s.events + Repeat(ChangeEvent(oldLocale, s.locale),
      (if DefaultReplaced(env, ext) then 1 else 0) +
      (if ActiveReplaced(s.locale, defaultLocale, ext, env) then 1 else 0))
    // it succeeds exactly when the directory and the file the locale needs exist
    ensures r.error.None? <==>
      && env.dir in env.fs.dirs
      && (s.locale == defaultLocale ==> DefaultFile(env, ext) in env.fs.files)
      && (s.locale != defaultLocale ==> LocaleFile(env, s.locale, ext) in env.fs.files)
    // a missing file is reported with the locale and the default file's path
    ensures r.error.Some? && env.dir in env.fs.dirs ==>
      r.error.value == TranslationFileNotFound(s.locale, DefaultFile(env, ext))
  {
    if env.dir !in env.fs.dirs then Outcome(s, Some(DirectoryNotFound(env.dir)))
    else
      var defaultFile := DefaultFile(env, ext);
      var localeFile := LocaleFile(env, s.locale, ext);
      var e := ChangeEvent(oldLocale, s.locale);
      var s1 :=
        if defaultFile in env.fs.files
        then s.(defaultTable := env.fs.files[defaultFile], events := s.events + [e])
        else s;
      if defaultFile !in env.fs.files && s.locale == defaultLocale then
        Outcome(s1, Some(TranslationFileNotFound(s.locale, defaultFile)))
      else if s.locale != defaultLocale then
        if localeFile in env.fs.files
        then Outcome(s1.(activeTable := env.fs.files[localeFile], events := s1.events + [e]), None)
        else Outcome(s1, Some(TranslationFileNotFound(s.locale, defaultFile)))
      else Outcome(s1, None)
  }

  /** The `locale` setter. */
  function ChangeLocale(s: State, defaultLocale: Locale, ext: string, env: Env, l: Locale): (r: Outcome)
    // setting the current value changes nothing: no reload, no event
    ensures l == s.locale ==> r == Outcome(s, None)
    // the new locale is kept even when the reload throws
    ensures r.state.locale == l
    // a change reloads for the new locale, with the previous locale as old locale
    ensures l != s.locale ==> r == Load(s.(locale := l), defaultLocale, ext, env, s.locale)
    // the log only grows, and every event it gains carries (previous, new)
    ensures |s.events| <= |r.state.events| <= |s.events| + 2
    ensures r.state.events[..|s.events|] == s.events
    ensures forall i :: |s.events| <= i < |r.state.events| ==>
      r.state.events[i] == ChangeEvent(s.locale, l) && s.locale != l
    // a missing locale file throws after the default table and its event are in place
    ensures (l != s.locale && l != defaultLocale && DefaultReplaced(env, ext)
             && LocaleFile(env, l, ext) !in env.fs.files) ==>
      && r.error == Some(TranslationFileNotFound(l, DefaultFile(env, ext)))
      && r.state == s.(locale := l, defaultTable := env.fs.files[DefaultFile(env, ext)],
                       events := s.events + [ChangeEvent(s.locale, l)])
  {
    if l == s.locale then Outcome(s, None)
    else Load(s.(locale := l), defaultLocale, ext, env, s.locale)
  }

  // ---------------------------------------------------------------------------
  // Resolver

  /** Both tables are JSON null. */
  predicate NoTables(s: State)
  {
    s.defaultTable == Null && s.activeTable == Null
  }

  /** The active table takes part in a lookup. */
  predicate ActiveConsulted(s: State, defaultLocale: Locale)
  {
    s.locale != defaultLocale && s.activeTable != Null
  }

  /** `get(key)`; `Null` is the JavaScript `null` it returns when the key is found nowhere. */
  function Resolve(s: State, defaultLocale: Locale, key: string): (r: Json)
    // no tables at all: the empty string
    ensures NoTables(s) ==> r == Str("")
    // override: a non-default locale's own value wins, even if the default table has the key
    ensures !NoTables(s) && ActiveConsulted(s, defaultLocale) && GetValue(s.activeTable, key).Some? ==>
      r == GetValue(s.activeTable, key).value
    // fallback: otherwise the default table's value, or null when it lacks the key
    ensures !NoTables(s) && !(ActiveConsulted(s, defaultLocale) && GetValue(s.activeTable, key).Some?) ==>
      r == if s.defaultTable != Null && GetValue(s.defaultTable, key).Some?
           then GetValue(s.defaultTable, key).value else Null
    // the empty string comes back only for no tables or a key whose value is ""
    ensures r == Str("") ==>
      || NoTables(s)
      || (ActiveConsulted(s, defaultLocale) && GetValue(s.activeTable, key) == Some(Str("")))
      || (s.defaultTable != Null && GetValue(s.defaultTable, key) == Some(Str("")))
  {
    if NoTables(s) then Str("")
    else if ActiveConsulted(s, defaultLocale) && GetValue(s.activeTable, key).Some? then
      GetValue(s.activeTable, key).value
    else if s.defaultTable != Null && GetValue(s.defaultTable, key).Some? then
      GetValue(s.defaultTable, key).value
    else Null
  }

  /** At the default locale the active table's contents never matter. */
  lemma ResolveIgnoresActiveAtDefault(s: State, defaultLocale: Locale, key: string, other: Json)
    requires s.locale == defaultLocale
    requires (s.activeTable == Null) == (other == Null)
    ensures Resolve(s, defaultLocale, key) == Resolve(s.(activeTable := other), defaultLocale, key)
  {
  }

  // ---------------------------------------------------------------------------
  // Runs of locale changes

  /** The state after setting each locale of `ls` in turn, each thrown error
      caught by the caller. */
  function SetAll(s: State, defaultLocale: Locale, ext: string, env: Env, ls: seq<Locale>): State
    decreases |ls|
  {
    if ls == [] then s
    else SetAll(ChangeLocale(s, defaultLocale, ext, env, ls[0]).state, defaultLocale, ext, env, ls[1..])
  }

  /** Over any run of locale changes the event log only grows, by at most two
      events per change; every event added records a real transition into one
      of the requested locales; and the store ends on the last locale asked
      for, whether or not its loads succeeded. */
  lemma {:induction false} SetAllLog(s: State, defaultLocale: Locale, ext: string, env: Env, ls: seq<Locale>)
    ensures var r := SetAll(s, defaultLocale, ext, env, ls);
      && |s.events| <= |r.events| <= |s.events| + 2 * |ls|
      && r.events[..|s.events|] == s.events
      && (forall i :: |s.events| <= i < |r.events| ==>
            r.events[i].oldLocale != r.events[i].newLocale && r.events[i].newLocale in ls)
      && (ls != [] ==> r.locale == ls[|ls| - 1])
    decreases |ls|
  {
    if ls != [] {
      var t := ChangeLocale(s, defaultLocale, ext, env, ls[0]).state;
      SetAllLog(t, defaultLocale, ext, env, ls[1..]);
      var r := SetAll(s, defaultLocale, ext, env, ls);
      assert r == SetAll(t, defaultLocale, ext, env, ls[1..]);
      assert r.events[..|t.events|] == t.events;
      assert r.events[..|s.events|] == t.events[..|s.events|];
      forall i | |s.events| <= i < |r.events|
        ensures r.events[i].oldLocale != r.events[i].newLocale && r.events[i].newLocale in ls
      {
        if i < |t.events| {
          assert r.events[i] == t.events[i];
        } else {
          assert r.events[i].newLocale in ls[1..];
        }
      }
      if ls[1..] == [] {
        assert r == t;
      } else {
        assert ls[1..][|ls[1..]| - 1] == ls[|ls| - 1];
      }
    }
  }

  /** Asking again and again for the locale already set is no change at all. */
  lemma {:induction false} SetAllSame(s: State, defaultLocale: Locale, ext: string, env: Env, ls: seq<Locale>)
    requires forall i :: 0 <= i < |ls| ==> ls[i] == s.locale
    ensures SetAll(s, defaultLocale, ext, env, ls) == s
    decreases |ls|
  {
    if ls != [] {
      SetAllSame(s, defaultLocale, ext, env, ls[1..]);
    }
  }

  // ---------------------------------------------------------------------------
  // Default settings

  predicate Truthy(c: Config, key: string)
  {
    key in c && c[key] != ""
  }

  /** `updateDefaults` on a present configuration: each recognised key with a
      truthy value replaces its setting; nothing else changes. */
  function Merge(d: Settings, c: Config): (r: Settings)
    ensures r.defaultLocale ==
      if Truthy(c, "defaultLocale") then Some(c["defaultLocale"]) else d.defaultLocale
    ensures r.localizationDirName ==
      if Truthy(c, "defaulLocalizationDirName") then c["defaulLocalizationDirName"] else d.localizationDirName
    ensures r.translationFileName ==
      if Truthy(c, "defaultranslationFileName") then c["defaultranslationFileName"] else d.translationFileName
    ensures r.translationFileExt ==
      if Truthy(c, "defaultranslationFileExt") then c["defaultranslationFileExt"] else d.translationFileExt
    ensures r.cwd == if Truthy(c, "cwd") then c["cwd"] else d.cwd
    // the default locale stays a real tag
    ensures ValidSettings(d) ==> ValidSettings(r)
    // a configuration with no truthy recognised key changes nothing
    ensures (forall k :: k in c && k in RecognisedKeys ==> c[k] == "") ==> r == d
  {
    var r0 := if Truthy(c, "defaultLocale") then d.(defaultLocale := Some(c["defaultLocale"])) else d;
    var r1 := if Truthy(c, "defaulLocalizationDirName")
              then r0.(localizationDirName := c["defaulLocalizationDirName"]) else r0;
    var r2 := if Truthy(c, "defaultranslationFileName")
              then r1.(translationFileName := c["defaultranslationFileName"]) else r1;
    var r3 := if Truthy(c, "defaultranslationFileExt")
              then r2.(translationFileExt := c["defaultranslationFileExt"]) else r2;
    if Truthy(c, "cwd") then r3.(cwd := c["cwd"]) else r3
  }

  /** The configuration keys the merge reads, spelt as the code spells them. */
  const RecognisedKeys: set<string> :=
    {"defaultLocale", "defaulLocalizationDirName", "defaultranslationFileName", "defaultranslationFileExt", "cwd"}

  /** Keys outside the recognised five never influence the merge. */
  lemma MergeIgnoresOtherKeys(d: Settings, c: Config, k: string, v: string)
    requires k !in RecognisedKeys
    ensures Merge(d, c[k := v]) == Merge(d, c)
  {
  }

  /** Merging the same configuration twice is merging it once. */
  lemma MergeIdempotent(d: Settings, c: Config)
    ensures Merge(Merge(d, c), c) == Merge(d, c)
  {
  }

  // ---------------------------------------------------------------------------
  // The mutable state

  /** The static settings, updated in place by `updateDefaults`. */
  class Defaults {
    var defaultLocale: Locale
    var translationFileName: string
    var localizationDirName: string
    var translationFileExt: string
    var cwd: string

    function Value(): Settings
      reads this
    {
      Settings(defaultLocale, translationFileName, localizationDirName, translationFileExt, cwd)
    }

    /** The built-in values the fields are declared with. */
    constructor ()
      ensures Value() == BuiltIn && ValidSettings(Value())
    {
      defaultLocale := Some("en-US");
      translationFileName := "%project%";
      localizationDirName := "localization";
      translationFileExt := "json";
      cwd := "";
    }

    /** `updateDefaults(configu)`: `configu || configrc` picks the
        configuration (an object is always truthy); a null one changes
        nothing and is not returned. */
    method UpdateDefaults(configu: Option<Config>, configrc: Option<Config>) returns (applied: Option<Config>)
      modifies this
      ensures applied == if configu.Some? then configu else configrc
      ensures Value() == if applied.None? then old(Value()) else Merge(old(Value()), applied.value)
      ensures old(ValidSettings(Value())) ==> ValidSettings(Value())
    {
      var config := if configu.Some? then configu else configrc;
      if config.None? {
        return None;
      }
      var c := config.value;
      if Truthy(c, "defaultLocale") {
        defaultLocale := Some(c["defaultLocale"]);
      }
      if Truthy(c, "defaulLocalizationDirName") {
        localizationDirName := c["defaulLocalizationDirName"];
      }
      if Truthy(c, "defaultranslationFileName") {
        translationFileName := c["defaultranslationFileName"];
      }
      if Truthy(c, "defaultranslationFileExt") {
        translationFileExt := c["defaultranslationFileExt"];
      }
      if Truthy(c, "cwd") {
        cwd := c["cwd"];
      }
      return config;
    }
  }

  /** The store instance. */
  class Lingualizer {
    const defaults: Defaults
    var locale: Locale
    var defaultTable: Json
    var activeTable: Json
    /** The locale-changed dispatches so far, in order. */
    var events: seq<ChangeEvent>

    function Snapshot(): State
      reads this
    {
      State(locale, defaultTable, activeTable, events)
    }

    /** The field initialisers and `_locale = DefaultLocale`, before the first
        load. The store it gives has not loaded anything yet: only `Open`, which
        runs the first reload as the private constructor does, gives a store
        ready for use. */
    constructor (defaults: Defaults)
      ensures this.defaults == defaults
      ensures Snapshot() == Initial(defaults.defaultLocale)
    {
      this.defaults := defaults;
      locale := defaults.defaultLocale;
      defaultTable := Obj(map[]);
      activeTable := Obj(map[]);
      events := [];
    }

    /** Construction: the fields are set and the tables loaded, with the old
        locale equal to the current one. A load that throws aborts the
        construction, so no store comes out. */
    static method Open(defaults: Defaults, env: Env) returns (store: Lingualizer?, err: Option<LoadError>)
      ensures var o := Load(Initial(defaults.defaultLocale), defaults.defaultLocale,
                            defaults.translationFileExt, env, defaults.defaultLocale);
        && err == o.error
        && (store != null <==> err.None?)
        && (store != null ==> fresh(store) && store.defaults == defaults && store.Snapshot() == o.state)
    {
      var s := new Lingualizer(defaults);
      err := s.InitTranslations(env, s.locale);
      store := if err.None? then s else null;
    }

    /** `initTranslations(oldLocale)` */
    method InitTranslations(env: Env, oldLocale: Locale) returns (err: Option<LoadError>)
      modifies this
      ensures Outcome(Snapshot(), err) ==
        Load(old(Snapshot()), defaults.defaultLocale, defaults.translationFileExt, env, oldLocale)
    {
      if env.dir !in env.fs.dirs {
        return Some(DirectoryNotFound(env.dir));
      }
      var defaultFile := DefaultFile(env, defaults.translationFileExt);
      var localeFile := LocaleFile(env, locale, defaults.translationFileExt);
      if defaultFile in env.fs.files {
        defaultTable := env.fs.files[defaultFile];
        events := events + [ChangeEvent(oldLocale, locale)];
      } else if locale == defaults.defaultLocale {
        return Some(TranslationFileNotFound(locale, defaultFile));
      }
      if locale != defaults.defaultLocale {
        if localeFile in env.fs.files {
          activeTable := env.fs.files[localeFile];
          events := events + [ChangeEvent(oldLocale, locale)];
        } else {
          return Some(TranslationFileNotFound(locale, defaultFile));
        }
      }
      return None;
    }

    /** `locale = l` */
    method SetLocale(l: Locale, env: Env) returns (err: Option<LoadError>)
      modifies this
      ensures Outcome(Snapshot(), err) ==
        ChangeLocale(old(Snapshot()), defaults.defaultLocale, defaults.translationFileExt, env, l)
    {
      var oldLocale := locale;
      if oldLocale == l {
        return None;
      }
      locale := l;
      err := InitTranslations(env, oldLocale);
    }

    /** `get(key)` on the live fields. */
    function Get(key: string): (r: Json)
      reads this, defaults
      // no tables: the empty string
      ensures defaultTable == Null && activeTable == Null ==> r == Str("")
      // a non-default locale's own value wins
      ensures locale != defaults.defaultLocale && activeTable != Null && GetValue(activeTable, key).Some? ==>
        r == GetValue(activeTable, key).value
      // at the default locale only the default table answers, null when it lacks the key
      ensures locale == defaults.defaultLocale && defaultTable != Null ==>
        r == if GetValue(defaultTable, key).Some? then GetValue(defaultTable, key).value else Null
      // fallback: when the active table does not answer, the default table's value, or null
      ensures (!(defaultTable == Null && activeTable == Null)
               && !(locale != defaults.defaultLocale && activeTable != Null && GetValue(activeTable, key).Some?)) ==>
        r == if defaultTable != Null && GetValue(defaultTable, key).Some?
             then GetValue(defaultTable, key).value else Null
    {
      Resolve(Snapshot(), defaults.defaultLocale, key)
    }
  }
}
