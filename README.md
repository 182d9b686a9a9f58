# Lingualizer translation store, in Dafny

This project models the core of Lingualizer, a locale-aware string lookup
provider. The core is the `Lingualizer` class of `lib/index.ts`. Its parts are:

- the current **locale**, with a setter that reloads when the value changes;
- the **reload** (`initTranslations`). It fills the default-locale table and,
  for a non-default locale, the active-locale table from JSON files in the
  localization directory. It dispatches a locale-changed event for each table
  it loads.
- the **resolver** (`get`). It looks a dotted key up in the active table first
  and then in the default table.
- the static **default settings** and their configuration merge (`updateDefaults`).

Files:

- `wrappers.dfy` (module `Wrappers`) holds `Option`.
- `common.dfy` (module `Common`) holds parsed JSON values and the dotted-key
  traversal `getValue`. The traversal is assumed to split the key on `.`,
  walk object fields one segment at a time, and give `None` (JavaScript
  `undefined`) at the first missing segment.
- `translation.dfy` (module `Translation`) holds the store. Each operation has
  a pure function on a snapshot of the store: `Load`, `ChangeLocale`, `Resolve`
  and `Merge`. Those functions carry the properties. Two classes hold the state
  in mutable fields, as the source does:
  - `Defaults` holds the static fields.
  - `Lingualizer` holds the instance fields.

  Their methods are proved to act exactly as the functions say, and
  `Lingualizer.Get` answers `get` on the live fields through `Resolve`. The
  dispatcher is modelled as the field `events`, the log of `(oldLocale,
  newLocale)` pairs dispatched so far.
- `scenarios.dfy` (module `Scenarios`) holds concrete runs over a small
  directory. They show a switch to `es-MX` and back, fallback, a missing key,
  and a missing locale file.

Behaviour kept as the code has it:

- A thrown error does not undo earlier changes. The setter assigns the
  locale before it reloads. On a non-default locale, the default table is
  replaced and its event dispatched before the missing locale file throws.
  So every operation returns its post-state together with the error
  (`Outcome`).
- The active table is never cleared. After a switch back to the default
  locale, `get` simply stops consulting it.
- The error for a missing locale file carries the **default** file's path, not
  the locale file's (`lib/index.ts:228`). The contract of `LocaleFile`
  shows that these two paths always differ.
- A failed switch keeps the previous locale's table. Take a store on es-MX
  and switch it to zz-ZZ, which has no file. The switch throws, but the store
  is left on zz-ZZ with the es-MX table still active. From then on `get`
  answers zz-ZZ lookups from the es-MX table, although the doc comments of
  `get` (`lib/index.ts:151`) and of the setter (`lib/index.ts:121-122`) speak
  of translations from the newly set locale. `Scenarios.StaleActiveTable`
  shows this run.
- The configuration keys are spelt as the code spells them:
  `defaultLocale`, `defaulLocalizationDirName`, `defaultranslationFileName`,
  `defaultranslationFileExt` and `cwd`.

`get` returns the empty string when both tables are JSON `null`. A key whose
value is `""` also makes it return the empty string, so `Resolve` states
"empty string exactly when" with that exception spelt out.

## Model

| member | source | states |
|---|---|---|
| Common.Split | dist/common.d.ts:55 | splitting a dotted key gives at least one segment, and no segment contains a dot |
| Common.Lookup | dist/common.d.ts:55 | an empty path gives the value itself; a defined result on a non-empty path needs an object holding the first segment |
| Common.JoinSplit | dist/common.d.ts:55 | joining the segments of a key with dots gives back the key |
| Common.SplitNoDot | dist/common.d.ts:55 | a key without dots is a single segment |
| Common.SplitDot | dist/common.d.ts:55 | splitting `a.b` gives the segments of `a` followed by those of `b` |
| Common.SplitJoin | dist/common.d.ts:55 | any non-empty list of dot-free segments is what splitting its join gives |
| Common.LookupAppend | dist/common.d.ts:55 | walking a concatenated path is walking the first part and then the rest from what was found; undefined as soon as one part is |
| Common.GetValue | dist/common.d.ts:55 | only an object holds a value for any key (a string, null or other value gives undefined), and a found value needs the key's first segment to be a field of the object |
| Common.GetValueDotted | dist/common.d.ts:55 | `getValue(t, "a.b")` equals `getValue(getValue(t, "a"), "b")`, and is undefined when `getValue(t, "a")` is |
| Common.GetValueField | dist/common.d.ts:55 | for a key without dots, `getValue` is the object's own field, undefined on a missing field or a non-object |
| Translation.DefaultFile | lib/index.ts:200 | the default file lies in the localization directory, its name starts with the base file name, and it ends in `.` and the extension |
| Translation.LocaleFile | lib/index.ts:201 | the locale file lies in the same directory, its name starts with the base file name, and it ends in `.`, the locale tag, `.` and the extension; it is longer than the default file by the tag plus one, so it is never the default file's path and the path reported for a missing locale file is never the file that was missing |
| Translation.Load | lib/index.ts:194-231 | a missing directory throws with nothing changed; the default table is replaced whenever its file exists, even when the reload later throws; the active table is replaced only for a non-default locale whose file exists, and is never cleared; one `(oldLocale, locale)` event is appended per table loaded; the reload succeeds exactly when the directory exists and the default file (at the default locale) or the locale file (otherwise) exists; a missing file is reported with the locale and the default file's path; the locale never changes |
| Translation.ChangeLocale | lib/index.ts:126-136 | setting the current locale changes nothing and dispatches nothing; otherwise it assigns the new locale and reloads with the previous locale as old locale, so tables, events and error are exactly those of `Load`; the new locale is kept even if the reload throws; the log only grows, by at most two events, each `(previous, new)` with previous different from new; a missing locale file throws after the default table and one event are already in place |
| Translation.Resolve | lib/index.ts:159-184 | no tables gives the empty string; at a non-default locale with an active table holding the key, the active value wins even when the default table has the key; otherwise the default table's value, or null when it lacks the key; the empty string comes back only for no tables or a key whose value is the empty string |
| Translation.ResolveIgnoresActiveAtDefault | lib/index.ts:165-171 | at the default locale the contents of the retained active table never affect `get` |
| Translation.SetAllLog | lib/index.ts:126-136 | over any run of locale changes with errors caught, the event log only grows, by at most two events per change, each added event is a real transition into a requested locale, and the store ends on the last locale requested even if its loads failed |
| Translation.SetAllSame | lib/index.ts:128-130 | any run that only requests the current locale leaves the whole state, event log included, unchanged |
| Translation.Merge | lib/index.ts:249-264 | each of the five recognised keys replaces its setting only when its value is truthy; every other setting is kept; a configuration with no truthy recognised key changes nothing; the default locale stays a non-empty tag |
| Translation.MergeIgnoresOtherKeys | lib/index.ts:249-262 | a key outside the recognised five never changes the merge |
| Translation.MergeIdempotent | lib/index.ts:249-262 | merging the same configuration twice is the same as merging it once |
| Translation.Defaults.constructor | lib/index.ts:78-82 | the static settings start as en-US, `%project%`, `localization`, `json` and the empty cwd |
| Translation.Defaults.UpdateDefaults | lib/index.ts:243-265 | the explicit configuration is used when present, else the rc configuration; a null configuration changes nothing and is not returned; otherwise the settings become the merge of the old settings with it and the configuration is returned; the default locale stays valid |
| Translation.Lingualizer.constructor | lib/index.ts:84-95 | a new store starts at the default locale with two empty-object tables and no events |
| Translation.Lingualizer.Open | lib/index.ts:92-97 | construction runs the reload with old locale = current locale; a store comes out exactly when that reload does not throw, and its state is the reload's result |
| Translation.Lingualizer.Get | lib/index.ts:159-184 | on the live fields: no tables gives the empty string; at a non-default locale with an active table holding the key, the active value wins; at the default locale the default table alone answers, null when it lacks the key; at a non-default locale whose active table is null or lacks the key, it falls back to the default table's value, or null when that lacks it too |
| Translation.Lingualizer.InitTranslations | lib/index.ts:194-231 | the store's fields and the error returned are exactly those `Load` gives for the old fields |
| Translation.Lingualizer.SetLocale | lib/index.ts:126-136 | the store's fields and the error returned are exactly those `ChangeLocale` gives for the old fields |
| Scenarios.StartUp | lib/index.ts:92-97 | building the store over a directory with a default file loads it and dispatches one `(en-US, en-US)` event |
| Scenarios.SwitchToSpanish | lib/index.ts:126-136 | switching to es-MX loads both tables and dispatches two `(en-US, es-MX)` events |
| Scenarios.SwitchBack | lib/index.ts:206-218 | switching back to en-US reloads only the default table, keeps the es-MX table, and dispatches one `(es-MX, en-US)` event |
| Scenarios.SpanishAnswers | lib/index.ts:159-184 | at es-MX, `a.b` is the es-MX value, `x` falls back to the default table, and `a.c` is null |
| Scenarios.BackAnswers | lib/index.ts:164-183 | back at en-US, `a.b` is the default table's value although the retained es-MX table has the key |
| Scenarios.StaleActiveTable | lib/index.ts:126-136 | switching from es-MX to zz-ZZ, which has no file, throws naming the default file, leaves the store on zz-ZZ with the es-MX table still active, and `a.b` then resolves to the es-MX value |
| Scenarios.MissingLocaleFile | lib/index.ts:218-229 | switching to zz-ZZ with no file throws, naming the default file, yet leaves the store on zz-ZZ with the default table reloaded and one event dispatched |

## Left out

- File I/O is not modelled. `existsSync`, `readFileSync` and `JSON.parse` become the `FileSystem` input: a set of existing directories and a map from file path to parsed contents. A path that names a directory where a file is expected is not modelled, and neither is malformed JSON, which is a parser failure.
- Paths are built by plain concatenation, `dir + "/" + name`, without the normalisation `path.join` does.
- Translation.LocaleFile: that the locale file never equals the default file depends on the missing normalisation and on locales being any string; with the real `path.join`, a locale such as `/../../loc/app` would make both paths `loc/app.json`.
- The localization directory and the base file name come from `getLocalizationDirectory` and `getLocalizationFileName`. They are inputs (`Env`) because those helpers are not part of this model, so the `%project%` substitution and the way the directory name and cwd settings feed them are not modelled.
- The rc-file lookup at module load (`lib/index.ts:10-11`) touches the file system. It is the `configrc` parameter of `UpdateDefaults`.
- Configuration values are modelled as strings. A falsy value (null, false, 0, "") behaves as an absent key, as in the code. A truthy value that is not a string (a number, an object) cannot be represented. A non-object truthy `configu` cannot be represented either.
- `Common.Lookup`: the traversal is assumed to split the key on `.` and stop at the first missing segment. JavaScript property lookups that reach inherited members (`length` of a string, `constructor`, `__proto__`) are not modelled. Arrays are leaves, not indexed by segment.
- `Json.Other` stands for numbers, booleans and arrays without their contents. The store only stores and returns them.
- The event dispatcher (`ste-events`) is a foreign library. Only the ordered list of dispatched `(oldLocale, newLocale)` pairs is modelled. Subscription, handler calls and handler failures are not.
- The `default` singleton getter (`lib/index.ts:99-106`) is not modelled. Callers hold the store that `Open` returns, and a construction that throws gives no store. The source's constructor is private and always loads; the Dafny constructor is public and gives a store that has not loaded yet, so only `Open` gives a store ready for use.
- The `onLocaleChanged` and `locale` getters are not modelled as members, because they are plain field reads (`events`, `locale`).
- `printDefaults` is console output and is not modelled.
- The unused `Lookup` locale table is not modelled. `Locale` is any string or null, not the closed union of tags.
- Locale equality is by value. The loose `==` and strict `!==` of the code agree on strings and null, which are the only locale values modelled.
