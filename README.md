# Model settings and options: a Dafny model

This project models the core of a small Laravel package that stores a nested
settings mapping as a JSON column on an Eloquent record and reads and writes it
by dot paths (`set("ui.theme", "light")`, `get("ui.theme")`). The package has two
variants:

- `Options` caches the decoded mapping under `{table}.{key}.options`. Every
  write goes through `apply`, which assigns the attribute, saves the record and
  evicts the cache entry.
- `Settings` is the same accessor without a cache and without `reset`.

Two traits go with them. `HasOptions` and `HasSettings` add a creating hook
meant to fill in the defaults (the options hook never does; see Findings), and a
saving hook that keeps only the allow-listed top-level keys. They also provide default lookup, attribute decode and encode,
and one memoised accessor instance.

Modules, leaves first:

- `Wrappers`: `Option`, for PHP `null`.
- `Arr`: the dot-path helpers. A `Value` is `null`, a boolean, an integer, a
  string or a map from string keys. `Explode` and `Implode` split and join a
  key on dots. `Get`, `Has`, `Set`, `Forget` and `Only` walk the segments.
  `PathGiven` is PHP truthiness of a path argument, where `null`, `""` and
  `"0"` all mean "no path".
- `Json`: the JSON column, abstracted into three cases: absent, malformed, or
  the serialisation of a value.
- `HasOptions`, `HasSettings`: the value-level parts of the two traits.
- `Eloquent`: the record. It holds the declared properties (`Config`), the two
  attributes, whether the record is stored, the last stored snapshot and a save
  counter. Each hook is a method. `Save` fires the `saving` hooks, then the
  `creating` hooks when the record is being inserted, then stores a snapshot.
- `Cache`: the cache facade as a map with `rememberForever` and `forget`.
- `OptionsAccessor`, `SettingsAccessor`: the two accessor classes, their
  instance slots and `options()` / `settings()`. Each module ends with client
  methods. These show, from the contracts alone, what a caller sees: read after
  write, delete then absent, delete-all, reset, served from the cache, siblings
  unchanged.

Every mutator's contract gives the whole new state through a two-state
predicate `Applied(m)`. It says the attribute was set to `m`, the record was
saved once with its hooks, and, for `Options`, this record's cache entry is gone.

Where the code and its documented design differ, the model follows the code:

- The options creating hook never assigns the defaults, so a new record's
  options are whatever was set, cut to the allow-list (see Findings).
- `reset(p)` looks `p` up as a literal top-level key of the defaults. It does
  not walk the path.
- An unreadable settings column decodes to `null`, not to an empty mapping.
- The `HasSettings` accessor instance is shared across records: `settings()`
  hands every record the accessor made for the first one that asked (see
  Findings).
- A path of `"0"` counts as no path: `get("0")` returns everything and
  `delete("0")` clears everything.
- A record being inserted runs `saving` before `creating`. The settings
  defaults it receives are therefore not cut to the allow-list.

## Model

| member | source | states |
|---|---|---|
| Arr.Explode | src/Options.php:113 | a dot key splits into at least one dot-free segment, and joining the segments gives the key back |
| Arr.ExplodeImplode | src/Options.php:144 | joining dot-free segments and splitting again gives the same segments |
| Arr.PathGiven | src/Options.php:79 | PHP truthiness of a path argument, as tested here and at src/Options.php:113 and 175 and src/Settings.php:56 and 89: null, `""` and `"0"` mean no path |
| Arr.Walk | src/Options.php:113 | follows the segments through nested maps; a missing key or a value that is not a map stops the walk with no result |
| Arr.Get | src/Options.php:113 | `Arr::get`: the value the key's segments reach, or the default when they do not resolve |
| Arr.Has | src/Options.php:125 | `Arr::has`: true exactly when the key's segments resolve |
| Arr.Set | src/Options.php:144 | `Arr::set` with a dot key: `SetPath` along the key's segments |
| Arr.Forget | src/Options.php:84 | `Arr::forget` with a dot key: `ForgetPath` along the key's segments |
| Arr.SetPath | src/Options.php:143-144 | setting a path adds its first key, and every other top-level key keeps its value |
| Arr.ForgetPath | src/Options.php:83-84 | forgetting a one-segment path removes exactly that key; a longer path keeps the top-level keys; other top-level keys keep their values |
| Arr.Only | src/HasOptions.php:27 | keeps exactly the top-level keys that are both present and listed, with their values |
| Arr.WalkSetPath | src/Options.php:143-144 | after setting a path to `x`, the path resolves to `x` |
| Arr.WalkSetPathOther | src/Options.php:143-144 | setting one path leaves every diverging path resolving as before |
| Arr.WalkForgetPath | src/Options.php:83-84 | after forgetting a path it no longer resolves |
| Arr.ForgetPathMissing | src/Options.php:83-84 | forgetting a path that does not resolve changes nothing |
| Arr.WalkForgetPathOther | src/Options.php:83-84 | forgetting one path leaves every diverging path resolving as before |
| Arr.WalkOnly | src/HasOptions.php:27 | restricting to top-level keys keeps paths under kept keys and drops all others |
| Arr.GetAfterSet | src/Options.php:113 | read after write: `get(set(m, k, x), k, d) == x` and `has` is true, for every default |
| Arr.GetMissing | src/Options.php:113 | an unresolved key reads as the default; a resolved key reads the same under any default |
| Arr.HasAfterForget | src/Options.php:125 | after `forget(k)`, `has(k)` is false |
| Arr.ForgetMissing | src/Options.php:84 | forgetting an absent key leaves the mapping equal |
| Arr.ForgetAfterSet | src/Options.php:84 | set then forget of one key leaves it absent |
| Arr.OtherKeysUnchanged | src/Settings.php:60-64 | set and forget at one key do not change `get`/`has` at a diverging key |
| Arr.SetNestedOnEmpty | src/Settings.php:119-121 | `set("ui.theme", "light")` on `{}` gives `{ui: {theme: "light"}}`, which reads back `"light"` |
| Json.Encode | src/HasOptions.php:65 | `json_encode`: the column holds the serialisation of the value |
| Json.Decode | src/HasOptions.php:53 | `json_decode($text, true)`: the serialised value, or null for an absent or malformed column |
| Json.DecodeEncode | src/HasOptions.php:53-65 | decoding an encoded value gives it back |
| HasOptions.Collect | src/HasOptions.php:53 | `collect`: null gives the empty mapping, an array gives itself, any other value a one-item list under key `"0"` |
| HasOptions.DefaultOptions | src/HasOptions.php:37-42 | the declared `defaultOptions` when it is set and an array, otherwise the empty mapping |
| HasOptions.OptionsAttribute | src/HasOptions.php:51-54 | `$model->options`: the decoded column passed through `collect` |
| HasOptions.OptionsColumn | src/HasOptions.php:63-66 | what `setOptionsAttribute` stores: the encoding of the mapping, an array and a Collection alike |
| HasOptions.Saving | src/HasOptions.php:25-29 | the saving hook's effect on the column: cut to a declared allow-list, since a Collection is always truthy |
| HasOptions.CreatingAsWritten | src/HasOptions.php:19-23 | the creating hook's effect on the column as written: none, since the negated Collection is always false |
| HasOptions.Creating | src/HasOptions.php:19-23 | the creating hook's effect as intended: an empty mapping is replaced by the defaults |
| HasOptions.OptionsRoundTrip | src/HasOptions.php:51-66 | reading the attribute after setting it to `m` gives `m` |
| HasOptions.UnreadableOptionsAreEmpty | src/HasOptions.php:51-54 | an absent or malformed column reads as the empty mapping |
| HasOptions.DefaultOptionsDeclared | src/HasOptions.php:37-42 | defaults are the declared array when it is set and an array, otherwise empty |
| HasOptions.SavingKeepsAllowed | src/HasOptions.php:25-29 | with an allow-list, the saved options hold exactly the allowed keys present, with their values; without one, the column is unchanged |
| HasOptions.CreatingAsWrittenNeverFills | src/HasOptions.php:19-23 | as written, the creating hook leaves every column unchanged |
| HasOptions.CreatingAsWrittenDropsDefaults | src/HasOptions.php:19-23 | as written, a record with no options and non-empty defaults keeps empty options |
| HasOptions.CreatingFillsEmpty | src/HasOptions.php:19-23 | as intended, empty options read as the defaults after the hook, and non-empty ones are untouched |
| HasSettings.DefaultSettings | src/HasSettings.php:36-41 | the declared `defaultSettings` when it is set and an array, otherwise the empty array |
| HasSettings.SettingsAttribute | src/HasSettings.php:50-53 | `$model->settings`: the decoded column when it is an array, otherwise null |
| HasSettings.SettingsColumn | src/HasSettings.php:62-65 | what `setSettingsAttribute` stores: the encoding of the array |
| HasSettings.Truthy | src/HasSettings.php:19 | PHP truthiness of the `?array`, as tested here and at line 25: false for null and the empty array |
| HasSettings.Creating | src/HasSettings.php:18-22 | the creating hook's effect on the column: falsy settings are replaced by the defaults |
| HasSettings.Saving | src/HasSettings.php:24-28 | the saving hook's effect on the column: truthy settings are cut to a declared allow-list |
| HasSettings.SettingsRoundTrip | src/HasSettings.php:50-65 | reading the attribute after setting it to `m` gives `Some(m)` |
| HasSettings.UnreadableSettingsAreNull | src/HasSettings.php:50-53 | an absent or malformed column reads as null |
| HasSettings.DefaultSettingsDeclared | src/HasSettings.php:36-41 | defaults are the declared array when it is set and an array, otherwise empty |
| HasSettings.CreatingFillsFalsy | src/HasSettings.php:18-22 | null or empty settings read as the defaults after the hook; anything else is untouched |
| HasSettings.SavingKeepsAllowed | src/HasSettings.php:24-28 | non-empty settings with an allow-list keep exactly the allowed keys present, with their values; otherwise the column is unchanged |
| HasSettings.SavingScenario | src/HasSettings.php:24-28 | allow-list `["a","b"]` saves `{a:1,b:2,c:3}` as `{a:1,b:2}` |
| Eloquent.SavingHooks | src/HasSettings.php:24-28 | both traits' `saving` hooks applied to the two columns (the options one at src/HasOptions.php:25-29) |
| Eloquent.CreatingHooks | src/HasSettings.php:18-22 | both traits' `creating` hooks applied to the two columns, the options one (src/HasOptions.php:19-23) as written |
| Eloquent.AfterSave | src/HasSettings.php:16-28 | what a save leaves in the attributes: the `saving` hooks, then the `creating` hooks only when the record is inserted |
| Eloquent.Restrict | src/HasSettings.php:26 | the cut a declared allow-list makes: `Only` on the listed keys, or nothing without a list |
| Eloquent.Record.OptionsValue | src/HasOptions.php:51-54 | `$model->options` read from the record's current column |
| Eloquent.Record.SettingsValue | src/HasSettings.php:50-53 | `$model->settings` read from the record's current column |
| Eloquent.Record.SetOptions | src/HasOptions.php:63-66 | the options attribute becomes the encoding of `m` and then reads as `m` |
| Eloquent.Record.SetSettings | src/HasSettings.php:62-65 | the settings attribute becomes the encoding of `m` and then reads as `m` |
| Eloquent.Record.OptionsCreatingAsWritten | src/HasOptions.php:19-23 | the creating hook as written: the options column is left as it was |
| Eloquent.Record.OptionsCreating | src/HasOptions.php:19-23 | the creating hook with its guard corrected: empty options become the defaults |
| Eloquent.Record.OptionsSaving | src/HasOptions.php:25-29 | the saving hook: the options are cut to a declared allow-list |
| Eloquent.Record.SettingsCreating | src/HasSettings.php:18-22 | the creating hook: falsy settings become the defaults |
| Eloquent.Record.SettingsSaving | src/HasSettings.php:24-28 | the saving hook: non-empty settings are cut to a declared allow-list |
| Eloquent.Record.Save | src/HasSettings.php:16-28 | the `saving` hooks of both traits (those of src/HasOptions.php:17-30 too), then their `creating` hooks on insert, the options one as written; the record is stored, the snapshot equals the attributes, one more save |
| Eloquent.SavedOptions | src/HasOptions.php:17-30 | options set to `m` and saved read as `m` cut to the allow-list, on update and on insert alike |
| Eloquent.InsertDropsDefaultOptions | src/HasOptions.php:19-23 | a record inserted with no options and `defaultOptions = {theme: "dark"}` is stored with empty options |
| Eloquent.SavedSettings | src/Settings.php:40-46 | settings set to `m` and saved read as `m` cut to the allow-list; on insert, with that cut empty, they read as the defaults |
| Eloquent.RestrictKeepsKey | src/HasOptions.php:25-29 | a key whose first segment is allowed reads the same after the cut, and no key resolves only after it |
| Eloquent.CreationScenario | src/HasSettings.php:18-22 | a new record with `defaultSettings = {theme: "dark"}` and no settings reads `{theme: "dark"}` once created |
| Cache.Store.Remember | src/Options.php:49-51 | a miss stores the produced mapping under the key |
| Cache.Store.Forget | src/Options.php:65 | the key is evicted and nothing else |
| OptionsAccessor.CacheKey | src/Options.php:34 | the record's table, its key and `options`, joined by dots |
| OptionsAccessor.Visible | src/Options.php:47-52 | what `all()` reads: the cached mapping on a hit, the record's options on a miss |
| OptionsAccessor.DefaultAt | src/Options.php:176 | `Collection::get($path, null)` on the defaults: the literal top-level entry, or null |
| OptionsAccessor.Options.constructor | src/Options.php:31-35 | binds the record; the cache key is table, record key and `options` joined by dots, fixed from then on |
| OptionsAccessor.Options.GetModel | src/Options.php:37-40 | returns the bound record |
| OptionsAccessor.Options.Current | src/Options.php:47-52 | what `all()` would return now, through this accessor's cache key |
| OptionsAccessor.Options.Applied | src/Options.php:61-68 | the state `apply(m)` leaves: options set to `m`, one save with the hooks, this record's cache entry evicted |
| OptionsAccessor.Options.All | src/Options.php:47-52 | read-through: a hit returns the cached mapping with the cache unchanged; a miss returns the record's options and stores them under the key |
| OptionsAccessor.Options.Apply | src/Options.php:61-68 | sets the options to `m`, saves once (hooks included), evicts the key, returns the same accessor; the next `all()` reads the record |
| OptionsAccessor.Options.Delete | src/Options.php:77-87 | no path (null, `""`, `"0"`) applies `{}`; a path applies the current mapping with that path forgotten |
| OptionsAccessor.Options.Forget | src/Options.php:98-101 | the same new state as `delete` |
| OptionsAccessor.Options.Get | src/Options.php:111-114 | no path gives the whole current mapping; a path gives its value or the default |
| OptionsAccessor.Options.Has | src/Options.php:123-126 | true exactly when the path resolves in the current mapping |
| OptionsAccessor.Options.Set | src/Options.php:136-147 | applies the current mapping with the value stored at the path |
| OptionsAccessor.Options.Replace | src/Options.php:136-147 | `set(null, m)` applies `m` as the whole mapping |
| OptionsAccessor.Options.Update | src/Options.php:159-162 | the same new state as the two-argument `set` |
| OptionsAccessor.Options.Reset | src/Options.php:171-180 | no path applies the defaults exactly; a path is set to the defaults' literal top-level entry, or null |
| OptionsAccessor.GetOptionsInstance | src/HasOptions.php:86-93 | keeps the slot's accessor while it is bound to this record; otherwise binds a fresh one to it |
| OptionsAccessor.OptionsOf | src/HasOptions.php:76-79 | with a key, the value `get(key, default)` reads through the record's accessor; without one, the memoised accessor |
| OptionsAccessor.SetThenGet | src/Options.php:111-147 | `set(p, v)` then `get(p)` gives `v` whenever the allow-list keeps the first segment of `p` |
| OptionsAccessor.DeleteThenHas | src/Options.php:77-126 | `delete(p)` then `has(p)` is false, for every string `p` |
| OptionsAccessor.DeleteMissing | src/Options.php:83-86 | on a record without an allow-list, deleting a missing path leaves `all()` equal to before |
| OptionsAccessor.SetKeepsSiblings | src/Options.php:136-147 | after `set(p, v)`, a diverging key whose first segment the allow-list keeps reads as it did before |
| OptionsAccessor.ResetKeepsSiblings | src/Options.php:171-180 | after `reset(p)`, a diverging key whose first segment the allow-list keeps reads as it did before |
| OptionsAccessor.DeleteAll | src/Options.php:79-81 | `delete()` with null, `""` or `"0"` leaves the options empty |
| OptionsAccessor.ResetAll | src/Options.php:171-180 | `reset()` leaves the options equal to the defaults, cut to the allow-list |
| OptionsAccessor.ApplyThenAllTwice | src/Options.php:47-68 | after `apply(m)`, two `all()` calls agree; the second is served from the cache |
| OptionsAccessor.ResetLooksUpLiteralKey | src/Options.php:174-176 | `reset("ui.theme")` finds nothing in `{ui: {theme: "dark"}}`, though `get` would |
| OptionsAccessor.ZeroPathIsNoPath | src/Options.php:79-113 | `"0"`, `""` and null are all "no path" |
| SettingsAccessor.Settings.constructor | src/Settings.php:19-22 | binds the record |
| SettingsAccessor.AsArray | src/Settings.php:89 | the `?array` as the `array_*` helpers walk it: null walks like the empty array |
| SettingsAccessor.AsValue | src/Settings.php:89 | the `?array` returned whole: null, or the array |
| SettingsAccessor.Settings.Applied | src/Settings.php:40-46 | the state `apply(m)` leaves: settings set to `m`, one save with the hooks |
| SettingsAccessor.Settings.All | src/Settings.php:29-32 | the record's settings, an array or null, with no cache |
| SettingsAccessor.Settings.Apply | src/Settings.php:40-46 | sets the settings to `m`, saves once (hooks included), returns the same accessor |
| SettingsAccessor.Settings.Delete | src/Settings.php:54-65 | no path goes through `set([])` and applies `{}`; a path applies the settings with it forgotten |
| SettingsAccessor.Settings.Forget | src/Settings.php:74-77 | the same new state as `delete` |
| SettingsAccessor.Settings.Get | src/Settings.php:87-90 | no path gives the settings (possibly null); a path gives its value or the default |
| SettingsAccessor.Settings.Has | src/Settings.php:99-102 | true exactly when the path resolves |
| SettingsAccessor.Settings.Set | src/Settings.php:112-124 | applies the settings with the value stored at the path |
| SettingsAccessor.Settings.Replace | src/Settings.php:112-124 | the one-argument `set(m)` applies `m` as the whole mapping |
| SettingsAccessor.Settings.Update | src/Settings.php:136-139 | the same new state as the two-argument `set` |
| SettingsAccessor.GetSettingsInstanceAsWritten | src/HasSettings.php:85-92 | a fresh accessor only when the slot is empty; otherwise the slot's accessor, whichever record it is bound to |
| SettingsAccessor.SecondRecordGetsFirstAccessor | src/HasSettings.php:85-92 | as written, a second record is handed the accessor bound to the first |
| SettingsAccessor.GetSettingsInstance | src/HasSettings.php:85-92 | as intended: the accessor returned is bound to the asking record, and is reused while it is |
| SettingsAccessor.EachRecordGetsOwnAccessor | src/HasSettings.php:85-92 | as intended, each record gets its own accessor, and asking twice gives the same one |
| SettingsAccessor.SettingsOf | src/HasSettings.php:75-78 | with a key, `get(key, default)` read through the slot's accessor, which stays bound to the first record that asked; without one, that accessor |
| SettingsAccessor.SecondRecordReadsFirstSettings | src/HasSettings.php:75-92 | after a first record has asked, `settings(k)` on a second record reads the first record's settings |
| SettingsAccessor.SetThenGet | src/Settings.php:87-124 | `set(p, v)` then `get(p)` gives `v` whenever the allow-list keeps the first segment of `p` |
| SettingsAccessor.DeleteThenHas | src/Settings.php:54-102 | on a stored record, `delete(p)` then `has(p)` is false |
| SettingsAccessor.DeleteAll | src/Settings.php:56-58 | `delete()` with null, `""` or `"0"` leaves a stored record's settings the empty array, and a record being inserted the defaults |
| SettingsAccessor.NestedSetScenario | src/Settings.php:112-124 | `set("ui.theme", "light")` on empty settings gives `{ui: {theme: "light"}}`, and `get("ui.theme")` gives `"light"` |

## Findings

| source | as written | input that shows it | evidently intended | confidence | as-written member | corrected member |
|---|---|---|---|---|---|---|
| src/HasOptions.php:19-23 | `if (!$model->options)` tests the Collection that `getOptionsAttribute` returns. PHP treats every object as true, so the defaults are never assigned | a new record with no options and `defaultOptions = {theme: "dark"}` is created with empty options | empty options are replaced by the defaults on create, as `HasSettings` does | not executed | HasOptions.CreatingAsWrittenDropsDefaults | HasOptions.CreatingFillsEmpty |
| src/HasSettings.php:85-92 | the static slot is filled once and never rebound | two different records call `settings()` in turn; the second gets an accessor bound to the first record, so its writes go to the first record | each record gets an accessor bound to itself, as `getOptionsInstance` does | not executed | SettingsAccessor.SecondRecordGetsFirstAccessor | SettingsAccessor.EachRecordGetsOwnAccessor |

The rest of the model follows the code as written. `Record.Save` fires
`Record.OptionsCreatingAsWritten`, and `SettingsOf` uses
`GetSettingsInstanceAsWritten`. The corrected halves (`HasOptions.Creating`,
`Record.OptionsCreating`, `GetSettingsInstance`) are stated beside them with
their own properties.

## Left out

- JSON text: a column is absent, malformed or the encoding of a value. Text, key order and floating-point numbers are not modelled, and an array and a Collection encode alike.
- A settings column holding a JSON scalar would break the `?array` return type of `getSettingsAttribute`. The model reads it as null.
- `getSettingsAttribute(string)` called with an absent column is a PHP type error. The model reads it as null.
- `Options::get` and `Options::has` hand a Collection to `Arr::get` and `Arr::has`, which test its top-level keys with `offsetExists`, an `isset` test. So a top-level key holding null reads as absent there: `has("a")` on `{a: null}` is false and `get("a", d)` gives `d`. The model walks the mapping as a plain array and finds the null. Nested keys and the `Settings` accessor, which works on arrays, are unaffected.
- The Laravel helpers beyond the plain segment walk are not modelled: a literal dotted key found before splitting, numeric keys, `ArrayAccess` objects, wildcards, and closures as defaults.
- PHP type failures are not modelled. `Options::set($array)` with one argument is refused by the `?string` type of `$path`, so `Replace` models `set(null, $array)`. The other failures: `Options::set(null, $scalar)` hands a non-array to `setOptionsAttribute`, and `settings($key)` returns a plain value where the declared return type is `Settings`.
- Calls that succeed in PHP but fall outside the model's argument types are not modelled. `Settings::has(null)` returns false. `Settings::apply` casts a non-array with `(array)`, so `Settings::set()` with no arguments applies `[]` and `set(null, $scalar)` applies a one-item list. Paths are always strings in the model, and `apply` always receives a mapping.
- The record uses both traits. Table and key are fixed, so a key assigned on insert is not modelled. Eloquent's dirty tracking, storage failures and events other than `saving` and `creating` are not modelled.
- The cache has no expiry. Other processes, cache failures and staleness between processes are not modelled.
- The static instance slots are one sequential field each. Sharing across requests or threads is not modelled.
- SettingsAccessor.DeleteThenHas: assumes a stored record. On insert, the settings creating hook refills empty settings with the defaults, which may hold the path again (`Eloquent.SavedSettings` states that case).
