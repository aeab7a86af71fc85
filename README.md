# PropConfig: a lazily loaded, replaceable configuration cache

This project models `PropConfig` from the change-data-capture utilities
(`com.rpamballa.cdc.utils`). It is the process-wide holder of the
application's key/value configuration. The one mutable field, `instance`, is
either empty or holds a snapshot:

- `get()` loads the snapshot from the resource `Constants.CONFIG_FILE` the
  first time it is called while nothing is held. A failed load is reported as an error naming the
  resource, and nothing is stored. After a successful load the cached snapshot
  is returned without reading the resource again.
- `setProperty(prop)` replaces the snapshot unconditionally.
- `getProperty()` calls `get()` and returns the whole snapshot.
- `getProperty(key)` calls `get()` and returns the value of `key`. It fails
  with "`key` not set" when the key is absent or its value is the empty string.

The module `Utils` in `prop_config.dfy` has two layers:

- Pure specification functions (`GetSpec`, `SetSpec`, `GetPropertiesSpec`,
  `GetPropertySpec`, `Lookup`) over an abstract `State`. The state is the held
  snapshot plus the number of load attempts so far. Lemmas about these
  functions prove the cache's promises, both for single calls and for any
  sequence of calls (`Run`).
- The class `Utils.PropConfig` has the field `instance` and a ghost counter
  `loadAttempts`. Its methods update them in place, and each method is proved
  to follow the matching specification function.

The resource is a constructor parameter, `Resource(name, load)`. Its name
stands for `Constants.CONFIG_FILE`, whose value the source does not show.
`load` is the fixed outcome of reading and parsing it (`Loaded(map)` or
`LoadFailed`), so every load attempt sees the same outcome. Both exceptions the
source throws as `IOException` become `ConfigError` values returned in a
`Result`: `ConfigLoadError(resourceName)` and `MissingKey(key)`.

Three consequences of the code are worth stating outright:

- The emptiness test is `StringUtils.isEmpty`. It rejects only a missing value
  or `""`, so a non-empty value made only of whitespace, such as `" "`, is
  returned rather than rejected (`BlankValueIsReturned`).
- A failed load stores nothing, so the next read tries the load again
  (`FailedLoadIsRetried`, `FailingLoadRetriedEveryRead`).
- The field `instance` is read and assigned without any locking, so
  initialisation is not atomic across threads and no such guarantee is
  modelled.

## Model

| member | source | states |
|---|---|---|
| Utils.GetString | change-data-capture-with-bloom/src/main/java/com/rpamballa/cdc/utils/PropConfig.java:52 | a present key yields its value and an absent key yields null |
| Utils.IsEmpty | change-data-capture-with-bloom/src/main/java/com/rpamballa/cdc/utils/PropConfig.java:53 | true exactly of a missing value and of "", false for any other string, whitespace included |
| Utils.Lookup | change-data-capture-with-bloom/src/main/java/com/rpamballa/cdc/utils/PropConfig.java:52-56 | the lookup succeeds exactly when the key is present with a non-empty value; it then returns that value, otherwise the "key not set" error naming the key |
| Utils.BlankValueIsReturned | change-data-capture-with-bloom/src/main/java/com/rpamballa/cdc/utils/PropConfig.java:53 | any non-empty value made only of whitespace is returned as it is, not rejected (isEmpty, not isBlank) |
| Utils.GetSpec | change-data-capture-with-bloom/src/main/java/com/rpamballa/cdc/utils/PropConfig.java:28-39 | get() succeeds exactly when it leaves a snapshot held, and returns the held snapshot; a held snapshot means nothing changes; with none held exactly one load is attempted; a failure names the resource and stores nothing; with none held, get() fails exactly when the resource fails to load, and otherwise stores and returns the loaded map |
| Utils.SetSpec | change-data-capture-with-bloom/src/main/java/com/rpamballa/cdc/utils/PropConfig.java:41-43 | setProperty stores the given snapshot whatever was held and attempts no load |
| Utils.GetPropertiesSpec | change-data-capture-with-bloom/src/main/java/com/rpamballa/cdc/utils/PropConfig.java:45-48 | getProperty() changes state only as get() does and returns the snapshot then held; a held snapshot is returned as it is; a load failure propagates |
| Utils.GetPropertySpec | change-data-capture-with-bloom/src/main/java/com/rpamballa/cdc/utils/PropConfig.java:50-57 | getProperty(key) changes state only as get() does; a load failure propagates before any lookup; otherwise the reply is the fail-fast lookup in the held snapshot, never an empty string |
| Utils.GetIsIdempotent | change-data-capture-with-bloom/src/main/java/com/rpamballa/cdc/utils/PropConfig.java:29-38 | after a successful get(), a second get() returns the same snapshot and changes nothing |
| Utils.LoadedResourceLookup | change-data-capture-with-bloom/src/main/java/com/rpamballa/cdc/utils/PropConfig.java:50-56 | with nothing held and a resource that loads m, getProperty(key) is the fail-fast lookup of key in m, so every key with a non-empty value reads as that value |
| Utils.FailedLoadIsRetried | change-data-capture-with-bloom/src/main/java/com/rpamballa/cdc/utils/PropConfig.java:29-36 | after a failed get(), the next get() attempts the load again |
| Utils.SetThenGetProperties | change-data-capture-with-bloom/src/main/java/com/rpamballa/cdc/utils/PropConfig.java:41-48 | after setProperty(p), getProperty() returns exactly p with no load |
| Utils.SetThenGetProperty | change-data-capture-with-bloom/src/main/java/com/rpamballa/cdc/utils/PropConfig.java:41-57 | after setProperty(p), getProperty(key) is the lookup of key in p with no load |
| Utils.CachedNeverReloads | change-data-capture-with-bloom/src/main/java/com/rpamballa/cdc/utils/PropConfig.java:29-38 | once a snapshot is held, no sequence of calls loads the resource again, and a snapshot stays held |
| Utils.LoadAtMostOnce | change-data-capture-with-bloom/src/main/java/com/rpamballa/cdc/utils/PropConfig.java:28-39 | when the resource loads, any sequence of calls loads it at most once, and never when a snapshot is already held |
| Utils.FailingLoadRetriedEveryRead | change-data-capture-with-bloom/src/main/java/com/rpamballa/cdc/utils/PropConfig.java:29-36 | when the resource fails to load, every read before the first setProperty attempts the load again; none after it does |
| Utils.SnapshotStableWithoutSet | change-data-capture-with-bloom/src/main/java/com/rpamballa/cdc/utils/PropConfig.java:45-57 | reads never change a held snapshot or the load count |
| Utils.ReplaceWins | change-data-capture-with-bloom/src/main/java/com/rpamballa/cdc/utils/PropConfig.java:41-48 | after the last setProperty(p), whatever came before, the snapshot is p and getProperty() returns p |
| Utils.RepeatedGetAgrees | change-data-capture-with-bloom/src/main/java/com/rpamballa/cdc/utils/PropConfig.java:28-39 | after a successful get(), any reads without setProperty leave get() returning the same snapshot |
| Utils.ScenarioBlankAndMissingKeys | change-data-capture-with-bloom/src/main/java/com/rpamballa/cdc/utils/PropConfig.java:50-56 | with db.host=localhost and a blank db.port loaded, db.host reads localhost, while db.port and an absent key are both "not set" |
| Utils.ScenarioMissingResourceThenSet | change-data-capture-with-bloom/src/main/java/com/rpamballa/cdc/utils/PropConfig.java:28-57 | with a resource that fails to load, the first get() fails naming it; after setProperty({a=1}), key a reads 1 |
| Utils.PropConfig.constructor | change-data-capture-with-bloom/src/main/java/com/rpamballa/cdc/utils/PropConfig.java:22-23 | the cache starts empty with no load attempted |
| Utils.PropConfig.Get | change-data-capture-with-bloom/src/main/java/com/rpamballa/cdc/utils/PropConfig.java:28-39 | the object follows GetSpec: a held snapshot is returned untouched; otherwise the load result is stored and returned, or the load error is returned with nothing stored |
| Utils.PropConfig.SetProperty | change-data-capture-with-bloom/src/main/java/com/rpamballa/cdc/utils/PropConfig.java:41-43 | the object follows SetSpec: instance becomes the given snapshot and no load is counted |
| Utils.PropConfig.GetProperties | change-data-capture-with-bloom/src/main/java/com/rpamballa/cdc/utils/PropConfig.java:45-48 | the object follows GetPropertiesSpec; with a snapshot held it is returned and nothing changes |
| Utils.PropConfig.GetProperty | change-data-capture-with-bloom/src/main/java/com/rpamballa/cdc/utils/PropConfig.java:50-57 | the object follows GetPropertySpec; with a snapshot held the reply is its lookup and nothing changes; a success is never empty |

## Left out

- Parsing the properties file (Apache Commons Configuration's `PropertiesConfiguration`): list splitting on commas, `${}` interpolation and escapes. This library code is not part of this model. Loading is the abstract `LoadResult`.
- The conversions `ConfigurationConverter.getConfiguration` and `getProperties`, and `Configuration.getString`, are taken to be identity on a string-to-string map. They are library code not part of this model.
- Locating the resource through the class loader is I/O. It is folded into the fixed `LoadResult`. `LoadFailed` stands only for failures that reach the `ConfigurationException` catch of `get()`; what the library does when the resource is absent (a null URL) is not part of this model and may surface as an unchecked exception instead. The value of `Constants.CONFIG_FILE` is not shown, so it is the `Resource.name` parameter.
- Java `null` arguments (`setProperty(null)`, `getProperty(null)`) are not modelled. Dafny values cannot be null.
- The unused logger `LOG` has no behaviour to model.
- Threads and initialisation races are out of scope. The code has no locking, so no atomicity guarantee exists to model.
- `get()` hands out the cached `Configuration` object itself, which is mutable and shared with the cache, so a caller that changes it changes what later lookups see. The model hands out an immutable map, so `SnapshotStableWithoutSet` covers only changes made through the four entry points.
- The `IOException` thrown on a failed load carries the underlying `ConfigurationException` as its cause. `LoadFailed` and `ConfigLoadError` keep only the resource name, not the cause.
- The enum singleton `INSTANCE` is one ordinary object of the class.
