# countries-lists: indexed lookups over a memoised geographic dataset

A Dafny model of the two stateful components of the `countries-lists` library:

- **`DataLoader`** (`src/loader.ts`): three independent memo slots (countries, states, cities). Each getter reads its
  collection from storage on first use, caches it, and returns the cached sequence afterwards. A failed read yields
  `[]`, and because `[]` is truthy in JavaScript that result is cached too. `preloadAll` fills all three slots;
  `clearCache` empties them.
- **`CountryLocalesMap`** (`src/api.ts`): the module-level `Indices` record (an ISO-code map, a country-id map, a
  country-id → state list map, a state-id map, a state-id → city list map, and an `initialized` flag), the two build
  steps `ensureIndices` and `ensureCityIndices`, and the five static lookups.

Both components are modelled as classes whose fields the methods update in place. `Loader.DataLoader` holds the slots
as `Option<seq<…>>` (`None` is `null`). It also keeps a ghost `history` of events: a getter was invoked, a file was
read, the cache was cleared. Its invariant says that each file has been read exactly once since the last clear when
its slot is filled, and not at all when it is empty.

Storage is an oracle. Each `DataLoader` is constructed with one function per collection from the read number
(0, 1, 2, …) to a `Source<T>`: `Missing`, `Unreadable` or `Records(items)`. It counts the reads of each file, so a
read after `clearCache` may yield different records from the first one. `LoadData` maps the two failures to `[]`.

`Api.CountryLocalesMap` holds its `DataLoader`, the five maps, the flag, and ghost snapshots of the three collections
its builds read. Its invariant says that:
- the four primary maps are built from the country and state snapshots, which are empty while the flag is false;
- the city map is built from the city snapshot, and is empty exactly when that snapshot is.

The maps are specified by three functions in `Indexing`:
- `IndexBy`: a forward pass of `map.set`, so the last record with a key wins;
- `GroupBy`: a forward pass of "create an empty list if missing, then push";
- `Select`: an independent filter that `GroupBy` is proved to agree with.

`Api.CountryByIso`, `StateById`, `StatesOfCountry` and `CitiesOfState` state what each lookup answers in terms of the
flat collections. Each lookup method is proved to:
- answer exactly that for the snapshot;
- take the snapshot from what the getters return at the first build;
- cause exactly the stated loader calls and file reads.

Behaviour of the code worth noting:
- The city tier is guarded by "the city map is non-empty", not by a flag. While the cities read are empty it rebuilds
  on every call. `EnsureCityIndices` states this, and `Scenario.FailedCityFile` shows it.
- ISO codes are stored as the records carry them (`src/api.ts:19`). Only the query is upper-cased (`src/api.ts:67`).
  A record whose code holds a lower-case letter can therefore never be found (`Api.LowerCaseKeysUnreachable`).
- `countriesById` is built but no lookup reads it.
- `getAllCountries` answers from `DataLoader.getCountries()`, not from the indices. After `clearCache` it reads the
  countries file again, while the other lookups keep answering from the indices built earlier. The indices can go
  stale this way. Suppose the first read of the countries file fails, and the retry after a clear succeeds. Then
  `getAllCountries` returns the countries, but `getCountryByIso` never finds any
  (`Scenario.StaleIndexAfterRetry`).

`src/types.ts` is not part of this model. The fields `id`, `iso2`, `country_id` and `state_id` come from their uses in
`src/api.ts`. The fields `state_code` and `name` come from `src/example.ts` (lines 11, 17 and 23). They are written in
camelCase here (`countryId`, `stateCode`, `stateId`).

## Model

| member | source | states |
|---|---|---|
| `Geo.ToUpper` | src/api.ts:67 | ASCII upper-casing: the result has the query's length and each character upper-cased on its own |
| `Geo.ToUpperHasNoLower` | src/api.ts:67 | an upper-cased query contains no lower-case ASCII letter |
| `Geo.ToUpperIdempotent` | src/api.ts:67 | upper-casing an already upper-cased code changes nothing |
| `Indexing.IndexByLast` | src/api.ts:18-21 | after the `set` pass a key is present iff some record has it, and it maps to the last such record in source order |
| `Indexing.IndexByGet` | src/api.ts:79-82 | a point lookup (here and at src/api.ts:67) on a `set`-built map is absent iff no record has the key, and otherwise is the last record with it |
| `Indexing.GroupBySelect` | src/api.ts:28-32 | after the create-then-push pass a key is present iff some record has it, its list is the source-ordered selection of records with that key, and an absent key selects nothing |
| `Indexing.SelectMembers` | src/api.ts:28-32 | the selection holds exactly the records with the key, and is no longer than the input |
| `Indexing.GroupByEmpty` | src/api.ts:46 | a grouping is empty exactly when its input is empty, so the size guard holds off only once some city exists |
| `Api.CountryByIso` | src/api.ts:65-72 | the answer exists iff some country's stored code equals the upper-cased query, and is then the last such country in source order |
| `Api.StateById` | src/api.ts:79-82 | the answer exists iff some state has that id, and is then the last such state in source order |
| `Api.StatesOfCountry` | src/api.ts:74-77 | the answer is the source-ordered selection of states with that country id; it holds exactly those states, and is `[]` iff none has it |
| `Api.CitiesOfState` | src/api.ts:84-88 | the answer is the source-ordered selection of cities with that state id; it holds exactly those cities, and is `[]` iff none has it |
| `Api.CountryByIsoIgnoresCase` | src/api.ts:67 | codes that upper-case alike find the same country, and a code finds the same country as its upper-cased form |
| `Api.LowerCaseKeysUnreachable` | src/api.ts:19 | a country whose stored code holds a lower-case letter is never returned by the code lookup |
| `Loader.DataLoader.constructor` | src/loader.ts:12-16 | all three slots start empty and nothing has been read |
| `Loader.DataLoader.GetCountries` | src/loader.ts:40-45 | reads the file only when the slot is empty, caching and returning what that read yields; a missing or unreadable file gives and caches `[]`; otherwise returns the cached sequence and reads nothing; the other slots are unchanged |
| `Loader.DataLoader.GetStates` | src/loader.ts:47-52 | the same for the states slot, leaving the countries and cities slots unchanged |
| `Loader.DataLoader.GetCities` | src/loader.ts:54-59 | the same for the cities slot, leaving the countries and states slots unchanged; a failed read caches `[]`, so the file is not read again until a clear |
| `Loader.DataLoader.PreloadAll` | src/loader.ts:64-68 | afterwards all three slots are filled; each file is read once if its slot was empty and not at all otherwise; when all were filled, nothing but the invocation events changes |
| `Loader.DataLoader.ClearCache` | src/loader.ts:73-77 | afterwards all three slots are empty, so the next call of each getter reads its file again |
| `Api.CountryLocalesMap.constructor` | src/api.ts:5-12 | all maps start empty and the flag is false |
| `Api.CountryLocalesMap.EnsureIndices` | src/api.ts:14-42 | afterwards the flag is set; if it was already set nothing changes and the loader is not called; otherwise the countries getter and then the states getter are invoked, and the maps are built from what they return |
| `Api.CountryLocalesMap.BuildPrimary` | src/api.ts:17-41 | past the flag check: invokes the countries getter then the states getter, snapshots what they return, builds the four maps from it and sets the flag |
| `Api.CountryLocalesMap.IndexCountries` | src/api.ts:17-21 | the country loop leaves the code and id maps equal to the last-writer-wins index of the countries |
| `Api.CountryLocalesMap.IndexStates` | src/api.ts:27-34 | the state loop leaves the country-id map equal to the source-ordered grouping and the state-id map equal to the last-writer-wins index |
| `Api.CountryLocalesMap.EnsureCityIndices` | src/api.ts:44-55 | afterwards the city map is the grouping of its snapshot, non-empty when any city was read; once non-empty, a call changes nothing and does not invoke the getter; while the cities read are empty the map stays empty and every call invokes the getter |
| `Api.CountryLocalesMap.IndexCities` | src/api.ts:49-54 | the city loop leaves the city map equal to the source-ordered grouping of the cities |
| `Api.CountryLocalesMap.GetAllCountries` | src/api.ts:58-63 | builds the primary maps, then returns what the countries getter returns, in source order and length; after a clear that is a fresh read, which the indices do not see; the cities slot and its read count are unchanged |
| `Api.CountryLocalesMap.GetCountryByIso` | src/api.ts:65-72 | returns `CountryByIso` of the country snapshot, taken from the getter at the first build; after that build it changes nothing; at the first build the loader's country and state slots hold the snapshots, and each of the two files is read once if its slot was empty; the cities slot and its read count are unchanged |
| `Api.CountryLocalesMap.GetStatesOfCountry` | src/api.ts:74-77 | returns `StatesOfCountry` of the state snapshot, `[]` for an unknown id; after the first build it changes nothing; at the first build the loader's country and state slots hold the snapshots, and each of the two files is read once if its slot was empty; the cities slot and its read count are unchanged |
| `Api.CountryLocalesMap.GetStateById` | src/api.ts:79-82 | returns `StateById` of the state snapshot; after the first build it changes nothing; at the first build the loader's country and state slots hold the snapshots, and each of the two files is read once if its slot was empty; the cities slot and its read count are unchanged |
| `Api.CountryLocalesMap.GetCitiesOfState` | src/api.ts:84-88 | builds the primary maps, then the city map; returns `CitiesOfState` of the city snapshot; the loader events are the primary build's followed by the city getter's; each file is read at most once, and only when its map was unbuilt and its slot empty |

## Left out

- `Loader.LoadData`: defined, not specified. It adapts the storage oracle to `loadData` (src/loader.ts:25-37); the fail-soft result `[]` is stated on the getters that call it. File-system access, path joining, JSON parsing and the diagnostic log are left out, because they are I/O. Contents that parse to something other than an array are not modelled either. For example, JSON `null` would be cached as `null`, so the file is re-read on every call, and the `for…of` loop over it in src/api.ts:18 throws. Nor is an array whose elements are not records. With `[null]` in the countries file, `c.iso2` throws at src/api.ts:19; a `null` state throws at src/api.ts:29. The records before it are then already in the maps while `initialized` is still false, so the next call runs the pass again over the partly filled maps, and the exception reaches the caller. Storage is a function from the read number to a `Source<T>`, fixed when the `DataLoader` is constructed. It can give a different result on each read of a file, but it cannot depend on anything else, such as the time of the read.
- Full Unicode `toUpperCase`. `Geo.ToUpper` maps only `a`–`z`; special cases such as `ß` → `SS` are not modelled.
- Object identity and aliasing. The shallow copies `{...c}` of `getAllCountries` and `getCountryByIso` are equal values here. The model also cannot express that `getStatesOfCountry` and `getCitiesOfState` return the index's own live arrays, so a caller who mutates them mutates the index. Likewise `getStateById` returns the indexed `State` object itself, not a copy (src/api.ts:81).
- Passthrough fields of the records (currency, region, …). They are never inspected and are not modelled.
- The JavaScript `Map` iteration order and identity of keys. Maps are Dafny `map`s; `number` keys are `int`s, and no floating-point keys (`NaN`, `-0`) are considered.
- Concurrency. The code is single-threaded and synchronous, so the flag-check-then-populate pattern is modelled as sequential steps.
- `src/example.ts` and `dist/example.js` (a demo with timing and logging), `dist/api.js` (compiled output with the same logic as `src/api.ts`), and `dist/api.d.ts` and `dist/loader.d.ts` (type declarations only).
