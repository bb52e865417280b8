# Preference layer: persisted key-value adapter, search-engine store, tools store

This project models the client-side preference layer of a browser start page.
It has three parts.

- **Storage adapter** (`src/lib/utils/storage.ts`, module `Storage`): save,
  get-with-default, remove, clear and has-key over the browser's string-keyed
  local storage. Outside a browser every operation returns an inert result.
  The class `KeyValueStore` holds the medium's contents as a `map<string, string>`,
  the `browser` flag and the text codec. A ghost log records every `setItem`
  attempt, so "no write happened" and "a write happened" can be stated.
- **Search-engine store** (`src/lib/stores/searchEngineStore.ts`, module
  `SearchEngines`): the five-entry engine catalog, the selected engine id, the
  lookup with fallback to the first entry (google), and `search`. `search`
  returns the navigation it would perform: `NewTab(url)`, `InPlace(url)` or `NoOp`.
- **Tools store** (`src/lib/stores/toolsStore.ts`, module `Tools`): the tool
  catalog and the ordered list of active tool ids. It supports add (idempotent
  append), remove (filter out every occurrence), reorder (wholesale replace),
  reset, the membership test, and the catalog lookups.

Each store mutation writes the new value through to the adapter, except
an add of an id that is already active, which writes nothing.
`SavedOrKept` states what that write does. In a browser there is exactly one
`setItem` of the new value, and the medium either takes it or refuses it (full
quota). Outside a browser nothing is written.

Supporting modules:
- `Arrays` holds the JavaScript `find`, used by both stores, and `filter`, used by the tools store.
- `Json` holds the value type, JavaScript truthiness, and the abstract codec.
  `Codec` stands for `JSON.stringify`/`JSON.parse`. `ReadsBack(c, v)` says
  that parsing the text written for the value `v` gives back `v`.
- `Wrappers` holds `Option`.

The browser flag is a constructor argument of the storage. Both stores share one
storage object and use its flag. The Svelte store value is a plain field read
directly. `IsActive` is the plain membership test `id in active`.

## Model

| member | source | states |
|---|---|---|
| Arrays.Find | src/lib/stores/searchEngineStore.ts:79 | `find` gives nothing exactly when no element passes; otherwise it gives the element at the first passing index |
| Arrays.FindFirst | src/lib/stores/toolsStore.ts:80 | when index i is the first one to pass, `find` returns the element at i |
| Arrays.Filter | src/lib/stores/toolsStore.ts:49 | `filter` keeps exactly the passing elements and is no longer than its input |
| Arrays.FilterAppend | src/lib/stores/toolsStore.ts:49 | filtering keeps order: it distributes over concatenation |
| Storage.KeyValueStore.Save | src/lib/utils/storage.ts:3-14 | outside a browser: false, nothing changes. In a browser: one `setItem` of the encoded value is logged. On success only `key` changes and reads back as the value (given that the codec reads that value back); on failure the medium is unchanged |
| Storage.KeyValueStore.Get | src/lib/utils/storage.ts:17-28 | gives the default outside a browser, for an absent key and for text that does not parse; otherwise the parsed value |
| Storage.KeyValueStore.Remove | src/lib/utils/storage.ts:30-40 | result is `browser`. In a browser exactly `key` is deleted; afterwards `HasKey(key)` is false and no `setItem` happens |
| Storage.KeyValueStore.Clear | src/lib/utils/storage.ts:42-52 | result is `browser`. In a browser the medium is emptied; afterwards `HasKey(k)` is false for every k |
| Storage.KeyValueStore.HasKey | src/lib/utils/storage.ts:54-57 | true exactly in a browser when the key is stored; false outside a browser; a key it denies reads as the caller's default |
| Storage.SaveThenGet | src/lib/utils/storage.ts:21-23 | round trip: text written for a value reads back as that value whatever the default, given that the codec reads that one value back |
| SearchEngines.CatalogIdsDistinct | src/lib/stores/searchEngineStore.ts:13-49 | the five catalog ids are pairwise distinct |
| SearchEngines.Resolve | src/lib/stores/searchEngineStore.ts:79 | the result is a catalog entry. It has the selected id when some entry does; it is the first entry when none does, including for a non-string id |
| SearchEngines.ResolveKnown | src/lib/stores/searchEngineStore.ts:79 | each catalog id resolves to its own entry (lookup result is unique) |
| SearchEngines.ResolveUnknown | src/lib/stores/searchEngineStore.ts:79 | an id outside the catalog resolves to the first entry, whose id is google |
| SearchEngines.SearchUrl | src/lib/stores/searchEngineStore.ts:92 | the target starts with the engine's URL and continues with exactly the encoded query |
| SearchEngines.InitialEngine | src/lib/stores/searchEngineStore.ts:59 | in a browser the stored `searchEngine` value with default google; otherwise google |
| SearchEngines.ReloadSeesEngine | src/lib/stores/searchEngineStore.ts:59 | write-through consistency: once an id is written under `searchEngine`, a store started on that storage selects the same id |
| SearchEngines.SearchEngineStore.constructor | src/lib/stores/searchEngineStore.ts:58-61 | the store starts with the initial engine read from its storage |
| SearchEngines.SearchEngineStore.SetEngine | src/lib/stores/searchEngineStore.ts:66-71 | the selected id becomes `id`, known or not; in a browser `id` is written under `searchEngine`, outside one nothing is written. When the write takes effect, a store started afresh selects the same id |
| SearchEngines.SearchEngineStore.GetEngineConfig | src/lib/stores/searchEngineStore.ts:73-80 | a catalog entry, the one `Resolve` picks for the selected id (total, with fallback) |
| SearchEngines.SearchEngineStore.Search | src/lib/stores/searchEngineStore.ts:82-100 | no navigation exactly when not in a browser or the query is empty. Otherwise the target is the same engine `GetEngineConfig` gives, its URL then the encoded query. It opens a new tab exactly when stored `openLinksInNewTab` (default true) is truthy. It changes no state |
| Json.Truthy | src/lib/stores/searchEngineStore.ts:95 | JavaScript truthiness: exactly `null`, `false`, `0` and the empty string are falsy |
| SearchEngines.NewTabByDefault | src/lib/stores/searchEngineStore.ts:94 | with `openLinksInNewTab` absent, search opens a new tab |
| SearchEngines.BingCats | src/lib/stores/searchEngineStore.ts:90-92 | bing plus query "cats" (encoded as itself) targets `https://www.bing.com/search?q=cats` |
| SearchEngines.BingCatsScenario | src/lib/stores/searchEngineStore.ts:82-100 | in a browser with `openLinksInNewTab` unset, `SetEngine("bing")` then `Search("cats")` opens `https://www.bing.com/search?q=cats` in a new tab |
| SearchEngines.NonexistentFallsBack | src/lib/stores/searchEngineStore.ts:79 | selecting "nonexistent" resolves to google, not an error |
| Tools.GetToolConfig | src/lib/stores/toolsStore.ts:79-81 | gives the catalog entry with that id exactly when the catalog has one, and nothing otherwise (no fallback) |
| Tools.WithTool | src/lib/stores/toolsStore.ts:34-43 | after add: id present; old list is a prefix; one longer exactly when id was absent; no other id appears |
| Tools.AddIdempotent | src/lib/stores/toolsStore.ts:35-37 | adding twice gives the same list as adding once |
| Tools.AddKeepsNoDuplicates | src/lib/stores/toolsStore.ts:35-40 | adding keeps a duplicate-free list duplicate-free |
| Tools.WithoutTool | src/lib/stores/toolsStore.ts:49 | after remove: id absent, no longer than before, and the members are exactly the old ones other than id |
| Tools.RemoveKeepsOthers | src/lib/stores/toolsStore.ts:49 | every other id keeps its number of occurrences; the removed id has none |
| Tools.RemoveKeepsOrder | src/lib/stores/toolsStore.ts:49 | the survivors keep their relative order (removal distributes over concatenation) |
| Tools.RemoveAbsentIsNoOp | src/lib/stores/toolsStore.ts:49 | removing an inactive id changes nothing; removing twice equals removing once |
| Tools.RemoveKeepsNoDuplicates | src/lib/stores/toolsStore.ts:49 | removing keeps a duplicate-free list duplicate-free |
| Tools.ActiveConfigs | src/lib/stores/toolsStore.ts:89-91 | every result is a catalog entry for an active id, and the result is no longer than the list |
| Tools.ActiveConfigsOrder | src/lib/stores/toolsStore.ts:89-91 | the ids of the result are the active ids with the unknown ones dropped, in the same order |
| Tools.DefaultConfigs | src/lib/stores/toolsStore.ts:23 | the default list yields the weather then the clock configuration |
| Tools.ReorderedConfigs | src/lib/stores/toolsStore.ts:57-62 | the list clock, weather yields the clock then the weather configuration |
| Tools.IdsRoundTrip | src/lib/stores/toolsStore.ts:41 | the stored JSON array form of an id list reads back as that list |
| Tools.InitialActiveTools | src/lib/stores/toolsStore.ts:22-26 | outside a browser the default list; in a browser the stored `activeTools` value whenever it reads as an array of strings, and the default otherwise |
| Tools.InitialWithoutStoredList | src/lib/stores/toolsStore.ts:23-26 | with nothing stored, or outside a browser, the list starts as weather, clock |
| Tools.ReloadSeesWrite | src/lib/stores/toolsStore.ts:24-26 | write-through consistency: after a list is written, a store started on that storage holds the same list, given that the codec reads that list back |
| Tools.ToolsStore.constructor | src/lib/stores/toolsStore.ts:22-28 | the store starts with the initial list read from its storage |
| Tools.ToolsStore.Persist | src/lib/stores/toolsStore.ts:40-42 | in a browser one write of the current list under `activeTools`, outside one none. When the write takes effect, a store started afresh holds the same list |
| Tools.ToolsStore.AddTool | src/lib/stores/toolsStore.ts:33-44 | the list becomes `WithTool(old, id)` and the tool is active. Storage is untouched when id was already active; otherwise the new list is written through. When a write takes effect, a store started afresh holds the new list |
| Tools.ToolsStore.RemoveTool | src/lib/stores/toolsStore.ts:47-55 | the list becomes `WithoutTool(old, id)`, the tool is inactive, and the result is written through even when unchanged. When a write takes effect, a store started afresh holds the new list |
| Tools.ToolsStore.ReorderTools | src/lib/stores/toolsStore.ts:57-62 | the list becomes exactly `newOrder` (no permutation check) and is written through. When a write takes effect, a store started afresh holds the new list |
| Tools.ToolsStore.ResetToDefault | src/lib/stores/toolsStore.ts:64-69 | the list becomes weather, clock and is written through. When a write takes effect, a store started afresh holds the new list |
| Tools.ToolsStore.IsActive | src/lib/stores/toolsStore.ts:71-77 | true exactly when some position of the active list holds the id (`includes`) |
| Tools.ToolsStore.GetActiveToolsConfig | src/lib/stores/toolsStore.ts:83-92 | no longer than the active list; its ids are the known active ids in order |

## Left out

- Svelte's `writable`/`subscribe`/`update` notification machinery is not modelled. This includes the subscribe-then-unsubscribe read idiom. The store value is a field read directly.
- `window.open` and `window.location.href` are not performed. `Search` returns the navigation as a `Navigation` value.
- `encodeURIComponent` is not modelled. `Search` takes it as a parameter `encode: string -> string`.
- `JSON.stringify` and `JSON.parse` are not modelled. They are the fields of a `Codec`. Where a property needs the round trip, it requires `ReadsBack` for the one value concerned. It is not assumed for every value, since `JSON.parse` drops one of two duplicate object keys.
- A medium that throws on every access (storage disabled) is not modelled. In the source this makes `hasKey` throw and the other operations report failure. The model's only medium failure is a refused `setItem`, chosen nondeterministically. `console.error` logging is not modelled.
- Tools.InitialActiveTools: a stored `activeTools` value that is not an array of strings falls back to the default list. The source keeps such a value unchecked, and later operations then throw or act on its characters.
- Display-only catalog fields (`name`, `icon`, `description`, `component`, `suggestionUrl`) are not modelled; they have no behaviour.
- Numbers are modelled as mathematical reals. JavaScript's floating point is not modelled. The stores never write a number; a number read back under `openLinksInNewTab` matters only through its truthiness.
- JavaScript strings are UTF-16 code units, while Dafny strings are sequences of Unicode scalar values. Ids are only compared for equality, so this does not matter for them.
- A search query holding a lone surrogate is not modelled. In the source `encodeURIComponent` throws URIError on it; a Dafny string cannot hold one.
- Aliasing of the array handed to `reorderTools` is not modelled; the model stores a value.
