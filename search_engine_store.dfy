/**
 * The search-engine preference: the selected engine id, its resolution
 * against the fixed engine catalog, and the navigation a search performs.
 */
module SearchEngines {
  import opened Wrappers
  import opened Json
  import opened Arrays
  import opened Storage

  /** A catalog entry; only the fields with behaviour are kept. */
  datatype Engine = Engine(id: string, url: string)

  const SearchEngines: seq<Engine> := [
    Engine("google", "https://www.google.com/search?q="),
    Engine("bing", "https://www.bing.com/search?q="),
    Engine("duckduckgo", "https://duckduckgo.com/?q="),
    Engine("yahoo", "https://search.yahoo.com/search?p="),
    Engine("baidu", "https://www.baidu.com/s?wd=")
  ]

  const SearchEngineKey: string := "searchEngine"
  const OpenLinksInNewTabKey: string := "openLinksInNewTab"
  const DefaultEngineId: string := "google"

  /** No two entries of `es` share an id. */
  predicate DistinctIds(es: seq<Engine>)
  {
    forall i, j :: 0 <= i < j < |es| ==> es[i].id != es[j].id
  }

  /** The engine catalog's ids are pairwise distinct. */
  lemma CatalogIdsDistinct()
    ensures DistinctIds(SearchEngines)
  {
  }

  /** Whether `engineId` is the id of catalog entry `e`; a non-string id matches none. */
  predicate HasId(engineId: Json, e: Engine)
  {
    engineId == Str(e.id)
  }

  /**
   * The engine for a selected id: the catalog entry with that id, or the
   * first entry (google) when there is none.
   */
  function Resolve(engineId: Json): (e: Engine)
    ensures e in SearchEngines
    ensures (exists i :: 0 <= i < |SearchEngines| && HasId(engineId, SearchEngines[i])) ==> HasId(engineId, e)
    ensures (forall i :: 0 <= i < |SearchEngines| ==> !HasId(engineId, SearchEngines[i])) ==> e == SearchEngines[0]
  {
    Find(SearchEngines, (e: Engine) => HasId(engineId, e)).GetOr(SearchEngines[0])
  }

  /** A catalog id resolves to its own entry, and to no other. */
  lemma {:induction false} ResolveKnown(i: nat)
    requires i < |SearchEngines|
    ensures Resolve(Str(SearchEngines[i].id)) == SearchEngines[i]
  {
    CatalogIdsDistinct();
    var id := Str(SearchEngines[i].id);
    FindFirst(SearchEngines, (e: Engine) => HasId(id, e), i);
  }

  /** An id outside the catalog, such as a stale stored one, resolves to google. */
  lemma {:induction false} ResolveUnknown(id: string)
    requires forall i :: 0 <= i < |SearchEngines| ==> SearchEngines[i].id != id
    ensures Resolve(Str(id)) == SearchEngines[0] && Resolve(Str(id)).id == DefaultEngineId
  {
  }

  /** What a search asks the browser to do. */
  datatype Navigation =
    | NoOp                  // nothing: no browser, or an empty query
    | NewTab(url: string)   // `window.open(url, '_blank')`
    | InPlace(url: string)  // `window.location.href = url`

  /** The destination of a search: the engine's URL followed by the encoded query. */
  function SearchUrl(engine: Engine, query: string, encode: string -> string): (url: string)
    ensures |url| == |engine.url| + |encode(query)|
    ensures url[..|engine.url|] == engine.url && url[|engine.url|..] == encode(query)
  {
    engine.url + encode(query)
  }

  /** The selected id at start-up: the stored one in a browser, `"google"` otherwise. */
  function InitialEngine(storage: KeyValueStore): (id: Json)
    reads storage
    ensures !storage.browser || SearchEngineKey !in storage.items ==> id == Str(DefaultEngineId)
    ensures storage.browser ==> id == storage.Get(SearchEngineKey, Str(DefaultEngineId))
  {
    if storage.browser then storage.Get(SearchEngineKey, Str(DefaultEngineId)) else Str(DefaultEngineId)
  }

  /**
   * Write-through consistency: once an id has been written to storage, a
   * store started afresh on that storage selects the same id.
   */
  lemma ReloadSeesEngine(storage: KeyValueStore, id: string)
    requires storage.browser && ReadsBack(storage.codec, Str(id))
    requires SearchEngineKey in storage.items
    requires storage.items[SearchEngineKey] == storage.codec.stringify(Str(id))
    ensures InitialEngine(storage) == Str(id)
  {
  }

  class SearchEngineStore {
    /** The shared storage adapter; its `browser` flag is the store's. */
    const storage: KeyValueStore
    /** The selected engine id, as set or as read from storage (unvalidated). */
    var engineId: Json

    constructor (storage: KeyValueStore)
      ensures this.storage == storage
      ensures engineId == InitialEngine(storage)
    {
      this.storage := storage;
      engineId := InitialEngine(storage);
    }

    /**
     * `setEngine`: selects `id`, known to the catalog or not, and writes it
     * through to storage in a browser.
     */
    method SetEngine(id: string)
      modifies this, storage
      ensures engineId == Str(id)
      ensures SavedOrKept(storage, SearchEngineKey, Str(id))
      ensures ReadsBack(storage.codec, Str(id)) ==>
        storage.items == old(storage.items) || InitialEngine(storage) == engineId
    {
      engineId := Str(id);
      if storage.browser {
        var ok := storage.Save(SearchEngineKey, Str(id));
        if ok && ReadsBack(storage.codec, Str(id)) {
          ReloadSeesEngine(storage, id);
        }
      }
    }

    /** `getEngineConfig`: the selected engine, falling back to the first entry. */
    function GetEngineConfig(): (e: Engine)
      reads this
      ensures e in SearchEngines
      ensures e == Resolve(engineId)
    {
      Resolve(engineId)
    }

    /**
     * `search`: nothing outside a browser or for an empty query; otherwise a
     * navigation to the selected engine's URL followed by the encoded query,
     * in a new tab when the stored `openLinksInNewTab` is truthy or absent,
     * in place otherwise. `encode` is the browser's `encodeURIComponent`.
     */
    method Search(query: string, encode: string -> string) returns (nav: Navigation)
      ensures nav == NoOp <==> !storage.browser || query == ""
      ensures !nav.NoOp? ==> nav.url == SearchUrl(GetEngineConfig(), query, encode)
      ensures nav.NewTab? <==>
        storage.browser && query != "" && Truthy(storage.Get(OpenLinksInNewTabKey, Bool(true)))
    {
      if !storage.browser || query == "" {
        return NoOp;
      }
      var engine := Resolve(engineId);
      var searchUrl := SearchUrl(engine, query, encode);
      var openInNewTab := storage.Get(OpenLinksInNewTabKey, Bool(true));
      if Truthy(openInNewTab) {
        nav := NewTab(searchUrl);
      } else {
        nav := InPlace(searchUrl);
      }
    }
  }

  /** With nothing stored, a search opens a new tab. */
  lemma NewTabByDefault(storage: KeyValueStore)
    requires storage.browser && OpenLinksInNewTabKey !in storage.items
    ensures Truthy(storage.Get(OpenLinksInNewTabKey, Bool(true)))
  {
  }

  /** Selecting bing and searching for "cats" targets bing's search page for "cats". */
  lemma {:induction false} BingCats(encode: string -> string)
    requires encode("cats") == "cats"
    ensures SearchUrl(Resolve(Str("bing")), "cats", encode) == "https://www.bing.com/search?q=cats"
  {
    ResolveKnown(1);
    var bing := SearchEngines[1];
    assert bing.url == "https://www.bing.com/search?q=";
    assert bing.url + "cats" == "https://www.bing.com/search?q=cats";
  }

  /**
   * The documented scenario: in a browser with `openLinksInNewTab` unset,
   * selecting bing and searching for "cats" opens bing's search page for
   * "cats" in a new tab.
   */
  method BingCatsScenario(storage: KeyValueStore, encode: string -> string) returns (nav: Navigation)
    requires storage.browser && OpenLinksInNewTabKey !in storage.items
    requires encode("cats") == "cats"
    modifies storage
    ensures nav == NewTab("https://www.bing.com/search?q=cats")
  {
    var store := new SearchEngineStore(storage);
    store.SetEngine("bing");
    assert OpenLinksInNewTabKey !in storage.items;
    nav := store.Search("cats", encode);
    BingCats(encode);
  }

  /** Selecting an id outside the catalog and resolving it gives google, not an error. */
  lemma NonexistentFallsBack()
    ensures Resolve(Str("nonexistent")) == SearchEngines[0]
    ensures Resolve(Str("nonexistent")).id == "google"
  {
    ResolveUnknown("nonexistent");
  }
}
