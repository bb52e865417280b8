/**
 * The tools preference: the ordered list of active tool ids, its
 * mutations (each written through to storage) and the catalog lookups.
 */
module Tools {
  import opened Wrappers
  import opened Json
  import opened Arrays
  import opened Storage

  /** A catalog entry; only the id has behaviour. */
  datatype Tool = Tool(id: string)

  const AvailableTools: seq<Tool> := [Tool("weather"), Tool("clock")]
  const DefaultActiveTools: seq<string> := ["weather", "clock"]
  const ActiveToolsKey: string := "activeTools"

  /** No id occurs twice. */
  predicate NoDuplicates(ids: seq<string>)
  {
    forall i, j :: 0 <= i < j < |ids| ==> ids[i] != ids[j]
  }

  /** `getToolConfig`: the catalog entry with id `id`, and nothing (no fallback) for an unknown id. */
  function GetToolConfig(id: string): (r: Option<Tool>)
    ensures r.Some? <==> exists i :: 0 <= i < |AvailableTools| && AvailableTools[i].id == id
    ensures r.Some? ==> r.value in AvailableTools && r.value.id == id
  {
    Find(AvailableTools, (t: Tool) => t.id == id)
  }

  /** Whether the catalog knows `id`. */
  predicate IsKnown(id: string)
  {
    GetToolConfig(id).Some?
  }

  /** The list `addTool(id)` leaves: unchanged when `id` is active, else `id` appended. */
  function WithTool(ids: seq<string>, id: string): (r: seq<string>)
    ensures id in r
    ensures |r| == if id in ids then |ids| else |ids| + 1
    ensures r[..|ids|] == ids
    ensures forall x :: x in r <==> x in ids || x == id
  {
    if id in ids then ids else ids + [id]
  }

  /** Adding twice is adding once. */
  lemma AddIdempotent(ids: seq<string>, id: string)
    ensures WithTool(WithTool(ids, id), id) == WithTool(ids, id)
  {
  }

  /** Adding keeps a duplicate-free list duplicate-free. */
  lemma AddKeepsNoDuplicates(ids: seq<string>, id: string)
    requires NoDuplicates(ids)
    ensures NoDuplicates(WithTool(ids, id))
  {
  }

  /** Whether `x` survives the removal of `id`. */
  predicate Other(id: string, x: string)
  {
    x != id
  }

  /** The list `removeTool(id)` leaves: every occurrence of `id` filtered out. */
  function WithoutTool(ids: seq<string>, id: string): (r: seq<string>)
    ensures id !in r
    ensures |r| <= |ids|
    ensures forall x :: x in r <==> x in ids && x != id
  {
    Filter(ids, x => Other(id, x))
  }

  /** Removal keeps everything else: each other id keeps its number of occurrences. */
  lemma {:induction false} RemoveKeepsOthers(ids: seq<string>, id: string, x: string)
    requires x != id
    ensures multiset(WithoutTool(ids, id))[x] == multiset(ids)[x]
    ensures multiset(WithoutTool(ids, id))[id] == 0
  {
    FilterCount(ids, y => Other(id, y), x);
    FilterCount(ids, y => Other(id, y), id);
  }

  /** The surviving ids keep their relative order: removal distributes over concatenation. */
  lemma {:induction false} RemoveKeepsOrder(a: seq<string>, b: seq<string>, id: string)
    ensures WithoutTool(a + b, id) == WithoutTool(a, id) + WithoutTool(b, id)
  {
    FilterAppend(a, b, y => Other(id, y));
  }

  /** Removing an inactive id leaves the list as it was, so removing twice is removing once. */
  lemma {:induction false} RemoveAbsentIsNoOp(ids: seq<string>, id: string)
    ensures id !in ids ==> WithoutTool(ids, id) == ids
    ensures WithoutTool(WithoutTool(ids, id), id) == WithoutTool(ids, id)
  {
    if id !in ids {
      FilterKeepsAll(ids, y => Other(id, y));
    }
    FilterIdempotent(ids, y => Other(id, y));
  }

  /** Removing keeps a duplicate-free list duplicate-free. */
  lemma {:induction false} RemoveKeepsNoDuplicates(ids: seq<string>, id: string)
    requires NoDuplicates(ids)
    ensures NoDuplicates(WithoutTool(ids, id))
  {
    var r := WithoutTool(ids, id);
    forall x | x in r
      ensures multiset(r)[x] <= 1
    {
      RemoveKeepsOthers(ids, id, x);
      NoDuplicatesCount(ids, x);
    }
    CountAtMostOneNoDuplicates(r);
  }

  /** In a duplicate-free list every id occurs at most once. */
  lemma {:induction false} NoDuplicatesCount(ids: seq<string>, x: string)
    requires NoDuplicates(ids)
    ensures multiset(ids)[x] <= 1
  {
    if ids != [] {
      assert ids == [ids[0]] + ids[1..];
      NoDuplicatesCount(ids[1..], x);
      if ids[0] == x {
        assert x !in ids[1..];
      }
    }
  }

  /** A list in which every id occurs at most once has no duplicates. */
  lemma {:induction false} CountAtMostOneNoDuplicates(ids: seq<string>)
    requires forall x :: x in ids ==> multiset(ids)[x] <= 1
    ensures NoDuplicates(ids)
  {
    if ids != [] {
      assert ids == [ids[0]] + ids[1..];
      assert multiset(ids) == multiset{ids[0]} + multiset(ids[1..]);
      assert ids[0] !in ids[1..] by {
        assert ids[0] in ids;
        assert multiset(ids[1..])[ids[0]] == 0;
      }
      forall x | x in ids[1..]
        ensures multiset(ids[1..])[x] <= 1
      {
        assert x in ids;
      }
      CountAtMostOneNoDuplicates(ids[1..]);
    }
  }

  /** `getActiveToolsConfig` on `ids`: their catalog entries, in order, unknown ids dropped. */
  function ActiveConfigs(ids: seq<string>): (r: seq<Tool>)
    ensures |r| <= |ids|
    ensures forall i :: 0 <= i < |r| ==> r[i] in AvailableTools && r[i].id in ids
  {
    if ids == [] then []
    else
      (match GetToolConfig(ids[0]) case Some(t) => [t] case None => []) + ActiveConfigs(ids[1..])
  }

  /** The ids of a list of catalog entries. */
  function ToolIds(ts: seq<Tool>): (ids: seq<string>)
    ensures |ids| == |ts|
    ensures forall i :: 0 <= i < |ts| ==> ids[i] == ts[i].id
  {
    if ts == [] then [] else [ts[0].id] + ToolIds(ts[1..])
  }

  /**
   * The configurations are those of the known active ids, in the order of
   * the active list: the ids of the result are the active ids with the
   * unknown ones filtered out.
   */
  lemma {:induction false} ActiveConfigsOrder(ids: seq<string>)
    ensures ToolIds(ActiveConfigs(ids)) == Filter(ids, IsKnown)
  {
    if ids != [] {
      ActiveConfigsOrder(ids[1..]);
      var head := match GetToolConfig(ids[0]) case Some(t) => [t] case None => [];
      ToolIdsAppend(head, ActiveConfigs(ids[1..]));
    }
  }

  lemma {:induction false} ToolIdsAppend(a: seq<Tool>, b: seq<Tool>)
    ensures ToolIds(a + b) == ToolIds(a) + ToolIds(b)
  {
    assert |ToolIds(a + b)| == |ToolIds(a) + ToolIds(b)|;
    forall i | 0 <= i < |a + b|
      ensures ToolIds(a + b)[i] == (ToolIds(a) + ToolIds(b))[i]
    {
    }
  }

  /** A fresh store's configurations are weather's then clock's. */
  lemma DefaultConfigs()
    ensures ActiveConfigs(DefaultActiveTools) == [Tool("weather"), Tool("clock")]
  {
    assert GetToolConfig("weather") == Some(Tool("weather"));
    assert GetToolConfig("clock") == Some(Tool("clock")) by {
      FindFirst(AvailableTools, (t: Tool) => t.id == "clock", 1);
    }
    assert DefaultActiveTools[1..] == ["clock"];
  }

  /** After reordering to clock, weather the configurations come in that order. */
  lemma ReorderedConfigs()
    ensures ActiveConfigs(["clock", "weather"]) == [Tool("clock"), Tool("weather")]
  {
    assert GetToolConfig("weather") == Some(Tool("weather"));
    assert GetToolConfig("clock") == Some(Tool("clock")) by {
      FindFirst(AvailableTools, (t: Tool) => t.id == "clock", 1);
    }
    assert ["clock", "weather"][1..] == ["weather"];
  }

  /** The stored form of an id list: a JSON array of strings. */
  function IdsToJson(ids: seq<string>): (v: Json)
    ensures v.Arr? && |v.items| == |ids|
  {
    Arr(StrItems(ids))
  }

  function StrItems(ids: seq<string>): (items: seq<Json>)
    ensures |items| == |ids|
    ensures forall i :: 0 <= i < |ids| ==> items[i] == Str(ids[i])
  {
    if ids == [] then [] else [Str(ids[0])] + StrItems(ids[1..])
  }

  /** The id list a stored value holds, when it is an array of strings. */
  function IdsFromJson(v: Json): (r: Option<seq<string>>)
  {
    match v
    case Arr(items) => StringsOf(items)
    case _ => None
  }

  function StringsOf(items: seq<Json>): (r: Option<seq<string>>)
    ensures r.Some? <==> forall i :: 0 <= i < |items| ==> items[i].Str?
    ensures r.Some? ==> |r.value| == |items| && forall i :: 0 <= i < |items| ==> items[i] == Str(r.value[i])
  {
    if items == [] then Some([])
    else if !items[0].Str? then None
    else
      match StringsOf(items[1..])
      case None => None
      case Some(rest) => Some([items[0].s] + rest)
  }

  /** Reading back the stored form of an id list gives the list. */
  lemma {:induction false} IdsRoundTrip(ids: seq<string>)
    ensures IdsFromJson(IdsToJson(ids)) == Some(ids)
  {
    if ids != [] {
      IdsRoundTrip(ids[1..]);
      assert StrItems(ids)[1..] == StrItems(ids[1..]);
      assert [ids[0]] + ids[1..] == ids;
    }
  }

  /**
   * The list at start-up: in a browser the stored `activeTools` list,
   * defaulting to weather, clock; outside a browser the default.
   */
  function InitialActiveTools(storage: KeyValueStore): (ids: seq<string>)
    reads storage
    ensures !storage.browser ==> ids == DefaultActiveTools
    ensures ids == DefaultActiveTools ||
      (storage.browser && IdsFromJson(storage.Get(ActiveToolsKey, IdsToJson(DefaultActiveTools))) == Some(ids))
    ensures storage.browser && IdsFromJson(storage.Get(ActiveToolsKey, IdsToJson(DefaultActiveTools))).Some? ==>
      IdsFromJson(storage.Get(ActiveToolsKey, IdsToJson(DefaultActiveTools))) == Some(ids)
  {
    if storage.browser then
      IdsFromJson(storage.Get(ActiveToolsKey, IdsToJson(DefaultActiveTools))).GetOr(DefaultActiveTools)
    else DefaultActiveTools
  }

  /** With nothing stored, or outside a browser, the list starts as weather, clock. */
  lemma {:induction false} InitialWithoutStoredList(storage: KeyValueStore)
    requires !storage.browser || ActiveToolsKey !in storage.items
    ensures InitialActiveTools(storage) == DefaultActiveTools
  {
    IdsRoundTrip(DefaultActiveTools);
  }

  /**
   * Write-through consistency: once a list has been written to storage, a
   * store started afresh on that storage holds the same list.
   */
  lemma {:induction false} ReloadSeesWrite(storage: KeyValueStore, ids: seq<string>)
    requires storage.browser && ReadsBack(storage.codec, IdsToJson(ids))
    requires ActiveToolsKey in storage.items
    requires storage.items[ActiveToolsKey] == storage.codec.stringify(IdsToJson(ids))
    ensures InitialActiveTools(storage) == ids
  {
    SaveThenGet(storage, ActiveToolsKey, IdsToJson(ids), IdsToJson(DefaultActiveTools));
    IdsRoundTrip(ids);
  }

  class ToolsStore {
    /** The shared storage adapter; its `browser` flag is the store's. */
    const storage: KeyValueStore
    /** The active tool ids, in render order. */
    var active: seq<string>

    constructor (storage: KeyValueStore)
      ensures this.storage == storage
      ensures active == InitialActiveTools(storage)
    {
      this.storage := storage;
      active := InitialActiveTools(storage);
    }

    /** Writes the current list through to storage, in a browser. */
    method Persist()
      modifies storage
      ensures SavedOrKept(storage, ActiveToolsKey, IdsToJson(active))
      ensures ReadsBack(storage.codec, IdsToJson(active)) ==>
        storage.items == old(storage.items) || InitialActiveTools(storage) == active
    {
      if storage.browser {
        var ok := storage.Save(ActiveToolsKey, IdsToJson(active));
        if ok && ReadsBack(storage.codec, IdsToJson(active)) {
          ReloadSeesWrite(storage, active);
        }
      }
    }

    /**
     * `addTool`: appends `id` unless it is already active; only an actual
     * append is written to storage.
     */
    method AddTool(id: string)
      modifies this, storage
      ensures active == WithTool(old(active), id)
      ensures IsActive(id)
      ensures id in old(active) ==> unchanged(storage)
      ensures id !in old(active) ==> SavedOrKept(storage, ActiveToolsKey, IdsToJson(active))
      ensures ReadsBack(storage.codec, IdsToJson(active)) ==>
        storage.items == old(storage.items) || InitialActiveTools(storage) == active
    {
      if id in active {
        return;
      }
      active := active + [id];
      Persist();
    }

    /** `removeTool`: drops every occurrence of `id` and always writes the result. */
    method RemoveTool(id: string)
      modifies this, storage
      ensures active == WithoutTool(old(active), id)
      ensures !IsActive(id)
      ensures SavedOrKept(storage, ActiveToolsKey, IdsToJson(active))
      ensures ReadsBack(storage.codec, IdsToJson(active)) ==>
        storage.items == old(storage.items) || InitialActiveTools(storage) == active
    {
      active := WithoutTool(active, id);
      Persist();
    }

    /** `reorderTools`: replaces the list wholesale, with no check that it is a permutation. */
    method ReorderTools(newOrder: seq<string>)
      modifies this, storage
      ensures active == newOrder
      ensures SavedOrKept(storage, ActiveToolsKey, IdsToJson(newOrder))
      ensures ReadsBack(storage.codec, IdsToJson(active)) ==>
        storage.items == old(storage.items) || InitialActiveTools(storage) == active
    {
      active := newOrder;
      Persist();
    }

    /** `resetToDefault`: back to weather, clock. */
    method ResetToDefault()
      modifies this, storage
      ensures active == DefaultActiveTools
      ensures SavedOrKept(storage, ActiveToolsKey, IdsToJson(DefaultActiveTools))
      ensures ReadsBack(storage.codec, IdsToJson(active)) ==>
        storage.items == old(storage.items) || InitialActiveTools(storage) == active
    {
      active := DefaultActiveTools;
      Persist();
    }

    /** `isActive`: whether `id` is in the active list. */
    predicate IsActive(id: string)
      reads this
      ensures IsActive(id) <==> exists i :: 0 <= i < |active| && active[i] == id
    {
      id in active
    }

    /** `getActiveToolsConfig`: the catalog entries of the active ids, in order. */
    function GetActiveToolsConfig(): (r: seq<Tool>)
      reads this
      ensures |r| <= |active|
      ensures ToolIds(r) == Filter(active, IsKnown)
    {
      ActiveConfigsOrder(active);
      ActiveConfigs(active)
    }
  }
}
