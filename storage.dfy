/**
 * The persisted key-value adapter: save, get-with-default, remove, clear and
 * has-key over the browser's string-keyed storage. Outside a browser every
 * operation short-circuits to an inert result.
 */
module Storage {
  import opened Wrappers
  import opened Json

  /** One call of the medium's `setItem`: the key and the text handed to it. */
  datatype Write = Write(key: string, text: string)

  class KeyValueStore {
    /** Whether the code runs in a browser; fixed at start-up. */
    const browser: bool
    /** The text encoding of stored values. */
    const codec: Codec
    /** The contents of the storage medium: key to stored text. */
    var items: map<string, string>
    /** Every `setItem` attempt so far, in order, whether the medium accepted it or not. */
    ghost var writes: seq<Write>

    constructor (browser: bool, codec: Codec, items: map<string, string>)
      ensures this.browser == browser && this.codec == codec
      ensures this.items == items && writes == []
    {
      this.browser := browser;
      this.codec := codec;
      this.items := items;
      writes := [];
    }

    /**
     * `saveToStorage`: stores the encoded value under `key`. The medium may
     * refuse the write (a full quota); then nothing changes and the result is
     * `false`.
     */
    method Save(key: string, value: Json) returns (ok: bool)
      modifies this
      ensures !browser ==> !ok && items == old(items) && writes == old(writes)
      ensures browser ==> writes == old(writes) + [Write(key, codec.stringify(value))]
      ensures ok ==> items == old(items)[key := codec.stringify(value)]
      ensures !ok ==> items == old(items)
      ensures ok && ReadsBack(codec, value) ==> forall d :: Get(key, d) == value
    {
      if !browser {
        return false;
      }
      var text := codec.stringify(value);
      writes := writes + [Write(key, text)];
      var accepted: bool := *;
      if accepted {
        items := items[key := text];
      }
      ok := accepted;
    }

    /**
     * `getFromStorage`: the decoded value under `key`; `defaultValue` itself
     * outside a browser, for an absent key and for text that does not parse.
     */
    function Get(key: string, defaultValue: Json := Null): (r: Json)
      reads this
      ensures !browser || key !in items ==> r == defaultValue
      ensures r == defaultValue || (browser && key in items && codec.parse(items[key]) == Some(r))
      ensures browser && key in items && codec.parse(items[key]).Some? ==> codec.parse(items[key]) == Some(r)
    {
      if !browser then defaultValue
      else if key !in items then defaultValue
      else codec.parse(items[key]).GetOr(defaultValue)
    }

    /** `removeFromStorage`: deletes `key`; a missing key is no error. */
    method Remove(key: string) returns (ok: bool)
      modifies this
      ensures ok == browser
      ensures items == if browser then old(items) - {key} else old(items)
      ensures writes == old(writes)
      ensures !HasKey(key)
    {
      if !browser {
        return false;
      }
      items := items - {key};
      ok := true;
    }

    /** `clearStorage`: deletes every key. */
    method Clear() returns (ok: bool)
      modifies this
      ensures ok == browser
      ensures items == if browser then map[] else old(items)
      ensures writes == old(writes)
      ensures forall k :: !HasKey(k)
    {
      if !browser {
        return false;
      }
      items := map[];
      ok := true;
    }

    /** `hasKey`: whether the medium holds `key`; `false` outside a browser. */
    predicate HasKey(key: string)
      reads this
      ensures !browser ==> !HasKey(key)
      ensures HasKey(key) <==> browser && key in items
      ensures !HasKey(key) ==> forall d :: Get(key, d) == d
    {
      browser && key in items
    }
  }

  /**
   * What a store's write-through does to the medium between two states: in a
   * browser exactly one `setItem` of `value` under `key`, which the medium may
   * refuse; outside a browser nothing.
   */
  twostate predicate SavedOrKept(s: KeyValueStore, key: string, value: Json)
    reads s
  {
    && s.writes == (if s.browser then old(s.writes) + [Write(key, s.codec.stringify(value))] else old(s.writes))
    && (s.items == old(s.items) || (s.browser && s.items == old(s.items)[key := s.codec.stringify(value)]))
  }

  /** A value saved under `key` reads back as itself, whatever the default. */
  lemma SaveThenGet(s: KeyValueStore, key: string, value: Json, d: Json)
    requires ReadsBack(s.codec, value) && s.browser
    requires key in s.items && s.items[key] == s.codec.stringify(value)
    ensures s.Get(key, d) == value
  {
  }
}
