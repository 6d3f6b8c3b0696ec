/**
 * The browser's key-value store as the catalog sees it: each key holds
 * either a saved catalog or text that does not parse. Only the first read
 * of `useLocalStorage` (src/hooks/useLocalStorage.js) is modelled; writes are
 * map updates made by the callers.
 */
module BrowserStorage {

  import opened Catalog

  datatype StoredItem = Unparsable | Saved(technologies: seq<Technology>)

  type Storage = map<string, StoredItem>

  /**
   * The initial state of `useLocalStorage(key, initial)`: the saved catalog
   * under `key`, or `initial` when the key is missing or its text does not
   * parse.
   */
  function ReadOrDefault(storage: Storage, key: string, initial: seq<Technology>): (ts: seq<Technology>)
    ensures key in storage && storage[key].Saved? ==> ts == storage[key].technologies
    ensures key !in storage || storage[key].Unparsable? ==> ts == initial
  {
    if key in storage && storage[key].Saved? then storage[key].technologies else initial
  }

  /** Writing or removing any other key never changes what is read under `key`. */
  lemma ReadIgnoresOtherKeys(storage: Storage, key: string, other: string, item: StoredItem, initial: seq<Technology>)
    requires other != key
    ensures ReadOrDefault(storage[other := item], key, initial) == ReadOrDefault(storage, key, initial)
    ensures ReadOrDefault(storage - {other}, key, initial) == ReadOrDefault(storage, key, initial)
  {
  }
}
