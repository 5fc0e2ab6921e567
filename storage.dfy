/**
 * The in-memory fallback of the session storage adapter: a record from keys
 * to strings, written in place by `setItem` and `removeItem`. Reading goes
 * through `memoryStorage[key] || null`, so an empty stored string reads back
 * as `null` (`None`) just like a key that was never set.
 */
module Storage {
  import opened Wrappers

  /** What `getItem` returns for `key` over the record `items`. */
  function Lookup(items: map<string, string>, key: string): (r: Option<string>)
    ensures r.Some? <==> key in items && items[key] != ""
    ensures r.Some? ==> r.value == items[key]
  {
    if key in items && items[key] != "" then Some(items[key]) else None
  }

  /** A key never set reads as `null`. */
  lemma UnsetReadsNull(items: map<string, string>, key: string)
    requires key !in items
    ensures Lookup(items, key) == None
  {
  }

  /** After storing `value` under `key`, reading `key` gives `value`, or `null` if `value` is empty. */
  lemma {:induction false} ReadAfterSet(items: map<string, string>, key: string, value: string)
    ensures value != "" ==> Lookup(items[key := value], key) == Some(value)
    ensures value == "" ==> Lookup(items[key := value], key) == None
  {
  }

  /** After removing `key`, reading it gives `null`. */
  lemma ReadAfterRemove(items: map<string, string>, key: string)
    ensures Lookup(items - {key}, key) == None
  {
  }

  /** Storing or removing one key does not change what any other key reads as. */
  lemma OtherKeysUnchanged(items: map<string, string>, key: string, value: string, other: string)
    requires other != key
    ensures Lookup(items[key := value], other) == Lookup(items, other)
    ensures Lookup(items - {key}, other) == Lookup(items, other)
  {
  }

  /** The `memoryStorage` record and the adapter's three operations on it. */
  class MemoryStorage {
    var items: map<string, string>

    constructor()
      ensures items == map[]
    {
      items := map[];
    }

    /** `getItem`: reads the record and changes nothing. */
    method GetItem(key: string) returns (r: Option<string>)
      ensures r.Some? <==> key in items && items[key] != ""
      ensures r.Some? ==> r.value == items[key]
    {
      if key in items && items[key] != "" {
        r := Some(items[key]);
      } else {
        r := None;
      }
    }

    /** `setItem`: `key` now holds `value`; every other key keeps its entry. */
    method SetItem(key: string, value: string)
      modifies this
      ensures items == old(items)[key := value]
      ensures Lookup(items, key) == if value == "" then None else Some(value)
      ensures forall k :: k != key ==> Lookup(items, k) == Lookup(old(items), k)
    {
      items := items[key := value];
    }

    /** `removeItem`: `key` is gone; every other key keeps its entry. */
    method RemoveItem(key: string)
      modifies this
      ensures items == old(items) - {key}
      ensures Lookup(items, key) == None
      ensures forall k :: k != key ==> Lookup(items, k) == Lookup(old(items), k)
    {
      items := items - {key};
    }
  }
}
