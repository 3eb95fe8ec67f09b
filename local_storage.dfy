/**
 * The storage adapter of src/utils/localStorage.js: `loadState`, `saveState` and
 * `removeState` over the browser's key/value store, every key namespaced as
 * `myshop_v1:<key>`. The store is a map from full key to entry; an entry holds
 * the cart JSON serialized, or text that does not parse. `JSON.stringify`
 * followed by `JSON.parse` gives the cart back exactly. A storage call that
 * throws is the `fault` parameter: the adapter catches it, so the caller sees
 * `undefined` from a load and nothing at all from a save or a remove.
 */
module Storage {
  import opened Wrappers
  import opened CartSlice

  const DefaultPrefix := "myshop_v1"
  const DefaultKey := "cart"

  /** `${DEFAULT_PREFIX}:${key}`. */
  function StorageKey(key: string): (k: string)
    ensures |k| == |DefaultPrefix| + 1 + |key|
    ensures k[..|DefaultPrefix| + 1] == "myshop_v1:" && k[|DefaultPrefix| + 1..] == key
  {
    DefaultPrefix + ":" + key
  }

  /** The parameter default `key = "cart"`. */
  function KeyOrDefault(key: Option<string>): string {
    key.GetOr(DefaultKey)
  }

  datatype Entry = Serialized(cart: Cart) | Unparseable

  /** What `loadState(key)` returns when reading the store does not throw. */
  function Lookup(entries: map<string, Entry>, key: string): Option<Cart> {
    var k := StorageKey(key);
    if k in entries && entries[k].Serialized? then Some(entries[k].cart) else None
  }

  /** The store after a `saveState(value, key)` that succeeds. */
  function Saved(entries: map<string, Entry>, key: string, value: Cart): map<string, Entry> {
    entries[StorageKey(key) := Serialized(value)]
  }

  /** The store after a `removeState(key)` that succeeds. */
  function Removed(entries: map<string, Entry>, key: string): map<string, Entry> {
    entries - {StorageKey(key)}
  }

  /** Distinct keys name distinct entries: the prefix keeps namespaced keys apart. */
  lemma StorageKeyInjective(a: string, b: string)
    ensures StorageKey(a) == StorageKey(b) <==> a == b
  {
    if StorageKey(a) == StorageKey(b) {
      assert a == StorageKey(a)[|DefaultPrefix| + 1..] == StorageKey(b)[|DefaultPrefix| + 1..] == b;
    }
  }

  /** `saveState(v, k)` followed by `loadState(k)` gives back `v`. */
  lemma LoadAfterSave(entries: map<string, Entry>, key: string, value: Cart)
    ensures Lookup(Saved(entries, key, value), key) == Some(value)
  {
  }

  /** `removeState(k)` followed by `loadState(k)` gives undefined. */
  lemma LoadAfterRemove(entries: map<string, Entry>, key: string)
    ensures Lookup(Removed(entries, key), key) == None
  {
  }

  /** Saving or removing one key leaves what every other key loads unchanged. */
  lemma OtherKeysUntouched(entries: map<string, Entry>, key: string, other: string, value: Cart)
    requires other != key
    ensures Lookup(Saved(entries, key, value), other) == Lookup(entries, other)
    ensures Lookup(Removed(entries, key), other) == Lookup(entries, other)
    ensures StorageKey(other) in Saved(entries, key, value) <==> StorageKey(other) in entries
    ensures StorageKey(other) in Removed(entries, key) <==> StorageKey(other) in entries
  {
    StorageKeyInjective(key, other);
  }

  /** The browser's key/value store. */
  class LocalStorage {
    var entries: map<string, Entry>

    constructor (entries: map<string, Entry>)
      ensures this.entries == entries
    {
      this.entries := entries;
    }

    /** `loadState(key)`: undefined for an absent key, an unparseable entry or a failing read. */
    method LoadState(key: Option<string>, fault: bool) returns (r: Option<Cart>)
      ensures var k := StorageKey(KeyOrDefault(key));
        && (fault ==> r == None)
        && (k !in entries ==> r == None)
        && (k in entries && entries[k] == Unparseable ==> r == None)
        && (!fault && k in entries && entries[k].Serialized? ==> r == Some(entries[k].cart))
    {
      if fault {
        return None;
      }
      var k := StorageKey(KeyOrDefault(key));
      if k !in entries {
        return None;
      }
      match entries[k]
      case Unparseable => r := None;
      case Serialized(c) => r := Some(c);
    }

    /** `saveState(value, key)`: a failing write leaves the store as it was. */
    method SaveState(value: Cart, key: Option<string>, fault: bool)
      modifies this
      ensures entries == if fault then old(entries) else Saved(old(entries), KeyOrDefault(key), value)
    {
      if !fault {
        entries := entries[StorageKey(KeyOrDefault(key)) := Serialized(value)];
      }
    }

    /** `removeState(key)`: a failing removal leaves the store as it was. */
    method RemoveState(key: Option<string>, fault: bool)
      modifies this
      ensures entries == if fault then old(entries) else Removed(old(entries), KeyOrDefault(key))
    {
      if !fault {
        entries := entries - {StorageKey(KeyOrDefault(key))};
      }
    }
  }
}
