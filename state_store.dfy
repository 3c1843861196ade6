/** `InMemoryStateStore` of plugins/koala/state_store.py: a dict of values, set, read, deleted
    and listed by key prefix. */
module StateStore {

  import opened Values
  import KeyValue

  class InMemoryStateStore {
    /** `_store`: the values and the order their keys were inserted in. */
    var store: map<string, Value>
    var order: seq<string>

    ghost predicate Valid()
      reads this
    {
      KeyValue.Valid(store, order)
    }

    constructor ()
      ensures Valid() && store == map[] && order == []
    {
      store := map[];
      order := [];
    }

    /** `set(key, value)`: this key now holds `value`; every other key
        keeps its value. */
    method Set(key: string, value: Value)
      requires Valid()
      modifies this
      ensures Valid()
      ensures store == old(store)[key := value]
      ensures order == KeyValue.InsertKey(old(order), key)
    {
      KeyValue.InsertKeepsValid(store, order, key, value);
      order := KeyValue.InsertKey(order, key);
      store := store[key := value];
    }

    /** `get(key)`: the stored value, None for a key never set or deleted. */
    method Get(key: string) returns (v: Value)
      ensures key in store ==> v == store[key]
      ensures key !in store ==> v == VNone
    {
      v := if key in store then store[key] else VNone;
    }

    /** `delete(key)`: the key is gone (a no-op if it was absent); every
        other key keeps its value. */
    method Delete(key: string)
      requires Valid()
      modifies this
      ensures Valid()
      ensures store == old(store) - {key}
      ensures order == KeyValue.RemoveKey(old(order), key)
    {
      KeyValue.RemoveKeepsValid(store, order, key);
      order := KeyValue.RemoveKey(order, key);
      store := store - {key};
    }

    /** `list_keys(prefix)`: the keys in insertion order, those starting
        with `prefix` when one is given, each once. */
    method ListKeys(prefix: Option<string>) returns (keys: seq<string>)
      requires Valid()
      ensures keys == KeyValue.KeysWithPrefix(order, prefix)
      ensures Distinct(keys)
      ensures forall k :: k in keys <==> k in store && (prefix.None? || StartsWith(k, prefix.value))
    {
      KeyValue.ListedKeysExact(store, order, prefix);
      if prefix.None? {
        return order;
      }
      keys := [];
      for i := 0 to |order|
        invariant keys == KeyValue.KeysWithPrefix(order[..i], prefix)
      {
        assert order[..i + 1][..i] == order[..i];
        if StartsWith(order[i], prefix.value) {
          keys := keys + [order[i]];
        }
      }
      assert order[..|order|] == order;
    }
  }
}
