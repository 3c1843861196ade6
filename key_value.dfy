/** What the in-memory stores (plugins/koala/memory.py and
    plugins/koala/state_store.py) keep: a Python dict, that is a table of
    values together with the order its keys were first inserted in. */
module KeyValue {

  import opened Values

  /** The key order lists each key of the table exactly once. */
  ghost predicate Valid(table: map<string, Value>, order: seq<string>) {
    Distinct(order) && forall k :: k in order <==> k in table
  }

  /** `d[key] = value`: a new key goes to the end, an existing one keeps
      its place. */
  function InsertKey(order: seq<string>, key: string): (r: seq<string>)
    ensures key in order ==> r == order
    ensures key !in order ==> r == order + [key]
  {
    if key in order then order else order + [key]
  }

  /** `d.pop(key, None)`: the key leaves the order, the others keep theirs. */
  function RemoveKey(order: seq<string>, key: string): (r: seq<string>)
    ensures forall k :: k in r <==> k in order && k != key
    ensures |r| <= |order|
  {
    if order == [] then []
    else
      var last := order[|order| - 1];
      RemoveKey(order[..|order| - 1], key) + (if last == key then [] else [last])
  }

  /** The keys in order, those starting with `prefix` when one is given. */
  function KeysWithPrefix(order: seq<string>, prefix: Option<string>): (r: seq<string>)
    ensures forall k :: k in r <==> k in order && (prefix.None? || StartsWith(k, prefix.value))
    ensures |r| <= |order|
  {
    if prefix.None? || order == [] then order
    else
      var last := order[|order| - 1];
      KeysWithPrefix(order[..|order| - 1], prefix) + (if StartsWith(last, prefix.value) then [last] else [])
  }

  /** Filtering keeps the relative order, so distinct keys stay distinct. */
  lemma {:induction false} RemoveKeyDistinct(order: seq<string>, key: string)
    requires Distinct(order)
    ensures Distinct(RemoveKey(order, key))
    decreases |order|
  {
    if order != [] {
      var init := order[..|order| - 1];
      var last := order[|order| - 1];
      assert Distinct(init);
      RemoveKeyDistinct(init, key);
      assert last !in init;
    }
  }

  lemma {:induction false} KeysWithPrefixDistinct(order: seq<string>, prefix: Option<string>)
    requires Distinct(order)
    ensures Distinct(KeysWithPrefix(order, prefix))
    decreases |order|
  {
    if prefix.Some? && order != [] {
      var init := order[..|order| - 1];
      var last := order[|order| - 1];
      assert Distinct(init);
      KeysWithPrefixDistinct(init, prefix);
      assert last !in init;
    }
  }

  /** Setting a key keeps the table and its order in step. */
  lemma InsertKeepsValid(table: map<string, Value>, order: seq<string>, key: string, value: Value)
    requires Valid(table, order)
    ensures Valid(table[key := value], InsertKey(order, key))
  {
    var o := InsertKey(order, key);
    if key !in order {
      forall i, j | 0 <= i < j < |o| ensures o[i] != o[j] {
        if j == |order| {
          assert o[i] == order[i];
        }
      }
    }
  }

  /** Deleting a key keeps the table and its order in step. */
  lemma RemoveKeepsValid(table: map<string, Value>, order: seq<string>, key: string)
    requires Valid(table, order)
    ensures Valid(table - {key}, RemoveKey(order, key))
  {
    RemoveKeyDistinct(order, key);
  }

  /** `list_keys(prefix)` lists exactly the stored keys starting with the
      prefix (all of them without one), each once. */
  lemma ListedKeysExact(table: map<string, Value>, order: seq<string>, prefix: Option<string>)
    requires Valid(table, order)
    ensures Distinct(KeysWithPrefix(order, prefix))
    ensures forall k :: k in KeysWithPrefix(order, prefix) <==>
      k in table && (prefix.None? || StartsWith(k, prefix.value))
  {
    KeysWithPrefixDistinct(order, prefix);
  }

  /** Listing with the empty prefix is listing everything. */
  lemma {:induction false} EmptyPrefixListsAll(order: seq<string>)
    ensures KeysWithPrefix(order, Some("")) == order
    decreases |order|
  {
    if order != [] {
      EmptyPrefixListsAll(order[..|order| - 1]);
      assert StartsWith(order[|order| - 1], "");
      assert order[..|order| - 1] + [order[|order| - 1]] == order;
    }
  }
}
