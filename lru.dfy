/**
 * lru/lru.go: an LRU cache that keeps a byte budget over an existing
 * key/value store. The mutex is left out: every method runs atomically.
 */
module Lru {
  import LruSpec

  type Key = LruSpec.Key

  newtype byte = b: int | 0 <= b < 256

  type Bytes = seq<byte>

  /** One call the LRU layer makes on its backing store. */
  datatype StoreCall = StoreGet(key: Key) | StoreSet(key: Key, value: Bytes) | StoreDelete(key: Key)

  /**
   * The backing store (an httpcache.Cache): a key/value map whose Set
   * overwrites and whose Delete of a missing key does nothing. `calls`
   * records, in order, every call made on it.
   */
  class Store {
    var data: map<Key, Bytes>
    ghost var calls: seq<StoreCall>

    constructor ()
      ensures data == map[] && calls == []
    {
      data := map[];
      calls := [];
    }

    method Get(key: Key) returns (value: Bytes, ok: bool)
      modifies this`calls
      ensures ok == (key in data)
      ensures value == if ok then data[key] else []
      ensures calls == old(calls) + [StoreGet(key)]
    {
      ok := key in data;
      value := if ok then data[key] else [];
      calls := calls + [StoreGet(key)];
    }

    method Set(key: Key, value: Bytes)
      modifies this
      ensures data == old(data)[key := value]
      ensures calls == old(calls) + [StoreSet(key, value)]
    {
      data := data[key := value];
      calls := calls + [StoreSet(key, value)];
    }

    method Delete(key: Key)
      modifies this
      ensures data == old(data) - {key}
      ensures calls == old(calls) + [StoreDelete(key)]
    {
      data := data - {key};
      calls := calls + [StoreDelete(key)];
    }
  }

  /** The store calls that delete `keys`, in order. */
  ghost function DeleteCalls(keys: seq<Key>): seq<StoreCall>
  {
    if keys == [] then [] else DeleteCalls(keys[..|keys| - 1]) + [StoreDelete(keys[|keys| - 1])]
  }

  ghost function RemoveAll(data: map<Key, Bytes>, keys: seq<Key>): map<Key, Bytes>
  {
    data - (set k | k in keys)
  }

  lemma RemoveAllSnoc(data: map<Key, Bytes>, keys: seq<Key>, k: Key)
    ensures RemoveAll(data, keys + [k]) == RemoveAll(data, keys) - {k}
  {
    assert (set x | x in keys + [k]) == (set x | x in keys) + {k};
  }

  /**
   * When the store held exactly the indexed keys before Set, it still does
   * after the victims are deleted and the new value is written.
   */
  lemma SyncedAfterSet(data: map<Key, Bytes>, sizes: map<Key, nat>, after: map<Key, nat>, victims: seq<Key>, key: Key, resp: Bytes)
    requires sizes.Keys == data.Keys && key !in victims
    requires after.Keys == (sizes.Keys + {key}) - (set v | v in victims)
    ensures after.Keys == RemoveAll(data, victims)[key := resp].Keys
  {
    var gone := set v | v in victims;
    assert RemoveAll(data, victims).Keys == data.Keys - gone;
  }

  /** lru.Cache: field `cap` is `budget`, `items` holds each item's size, `order` is `list` front to back. */
  class Cache {
    const store: Store
    ghost const capacity: int
    var budget: int
    var items: map<Key, nat>
    var order: seq<Key>

    function View(): LruSpec.Index
      reads this
    {
      LruSpec.Index(budget, items, order)
    }

    /** The bookkeeping invariant and the capacity invariant. */
    ghost predicate Valid()
      reads this
    {
      LruSpec.Valid(View(), capacity) && LruSpec.WithinBudget(View())
    }

    /** The indexed keys are exactly the stored keys (the store is used by nobody else). */
    ghost predicate Synced()
      reads this, store
    {
      items.Keys == store.data.Keys
    }

    /** New(c, cap). */
    constructor (c: Store, cap: int)
      ensures Valid()
      ensures store == c && capacity == cap && View() == LruSpec.Empty(cap)
    {
      store := c;
      capacity := cap;
      budget := cap;
      items := map[];
      order := [];
    }

    /**
     * Get: a miss answers not-found without calling the store; a hit moves
     * the key to the front and answers whatever the store answers.
     */
    method Get(key: Key) returns (resp: Bytes, ok: bool)
      requires Valid()
      modifies this, store`calls
      ensures Valid()
      ensures View() == LruSpec.Touch(old(View()), key)
      ensures store.data == old(store.data)
      ensures key !in old(items) ==> !ok && resp == [] && store.calls == old(store.calls)
      ensures key in old(items) ==>
        && store.calls == old(store.calls) + [StoreGet(key)]
        && ok == (key in store.data)
        && resp == (if ok then store.data[key] else [])
      ensures old(Synced()) ==> Synced() && ok == (key in old(items))
    {
      ghost var after := LruSpec.Touch(View(), key);
      assert LruSpec.Valid(after, capacity) && LruSpec.WithinBudget(after) && after.sizes == items by {
        LruSpec.TouchValid(View(), capacity, key);
      }
      if key !in items {
        return [], false;
      }
      order := [key] + LruSpec.Without(order, key);
      assert View() == after;
      resp, ok := store.Get(key);
    }

    /** purge: forget an indexed key, unlink it and refund its size. */
    method Purge(key: Key)
      requires key in items
      modifies this
      ensures View() == LruSpec.Purge(old(View()), key)
    {
      var size := items[key];
      items := items - {key};
      order := LruSpec.Without(order, key);
      budget := budget + size;
    }

    /** The first half of Set under the lock: index the key at the front with its new size. */
    method Insert(key: Key, size: nat)
      modifies this
      ensures View() == LruSpec.Insert(old(View()), key, size)
    {
      var added: int;
      if key in items {
        order := [key] + LruSpec.Without(order, key);
        added := size - items[key];
        items := items[key := size];
      } else {
        order := [key] + order;
        items := items[key := size];
        added := size;
      }
      budget := budget - added;
    }

    /** The eviction loop of Set: purge from the back while over budget and more than one item is left. */
    method Evict() returns (victims: seq<Key>)
      requires LruSpec.Valid(View(), capacity)
      modifies this
      ensures LruSpec.Valid(View(), capacity)
      ensures (View(), victims) == LruSpec.Evict(old(View()))
    {
      ghost var start := View();
      victims := [];
      assert victims + LruSpec.Evict(View()).1 == LruSpec.Evict(View()).1;
      while budget < 0 && |order| > 1
        invariant LruSpec.Valid(View(), capacity)
        invariant LruSpec.Evict(start) == (LruSpec.Evict(View()).0, victims + LruSpec.Evict(View()).1)
        decreases |order|
      {
        var victim := order[|order| - 1];
        ghost var here := View();
        LruSpec.PurgeValid(here, capacity, victim);
        LruSpec.EvictAccumulates(start, here, victims);
        victims := victims + [victim];
        Purge(victim);
      }
      assert LruSpec.Evict(View()) == (View(), []);
      assert victims + [] == victims;
    }

    /** The loop of Set after the lock: delete every victim from the store, in order. */
    method DropAll(victims: seq<Key>)
      modifies store
      ensures store.calls == old(store.calls) + DeleteCalls(victims)
      ensures store.data == RemoveAll(old(store.data), victims)
    {
      var i := 0;
      assert RemoveAll(store.data, []) == store.data;
      while i < |victims|
        invariant 0 <= i <= |victims|
        invariant store.calls == old(store.calls) + DeleteCalls(victims[..i])
        invariant store.data == RemoveAll(old(store.data), victims[..i])
      {
        assert victims[..i + 1] == victims[..i] + [victims[i]];
        RemoveAllSnoc(old(store.data), victims[..i], victims[i]);
        store.Delete(victims[i]);
        i := i + 1;
      }
      assert victims[..i] == victims;
    }

    /**
     * Set: record the size, evict from the back while over budget, then
     * delete the victims from the store and finally write the value.
     */
    method Set(key: Key, resp: Bytes)
      requires Valid()
      modifies this, store
      ensures Valid()
      ensures View() == LruSpec.Set(old(View()), key, |resp|).0
      ensures store.calls == old(store.calls) + DeleteCalls(LruSpec.Set(old(View()), key, |resp|).1) + [StoreSet(key, resp)]
      ensures store.data == RemoveAll(old(store.data), LruSpec.Set(old(View()), key, |resp|).1)[key := resp]
      ensures old(Synced()) ==> Synced()
    {
      ghost var before := View();
      ghost var result := LruSpec.Set(before, key, |resp|);
      ghost var wasSynced := Synced();
      ghost var oldData := store.data;
      assert LruSpec.Valid(LruSpec.Insert(before, key, |resp|), capacity) by {
        LruSpec.InsertValid(before, capacity, key, |resp|);
      }
      assert LruSpec.Valid(result.0, capacity) && LruSpec.WithinBudget(result.0) && key !in result.1 by {
        LruSpec.SetValid(before, capacity, key, |resp|);
      }
      Insert(key, |resp|);
      var victims := Evict();
      assert (View(), victims) == result;
      DropAll(victims);
      store.Set(key, resp);
      if wasSynced {
        LruSpec.SetKeys(before, capacity, key, |resp|);
        SyncedAfterSet(oldData, before.sizes, items, victims, key, resp);
      }
    }

    /** Delete: unindex the key if present, refunding its size; always delete it from the store. */
    method Delete(key: Key)
      requires Valid()
      modifies this, store
      ensures Valid()
      ensures View() == LruSpec.Delete(old(View()), key)
      ensures store.data == old(store.data) - {key}
      ensures store.calls == old(store.calls) + [StoreDelete(key)]
      ensures old(Synced()) ==> Synced()
    {
      LruSpec.DeleteValid(View(), capacity, key);
      if key in items {
        Purge(key);
      }
      store.Delete(key);
    }
  }
}
