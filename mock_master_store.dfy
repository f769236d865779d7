/**
 * The master store double of src/test-utils/MockMasterStore.ts: one
 * self-contained view object per key, each holding its own value, default
 * and subscriber list, kept in a map from key to view.
 */
module MockMasterStore {
  import opened Wrappers
  import opened Observers

  /** `MockStoreView`: a value (`None` for null or undefined), a default, and subscribers. */
  class MockStoreView<V> {
    var value: Option<V>
    const defaultValue: V
    var subscribers: seq<SubscriberId>
    /** Every notification made so far, in order. */
    var outbox: seq<Delivery<Option<V>>>

    /** A new view starts out holding its default. */
    constructor(defaultValue: V)
      ensures value == Some(defaultValue) && this.defaultValue == defaultValue
      ensures subscribers == [] && outbox == []
    {
      value := Some(defaultValue);
      this.defaultValue := defaultValue;
      subscribers := [];
      outbox := [];
    }

    /** `get`: the value if it is set, otherwise the default. */
    function Get(): (r: V)
      reads this
      ensures value.Some? ==> r == value.value
      ensures value.None? ==> r == defaultValue
    {
      value.GetOr(defaultValue)
    }

    /** Each subscriber, in registration order, receives the raw value (not `get()`). */
    method NotifySubscribers()
      modifies this`outbox
      ensures outbox == old(outbox) + Broadcast(subscribers, value)
    {
      var sent := NotifyAll(subscribers, value);
      outbox := outbox + sent;
    }

    /** `set`: store the value, then notify. */
    method Set(v: Option<V>)
      modifies this
      ensures value == v && Get() == v.GetOr(defaultValue)
      ensures subscribers == old(subscribers)
      ensures outbox == old(outbox) + Broadcast(subscribers, v)
    {
      value := v;
      NotifySubscribers();
    }

    /**
     * `update`: the updater receives `get()`, so an unset value starts from
     * the default; an updater returning undefined (`None`) unsets the value.
     */
    method Update(updater: V -> Option<V>)
      modifies this
      ensures value == updater(old(Get()))
      ensures Get() == updater(old(Get())).GetOr(defaultValue)
      ensures subscribers == old(subscribers)
      ensures outbox == old(outbox) + Broadcast(subscribers, value)
    {
      var current := Get();
      value := updater(current);
      NotifySubscribers();
    }

    /** `subscribe`: push the callback. */
    method Subscribe(s: SubscriberId)
      modifies this
      ensures subscribers == old(subscribers) + [s]
      ensures value == old(value) && outbox == old(outbox)
    {
      subscribers := subscribers + [s];
    }

    /** The returned unsubscribe function: `indexOf`, then `splice` that one entry when found. */
    method Unsubscribe(s: SubscriberId)
      modifies this
      ensures subscribers == RemoveFirst(old(subscribers), s)
      ensures value == old(value) && outbox == old(outbox)
    {
      var index := IndexOf(subscribers, s);
      if index > -1 {
        subscribers := subscribers[..index] + subscribers[index + 1..];
      }
    }
  }

  /** `MockMasterStore`: the views by key. */
  class MockMasterStore<V> {
    var stores: map<string, MockStoreView<V>>

    /** No view is shared by two keys. */
    ghost predicate Valid()
      reads this
    {
      forall k1, k2 :: k1 in stores && k2 in stores && k1 != k2 ==> stores[k1] != stores[k2]
    }

    constructor()
      ensures Valid() && stores == map[]
    {
      stores := map[];
    }

    /**
     * `getStore`: a new view only for an unseen key; a known key gives back
     * its view, whatever default is passed now.
     */
    method GetStore(key: string, defaultValue: V) returns (view: MockStoreView<V>)
      requires Valid()
      modifies this
      ensures Valid()
      ensures key in old(stores) ==> view == old(stores)[key] && stores == old(stores)
      ensures key !in old(stores) ==> fresh(view) && stores == old(stores)[key := view]
      ensures key !in old(stores) ==> view.value == Some(defaultValue) && view.defaultValue == defaultValue
      ensures key !in old(stores) ==> view.subscribers == [] && view.outbox == []
    {
      if key !in stores {
        var store := new MockStoreView(defaultValue);
        stores := stores[key := store];
        return store;
      }
      view := stores[key];
    }

    /** `getAllData`: every known key mapped to its view's `get()`. */
    method GetAllData() returns (r: map<string, V>)
      ensures r.Keys == stores.Keys
      ensures forall k :: k in r ==> r[k] == stores[k].Get()
    {
      r := map[];
      var remaining := stores.Keys;
      while remaining != {}
        invariant remaining <= stores.Keys
        invariant r.Keys == stores.Keys - remaining
        invariant forall k :: k in r ==> r[k] == stores[k].Get()
        decreases remaining
      {
        var k :| k in remaining;
        r := r[k := stores[k].Get()];
        remaining := remaining - {k};
      }
    }

    /** `clear`: forget every view. */
    method Clear()
      modifies this
      ensures Valid() && stores == map[]
    {
      stores := map[];
    }

    /** `setStoreValue`: `set` on the key's view; an unknown key changes nothing. */
    method SetStoreValue(key: string, v: Option<V>)
      requires Valid()
      modifies if key in stores then {stores[key]} else {}
      ensures key in stores ==> stores[key].subscribers == old(stores[key].subscribers)
      ensures key in stores ==> stores[key].value == v && stores[key].outbox == old(stores[key].outbox) + Broadcast(stores[key].subscribers, v)
      ensures forall k :: k in stores && k != key ==> stores[k].value == old(stores[k].value)
    {
      if key in stores {
        var store := stores[key];
        store.Set(v);
      }
    }

    /** `getStoreValue`: the key's `get()`, or none for an unknown key. */
    method GetStoreValue(key: string) returns (r: Option<V>)
      ensures key in stores ==> r == Some(stores[key].Get())
      ensures key !in stores ==> r == None
    {
      if key in stores {
        r := Some(stores[key].Get());
      } else {
        r := None;
      }
    }
  }

  /** After `clear`, the next `getStore` makes a new view with the new default. */
  method ClearThenGetScenario(key: string) returns (got: int, same: bool)
    ensures got == 2 && !same
  {
    var master := new MockMasterStore<int>();
    var first := master.GetStore(key, 1);
    first.Set(Some(5));
    master.Clear();
    var second := master.GetStore(key, 2);
    got := second.Get();
    same := first == second;
  }

  /** Two `getStore` calls with one key return one view, and a write through the first is read through the second. */
  method SharedViewScenario(key: string) returns (got: Option<int>, same: bool)
    ensures got == Some(7) && same
  {
    var master := new MockMasterStore<int>();
    var first := master.GetStore(key, 1);
    var second := master.GetStore(key, 2);
    master.SetStoreValue(key, Some(7));
    got := master.GetStoreValue(key);
    same := first == second;
  }

  /** Unsubscribing twice removes one registration; the second call changes nothing. */
  method UnsubscribeTwiceScenario(s: SubscriberId, t: SubscriberId) returns (subs: seq<SubscriberId>)
    requires s != t
    ensures subs == [t]
  {
    var view := new MockStoreView<int>(0);
    view.Subscribe(s);
    view.Subscribe(t);
    view.Unsubscribe(s);
    view.Unsubscribe(s);
    subs := view.subscribers;
  }
}
