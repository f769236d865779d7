/**
 * The keyed master store of src/store/MasterStore.ts: one record of named
 * slices, typed views onto single slices, a cache of those views, and the
 * listeners the views register.
 *
 * A slot of the record holds `Some(v)` or `None` (null or undefined); a key
 * missing from the map reads as undefined too. The store is modelled with
 * one value type `V` for all of its slices.
 */
module MasterStore {
  import opened Wrappers
  import opened Observers
  import GenericStore

  /** The `data` record. */
  type Data<V> = map<string, Option<V>>

  /** `data[key]`, undefined when the key was never written. */
  function Raw<V>(data: Data<V>, key: string): Option<V> {
    if key in data then data[key] else None
  }

  /** `data[key] ?? defaultValue`: the stored value when there is one, otherwise the default. */
  function ValueOr<V>(data: Data<V>, key: string, defaultValue: V): (r: V)
    ensures key in data && data[key].Some? ==> r == data[key].value
    ensures key !in data || data[key].None? ==> r == defaultValue
  {
    Raw(data, key).GetOr(defaultValue)
  }

  /** The `setData` reducer: the slot `key` holds `value`; every other slot is as it was. */
  function SetSlot<V>(data: Data<V>, key: string, value: Option<V>): (r: Data<V>)
    ensures r.Keys == data.Keys + {key}
    ensures Raw(r, key) == value
    ensures forall k :: k != key ==> Raw(r, k) == Raw(data, k)
  {
    data[key := value]
  }

  /**
   * The `updateData` reducer: the updater receives the raw slot, with no
   * default applied; every other slot is as it was.
   */
  function UpdateSlot<V>(data: Data<V>, key: string, updater: Option<V> -> Option<V>): (r: Data<V>)
    ensures r.Keys == data.Keys + {key}
    ensures Raw(r, key) == updater(Raw(data, key))
    ensures forall k :: k != key ==> Raw(r, k) == Raw(data, k)
  {
    data[key := updater(Raw(data, key))]
  }

  /** A value written through `set` reads back through `get`, whatever the default. */
  lemma GetAfterSet<V>(data: Data<V>, key: string, v: V, defaultValue: V)
    ensures ValueOr(SetSlot(data, key, Some(v)), key, defaultValue) == v
  {
  }

  /** Writing one slot does not change what any other slot reads as. */
  lemma SetKeepsOtherSlots<V>(data: Data<V>, key: string, value: Option<V>, other: string, defaultValue: V)
    requires other != key
    ensures ValueOr(SetSlot(data, key, value), other, defaultValue) == ValueOr(data, other, defaultValue)
  {
    assert Raw(SetSlot(data, key, value), other) == Raw(data, other);
  }

  /**
   * The view's `update` goes through `get`: on a slot never written the
   * updater starts from the default, unlike the raw `updateData` reducer,
   * whose updater sees undefined there.
   */
  lemma UpdateFromDefault<V>(data: Data<V>, key: string, f: V -> Option<V>, g: Option<V> -> Option<V>, defaultValue: V)
    requires key !in data
    ensures ValueOr(SetSlot(data, key, f(ValueOr(data, key, defaultValue))), key, defaultValue) == f(defaultValue).GetOr(defaultValue)
    ensures Raw(UpdateSlot(data, key, g), key) == g(None)
  {
  }

  /** Once every slot holds undefined, every key reads as its default. */
  lemma ClearedReadsDefault<V>(data: Data<V>, key: string, defaultValue: V)
    requires forall k :: k in data ==> data[k].None?
    ensures ValueOr(data, key, defaultValue) == defaultValue
  {
  }

  /** One registration made by a view's `subscribe`: the callback reads its own slot. */
  datatype ViewListener<V> = ViewListener(token: nat, subscriber: SubscriberId, key: string, defaultValue: V)

  /**
   * The deliveries of one state change: every listener, in registration
   * order, receives the value of its own view's slot, or that view's default.
   */
  function Notifications<V>(ls: seq<ViewListener<V>>, data: Data<V>): (r: seq<Delivery<V>>)
    ensures |r| == |ls|
    ensures forall i :: 0 <= i < |ls| ==> r[i] == Delivery(ls[i].subscriber, ValueOr(data, ls[i].key, ls[i].defaultValue))
  {
    if ls == [] then [] else [Delivery(ls[0].subscriber, ValueOr(data, ls[0].key, ls[0].defaultValue))] + Notifications(ls[1..], data)
  }

  /** The store calling each listener with the new state. */
  method NotifyViews<V>(ls: seq<ViewListener<V>>, data: Data<V>) returns (sent: seq<Delivery<V>>)
    ensures sent == Notifications(ls, data)
  {
    sent := [];
    for i := 0 to |ls|
      invariant |sent| == i
      invariant forall k :: 0 <= k < i ==> sent[k] == Delivery(ls[k].subscriber, ValueOr(data, ls[k].key, ls[k].defaultValue))
    {
      sent := sent + [Delivery(ls[i].subscriber, ValueOr(data, ls[i].key, ls[i].defaultValue))];
    }
  }

  /** The callbacks registered by some listener. */
  function Recipients<V>(ls: seq<ViewListener<V>>): (r: set<SubscriberId>)
    ensures forall i :: 0 <= i < |ls| ==> ls[i].subscriber in r
    ensures forall s :: s in r ==> exists i :: 0 <= i < |ls| && ls[i].subscriber == s
  {
    set i | 0 <= i < |ls| :: ls[i].subscriber
  }

  /** Whether a registration is not the one named `token`. */
  function NotToken<V>(token: nat): ViewListener<V> -> bool {
    (l: ViewListener<V>) => l.token != token
  }

  /** The unsubscribe function of a view: the registration named `token` goes, the others stay in order. */
  function Unlisten<V>(ls: seq<ViewListener<V>>, token: nat): (r: seq<ViewListener<V>>)
    ensures forall i :: 0 <= i < |r| ==> r[i].token != token && r[i] in ls
    ensures forall l :: l in ls && l.token != token ==> l in r
  {
    var r := GenericStore.Filter(ls, NotToken(token));
    assert forall i :: 0 <= i < |r| ==> r[i] in multiset(r);
    r
  }

  /** Unsubscribing a token no registration holds changes nothing. */
  lemma UnlistenAbsent<V>(ls: seq<ViewListener<V>>, token: nat)
    requires forall i :: 0 <= i < |ls| ==> ls[i].token != token
    ensures Unlisten(ls, token) == ls
  {
    GenericStore.FilterKeepsAll(ls, NotToken(token));
  }

  /** Calling a view's unsubscribe function twice is the same as calling it once. */
  lemma UnlistenIdempotent<V>(ls: seq<ViewListener<V>>, token: nat)
    ensures Unlisten(Unlisten(ls, token), token) == Unlisten(ls, token)
  {
    UnlistenAbsent(Unlisten(ls, token), token);
  }

  /** A typed view of one slice (`StoreViewImpl`). */
  class StoreView<V> {
    const master: MasterStore<V>
    const key: string
    const defaultValue: V

    constructor(master: MasterStore<V>, key: string, defaultValue: V)
      ensures this.master == master && this.key == key && this.defaultValue == defaultValue
    {
      this.master := master;
      this.key := key;
      this.defaultValue := defaultValue;
    }

    /** `get`: the slot's value, or this view's default when it holds none. */
    function Get(): (r: V)
      reads master
      ensures key in master.data && master.data[key].Some? ==> r == master.data[key].value
      ensures key !in master.data || master.data[key].None? ==> r == defaultValue
    {
      ValueOr(master.data, key, defaultValue)
    }

    /** `set`: write the slot through `setData`; the value then reads back and other slots keep theirs. */
    method Set(value: Option<V>)
      requires master.Valid()
      modifies master
      ensures master.Valid()
      ensures master.data == SetSlot(old(master.data), key, value)
      ensures Get() == value.GetOr(defaultValue)
      ensures forall k, d :: k != key ==> ValueOr(master.data, k, d) == ValueOr(old(master.data), k, d)
      ensures master.outbox == old(master.outbox) + Notifications(master.listeners, master.data)
      ensures master.listeners == old(master.listeners) && master.viewCache == old(master.viewCache)
      ensures master.nextToken == old(master.nextToken)
    {
      master.SetData(key, value);
      forall k, d | k != key
        ensures ValueOr(master.data, k, d) == ValueOr(old(master.data), k, d)
      {
        SetKeepsOtherSlots(old(master.data), key, value, k, d);
      }
    }

    /**
     * `update`: the updater receives `get()`, so an unwritten slot starts
     * from the default; an updater returning undefined (`None`) leaves the
     * slot unset, and `get()` then reads the default.
     */
    method Update(updater: V -> Option<V>)
      requires master.Valid()
      modifies master
      ensures master.Valid()
      ensures master.data == SetSlot(old(master.data), key, updater(old(Get())))
      ensures Get() == updater(old(Get())).GetOr(defaultValue)
      ensures master.outbox == old(master.outbox) + Notifications(master.listeners, master.data)
      ensures master.listeners == old(master.listeners) && master.viewCache == old(master.viewCache)
      ensures master.nextToken == old(master.nextToken)
    {
      var current := Get();
      var next := updater(current);
      Set(next);
    }

    /** `subscribe`: a listener on the whole store that reads this view's slot. */
    method Subscribe(s: SubscriberId) returns (token: nat)
      requires master.Valid()
      modifies master
      ensures master.Valid()
      ensures forall i :: 0 <= i < |old(master.listeners)| ==> old(master.listeners)[i].token != token
      ensures token == old(master.nextToken) && master.nextToken == old(master.nextToken) + 1
      ensures master.listeners == old(master.listeners) + [ViewListener(token, s, key, defaultValue)]
      ensures master.data == old(master.data) && master.outbox == old(master.outbox)
      ensures master.viewCache == old(master.viewCache)
    {
      token := master.Listen(key, defaultValue, s);
    }
  }

  class MasterStore<V> {
    var data: Data<V>
    /** `viewCache`: the view handed out first for each key. */
    var viewCache: map<string, StoreView<V>>
    var listeners: seq<ViewListener<V>>
    var nextToken: nat
    /** Every notification made so far, in order. */
    var outbox: seq<Delivery<V>>

    /** Each cached view belongs to this store and to its own key; every token was handed out. */
    ghost predicate Valid()
      reads this
    {
      && (forall k :: k in viewCache ==> viewCache[k].master == this && viewCache[k].key == k)
      && (forall i :: 0 <= i < |listeners| ==> listeners[i].token < nextToken)
    }

    /** A fresh store: empty data, no views, no listeners. */
    constructor()
      ensures Valid()
      ensures data == map[] && viewCache == map[] && listeners == [] && outbox == []
    {
      data := map[];
      viewCache := map[];
      listeners := [];
      nextToken := 0;
      outbox := [];
    }

    /** `setData`, then every listener is called with the new state. */
    method SetData(key: string, value: Option<V>)
      requires Valid()
      modifies this
      ensures Valid()
      ensures data == SetSlot(old(data), key, value)
      ensures outbox == old(outbox) + Notifications(listeners, data)
      ensures listeners == old(listeners) && viewCache == old(viewCache) && nextToken == old(nextToken)
    {
      data := SetSlot(data, key, value);
      var sent := NotifyViews(listeners, data);
      outbox := outbox + sent;
    }

    /** `updateData`, then every listener is called with the new state. */
    method UpdateData(key: string, updater: Option<V> -> Option<V>)
      requires Valid()
      modifies this
      ensures Valid()
      ensures data == UpdateSlot(old(data), key, updater)
      ensures outbox == old(outbox) + Notifications(listeners, data)
      ensures listeners == old(listeners) && viewCache == old(viewCache) && nextToken == old(nextToken)
    {
      data := UpdateSlot(data, key, updater);
      var sent := NotifyViews(listeners, data);
      outbox := outbox + sent;
    }

    /** The store's own `subscribe`, as a view calls it. */
    method Listen(key: string, defaultValue: V, s: SubscriberId) returns (token: nat)
      requires Valid()
      modifies this
      ensures Valid()
      ensures forall i :: 0 <= i < |old(listeners)| ==> old(listeners)[i].token != token
      ensures token == old(nextToken) && nextToken == old(nextToken) + 1
      ensures listeners == old(listeners) + [ViewListener(token, s, key, defaultValue)]
      ensures data == old(data) && outbox == old(outbox) && viewCache == old(viewCache)
    {
      token := nextToken;
      listeners := listeners + [ViewListener(token, s, key, defaultValue)];
      nextToken := nextToken + 1;
    }

    /** The unsubscribe function returned with `token`. */
    method Unlistened(token: nat)
      requires Valid()
      modifies this
      ensures Valid()
      ensures listeners == Unlisten(old(listeners), token)
      ensures data == old(data) && outbox == old(outbox) && viewCache == old(viewCache)
      ensures nextToken == old(nextToken)
    {
      listeners := Unlisten(listeners, token);
    }

    /**
     * `getStore`: the view cached for the key if there is one, whatever
     * default is passed now; otherwise a new view with this default, which
     * is cached.
     */
    method GetStore(key: string, defaultValue: V) returns (view: StoreView<V>)
      requires Valid()
      modifies this
      ensures Valid()
      ensures view.master == this && view.key == key
      ensures key in old(viewCache) ==> view == old(viewCache)[key] && viewCache == old(viewCache)
      ensures key !in old(viewCache) ==> fresh(view) && view.defaultValue == defaultValue && viewCache == old(viewCache)[key := view]
      ensures data == old(data) && listeners == old(listeners) && outbox == old(outbox)
      ensures nextToken == old(nextToken)
    {
      if key in viewCache {
        view := viewCache[key];
        return;
      }
      view := new StoreView(this, key, defaultValue);
      viewCache := viewCache[key := view];
    }

    /** `getAllData`: the record itself. */
    method GetAllData() returns (r: Data<V>)
      ensures r == data
    {
      r := data;
    }

    /**
     * `clear`: every key present at the start is written with undefined, one
     * `setData` (and so one notification round) per key, and then the view
     * cache is emptied.
     */
    method Clear()
      requires Valid()
      modifies this
      ensures Valid()
      ensures data.Keys == old(data).Keys
      ensures forall k :: k in data ==> data[k].None?
      ensures viewCache == map[]
      ensures listeners == old(listeners) && nextToken == old(nextToken)
      ensures |outbox| == |old(outbox)| + |old(data).Keys| * |listeners|
      ensures outbox[..|old(outbox)|] == old(outbox)
      ensures forall j :: |old(outbox)| <= j < |outbox| ==> outbox[j].to in Recipients(listeners)
    {
      ghost var keys, n := data.Keys, |listeners|;
      ghost var done := 0;
      var remaining := data.Keys;
      while remaining != {}
        invariant Valid()
        invariant remaining <= keys && data.Keys == keys
        invariant forall k :: k in keys && k !in remaining ==> data[k].None?
        invariant listeners == old(listeners) && nextToken == old(nextToken)
        invariant done + |remaining| == |keys|
        invariant |outbox| == |old(outbox)| + done * n
        invariant outbox[..|old(outbox)|] == old(outbox)
        invariant forall j :: |old(outbox)| <= j < |outbox| ==> outbox[j].to in Recipients(listeners)
        decreases remaining
      {
        var k :| k in remaining;
        SetData(k, None);
        remaining := remaining - {k};
        assert (done + 1) * n == done * n + n;
        done := done + 1;
      }
      viewCache := map[];
    }
  }

  /** Two `getStore` calls with one key return one view, and the second default is ignored. */
  method CachedViewScenario(key: string) returns (same: bool, got: int)
    ensures same
    ensures got == 1
  {
    var master := new MasterStore<int>();
    var first := master.GetStore(key, 1);
    var second := master.GetStore(key, 2);
    same := first == second;
    got := second.Get();
  }

  /** A write through one view is seen through the other view of the key, and by a subscriber of another key as that key's default. */
  method SharedSliceScenario(s: SubscriberId) returns (got: int, received: seq<Delivery<int>>)
    ensures got == 7
    ensures received == [Delivery(s, 0)]
  {
    var master := new MasterStore<int>();
    var counter := master.GetStore("count", 1);
    var other := master.GetStore("other", 0);
    var token := other.Subscribe(s);
    var again := master.GetStore("count", 5);
    again.Set(Some(7));
    got := counter.Get();
    received := master.outbox;
  }
}
