/**
 * The generic collection store of src/store/Store.ts: the `createGenericStore`
 * reducers over a list of identifiable items, the searches the `Store` class
 * offers on top of them, and the `Store` class itself, which replaces its
 * state through a reducer and then notifies its listeners.
 *
 * Items are identified through `idOf`, the `Identifiable.id` field.
 */
module GenericStore {
  import opened Wrappers
  import opened Observers

  // ---------------------------------------------------------------------------
  // Array searches and filters used by the reducers

  /** `items.findIndex(pred)`: the first index whose item satisfies `pred`, or -1. */
  function FindIndex<T>(items: seq<T>, pred: T -> bool): (r: int)
    ensures -1 <= r < |items|
    ensures 0 <= r ==> pred(items[r])
    ensures forall j :: 0 <= j < |items| && (r == -1 || j < r) ==> !pred(items[j])
  {
    if items == [] then -1
    else if pred(items[0]) then 0
    else
      var r := FindIndex(items[1..], pred);
      if r == -1 then -1 else r + 1
  }

  /** `items.find(pred)`: the first item satisfying `pred`, or `undefined`. */
  function Find<T>(items: seq<T>, pred: T -> bool): (r: Option<T>)
    ensures r.None? <==> forall i :: 0 <= i < |items| ==> !pred(items[i])
    ensures r.Some? ==> exists i :: 0 <= i < |items| && items[i] == r.value && pred(r.value)
                                    && forall j :: 0 <= j < i ==> !pred(items[j])
  {
    var i := FindIndex(items, pred);
    if i == -1 then None else Some(items[i])
  }

  /** `items.filter(keep)`: the items satisfying `keep`, in their original order. */
  function Filter<T>(items: seq<T>, keep: T -> bool): (r: seq<T>)
    ensures forall i :: 0 <= i < |r| ==> keep(r[i])
    ensures forall x :: x in items && keep(x) ==> x in r
    ensures multiset(r) <= multiset(items)
  {
    if items == [] then []
    else
      var rest := Filter(items[1..], keep);
      assert items == [items[0]] + items[1..];
      if keep(items[0]) then [items[0]] + rest else rest
  }

  /** A filter that keeps every item is the identity. */
  lemma {:induction false} FilterKeepsAll<T>(items: seq<T>, keep: T -> bool)
    requires forall i :: 0 <= i < |items| ==> keep(items[i])
    ensures Filter(items, keep) == items
  {
    if items != [] {
      FilterKeepsAll(items[1..], keep);
      assert items == [items[0]] + items[1..];
    }
  }

  /** Filtering a concatenation filters each part: the kept items keep their relative order. */
  lemma {:induction false} FilterAppend<T>(a: seq<T>, b: seq<T>, keep: T -> bool)
    ensures Filter(a + b, keep) == Filter(a, keep) + Filter(b, keep)
  {
    if a == [] {
      assert a + b == b;
    } else {
      assert (a + b)[0] == a[0] && (a + b)[1..] == a[1..] + b;
      FilterAppend(a[1..], b, keep);
    }
  }

  /** Filtering one item keeps it exactly when it satisfies the predicate. */
  lemma FilterOne<T>(z: T, keep: T -> bool)
    ensures Filter([z], keep) == if keep(z) then [z] else []
  {
    assert [z][1..] == [];
  }

  /** Filtering two items decides the first one and filters the second. */
  lemma FilterTwo<T>(y: T, z: T, keep: T -> bool)
    ensures Filter([y, z], keep) == (if keep(y) then [y] else []) + Filter([z], keep)
  {
    assert [y, z][1..] == [z];
  }

  /** Filtering three items decides the first one and filters the other two. */
  lemma FilterThree<T>(x: T, y: T, z: T, keep: T -> bool)
    ensures Filter([x, y, z], keep) == (if keep(x) then [x] else []) + Filter([y, z], keep)
  {
    assert [x, y, z][1..] == [y, z];
  }

  /** Two complementary filters split the list: every item lands in exactly one of them. */
  lemma {:induction false} FilterPartition<T>(items: seq<T>, p: T -> bool, q: T -> bool)
    requires forall x :: q(x) == !p(x)
    ensures multiset(Filter(items, p)) + multiset(Filter(items, q)) == multiset(items)
    ensures |Filter(items, p)| + |Filter(items, q)| == |items|
  {
    if items != [] {
      FilterPartition(items[1..], p, q);
      assert items == [items[0]] + items[1..];
    }
  }

  // ---------------------------------------------------------------------------
  // The `createGenericStore` reducers (Store.ts:15-38)

  /** The state's initial `items`. */
  function InitialItems<T>(): (r: seq<T>)
    ensures |r| == 0
  {
    []
  }

  /** `addItem`: `[...state.items, item]`. */
  function Added<T>(items: seq<T>, item: T): (r: seq<T>)
    ensures |r| == |items| + 1 && r[..|items|] == items && r[|items|] == item
  {
    items + [item]
  }

  /** `updateItem`: `state.items.map((item) => item.id === id ? updater(item) : item)`. */
  function Updated<T>(items: seq<T>, idOf: T -> string, id: string, updater: T -> T): (r: seq<T>)
    ensures |r| == |items|
    ensures forall i :: 0 <= i < |items| && idOf(items[i]) == id ==> r[i] == updater(items[i])
    ensures forall i :: 0 <= i < |items| && idOf(items[i]) != id ==> r[i] == items[i]
    ensures (forall i :: 0 <= i < |items| ==> idOf(items[i]) != id) ==> r == items
  {
    if items == [] then []
    else
      var head := if idOf(items[0]) == id then updater(items[0]) else items[0];
      var r := [head] + Updated(items[1..], idOf, id, updater);
      assert idOf(items[0]) != id ==> r[0] == items[0];
      r
  }

  /**
   * Two updates of the same id compose, provided the first one keeps the id:
   * the items it touched are exactly those the second one touches.
   */
  lemma UpdateItemTwice<T>(items: seq<T>, idOf: T -> string, id: string, f: T -> T, g: T -> T)
    requires forall x :: idOf(f(x)) == idOf(x)
    ensures Updated(Updated(items, idOf, id, f), idOf, id, g)
         == Updated(items, idOf, id, x => g(f(x)))
  {
    var once := Updated(items, idOf, id, f);
    var twice := Updated(once, idOf, id, g);
    var direct := Updated(items, idOf, id, x => g(f(x)));
    forall i | 0 <= i < |items|
      ensures twice[i] == direct[i]
    {
      assert idOf(once[i]) == idOf(items[i]);
    }
  }

  /** The predicate of `removeItem`: `(item) => item.id !== id`. */
  function Other<T>(idOf: T -> string, id: string): T -> bool {
    x => idOf(x) != id
  }

  /** `removeItem`: `state.items.filter((item) => item.id !== id)`. */
  function Removed<T>(items: seq<T>, idOf: T -> string, id: string): (r: seq<T>)
    ensures forall i :: 0 <= i < |r| ==> idOf(r[i]) != id
    ensures forall x :: x in items && idOf(x) != id ==> x in r
    ensures multiset(r) <= multiset(items)
    ensures (forall i :: 0 <= i < |items| ==> idOf(items[i]) != id) ==> r == items
  {
    if forall i :: 0 <= i < |items| ==> idOf(items[i]) != id then
      FilterKeepsAll(items, Other(idOf, id));
      Filter(items, Other(idOf, id))
    else
      Filter(items, Other(idOf, id))
  }

  /** Removing the id of an item just added undoes the addition (and removes any earlier item with that id). */
  lemma RemovedAfterAdded<T>(items: seq<T>, idOf: T -> string, item: T)
    ensures Removed(Added(items, item), idOf, idOf(item)) == Removed(items, idOf, idOf(item))
  {
    FilterAppend(items, [item], Other(idOf, idOf(item)));
  }

  /** `setItems`: the list is replaced wholesale. */
  function Replaced<T>(items: seq<T>, newItems: seq<T>): (r: seq<T>)
    ensures r == newItems
  {
    newItems
  }

  // ---------------------------------------------------------------------------
  // Listener registrations of the underlying state container

  /**
   * One `subscribe` registration. The container wraps every callback in a new
   * listener, so each registration is distinct; `token` names it.
   */
  datatype Listener = Listener(token: nat, subscriber: SubscriberId)

  /** The callbacks of the registrations, in registration order. */
  function Subscribers(ls: seq<Listener>): (r: seq<SubscriberId>)
    ensures |r| == |ls|
    ensures forall i :: 0 <= i < |ls| ==> r[i] == ls[i].subscriber
  {
    if ls == [] then [] else [ls[0].subscriber] + Subscribers(ls[1..])
  }

  /** Whether a registration is not the one named `token`. */
  function NotToken(token: nat): Listener -> bool {
    (l: Listener) => l.token != token
  }

  /** The unsubscribe function: the registration named `token` goes, the others stay in order. */
  function Unlisten(ls: seq<Listener>, token: nat): (r: seq<Listener>)
    ensures forall i :: 0 <= i < |r| ==> r[i].token != token && r[i] in ls
    ensures forall l :: l in ls && l.token != token ==> l in r
    ensures multiset(r) <= multiset(ls)
  {
    var r := Filter(ls, NotToken(token));
    assert forall i :: 0 <= i < |r| ==> r[i] in multiset(r);
    r
  }

  /** Subscribing and then unsubscribing with the token received restores the registrations. */
  lemma SubscribeThenUnlisten(ls: seq<Listener>, token: nat, s: SubscriberId)
    requires forall i :: 0 <= i < |ls| ==> ls[i].token != token
    ensures Unlisten(ls + [Listener(token, s)], token) == ls
  {
    FilterAppend(ls, [Listener(token, s)], NotToken(token));
    FilterKeepsAll(ls, NotToken(token));
  }

  /** Unsubscribing a token no registration holds changes nothing. */
  lemma UnlistenAbsent(ls: seq<Listener>, token: nat)
    requires forall i :: 0 <= i < |ls| ==> ls[i].token != token
    ensures Unlisten(ls, token) == ls
  {
    FilterKeepsAll(ls, NotToken(token));
  }

  /** Calling an unsubscribe function twice is the same as calling it once. */
  lemma UnlistenIdempotent(ls: seq<Listener>, token: nat)
    ensures Unlisten(Unlisten(ls, token), token) == Unlisten(ls, token)
  {
    UnlistenAbsent(Unlisten(ls, token), token);
  }

  // ---------------------------------------------------------------------------
  // The `Store` class (Store.ts:40-78)

  /** A collection store: `set` replaces the items, then every listener receives the new list. */
  class Store<T> {
    const idOf: T -> string
    var items: seq<T>
    var listeners: seq<Listener>
    var nextToken: nat
    /** Every notification made so far, in order. */
    var outbox: seq<Delivery<seq<T>>>

    /** Every registration's token was handed out before `nextToken`. */
    ghost predicate Valid()
      reads this
    {
      forall i :: 0 <= i < |listeners| ==> listeners[i].token < nextToken
    }

    constructor(idOf: T -> string)
      ensures Valid()
      ensures this.idOf == idOf && items == InitialItems() && listeners == [] && outbox == []
    {
      this.idOf := idOf;
      items := [];
      listeners := [];
      nextToken := 0;
      outbox := [];
    }

    /** The state container's `set`: new items, then one round of notification. */
    method SetState(newItems: seq<T>)
      requires Valid()
      modifies this
      ensures Valid()
      ensures items == newItems
      ensures outbox == old(outbox) + Broadcast(Subscribers(listeners), newItems)
      ensures listeners == old(listeners) && nextToken == old(nextToken)
    {
      items := newItems;
      var sent := NotifyAll(Subscribers(listeners), items);
      outbox := outbox + sent;
    }

    /** `getItems`: the current list. */
    method GetItems() returns (r: seq<T>)
      ensures r == items
    {
      r := items;
    }

    method AddItem(item: T)
      requires Valid()
      modifies this
      ensures Valid()
      ensures items == Added(old(items), item)
      ensures outbox == old(outbox) + Broadcast(Subscribers(listeners), items)
      ensures listeners == old(listeners) && nextToken == old(nextToken)
    {
      SetState(Added(items, item));
    }

    method UpdateItem(id: string, updater: T -> T)
      requires Valid()
      modifies this
      ensures Valid()
      ensures items == Updated(old(items), idOf, id, updater)
      ensures outbox == old(outbox) + Broadcast(Subscribers(listeners), items)
      ensures listeners == old(listeners) && nextToken == old(nextToken)
    {
      SetState(Updated(items, idOf, id, updater));
    }

    method RemoveItem(id: string)
      requires Valid()
      modifies this
      ensures Valid()
      ensures items == Removed(old(items), idOf, id)
      ensures outbox == old(outbox) + Broadcast(Subscribers(listeners), items)
      ensures listeners == old(listeners) && nextToken == old(nextToken)
    {
      SetState(Removed(items, idOf, id));
    }

    method SetItems(newItems: seq<T>)
      requires Valid()
      modifies this
      ensures Valid()
      ensures items == Replaced(old(items), newItems)
      ensures outbox == old(outbox) + Broadcast(Subscribers(listeners), items)
      ensures listeners == old(listeners) && nextToken == old(nextToken)
    {
      SetState(Replaced(items, newItems));
    }

    /** `findItem`: the first item satisfying `pred`, or none. */
    method FindItem(pred: T -> bool) returns (r: Option<T>)
      ensures r == Find(items, pred)
    {
      r := Find(items, pred);
    }

    /** `subscribe`: a new registration at the end; the token names its unsubscribe function. */
    method Subscribe(s: SubscriberId) returns (token: nat)
      requires Valid()
      modifies this
      ensures Valid()
      ensures token !in set l | l in old(listeners) :: l.token
      ensures token == old(nextToken) && nextToken == old(nextToken) + 1
      ensures listeners == old(listeners) + [Listener(token, s)]
      ensures items == old(items) && outbox == old(outbox)
    {
      token := nextToken;
      listeners := listeners + [Listener(token, s)];
      nextToken := nextToken + 1;
    }

    /** The unsubscribe function returned for `token`. */
    method Unsubscribe(token: nat)
      requires Valid()
      modifies this
      ensures Valid()
      ensures listeners == Unlisten(old(listeners), token)
      ensures items == old(items) && outbox == old(outbox) && nextToken == old(nextToken)
    {
      listeners := Unlisten(listeners, token);
    }
  }
}
