/**
 * The in-memory todo store of src/test-utils/MockTodoStore.ts: an array of
 * todos changed in place, and a subscriber list notified synchronously.
 */
module MockTodoStore {
  import opened Wrappers
  import opened Observers
  import opened Todos
  import GenericStore

  class MockTodoStore {
    var items: seq<Todo>
    var subscribers: seq<SubscriberId>
    /** Every notification made so far, in order. */
    var outbox: seq<Delivery<seq<Todo>>>

    constructor()
      ensures items == [] && subscribers == [] && outbox == []
    {
      items := [];
      subscribers := [];
      outbox := [];
    }

    /** Each subscriber, in order, receives a copy of the current items. */
    method NotifySubscribers()
      modifies this`outbox
      ensures outbox == old(outbox) + Broadcast(subscribers, items)
    {
      var sent := NotifyAll(subscribers, items);
      outbox := outbox + sent;
    }

    /** `getItems`: a copy equal to the items. */
    method GetItems() returns (r: seq<Todo>)
      ensures r == items
    {
      r := items;
    }

    /** `addItem`: push, then notify. */
    method AddItem(item: Todo)
      modifies this
      ensures items == old(items) + [item]
      ensures outbox == old(outbox) + Broadcast(subscribers, items)
      ensures subscribers == old(subscribers)
    {
      items := items + [item];
      NotifySubscribers();
    }

    /**
     * `updateItem`: only the first todo with the id is replaced, and only then
     * are the subscribers notified.
     */
    method UpdateItem(id: string, updater: Todo -> Todo)
      modifies this
      ensures items == UpdateFirst(old(items), id, updater)
      ensures outbox == old(outbox) + (if HasTodo(old(items), id) then Broadcast(subscribers, items) else [])
      ensures subscribers == old(subscribers)
    {
      var index := GenericStore.FindIndex(items, HasId(id));
      if index != -1 {
        items := items[index := updater(items[index])];
        NotifySubscribers();
      }
    }

    /** `removeItem`: filter the id out, then notify, even when nothing was removed. */
    method RemoveItem(id: string)
      modifies this
      ensures items == GenericStore.Removed(old(items), IdOf, id)
      ensures outbox == old(outbox) + Broadcast(subscribers, items)
      ensures subscribers == old(subscribers)
    {
      items := GenericStore.Removed(items, IdOf, id);
      NotifySubscribers();
    }

    /** `setItems`: keep a copy, then notify. */
    method SetItems(newItems: seq<Todo>)
      modifies this
      ensures items == newItems
      ensures outbox == old(outbox) + Broadcast(subscribers, items)
      ensures subscribers == old(subscribers)
    {
      items := newItems;
      NotifySubscribers();
    }

    /** `findItem`: the first todo satisfying `pred`, or none. */
    method FindItem(pred: Todo -> bool) returns (r: Option<Todo>)
      ensures r == GenericStore.Find(items, pred)
    {
      r := GenericStore.Find(items, pred);
    }

    /** `subscribe`: push the callback. */
    method Subscribe(s: SubscriberId)
      modifies this
      ensures subscribers == old(subscribers) + [s]
      ensures items == old(items) && outbox == old(outbox)
    {
      subscribers := subscribers + [s];
    }

    /** The returned unsubscribe function: every registration of the callback goes, the others stay in order. */
    method Unsubscribe(s: SubscriberId)
      modifies this
      ensures subscribers == RemoveAll(old(subscribers), s)
      ensures items == old(items) && outbox == old(outbox)
    {
      subscribers := RemoveAll(subscribers, s);
    }

    /** `clear`: empty the items, then notify. */
    method Clear()
      modifies this
      ensures items == []
      ensures outbox == old(outbox) + Broadcast(subscribers, [])
      ensures subscribers == old(subscribers)
    {
      items := [];
      NotifySubscribers();
    }
  }
}
