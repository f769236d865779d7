/**
 * The business rules of src/services/TodoService.ts: guarded add, toggle and
 * remove over the "todos" collection, each logged, and the filtered reads.
 *
 * The collection has the semantics of the `Store` class of Store.ts; the
 * service creates it and holds it. Adding a record takes the id and the
 * creation time as parameters (the collection would generate them).
 */
module TodoService {
  import opened Wrappers
  import opened Observers
  import opened Text
  import opened Todos
  import opened Logging
  import GenericStore

  /** `getCompletedTodos` and `getActiveTodos` split the list by the flag: each todo lands in exactly one of them. */
  lemma CompletedAndActivePartition(todos: seq<Todo>)
    ensures forall i :: 0 <= i < |GenericStore.Filter(todos, IsCompleted)| ==> GenericStore.Filter(todos, IsCompleted)[i].completed
    ensures forall i :: 0 <= i < |GenericStore.Filter(todos, IsActive)| ==> !GenericStore.Filter(todos, IsActive)[i].completed
    ensures multiset(GenericStore.Filter(todos, IsCompleted)) + multiset(GenericStore.Filter(todos, IsActive)) == multiset(todos)
  {
    GenericStore.FilterPartition(todos, IsCompleted, IsActive);
  }

  class TodoService {
    const logger: MockLoggingService
    /** The "todos" collection. */
    const collection: GenericStore.Store<Todo>

    ghost predicate Valid()
      reads this, collection
    {
      collection.idOf == IdOf && collection.Valid()
    }

    constructor(logger: MockLoggingService)
      ensures Valid() && fresh(collection) && this.logger == logger
      ensures collection.items == [] && collection.listeners == [] && collection.outbox == []
    {
      this.logger := logger;
      collection := new GenericStore.Store<Todo>(IdOf);
    }

    /** `getTodos`: the collection's items. */
    method GetTodos() returns (r: seq<Todo>)
      ensures r == collection.items
    {
      r := collection.GetItems();
    }

    /** `getCompletedTodos`: the completed todos, in order. */
    method GetCompletedTodos() returns (r: seq<Todo>)
      ensures r == GenericStore.Filter(collection.items, IsCompleted)
    {
      var items := collection.GetItems();
      r := GenericStore.Filter(items, IsCompleted);
    }

    /** `getActiveTodos`: the todos not yet completed, in order. */
    method GetActiveTodos() returns (r: seq<Todo>)
      ensures r == GenericStore.Filter(collection.items, IsActive)
    {
      var items := collection.GetItems();
      r := GenericStore.Filter(items, IsActive);
    }

    /**
     * `addTodo`: blank text is refused with one warning and nothing else;
     * otherwise the trimmed text becomes a new, uncompleted todo at the end
     * and one info entry records its id and text.
     */
    method AddTodo(text: string, id: string, createdAt: Stamp)
      requires Valid()
      modifies collection, logger
      ensures Valid()
      ensures collection.listeners == old(collection.listeners) && collection.nextToken == old(collection.nextToken)
      ensures Trim(text) == [] ==>
        && collection.items == old(collection.items)
        && collection.outbox == old(collection.outbox)
        && logger.logs == old(logger.logs) + [LogEntry(Warn, "Attempted to add empty todo", TextData(text))]
      ensures Trim(text) != [] ==>
        && collection.items == old(collection.items) + [Todo(id, Trim(text), false, createdAt)]
        && collection.outbox == old(collection.outbox) + Broadcast(GenericStore.Subscribers(collection.listeners), collection.items)
        && logger.logs == old(logger.logs) + [LogEntry(Info, "Todo added", IdText(id, Trim(text)))]
    {
      if Trim(text) == [] {
        logger.Warn("Attempted to add empty todo", TextData(text));
        return;
      }
      var newTodo := Todo(id, Trim(text), false, createdAt);
      collection.AddItem(newTodo);
      logger.Info("Todo added", IdText(newTodo.id, newTodo.text));
    }

    /**
     * `toggleTodo`: an unknown id gives one warning and nothing else;
     * otherwise every todo with the id is flipped and the log records the
     * negation of the first one's old flag.
     */
    method ToggleTodo(id: string)
      requires Valid()
      modifies collection, logger
      ensures Valid()
      ensures collection.listeners == old(collection.listeners) && collection.nextToken == old(collection.nextToken)
      ensures !HasTodo(old(collection.items), id) ==>
        && collection.items == old(collection.items)
        && collection.outbox == old(collection.outbox)
        && logger.logs == old(logger.logs) + [LogEntry(Warn, "Todo not found for toggle", IdData(id))]
      ensures HasTodo(old(collection.items), id) ==>
        && collection.items == GenericStore.Updated(old(collection.items), IdOf, id, Toggled)
        && collection.outbox == old(collection.outbox) + Broadcast(GenericStore.Subscribers(collection.listeners), collection.items)
        && var first := GenericStore.Find(old(collection.items), HasId(id));
           first.Some? && logger.logs == old(logger.logs) + [LogEntry(Info, "Todo toggled", IdCompleted(id, !first.value.completed))]
    {
      var todo := collection.FindItem(HasId(id));
      if todo.None? {
        logger.Warn("Todo not found for toggle", IdData(id));
        return;
      }
      collection.UpdateItem(id, Toggled);
      logger.Info("Todo toggled", IdCompleted(id, !todo.value.completed));
    }

    /**
     * `removeTodo`: an unknown id gives one warning and nothing else;
     * otherwise every todo with the id goes and the log records the text of
     * the first one.
     */
    method RemoveTodo(id: string)
      requires Valid()
      modifies collection, logger
      ensures Valid()
      ensures collection.listeners == old(collection.listeners) && collection.nextToken == old(collection.nextToken)
      ensures !HasTodo(old(collection.items), id) ==>
        && collection.items == old(collection.items)
        && collection.outbox == old(collection.outbox)
        && logger.logs == old(logger.logs) + [LogEntry(Warn, "Todo not found for removal", IdData(id))]
      ensures HasTodo(old(collection.items), id) ==>
        && collection.items == GenericStore.Removed(old(collection.items), IdOf, id)
        && collection.outbox == old(collection.outbox) + Broadcast(GenericStore.Subscribers(collection.listeners), collection.items)
        && var first := GenericStore.Find(old(collection.items), HasId(id));
           first.Some? && logger.logs == old(logger.logs) + [LogEntry(Info, "Todo removed", IdText(id, first.value.text))]
    {
      var todo := collection.FindItem(HasId(id));
      if todo.None? {
        logger.Warn("Todo not found for removal", IdData(id));
        return;
      }
      collection.RemoveItem(id);
      logger.Info("Todo removed", IdText(id, todo.value.text));
    }

    /**
     * `subscribe`: forwarded to the collection. The token is the collection's
     * next one, and the counter advances, so no token is handed out twice.
     */
    method Subscribe(s: SubscriberId) returns (token: nat)
      requires Valid()
      modifies collection
      ensures Valid()
      ensures forall i :: 0 <= i < |old(collection.listeners)| ==> old(collection.listeners)[i].token != token
      ensures token == old(collection.nextToken) && collection.nextToken == old(collection.nextToken) + 1
      ensures collection.listeners == old(collection.listeners) + [GenericStore.Listener(token, s)]
      ensures collection.items == old(collection.items) && collection.outbox == old(collection.outbox)
    {
      token := collection.Subscribe(s);
    }

    /** The unsubscribe function returned with `token`. */
    method Unsubscribe(token: nat)
      requires Valid()
      modifies collection
      ensures Valid()
      ensures collection.listeners == GenericStore.Unlisten(old(collection.listeners), token)
      ensures collection.items == old(collection.items) && collection.outbox == old(collection.outbox)
      ensures collection.nextToken == old(collection.nextToken)
    {
      collection.Unsubscribe(token);
    }
  }

  /** Adding a text that trim leaves unchanged appends exactly that todo. */
  method AddTrimmed(service: TodoService, text: string, id: string, at: Stamp)
    requires service.Valid() && text != [] && !IsWhitespace(text[0]) && !IsWhitespace(text[|text| - 1])
    modifies service.collection, service.logger
    ensures service.Valid()
    ensures service.collection.items == old(service.collection.items) + [Todo(id, text, false, at)]
  {
    TrimFixedPoint(text);
    service.AddTodo(text, id, at);
  }

  /** From an empty list: add "Active todo 1", "Active todo 2" and "Todo to complete". */
  method AddThree(service: TodoService, id1: string, id2: string, id3: string, at: Stamp)
    requires service.Valid() && service.collection.items == []
    modifies service.collection, service.logger
    ensures service.Valid()
    ensures service.collection.items == [Todo(id1, "Active todo 1", false, at),
                                         Todo(id2, "Active todo 2", false, at),
                                         Todo(id3, "Todo to complete", false, at)]
  {
    AddTrimmed(service, "Active todo 1", id1, at);
    AddTrimmed(service, "Active todo 2", id2, at);
    AddTrimmed(service, "Todo to complete", id3, at);
  }

  /** The todo whose text is "Todo to complete" is found and toggled by its id. */
  method CompleteThird(service: TodoService, t1: Todo, t2: Todo, t3: Todo)
    requires service.Valid() && service.collection.items == [t1, t2, t3]
    requires t1.text == "Active todo 1" && t2.text == "Active todo 2" && t3.text == "Todo to complete"
    requires t3.id != t1.id && t3.id != t2.id
    modifies service.collection, service.logger
    ensures service.Valid()
    ensures service.collection.items == [t1, t2, Toggled(t3)]
  {
    var todos := service.GetTodos();
    var toComplete := (t: Todo) => t.text == "Todo to complete";
    assert !toComplete(todos[0]) by {
      assert "Active todo 1"[0] != "Todo to complete"[0];
    }
    assert !toComplete(todos[1]) by {
      assert "Active todo 2"[0] != "Todo to complete"[0];
    }
    var found := GenericStore.Find(todos, toComplete);
    assert found == Some(t3) by {
      assert toComplete(todos[2]);
    }
    assert HasTodo(todos, t3.id) by {
      assert todos[2].id == t3.id;
    }
    service.ToggleTodo(found.value.id);
  }

  /** Of two active todos followed by a completed one, the active filter keeps exactly the two. */
  lemma ActiveOfThree(t1: Todo, t2: Todo, t3: Todo)
    requires !t1.completed && !t2.completed && t3.completed
    ensures GenericStore.Filter([t1, t2, t3], IsActive) == [t1, t2]
  {
    GenericStore.FilterOne(t3, IsActive);
    GenericStore.FilterTwo(t2, t3, IsActive);
    GenericStore.FilterThree(t1, t2, t3, IsActive);
  }

  /** Of two active todos followed by a completed one, the completed filter keeps exactly the last. */
  lemma CompletedOfThree(t1: Todo, t2: Todo, t3: Todo)
    requires !t1.completed && !t2.completed && t3.completed
    ensures GenericStore.Filter([t1, t2, t3], IsCompleted) == [t3]
  {
    GenericStore.FilterOne(t3, IsCompleted);
    GenericStore.FilterTwo(t2, t3, IsCompleted);
    GenericStore.FilterThree(t1, t2, t3, IsCompleted);
  }

  /**
   * Adding three todos and completing the third leaves exactly the first two
   * active and exactly the third completed.
   */
  method FilterScenario(id1: string, id2: string, id3: string, at: Stamp) returns (active: seq<Todo>, completed: seq<Todo>)
    requires id3 != id1 && id3 != id2
    ensures active == [Todo(id1, "Active todo 1", false, at), Todo(id2, "Active todo 2", false, at)]
    ensures completed == [Todo(id3, "Todo to complete", true, at)]
    ensures |active| == 2 && |completed| == 1
  {
    var logger := new MockLoggingService();
    var service := new TodoService(logger);
    AddThree(service, id1, id2, id3, at);
    var t1, t2, t3 := Todo(id1, "Active todo 1", false, at), Todo(id2, "Active todo 2", false, at), Todo(id3, "Todo to complete", false, at);
    CompleteThird(service, t1, t2, t3);
    ActiveOfThree(t1, t2, Toggled(t3));
    CompletedOfThree(t1, t2, Toggled(t3));
    active := service.GetActiveTodos();
    completed := service.GetCompletedTodos();
  }

  /** A callback subscribed through the service receives the list after a later add, and nothing before it. */
  method SubscribeThenAddScenario(s: SubscriberId, id: string, at: Stamp) returns (received: seq<Delivery<seq<Todo>>>)
    ensures received == [Delivery(s, [Todo(id, "X", false, at)])]
  {
    var logger := new MockLoggingService();
    var service := new TodoService(logger);
    var token := service.Subscribe(s);
    assert Trim(" X ") == "X" by {
      assert SkipLeading(" X ", 0) == 1;
      assert SkipTrailing(" X ", 1, 3) == 2;
    }
    service.AddTodo(" X ", id, at);
    var t := Todo(id, "X", false, at);
    assert service.collection.items == [t];
    assert GenericStore.Subscribers(service.collection.listeners) == [s];
    assert Broadcast([s], [t]) == [Delivery(s, [t])];
    received := service.collection.outbox;
  }

  /**
   * After the unsubscribe function of one callback runs, a later add
   * reaches only the callback still registered.
   */
  method UnsubscribeThenAddScenario(other: SubscriberId, s: SubscriberId, text: string, id: string, at: Stamp)
    returns (received: seq<Delivery<seq<Todo>>>)
    ensures received == if Trim(text) == [] then [] else [Delivery(other, [Todo(id, Trim(text), false, at)])]
  {
    var logger := new MockLoggingService();
    var service := new TodoService(logger);
    var kept := service.Subscribe(other);
    var before := service.collection.listeners;
    var token := service.Subscribe(s);
    service.Unsubscribe(token);
    GenericStore.SubscribeThenUnlisten(before, token, s);
    assert GenericStore.Subscribers(service.collection.listeners) == [other];
    service.AddTodo(text, id, at);
    received := service.collection.outbox;
    if Trim(text) != [] {
      var t := Todo(id, Trim(text), false, at);
      assert service.collection.items == [t];
      assert Broadcast([other], [t]) == [Delivery(other, [t])];
    }
  }

  /**
   * Subscribe a, unsubscribe it, subscribe b, then call a's unsubscribe
   * function again: the second call removes nothing, since b's registration
   * has a token of its own.
   */
  method StaleUnsubscribe(service: TodoService, a: SubscriberId, b: SubscriberId) returns (second: nat)
    requires service.Valid() && service.collection.listeners == []
    modifies service.collection
    ensures service.Valid()
    ensures service.collection.listeners == [GenericStore.Listener(second, b)]
    ensures service.collection.items == old(service.collection.items)
    ensures service.collection.outbox == old(service.collection.outbox)
  {
    var first := service.Subscribe(a);
    service.Unsubscribe(first);
    assert service.collection.listeners == [] by {
      assert [] + [GenericStore.Listener(first, a)] == [GenericStore.Listener(first, a)];
      GenericStore.SubscribeThenUnlisten([], first, a);
    }
    second := service.Subscribe(b);
    assert service.collection.listeners == [GenericStore.Listener(second, b)];
    service.Unsubscribe(first);
    assert second != first;
    GenericStore.UnlistenAbsent([GenericStore.Listener(second, b)], first);
  }

  /** After a stale second unsubscribe, the later callback alone receives the next add. */
  method StaleUnsubscribeScenario(a: SubscriberId, b: SubscriberId, id: string, at: Stamp)
    returns (received: seq<Delivery<seq<Todo>>>)
    ensures received == [Delivery(b, [Todo(id, "X", false, at)])]
  {
    var logger := new MockLoggingService();
    var service := new TodoService(logger);
    var second := StaleUnsubscribe(service, a, b);
    assert GenericStore.Subscribers(service.collection.listeners) == [b];
    TrimFixedPoint("X");
    service.AddTodo("X", id, at);
    var t := Todo(id, "X", false, at);
    assert service.collection.items == [t];
    assert Broadcast([b], [t]) == [Delivery(b, [t])];
    received := service.collection.outbox;
  }
}
