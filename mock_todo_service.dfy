/**
 * The todo service double of src/test-utils/MockTodoService.ts: its own
 * todo list changed in place, its own subscriber list, and the logger it is
 * given. The id and creation time of a new todo are parameters.
 */
module MockTodoService {
  import opened Wrappers
  import opened Observers
  import opened Text
  import opened Todos
  import opened Logging
  import GenericStore

  class MockTodoService {
    var todos: seq<Todo>
    var subscribers: seq<SubscriberId>
    /** Every notification made so far, in order. */
    var outbox: seq<Delivery<seq<Todo>>>
    const logger: MockLoggingService

    constructor(logger: MockLoggingService)
      ensures todos == [] && subscribers == [] && outbox == []
      ensures this.logger == logger
    {
      todos := [];
      subscribers := [];
      outbox := [];
      this.logger := logger;
    }

    /** Each subscriber, in registration order, receives a copy of the todos. */
    method NotifySubscribers()
      modifies this`outbox
      ensures outbox == old(outbox) + Broadcast(subscribers, todos)
    {
      var sent := NotifyAll(subscribers, todos);
      outbox := outbox + sent;
    }

    /** `getTodos`: a copy equal to the list. */
    method GetTodos() returns (r: seq<Todo>)
      ensures r == todos
    {
      r := todos;
    }

    /**
     * `addTodo`: blank text gives one warning, no change and no notification;
     * otherwise the trimmed text is pushed as an uncompleted todo, one info
     * entry records it, and then every subscriber is notified.
     */
    method AddTodo(text: string, id: string, createdAt: Stamp)
      modifies this, logger
      ensures subscribers == old(subscribers)
      ensures Trim(text) == [] ==>
        && todos == old(todos)
        && outbox == old(outbox)
        && logger.logs == old(logger.logs) + [LogEntry(Warn, "Attempted to add empty todo", TextData(text))]
      ensures Trim(text) != [] ==>
        && todos == old(todos) + [Todo(id, Trim(text), false, createdAt)]
        && outbox == old(outbox) + Broadcast(subscribers, todos)
        && logger.logs == old(logger.logs) + [LogEntry(Info, "Todo added", IdText(id, Trim(text)))]
    {
      if Trim(text) == [] {
        logger.Warn("Attempted to add empty todo", TextData(text));
        return;
      }
      var newTodo := Todo(id, Trim(text), false, createdAt);
      todos := todos + [newTodo];
      logger.Info("Todo added", IdText(newTodo.id, newTodo.text));
      NotifySubscribers();
    }

    /**
     * `toggleTodo`: the first todo with the id has its flag flipped and the
     * subscribers are notified; an unknown id changes nothing, logs nothing
     * and notifies no one.
     */
    method ToggleTodo(id: string)
      modifies this
      ensures subscribers == old(subscribers)
      ensures todos == UpdateFirst(old(todos), id, Toggled)
      ensures outbox == old(outbox) + (if HasTodo(old(todos), id) then Broadcast(subscribers, todos) else [])
    {
      var index := GenericStore.FindIndex(todos, HasId(id));
      if index != -1 {
        todos := todos[index := Toggled(todos[index])];
        NotifySubscribers();
      }
    }

    /**
     * `removeTodo`: an unknown id gives one warning and nothing else;
     * otherwise every todo with the id goes, one info entry records the text
     * of the first one, and the subscribers are notified.
     */
    method RemoveTodo(id: string)
      modifies this, logger
      ensures subscribers == old(subscribers)
      ensures !HasTodo(old(todos), id) ==>
        && todos == old(todos)
        && outbox == old(outbox)
        && logger.logs == old(logger.logs) + [LogEntry(Warn, "Todo not found for removal", IdData(id))]
      ensures HasTodo(old(todos), id) ==>
        && todos == GenericStore.Removed(old(todos), IdOf, id)
        && outbox == old(outbox) + Broadcast(subscribers, todos)
        && var first := GenericStore.Find(old(todos), HasId(id));
           first.Some? && logger.logs == old(logger.logs) + [LogEntry(Info, "Todo removed", IdText(id, first.value.text))]
    {
      var todo := GenericStore.Find(todos, HasId(id));
      if todo.None? {
        logger.Warn("Todo not found for removal", IdData(id));
        return;
      }
      todos := GenericStore.Removed(todos, IdOf, id);
      logger.Info("Todo removed", IdText(id, todo.value.text));
      NotifySubscribers();
    }

    /** `subscribe`: push the callback. */
    method Subscribe(s: SubscriberId)
      modifies this
      ensures subscribers == old(subscribers) + [s]
      ensures todos == old(todos) && outbox == old(outbox)
    {
      subscribers := subscribers + [s];
    }

    /** The returned unsubscribe function: every registration of the callback goes. */
    method Unsubscribe(s: SubscriberId)
      modifies this
      ensures subscribers == RemoveAll(old(subscribers), s)
      ensures s !in subscribers
      ensures todos == old(todos) && outbox == old(outbox)
    {
      subscribers := RemoveAll(subscribers, s);
    }

    /** `clear`: empty the list, then notify. */
    method Clear()
      modifies this
      ensures todos == []
      ensures subscribers == old(subscribers)
      ensures outbox == old(outbox) + Broadcast(subscribers, [])
    {
      todos := [];
      NotifySubscribers();
    }

    /** `setTodos`: keep a copy of the list, then notify. */
    method SetTodos(newTodos: seq<Todo>)
      modifies this
      ensures todos == newTodos
      ensures subscribers == old(subscribers)
      ensures outbox == old(outbox) + Broadcast(subscribers, newTodos)
    {
      todos := newTodos;
      NotifySubscribers();
    }
  }

  /** Add "Test todo", then toggle it: the one todo is completed and kept its text. */
  method AddThenToggleScenario(id: string, at: Stamp) returns (todos: seq<Todo>)
    ensures todos == [Todo(id, "Test todo", true, at)]
  {
    var logger := new MockLoggingService();
    var service := new MockTodoService(logger);
    TrimFixedPoint("Test todo");
    service.AddTodo("Test todo", id, at);
    assert service.todos == [Todo(id, "Test todo", false, at)];
    assert HasTodo(service.todos, id) by {
      assert service.todos[0].id == id;
    }
    service.ToggleTodo(id);
    todos := service.GetTodos();
  }

  /** Add "Test todo", then remove it by its id: the list is empty again and the log holds one info entry per step. */
  method AddThenRemoveScenario(id: string, at: Stamp) returns (todos: seq<Todo>, logs: seq<LogEntry>)
    ensures todos == []
    ensures logs == [LogEntry(Info, "Todo added", IdText(id, "Test todo")),
                     LogEntry(Info, "Todo removed", IdText(id, "Test todo"))]
  {
    var logger := new MockLoggingService();
    var service := new MockTodoService(logger);
    TrimFixedPoint("Test todo");
    var t := Todo(id, "Test todo", false, at);
    service.AddTodo("Test todo", id, at);
    assert service.todos == [t];
    assert HasTodo(service.todos, id) by {
      assert service.todos[0].id == id;
    }
    assert GenericStore.Find([t], HasId(id)) == Some(t);
    service.RemoveTodo(id);
    assert GenericStore.Removed([t], IdOf, id) == [] by {
      assert |GenericStore.Removed([t], IdOf, id)| <= 1;
    }
    todos := service.GetTodos();
    logs := logger.logs;
  }

  /** Blank text is refused: nothing is added, nobody is notified, one warning is logged. */
  method BlankAddScenario(s: SubscriberId, id: string, at: Stamp) returns (todos: seq<Todo>, received: seq<Delivery<seq<Todo>>>, logs: seq<LogEntry>)
    ensures todos == [] && received == []
    ensures logs == [LogEntry(Warn, "Attempted to add empty todo", TextData(" \t "))]
  {
    var logger := new MockLoggingService();
    var service := new MockTodoService(logger);
    service.Subscribe(s);
    TrimEmptyIffBlank(" \t ");
    service.AddTodo(" \t ", id, at);
    todos := service.GetTodos();
    received := service.outbox;
    logs := logger.logs;
  }
}
