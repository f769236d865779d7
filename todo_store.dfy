/**
 * The todo-specific reducers of src/store/todoStore.ts. Each reducer is one
 * array expression over `state.todos`; they are the generic reducers of
 * Store.ts specialised to todos, and are defined through them.
 */
module TodoStore {
  import opened Todos
  import GenericStore

  /** The store's state. */
  datatype TodoState = TodoState(todos: seq<Todo>)

  /** The initial state: no todos. */
  function Initial(): (s: TodoState)
    ensures |s.todos| == 0
  {
    TodoState(GenericStore.InitialItems())
  }

  /** `addTodo`: the todo goes at the end, the others stay as they were. */
  function AddTodo(s: TodoState, todo: Todo): (r: TodoState)
    ensures |r.todos| == |s.todos| + 1
    ensures r.todos[..|s.todos|] == s.todos && r.todos[|s.todos|] == todo
  {
    TodoState(GenericStore.Added(s.todos, todo))
  }

  /** `toggleTodo`: every todo with the id has its flag flipped; nothing else changes. */
  function ToggleTodo(s: TodoState, id: string): (r: TodoState)
    ensures |r.todos| == |s.todos|
    ensures forall i :: 0 <= i < |s.todos| && s.todos[i].id == id ==> r.todos[i] == Toggled(s.todos[i])
    ensures forall i :: 0 <= i < |s.todos| && s.todos[i].id != id ==> r.todos[i] == s.todos[i]
    ensures !HasTodo(s.todos, id) ==> r == s
  {
    TodoState(GenericStore.Updated(s.todos, IdOf, id, Toggled))
  }

  /** Toggling is an involution: toggling the same id twice restores the state. */
  lemma ToggleTwice(s: TodoState, id: string)
    ensures ToggleTodo(ToggleTodo(s, id), id) == s
  {
    var once := ToggleTodo(s, id);
    var twice := ToggleTodo(once, id);
    forall i | 0 <= i < |s.todos|
      ensures twice.todos[i] == s.todos[i]
    {
      assert once.todos[i].id == s.todos[i].id;
    }
  }

  /** `removeTodo`: the todos whose id differs, in their order; no todo is invented or duplicated. */
  function RemoveTodo(s: TodoState, id: string): (r: TodoState)
    ensures forall i :: 0 <= i < |r.todos| ==> r.todos[i].id != id
    ensures forall i :: 0 <= i < |s.todos| && s.todos[i].id != id ==> s.todos[i] in r.todos
    ensures multiset(r.todos) <= multiset(s.todos)
    ensures !HasTodo(s.todos, id) ==> r == s
  {
    TodoState(GenericStore.Removed(s.todos, IdOf, id))
  }

  /**
   * What `removeTodo` drops is exactly the todos with the id, and it keeps
   * the relative order of what stays.
   */
  lemma RemoveTodoSplits(a: seq<Todo>, b: seq<Todo>, id: string)
    ensures multiset(RemoveTodo(TodoState(a), id).todos) + multiset(GenericStore.Filter(a, HasId(id)))
         == multiset(a)
    ensures RemoveTodo(TodoState(a + b), id).todos
         == RemoveTodo(TodoState(a), id).todos + RemoveTodo(TodoState(b), id).todos
  {
    GenericStore.FilterPartition(a, GenericStore.Other(IdOf, id), HasId(id));
    GenericStore.FilterAppend(a, b, GenericStore.Other(IdOf, id));
  }

  /** `setTodos`: the list is replaced; nothing of the old one survives. */
  function SetTodos(s: TodoState, todos: seq<Todo>): (r: TodoState)
    ensures r.todos == todos
  {
    TodoState(GenericStore.Replaced(s.todos, todos))
  }
}
