/** The todo record (src/types/Todo.ts) and the small functions every store uses on it. */
module Todos {
  import GenericStore

  /** The `createdAt` clock reading, taken by the caller and never inspected. */
  datatype Stamp = Stamp(millis: int)

  /** A todo: an `Identifiable` record with its text, completion flag and creation time. */
  datatype Todo = Todo(id: string, text: string, completed: bool, createdAt: Stamp)

  /** The `id` field, as the generic stores read it. */
  function IdOf(t: Todo): string {
    t.id
  }

  /** The search predicate `(t) => t.id === id`. */
  function HasId(id: string): Todo -> bool {
    (t: Todo) => t.id == id
  }

  /** `{ ...todo, completed: !todo.completed }`. */
  function Toggled(t: Todo): (r: Todo)
    ensures r.completed != t.completed
    ensures r.id == t.id && r.text == t.text && r.createdAt == t.createdAt
  {
    t.(completed := !t.completed)
  }

  /** `(todo) => todo.completed`, the filter of `getCompletedTodos`. */
  function IsCompleted(t: Todo): bool {
    t.completed
  }

  /** `(todo) => !todo.completed`, the filter of `getActiveTodos`. */
  function IsActive(t: Todo): bool {
    !t.completed
  }

  /** No two todos of the list share an id. */
  ghost predicate UniqueIds(todos: seq<Todo>) {
    forall i, j :: 0 <= i < j < |todos| ==> todos[i].id != todos[j].id
  }

  /** Some todo of the list has this id. */
  predicate HasTodo(todos: seq<Todo>, id: string) {
    exists i :: 0 <= i < |todos| && todos[i].id == id
  }

  /**
   * The in-place update of the mocks: find the first todo with the id
   * (`findIndex`/`find`) and replace that one entry; the list is unchanged
   * when no todo has the id.
   */
  function UpdateFirst(todos: seq<Todo>, id: string, updater: Todo -> Todo): (r: seq<Todo>)
    ensures |r| == |todos|
    ensures !HasTodo(todos, id) ==> r == todos
    ensures forall k :: 0 <= k < |todos| && todos[k].id == id && (forall j :: 0 <= j < k ==> todos[j].id != id)
                        ==> r == todos[k := updater(todos[k])]
  {
    var k := GenericStore.FindIndex(todos, HasId(id));
    if k == -1 then todos else todos[k := updater(todos[k])]
  }

  /**
   * With unique ids the mocks' first-match update and the generic reducer's
   * update of every match agree.
   */
  lemma UpdateFirstMatchesUpdated(todos: seq<Todo>, id: string, updater: Todo -> Todo)
    requires UniqueIds(todos)
    ensures UpdateFirst(todos, id, updater) == GenericStore.Updated(todos, IdOf, id, updater)
  {
    var r := UpdateFirst(todos, id, updater);
    var u := GenericStore.Updated(todos, IdOf, id, updater);
    var k := GenericStore.FindIndex(todos, HasId(id));
    forall i | 0 <= i < |todos|
      ensures r[i] == u[i]
    {
      if k != -1 && i != k {
        assert todos[k].id == id;
      }
    }
  }

  /** With a repeated id they differ: the mocks update only the first of the two todos. */
  lemma UpdateFirstDiffersOnRepeatedId(t: Todo)
    ensures UpdateFirst([t, t], t.id, Toggled) != GenericStore.Updated([t, t], IdOf, t.id, Toggled)
  {
    var u := GenericStore.Updated([t, t], IdOf, t.id, Toggled);
    assert u[1] == Toggled(t);
    var r := UpdateFirst([t, t], t.id, Toggled);
    assert r == [t, t][0 := Toggled(t)];
    assert r[1] == t != Toggled(t);
  }
}
