# Todo tracker core in Dafny

This project models the state layer and the business rules of a small todo tracker written in TypeScript. The tracker uses inversify for dependency injection and Zustand stores for state. The model covers:

- **The todo record** (`Todos`) and JavaScript `String.prototype.trim` (`Text`). The whitespace set of `trim` is written out exactly: the WhiteSpace and LineTerminator code points of ECMAScript.
- **The generic collection store** of `src/store/Store.ts` (`GenericStore`):
  - its pure reducers (append, update by id, remove by id, replace) and first-match search;
  - its `Store` class, which replaces its state through a reducer and then calls every listener.
- **The todo reducers** of `src/store/todoStore.ts` (`TodoStore`), which are the generic reducers specialised to todos.
- **The array-backed test doubles**: `MockTodoStore` and `MockTodoService`. They update their arrays in place, keep subscriber lists and notify synchronously.
- **The keyed master store** of `src/store/MasterStore.ts` (`MasterStore`):
  - a record of named slots;
  - typed views whose `get` falls back to a default;
  - a view cache in which the first `getStore` call for a key wins;
  - `clear`;
  - listeners that each read their own view's slot.
- **Its test double** `MockMasterStore`: one self-contained view object per key.
- **The in-memory logger** `MockLoggingService` (`Logging`). Every service logs into it, so "logs exactly one warning" can be stated.
- **The services**: `TodoService` over a `Store<Todo>` collection, and `ThemeService` over the `"theme"` slice.

How the model is built:

- **Classes.** Objects whose fields the source updates in place are Dafny classes with `modifies` clauses.
- **Reducers.** Pure reducers are functions, and lemmas relate them to each other.
- **Callbacks.** A callback is an opaque `SubscriberId`.
- **Notifications.** One notification round is the list of `Delivery(subscriber, payload)` it makes, in order. Each store appends every round to an `outbox` field, which is how the contracts observe notifications.
- **Null and undefined.** Both are `None` of `Option`, and `a ?? b` is `GetOr`.
- **Nondeterministic inputs.** The todo id and the creation time come from the clock and `Math.random`, so they are parameters.

`src/services/TodoService.ts` reads its todos through `masterStore.getCollection<Todo>("todos")`, which returns a `CollectionView`. Neither exists in `src/store/MasterStore.ts`. The model therefore gives the service a collection with the semantics of the `Store` class of `src/store/Store.ts`, which the service creates and owns. The collection takes the new todo's id as a parameter, where the missing `CollectionView.addItem` would have generated it.

`clear` empties the view cache (`src/store/MasterStore.ts:101`): a view obtained before `clear` is no longer the one `getStore` returns for its key.

## Model

| member | source | states |
|---|---|---|
| Text.Trim | src/services/TodoService.ts:22 | the result is a contiguous slice of the input; only whitespace is cut, from both ends, and no whitespace is left at either end |
| Text.TrimEmptyIffBlank | src/services/TodoService.ts:22-25 | `!text.trim()` holds exactly when every character of the text is whitespace |
| Text.TrimFixedPoint | src/test-utils/MockTodoService.ts:26 | trimming leaves a text unchanged exactly when it is empty or neither starts nor ends with whitespace |
| Text.TrimIdempotent | src/test-utils/MockTodoService.ts:26 | trimming a trimmed text changes nothing |
| Todos.Toggled | src/store/todoStore.ts:23 | the copy has the opposite completion flag and the same id, text and creation time |
| Todos.UpdateFirst | src/test-utils/MockTodoStore.ts:18-24 | length is kept; an absent id leaves the list unchanged; otherwise exactly the first index with the id is replaced by the updater's result |
| Todos.UpdateFirstMatchesUpdated | src/test-utils/MockTodoStore.ts:19-21 | when ids are unique, updating the first match in place gives the same list as the map-based `updateItem` reducer |
| Todos.UpdateFirstDiffersOnRepeatedId | src/test-utils/MockTodoStore.ts:19-21 | with a repeated id the two differ: the double toggles only the first copy |
| Observers.Broadcast | src/test-utils/MockTodoStore.ts:53-55 | one delivery per subscriber, in registration order, each carrying the payload |
| Observers.NotifyAll | src/test-utils/MockTodoStore.ts:53-55 | the `forEach` loop delivers exactly the broadcast |
| Observers.RemoveAll | src/test-utils/MockTodoStore.ts:40-45 | the callback is gone; every other subscriber is kept; an absent callback leaves the list unchanged |
| Observers.RemoveAllKeepsOrder | src/test-utils/MockTodoStore.ts:43 | the filter works piecewise over a concatenation, so the kept subscribers stay in order |
| Observers.RemoveAllIdempotent | src/test-utils/MockTodoService.ts:61-63 | calling the unsubscribe function twice equals calling it once |
| Observers.IndexOf | src/test-utils/MockMasterStore.ts:36 | -1 exactly when the callback is absent; otherwise the first index holding it |
| Observers.RemoveFirst | src/test-utils/MockMasterStore.ts:35-40 | an absent callback changes nothing; otherwise the first occurrence goes and the rest keep their order (so multiset minus one, length minus one) |
| Observers.RemoveFirstOnce | src/test-utils/MockMasterStore.ts:35-40 | a callback registered once is gone after one unsubscribe, and a second unsubscribe is a no-op |
| GenericStore.FindIndex | src/test-utils/MockTodoStore.ts:19 | the index satisfies the predicate and no earlier index does; -1 means no index does |
| GenericStore.Find | src/store/Store.ts:69-71 | none exactly when no item satisfies the predicate; otherwise the first item that does |
| GenericStore.Filter | src/store/Store.ts:33 | every kept item satisfies the predicate; every item of the input that satisfies it is kept; nothing is invented or duplicated |
| GenericStore.FilterKeepsAll | src/store/Store.ts:31-34 | a filter that keeps every item returns the list unchanged |
| GenericStore.FilterAppend | src/store/Store.ts:31-34 | filtering a concatenation concatenates the filtered parts (order is kept) |
| GenericStore.FilterOne | src/store/Store.ts:33 | filtering one item keeps it exactly when it satisfies the predicate |
| GenericStore.FilterTwo | src/store/Store.ts:33 | filtering two items decides the first and filters the second |
| GenericStore.FilterThree | src/store/Store.ts:33 | filtering three items decides the first and filters the other two |
| GenericStore.FilterPartition | src/services/TodoService.ts:76-82 | two complementary filters split the list: their multisets sum to the list's, and their lengths to its length |
| GenericStore.InitialItems | src/store/Store.ts:17 | the initial item list is empty |
| GenericStore.Added | src/store/Store.ts:19-22 | the old items are a prefix and the new item is last |
| GenericStore.Updated | src/store/Store.ts:24-29 | length is kept; every item with the id becomes the updater's result, every other item is unchanged; an absent id changes nothing |
| GenericStore.UpdateItemTwice | src/store/Store.ts:24-29 | two updates of one id compose into one update with the composed updater, provided the first keeps ids |
| GenericStore.Removed | src/store/Store.ts:31-34 | no item with the id remains; every item with another id remains; nothing is invented; an absent id changes nothing |
| GenericStore.RemovedAfterAdded | src/store/Store.ts:19-34 | removing the id of an item just appended gives what removing it before the append gives |
| GenericStore.Replaced | src/store/Store.ts:36 | the list becomes the given one, whatever it was |
| GenericStore.Subscribers | src/store/Store.ts:73-77 | the callbacks of the registrations, in registration order |
| GenericStore.Unlisten | src/store/Store.ts:73-77 | the token's registration is gone; all others remain; nothing is invented |
| GenericStore.SubscribeThenUnlisten | src/store/Store.ts:73-77 | subscribing and then calling the returned unsubscribe function restores the registrations |
| GenericStore.UnlistenAbsent | src/store/Store.ts:73-77 | an unsubscribe function whose registration is already gone changes nothing |
| GenericStore.UnlistenIdempotent | src/store/Store.ts:73-77 | calling an unsubscribe function twice equals calling it once |
| GenericStore.Store.constructor | src/store/Store.ts:45-47 | a new store has no items, no listeners and no notifications |
| GenericStore.Store.SetState | src/store/Store.ts:16-37 | the state is replaced, and then every listener receives the new items |
| GenericStore.Store.GetItems | src/store/Store.ts:49-51 | returns the items |
| GenericStore.Store.AddItem | src/store/Store.ts:53-55 | the items become the `addItem` reducer's result, and every listener is notified |
| GenericStore.Store.UpdateItem | src/store/Store.ts:57-59 | the items become the `updateItem` reducer's result, and every listener is notified |
| GenericStore.Store.RemoveItem | src/store/Store.ts:61-63 | the items become the `removeItem` reducer's result, and every listener is notified |
| GenericStore.Store.SetItems | src/store/Store.ts:65-67 | the items are replaced, and every listener is notified |
| GenericStore.Store.FindItem | src/store/Store.ts:69-71 | returns the first item satisfying the predicate, or none |
| GenericStore.Store.Subscribe | src/store/Store.ts:73-77 | appends a registration whose token no current registration has; the token is the store's counter value, which then advances by one; no other operation changes the counter, so a token is never handed out twice; items and notifications are unchanged |
| GenericStore.Store.Unsubscribe | src/store/Store.ts:73-77 | removes exactly that token's registration |
| TodoStore.Initial | src/store/todoStore.ts:13 | the initial state has no todos |
| TodoStore.AddTodo | src/store/todoStore.ts:15-18 | the todo goes at the end; the old todos are a prefix |
| TodoStore.ToggleTodo | src/store/todoStore.ts:20-25 | length is kept; every todo with the id is flipped and every other todo is unchanged; an absent id changes nothing |
| TodoStore.ToggleTwice | src/store/todoStore.ts:20-25 | toggling one id twice restores the state |
| TodoStore.RemoveTodo | src/store/todoStore.ts:27-30 | no todo with the id remains; every todo with another id remains; nothing is invented; an absent id changes nothing |
| TodoStore.RemoveTodoSplits | src/store/todoStore.ts:27-30 | what is removed is exactly the todos with the id (multisets), and removal works piecewise over a concatenation (order is kept) |
| TodoStore.SetTodos | src/store/todoStore.ts:32 | the list becomes the given one |
| MockTodoStore.MockTodoStore.constructor | src/test-utils/MockTodoStore.ts:6-7 | a new store is empty and has no subscribers |
| MockTodoStore.MockTodoStore.NotifySubscribers | src/test-utils/MockTodoStore.ts:53-55 | each subscriber, in order, receives the current items |
| MockTodoStore.MockTodoStore.GetItems | src/test-utils/MockTodoStore.ts:9-11 | returns a sequence equal to the items |
| MockTodoStore.MockTodoStore.AddItem | src/test-utils/MockTodoStore.ts:13-16 | appends the item, then notifies every subscriber |
| MockTodoStore.MockTodoStore.UpdateItem | src/test-utils/MockTodoStore.ts:18-24 | only the first todo with the id is replaced; subscribers are notified exactly when the id was present |
| MockTodoStore.MockTodoStore.RemoveItem | src/test-utils/MockTodoStore.ts:26-29 | every todo with the id goes; subscribers are notified even when none was present |
| MockTodoStore.MockTodoStore.SetItems | src/test-utils/MockTodoStore.ts:31-34 | the items are replaced, then subscribers are notified |
| MockTodoStore.MockTodoStore.FindItem | src/test-utils/MockTodoStore.ts:36-38 | returns the first item satisfying the predicate, or none |
| MockTodoStore.MockTodoStore.Subscribe | src/test-utils/MockTodoStore.ts:40-41 | the callback is pushed at the end |
| MockTodoStore.MockTodoStore.Unsubscribe | src/test-utils/MockTodoStore.ts:42-44 | every registration of the callback goes; the others stay in order |
| MockTodoStore.MockTodoStore.Clear | src/test-utils/MockTodoStore.ts:48-51 | the items become empty, then subscribers receive the empty list |
| Logging.MockLoggingService.constructor | src/test-utils/MockLoggingService.ts:6 | a fresh logger has an empty buffer |
| Logging.MockLoggingService.Info | src/test-utils/MockLoggingService.ts:8-10 | appends exactly one info entry with the message and data; earlier entries are unchanged |
| Logging.MockLoggingService.Warn | src/test-utils/MockLoggingService.ts:12-14 | appends exactly one warn entry |
| Logging.MockLoggingService.Error | src/test-utils/MockLoggingService.ts:16-18 | appends exactly one error entry whose data is the error |
| Logging.MockLoggingService.Clear | src/test-utils/MockLoggingService.ts:20-22 | the buffer becomes empty |
| MockTodoService.MockTodoService.constructor | src/test-utils/MockTodoService.ts:7-12 | no todos, no subscribers, and the given logger |
| MockTodoService.MockTodoService.NotifySubscribers | src/test-utils/MockTodoService.ts:77-79 | each subscriber, in order, receives the current todos |
| MockTodoService.MockTodoService.GetTodos | src/test-utils/MockTodoService.ts:14-16 | returns a sequence equal to the todos |
| MockTodoService.MockTodoService.AddTodo | src/test-utils/MockTodoService.ts:18-36 | blank text: one warning, no change, no notification; otherwise the trimmed, uncompleted todo is appended, one info entry records its id and text, and every subscriber is notified |
| MockTodoService.MockTodoService.ToggleTodo | src/test-utils/MockTodoService.ts:38-44 | the first todo with the id is flipped and subscribers are notified; an absent id changes nothing, logs nothing and notifies no one |
| MockTodoService.MockTodoService.RemoveTodo | src/test-utils/MockTodoService.ts:46-57 | an absent id: one warning and nothing else; otherwise every todo with the id goes, one info entry records the first one's text, and subscribers are notified |
| MockTodoService.MockTodoService.Subscribe | src/test-utils/MockTodoService.ts:59-60 | the callback is pushed at the end |
| MockTodoService.MockTodoService.Unsubscribe | src/test-utils/MockTodoService.ts:61-63 | afterwards the callback is no longer a subscriber; the others stay in order |
| MockTodoService.MockTodoService.Clear | src/test-utils/MockTodoService.ts:67-70 | the list becomes empty, then subscribers are notified |
| MockTodoService.MockTodoService.SetTodos | src/test-utils/MockTodoService.ts:72-75 | the list becomes the given one, then subscribers are notified |
| MockTodoService.AddThenToggleScenario | src/services/TodoService.test.ts:56-65 | adding "Test todo" and toggling its id leaves one completed todo with that text |
| MockTodoService.AddThenRemoveScenario | src/services/TodoService.test.ts:67-76 | adding and then removing a todo leaves the list empty and logs one info entry per step |
| MockTodoService.BlankAddScenario | src/test-utils/MockTodoService.ts:18-22 | whitespace-only text adds nothing, notifies nobody and logs one warning |
| TodoService.CompletedAndActivePartition | src/services/TodoService.ts:76-82 | the completed todos and the active todos are each all of one flag, and together they make up the list exactly (multisets) |
| TodoService.TodoService.constructor | src/services/TodoService.ts:10-15 | the service owns a new, empty collection and keeps the given logger |
| TodoService.TodoService.GetTodos | src/services/TodoService.ts:17-19 | returns the collection's items |
| TodoService.TodoService.GetCompletedTodos | src/services/TodoService.ts:76-78 | returns the completed todos, in order |
| TodoService.TodoService.GetActiveTodos | src/services/TodoService.ts:80-82 | returns the active todos, in order |
| TodoService.TodoService.AddTodo | src/services/TodoService.ts:21-37 | blank text: one warning with the text, no change, no notification; otherwise a new uncompleted todo with the trimmed text is appended, listeners are notified, and one info entry records its id and text |
| TodoService.TodoService.ToggleTodo | src/services/TodoService.ts:39-57 | an absent id: one warning with the id and nothing else; otherwise every todo with the id is flipped, listeners are notified, and one info entry carries the negation of the first match's old flag |
| TodoService.TodoService.RemoveTodo | src/services/TodoService.ts:59-69 | an absent id: one warning and nothing else; otherwise every todo with the id goes, listeners are notified, and one info entry carries the first match's text |
| TodoService.TodoService.Subscribe | src/services/TodoService.ts:71-73 | a registration for the callback is appended to the collection's listeners; the token is the collection's counter value, which then advances by one, and no other method of the service changes the counter, so no token is handed out twice; items and notifications are unchanged |
| TodoService.TodoService.Unsubscribe | src/services/TodoService.ts:71-73 | the returned unsubscribe function removes exactly that registration |
| TodoService.AddTrimmed | src/services/TodoService.ts:21-31 | a text with no whitespace at either end is appended unchanged, as an uncompleted todo |
| TodoService.AddThree | src/services/TodoService.test.ts:90-92 | from an empty list, the three adds give exactly "Active todo 1", "Active todo 2" and "Todo to complete", in that order, all uncompleted |
| TodoService.CompleteThird | src/services/TodoService.test.ts:95-99 | `find` by the text "Todo to complete" returns the third todo, and toggling its id completes it and nothing else |
| TodoService.ActiveOfThree | src/services/TodoService.ts:80-82 | of two active todos followed by a completed one, the active filter keeps exactly the two, in order |
| TodoService.CompletedOfThree | src/services/TodoService.ts:76-78 | of two active todos followed by a completed one, the completed filter keeps exactly the last |
| TodoService.FilterScenario | src/services/TodoService.test.ts:88-109 | the test's steps, stated for `TodoService` (the class that has `getActiveTodos` and `getCompletedTodos`; the test's double has neither): after the three adds and the toggle, `getActiveTodos` is exactly the first two todos (so length 2, all active) and `getCompletedTodos` exactly the completed third (length 1, all completed) |
| TodoService.SubscribeThenAddScenario | src/services/TodoService.test.ts:78-86 | a subscribed callback receives the one-todo list produced by a later add, and nothing else |
| TodoService.StaleUnsubscribe | src/services/TodoService.ts:71-73 | after subscribing a, unsubscribing it and subscribing b, calling a's unsubscribe function again leaves b's registration in place |
| TodoService.StaleUnsubscribeScenario | src/services/TodoService.ts:71-73 | after that stale second unsubscribe, a later add reaches b, and only b |
| TodoService.UnsubscribeThenAddScenario | src/services/TodoService.ts:71-73 | with another callback already subscribed, subscribing and then calling the returned unsubscribe function leaves only the other callback: a later non-blank add reaches it alone, and a blank add reaches no one |
| MasterStore.ValueOr | src/store/MasterStore.ts:29 | the stored value when the slot holds one, otherwise the default |
| MasterStore.SetSlot | src/store/MasterStore.ts:61-64 | the slot holds the new value; every other slot reads as before; the key set gains the key |
| MasterStore.UpdateSlot | src/store/MasterStore.ts:66-72 | the slot holds the updater applied to the raw old slot (no default); every other slot reads as before |
| MasterStore.GetAfterSet | src/store/MasterStore.ts:27-34 | after `set(v)`, `get()` returns `v` whatever the default |
| MasterStore.SetKeepsOtherSlots | src/store/MasterStore.ts:61-64 | writing one slot does not change what another key reads as |
| MasterStore.UpdateFromDefault | src/store/MasterStore.ts:36-41 | on an unwritten slot the view's `update` starts from the default (and reads the default again if the updater returns undefined), while the raw `updateData` updater receives undefined |
| MasterStore.ClearedReadsDefault | src/store/MasterStore.ts:95-102 | once every slot holds undefined, every key reads as its view's default |
| MasterStore.Notifications | src/store/MasterStore.ts:43-48 | each listener, in order, receives its own key's value, or its own view's default |
| MasterStore.NotifyViews | src/store/MasterStore.ts:43-48 | the notification loop delivers exactly those values |
| MasterStore.Unlisten | src/store/MasterStore.ts:43-48 | the token's registration is gone; all others remain |
| MasterStore.UnlistenAbsent | src/store/MasterStore.ts:43-48 | a view's unsubscribe function whose registration is already gone changes nothing |
| MasterStore.UnlistenIdempotent | src/store/MasterStore.ts:43-48 | calling a view's unsubscribe function twice equals calling it once |
| MasterStore.StoreView.Get | src/store/MasterStore.ts:27-30 | the slot's value when the key holds one; the view's default when the key is missing or holds undefined |
| MasterStore.StoreView.constructor | src/store/MasterStore.ts:21-25 | the view keeps its store, key and default |
| MasterStore.StoreView.Set | src/store/MasterStore.ts:32-34 | the slot is written through `setData`; `get()` then returns the value, or the default for undefined; every other key reads as before; listeners are notified |
| MasterStore.StoreView.Update | src/store/MasterStore.ts:36-41 | the slot becomes the updater applied to the old `get()`, so an unwritten slot is updated from the default; an updater returning undefined leaves `get()` reading the default; listeners are notified |
| MasterStore.StoreView.Subscribe | src/store/MasterStore.ts:43-48 | appends a listener that reads this view's key with this view's default; the token is the store's counter value, which then advances by one; no other operation changes the counter, so a token is never handed out twice; data, notifications and the view cache are unchanged |
| MasterStore.MasterStore.constructor | src/store/MasterStore.ts:57-74 | empty data, no views, no listeners |
| MasterStore.MasterStore.SetData | src/store/MasterStore.ts:61-64 | the data becomes the `setData` reducer's result, then every listener is called |
| MasterStore.MasterStore.UpdateData | src/store/MasterStore.ts:66-72 | the data becomes the `updateData` reducer's result, then every listener is called |
| MasterStore.MasterStore.Listen | src/store/MasterStore.ts:44 | appends a registration whose token no current registration has; the token is the store's counter value, which then advances by one; no other operation changes the counter, so a token is never handed out twice |
| MasterStore.MasterStore.Unlistened | src/store/MasterStore.ts:44 | removes exactly that registration |
| MasterStore.MasterStore.GetStore | src/store/MasterStore.ts:77-87 | a cached key returns its cached view and ignores the new default; otherwise a new view with this default is created and cached |
| MasterStore.MasterStore.GetAllData | src/store/MasterStore.ts:90-92 | returns the data record |
| MasterStore.MasterStore.Clear | src/store/MasterStore.ts:95-102 | every key present before still exists and holds undefined; one notification round is made per key; the deliveries made before are kept as a prefix, and every new delivery goes to a registered listener's callback; the view cache is empty |
| MasterStore.CachedViewScenario | src/store/MasterStore.ts:77-87 | two `getStore` calls with one key return the same view, and the first default is the one in force |
| MasterStore.SharedSliceScenario | src/store/MasterStore.ts:43-48 | a write through one view is read through another view of the key, and a listener of another key receives that key's default |
| MockMasterStore.MockStoreView.constructor | src/test-utils/MockMasterStore.ts:10-13 | a new view holds its default and has no subscribers |
| MockMasterStore.MockStoreView.Get | src/test-utils/MockMasterStore.ts:15-17 | the value if set, otherwise the default |
| MockMasterStore.MockStoreView.NotifySubscribers | src/test-utils/MockMasterStore.ts:43-45 | each subscriber, in order, receives the raw value |
| MockMasterStore.MockStoreView.Set | src/test-utils/MockMasterStore.ts:19-22 | stores the value, and each subscriber receives it once, in registration order |
| MockMasterStore.MockStoreView.Update | src/test-utils/MockMasterStore.ts:24-29 | stores the updater applied to the old `get()` (undefined unsets the value, so `get()` reads the default), then notifies |
| MockMasterStore.MockStoreView.Subscribe | src/test-utils/MockMasterStore.ts:31-32 | the callback is pushed at the end |
| MockMasterStore.MockStoreView.Unsubscribe | src/test-utils/MockMasterStore.ts:35-40 | removes the first occurrence of the callback, if any |
| MockMasterStore.MockMasterStore.constructor | src/test-utils/MockMasterStore.ts:51 | no views |
| MockMasterStore.MockMasterStore.GetStore | src/test-utils/MockMasterStore.ts:53-60 | creates a view only for an unseen key; a known key returns its view whatever the default |
| MockMasterStore.MockMasterStore.GetAllData | src/test-utils/MockMasterStore.ts:62-68 | exactly the known keys, each mapped to its view's `get()` |
| MockMasterStore.MockMasterStore.Clear | src/test-utils/MockMasterStore.ts:70-72 | every view is forgotten |
| MockMasterStore.MockMasterStore.SetStoreValue | src/test-utils/MockMasterStore.ts:75-80 | a known key's view is set, keeps its subscribers and notifies each of them once; an unknown key changes nothing; other views keep their values |
| MockMasterStore.MockMasterStore.GetStoreValue | src/test-utils/MockMasterStore.ts:82-85 | a known key gives its view's `get()`; an unknown key gives none |
| MockMasterStore.ClearThenGetScenario | src/test-utils/MockMasterStore.ts:70-72 | after `clear`, `getStore` makes a new view that uses the new default |
| MockMasterStore.SharedViewScenario | src/test-utils/MockMasterStore.ts:53-60 | two `getStore` calls with one key return one view, and `setStoreValue` is read back through `getStoreValue` |
| MockMasterStore.UnsubscribeTwiceScenario | src/test-utils/MockMasterStore.ts:31-41 | calling the unsubscribe function twice removes one registration and leaves the others |
| ThemeService.ThemeService.constructor | src/services/ThemeService.ts:17-22 | the service's view is the store's cached `"theme"` view: the one cached before if some caller asked first, otherwise a new view with `DEFAULT_THEME` that is added to the cache; data, listeners and notifications are unchanged |
| ThemeService.ThemeService.GetTheme | src/services/ThemeService.ts:24-26 | the `"theme"` slot's value when it holds one, otherwise the view's default |
| ThemeService.ThemeService.SetTheme | src/services/ThemeService.ts:28-34 | the theme is written to the `"theme"` slice and read back by `getTheme`; listeners are notified and the listener list and view cache are unchanged; one info entry "Theme changed" records its name and primary colour |
| ThemeService.ThemeService.Subscribe | src/services/ThemeService.ts:36-38 | appends a listener on the `"theme"` slice; the token is the store's counter value, which then advances by one; no other operation changes the counter, so a token is never handed out twice; data, notifications and the view cache are unchanged |
| ThemeService.DefaultThemeScenario | src/services/ThemeService.ts:6-26 | on a fresh store `getTheme` returns `DEFAULT_THEME`, named "light" |
| ThemeService.SharedThemeScenario | src/services/ThemeService.ts:21 | the service shares the `"theme"` slice with every other `getStore("theme", …)` caller, in both directions |

## Left out

- React components, hooks and the application shell are not part of this model. They are UI rendering and React effects.
- The inversify container bindings (`src/container/container.ts`, `src/test-utils/test-container.ts`) are not part of this model. Singleton resolution happens inside a library that is not modelled.
- `src/services/LoggingService.ts` is not part of this model: it only writes to the console. `MockLoggingService` is the log model.
- `src/store/ZustandTodoStore.ts` is not part of this model. It only delegates to the reducers of `todoStore.ts`, which are modelled.
- Zustand's internals are abstracted as "set replaces the state, then every listener is called in registration order". This covers its listener set, `getState` and `subscribe`. Each `subscribe` wraps the callback in a new closure, and the returned function deletes only that closure; the model names each closure by a token drawn from a counter that only `subscribe` advances.
- Ids and timestamps (`Date.now`, `Math.random`, `new Date()`) are parameters. The model does not generate them and does not assume they are fresh; uniqueness of ids is a hypothesis only where a lemma needs it.
- Callback re-entrancy is not modelled: a callback that subscribes, unsubscribes or mutates during a notification. Callbacks are opaque ids that only receive values.
- MockTodoService.MockTodoService.ToggleTodo: the source flips `completed` on the shared todo object. Lists already handed to subscribers or callers alias that object and see the flip as well. The model replaces the todo with a toggled copy, so that aliasing is not captured.
- MasterStore.MasterStore.Clear: `Object.keys` order decides the order of the notification rounds. The model clears the keys in an unspecified order and states the final data, the number of new deliveries, that the earlier deliveries are kept and that each new one goes to a registered callback; it does not state the order of the new rounds or their payloads.
- MasterStore.MasterStore: every slice has one value type `V`. TypeScript's erased per-slice types (one slice holding todos, another a theme) are not modelled together in one store.
- TodoService.TodoService: `getCollection`, `CollectionView` and `getItems(filter)` do not exist in `src/store/MasterStore.ts`. The collection is a `Store<Todo>` the service creates, and the filtered reads are `filter` over its items. The collection's sharing with the master store is not modelled.
- MasterStore.ValueOr: the data record is a plain map from key to slot. In JavaScript it is an object, so a key that names an inherited property ("constructor", "toString") reads that property instead of undefined, and `get()` would return it rather than the default. Inherited properties are not modelled.
- MockMasterStore.MockMasterStore.GetAllData: the result is a plain map. In JavaScript it is an object literal, so assigning the key "__proto__" changes its prototype instead of adding an entry. That key is not modelled specially.
