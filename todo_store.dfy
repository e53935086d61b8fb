/**
 * The in-memory todo store of the SimpleCRUDTodoList web application: one list
 * of todos that pages query by id, append to, edit and delete from.
 *
 * Todos are modelled as values. The store is a class whose single field is the
 * list; every operation that changes the list is specified by a function of
 * the old list, and the properties the application relies on (fresh ids,
 * unique ids, "nothing else changes") are proved about those functions.
 */
module TodoStore {

  datatype Option<+T> = None | Some(value: T)

  /** One todo item: its key, its title and whether it is done. */
  datatype Todo = Todo(id: int, title: string, isCompleted: bool)

  /** Some todo in `s` carries the key `id`. */
  ghost predicate HasId(s: seq<Todo>, id: int)
  {
    exists j :: 0 <= j < |s| && s[j].id == id
  }

  /** `i` is the position of the first todo in `s` whose key is `id`. */
  ghost predicate FirstMatch(s: seq<Todo>, id: int, i: int)
  {
    0 <= i < |s| && s[i].id == id && forall k :: 0 <= k < i ==> s[k].id != id
  }

  /** No two todos in `s` share a key. */
  ghost predicate UniqueIds(s: seq<Todo>)
  {
    forall i, j :: 0 <= i < j < |s| ==> s[i].id != s[j].id
  }

  /** Keys grow strictly from the front of the list to its back. */
  ghost predicate IdsAscending(s: seq<Todo>)
  {
    forall i, j :: 0 <= i < j < |s| ==> s[i].id < s[j].id
  }

  /** The largest key in a non-empty list (LINQ `Max(t => t.Id)`). */
  function MaxId(s: seq<Todo>): (m: int)
    requires |s| > 0
    ensures forall i :: 0 <= i < |s| ==> s[i].id <= m
    ensures exists i :: 0 <= i < |s| && s[i].id == m
  {
    if |s| == 1 then s[0].id
    else
      var rest := MaxId(s[1..]);
      assert forall i :: 1 <= i < |s| ==> s[i] == s[1..][i - 1];
      if s[0].id >= rest then s[0].id
      else
        var j :| 0 <= j < |s| - 1 && s[1..][j].id == rest;
        assert s[j + 1].id == rest;
        rest
  }

  /**
   * The key AddTodo gives a new todo: 1 for an empty store, otherwise one more
   * than the largest key present.
   */
  function NextId(s: seq<Todo>): (n: int)
    ensures |s| == 0 ==> n == 1
    ensures forall i :: 0 <= i < |s| ==> s[i].id < n
    ensures |s| > 0 ==> exists i :: 0 <= i < |s| && s[i].id == n - 1
  {
    if |s| > 0 then MaxId(s) + 1 else 1
  }

  /** The position of the first todo whose key is `id`, if any. */
  function FindIndex(s: seq<Todo>, id: int): (r: Option<nat>)
    ensures r.None? <==> !HasId(s, id)
    ensures r.Some? ==> FirstMatch(s, id, r.value)
  {
    if |s| == 0 then None
    else if s[0].id == id then Some(0)
    else
      match FindIndex(s[1..], id)
      case None =>
        assert forall j :: 1 <= j < |s| ==> s[j] == s[1..][j - 1];
        None
      case Some(k) =>
        assert forall j :: 1 <= j <= k ==> s[j] == s[1..][j - 1];
        Some(k + 1)
  }

  /** LINQ `FirstOrDefault(t => t.Id == id)`: the first todo with key `id`, or nothing. */
  function Lookup(s: seq<Todo>, id: int): (r: Option<Todo>)
    ensures r.None? <==> !HasId(s, id)
    ensures r.Some? ==> r.value.id == id && exists i :: FirstMatch(s, id, i) && r.value == s[i]
  {
    match FindIndex(s, id)
    case None => None
    case Some(i) => Some(s[i])
  }

  /** The list after AddTodo(todo): the todo, re-keyed with NextId, appended at the end. */
  function WithAdded(s: seq<Todo>, todo: Todo): (r: seq<Todo>)
    ensures |r| == |s| + 1 && r[..|s|] == s
    ensures r[|s|].title == todo.title && r[|s|].isCompleted == todo.isCompleted
    ensures |s| == 0 ==> r[0].id == 1
    ensures forall i :: 0 <= i < |s| ==> s[i].id < r[|s|].id
    ensures r[|s|] == todo.(id := NextId(s))
  {
    s + [todo.(id := NextId(s))]
  }

  /**
   * The list after UpdateTodo(todo): the first entry with todo's key takes its
   * title and completion flag; nothing else changes.
   */
  function WithUpdated(s: seq<Todo>, todo: Todo): (r: seq<Todo>)
    ensures |r| == |s|
    ensures forall j :: 0 <= j < |s| ==> r[j].id == s[j].id
    ensures !HasId(s, todo.id) ==> r == s
    ensures forall i :: FirstMatch(s, todo.id, i) ==>
              r[i] == todo && forall j :: 0 <= j < |s| && j != i ==> r[j] == s[j]
  {
    match FindIndex(s, todo.id)
    case None => s
    case Some(i) => s[i := s[i].(title := todo.title, isCompleted := todo.isCompleted)]
  }

  /**
   * The list after DeleteTodoById(id): the first entry with key `id` is taken
   * out and the others keep their order; nothing happens when the key is absent.
   */
  function WithDeleted(s: seq<Todo>, id: int): (r: seq<Todo>)
    ensures !HasId(s, id) ==> r == s
    ensures HasId(s, id) ==> |r| == |s| - 1
    ensures forall i :: FirstMatch(s, id, i) ==> r[..i] == s[..i] && r[i..] == s[i + 1..]
  {
    match FindIndex(s, id)
    case None => s
    case Some(i) => s[..i] + s[i + 1..]
  }

  /** A list with ascending keys has unique keys. */
  lemma AscendingIdsAreUnique(s: seq<Todo>)
    requires IdsAscending(s)
    ensures UniqueIds(s)
  {
  }

  /** AddTodo keeps keys unique, because the new key exceeds every existing one. */
  lemma AddKeepsIdsUnique(s: seq<Todo>, todo: Todo)
    requires UniqueIds(s)
    ensures UniqueIds(WithAdded(s, todo))
  {
  }

  /** AddTodo keeps keys ascending. */
  lemma AddKeepsIdsAscending(s: seq<Todo>, todo: Todo)
    requires IdsAscending(s)
    ensures IdsAscending(WithAdded(s, todo))
  {
  }

  /** After AddTodo, a lookup by the new key finds exactly the todo just added. */
  lemma LookupAfterAdd(s: seq<Todo>, todo: Todo)
    ensures Lookup(WithAdded(s, todo), NextId(s)) == Some(todo.(id := NextId(s)))
  {
  }

  /** After UpdateTodo on a present key, a lookup by that key sees the new title and flag. */
  lemma LookupAfterUpdate(s: seq<Todo>, todo: Todo)
    requires HasId(s, todo.id)
    ensures Lookup(WithUpdated(s, todo), todo.id) == Some(todo)
  {
  }

  /** DeleteTodoById keeps keys ascending. */
  lemma DeleteKeepsIdsAscending(s: seq<Todo>, id: int)
    requires IdsAscending(s)
    ensures IdsAscending(WithDeleted(s, id))
  {
  }

  /**
   * On a store with unique keys, DeleteTodoById(id) removes exactly the todo
   * with key `id`: what remains is every other todo, and a later lookup by
   * `id` finds nothing.
   */
  lemma DeleteRemovesOnlyId(s: seq<Todo>, id: int)
    requires UniqueIds(s)
    ensures forall t :: t in WithDeleted(s, id) <==> t in s && t.id != id
    ensures Lookup(WithDeleted(s, id), id) == None
  {
  }

  /** One call a page makes on the store that changes it. */
  datatype StoreCall =
    | AddCall(todo: Todo)
    | UpdateCall(todo: Todo)
    | DeleteCall(id: int)

  /** The list after one call. */
  function Apply(s: seq<Todo>, call: StoreCall): seq<Todo>
  {
    match call
    case AddCall(todo) => WithAdded(s, todo)
    case UpdateCall(todo) => WithUpdated(s, todo)
    case DeleteCall(id) => WithDeleted(s, id)
  }

  /** The list after a series of calls, first to last. */
  function ApplyAll(s: seq<Todo>, calls: seq<StoreCall>): seq<Todo>
    decreases |calls|
  {
    if |calls| == 0 then s else ApplyAll(Apply(s, calls[0]), calls[1..])
  }

  /**
   * Whatever sequential series of adds, updates and deletes the pages make, starting from
   * a store with ascending ids (the empty store, say), the ids stay strictly
   * ascending and so no two todos ever share an id.
   */
  lemma {:induction false} CallsKeepIdsUnique(s: seq<Todo>, calls: seq<StoreCall>)
    requires IdsAscending(s)
    ensures IdsAscending(ApplyAll(s, calls))
    ensures UniqueIds(ApplyAll(s, calls))
    decreases |calls|
  {
    if |calls| > 0 {
      match calls[0] {
        case AddCall(todo) => AddKeepsIdsAscending(s, todo);
        case UpdateCall(todo) =>
        case DeleteCall(id) => DeleteKeepsIdsAscending(s, id);
      }
      CallsKeepIdsUnique(Apply(s, calls[0]), calls[1..]);
    }
  }

  /**
   * The store behind the SimpleCRUDTodoList pages. The list is the only state;
   * Valid() is the invariant every operation keeps: keys strictly ascending
   * (so unique), which holds because keys are handed out by NextId only.
   */
  class TodoDataStore {
    var todos: seq<Todo>

    ghost predicate Valid()
      reads this
    {
      IdsAscending(todos)
    }

    constructor ()
      ensures todos == [] && Valid()
    {
      todos := [];
    }

    /** Returns the whole list. */
    method GetAllTodos() returns (all: seq<Todo>)
      ensures all == todos
    {
      all := todos;
    }

    /** Returns the first todo whose key is `id`, or None. */
    method GetTodoById(id: int) returns (found: Option<Todo>)
      ensures found == Lookup(todos, id)
      ensures found.None? <==> !HasId(todos, id)
      ensures found.Some? ==> found.value.id == id && found.value in todos
    {
      found := Lookup(todos, id);
    }

    /**
     * Re-keys `todo` with NextId and appends it; `stored` is the todo as it is
     * now held in the store. The caller's `todo` value itself is unchanged.
     */
    method AddTodo(todo: Todo) returns (stored: Todo)
      modifies this
      ensures todos == WithAdded(old(todos), todo)
      ensures stored == todo.(id := NextId(old(todos)))
      ensures old(Valid()) ==> Valid()
    {
      stored := todo.(id := if |todos| > 0 then MaxId(todos) + 1 else 1);
      ghost var before := todos;
      todos := todos + [stored];
      if IdsAscending(before) {
        AddKeepsIdsAscending(before, todo);
      }
    }

    /** Copies title and completion flag of `todo` into the stored todo with its key. */
    method UpdateTodo(todo: Todo)
      modifies this
      ensures todos == WithUpdated(old(todos), todo)
      ensures old(Valid()) ==> Valid()
    {
      var existing := FindIndex(todos, todo.id);
      if existing.Some? {
        var i := existing.value;
        todos := todos[i := todos[i].(title := todo.title, isCompleted := todo.isCompleted)];
      }
    }

    /**
     * Removes the todo with key `id`, if there is one. On a valid store no todo
     * with that key is left, so a later GetTodoById(id) finds nothing.
     */
    method DeleteTodoById(id: int)
      modifies this
      ensures todos == WithDeleted(old(todos), id)
      ensures old(Valid()) ==> Valid()
      ensures old(Valid()) ==> Lookup(todos, id) == None
    {
      ghost var before := todos;
      var existing := FindIndex(todos, id);
      if existing.Some? {
        var i := existing.value;
        todos := todos[..i] + todos[i + 1..];
      }
      if IdsAscending(before) {
        DeleteKeepsIdsAscending(before, id);
        AscendingIdsAreUnique(before);
        DeleteRemovesOnlyId(before, id);
      }
    }
  }
}
