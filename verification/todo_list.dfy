/** The todo widget's list operations: add, toggle and delete, as pure
    transformations of the widget state. The id of a new todo (the clock in
    the widget) is a parameter. */
module TodoList {
  import opened JsText

  /** One todo item. */
  datatype Todo = Todo(id: int, text: string, completed: bool)

  /** The widget's state: the list and the text in the input box. */
  datatype TodoState = TodoState(todos: seq<Todo>, input: string)

  /** `handleAddTodo`: input that is blank after trimming changes nothing;
      otherwise one open todo carrying the input text as typed (untrimmed) is
      appended and the input box is cleared. */
  function AddTodo(s: TodoState, newId: int): (r: TodoState)
    ensures AllWhitespace(s.input) ==> r == s
    ensures !AllWhitespace(s.input) ==>
      && |r.todos| == |s.todos| + 1
      && r.todos[..|s.todos|] == s.todos
      && r.todos[|s.todos|] == Todo(newId, s.input, false)
      && r.input == ""
  {
    if Trim(s.input) == "" then s
    else TodoState(s.todos + [Todo(newId, s.input, false)], "")
  }

  /** One todo with its completion flipped when it carries `id`. */
  function ToggleOne(t: Todo, id: int): Todo {
    if t.id == id then t.(completed := !t.completed) else t
  }

  /** `handleToggleTodo`: same length, order, ids and texts; `completed` is
      flipped exactly on the todos whose id is `id`. */
  function Toggle(todos: seq<Todo>, id: int): (r: seq<Todo>)
    ensures |r| == |todos|
    ensures forall i :: 0 <= i < |todos| ==>
      && r[i].id == todos[i].id
      && r[i].text == todos[i].text
      && (r[i].completed != todos[i].completed <==> todos[i].id == id)
  {
    if todos == [] then [] else [ToggleOne(todos[0], id)] + Toggle(todos[1..], id)
  }

  /** Toggling the same id twice restores the list. */
  lemma ToggleTwice(todos: seq<Todo>, id: int)
    ensures Toggle(Toggle(todos, id), id) == todos
  {
    var r := Toggle(Toggle(todos, id), id);
    assert forall i :: 0 <= i < |todos| ==> r[i] == todos[i];
  }

  /** Toggling an id no todo carries leaves the list unchanged. */
  lemma ToggleAbsent(todos: seq<Todo>, id: int)
    requires forall i :: 0 <= i < |todos| ==> todos[i].id != id
    ensures Toggle(todos, id) == todos
  {
    var r := Toggle(todos, id);
    assert forall i :: 0 <= i < |todos| ==> r[i] == todos[i];
  }

  /** `handleDeleteTodo`: no todo with `id` is left, and the list does not
      grow. */
  function Delete(todos: seq<Todo>, id: int): (r: seq<Todo>)
    ensures forall i :: 0 <= i < |r| ==> r[i].id != id
    ensures |r| <= |todos|
  {
    if todos == [] then []
    else (if todos[0].id == id then [] else [todos[0]]) + Delete(todos[1..], id)
  }

  /** Delete keeps every other todo as many times as it occurred. */
  lemma {:induction false} DeleteKeepsCounts(todos: seq<Todo>, id: int, t: Todo)
    requires t.id != id
    ensures multiset(Delete(todos, id))[t] == multiset(todos)[t]
  {
    if todos != [] {
      var rest := todos[1..];
      var head := if todos[0].id == id then [] else [todos[0]];
      DeleteKeepsCounts(rest, id, t);
      assert todos == [todos[0]] + rest;
      assert multiset(todos) == multiset([todos[0]]) + multiset(rest);
      assert Delete(todos, id) == head + Delete(rest, id);
      assert multiset(Delete(todos, id)) == multiset(head) + multiset(Delete(rest, id));
      assert multiset(head)[t] == multiset([todos[0]])[t];
    }
  }

  /** The todos left are exactly those of the list that do not carry `id`. */
  lemma DeleteMembers(todos: seq<Todo>, id: int, t: Todo)
    ensures t in Delete(todos, id) <==> t in todos && t.id != id
  {
    if t.id != id {
      DeleteKeepsCounts(todos, id, t);
    } else {
      assert forall i :: 0 <= i < |Delete(todos, id)| ==> Delete(todos, id)[i] != t;
    }
  }

  /** Deleting from a concatenation deletes from each part: the kept todos
      of the front stay ahead of those of the back. */
  lemma {:induction false} DeleteAppend(a: seq<Todo>, b: seq<Todo>, id: int)
    ensures Delete(a + b, id) == Delete(a, id) + Delete(b, id)
  {
    if a == [] {
      assert a + b == b;
    } else {
      var ab := a + b;
      assert ab != [] && ab[0] == a[0] && ab[1..] == a[1..] + b;
      var head := if a[0].id == id then [] else [a[0]];
      calc {
        Delete(ab, id);
        head + Delete(ab[1..], id);
        head + Delete(a[1..] + b, id);
        { DeleteAppend(a[1..], b, id); }
        head + (Delete(a[1..], id) + Delete(b, id));
        (head + Delete(a[1..], id)) + Delete(b, id);
        Delete(a, id) + Delete(b, id);
      }
    }
  }

  /** `r` can be obtained from `s` by dropping elements. */
  predicate IsSubsequence(r: seq<Todo>, s: seq<Todo>)
    decreases |s|
  {
    if s == [] then r == []
    else (r != [] && r[0] == s[0] && IsSubsequence(r[1..], s[1..])) || IsSubsequence(r, s[1..])
  }

  /** Delete keeps the remaining todos in their original relative order. */
  lemma {:induction false} DeleteKeepsOrder(todos: seq<Todo>, id: int)
    ensures IsSubsequence(Delete(todos, id), todos)
  {
    if todos != [] {
      DeleteKeepsOrder(todos[1..], id);
      if todos[0].id != id {
        assert Delete(todos, id)[1..] == Delete(todos[1..], id);
      } else {
        assert Delete(todos, id) == Delete(todos[1..], id);
      }
    }
  }

  /** Deleting an id no todo carries leaves the list unchanged. */
  lemma {:induction false} DeleteAbsent(todos: seq<Todo>, id: int)
    requires forall i :: 0 <= i < |todos| ==> todos[i].id != id
    ensures Delete(todos, id) == todos
  {
    if todos != [] {
      DeleteAbsent(todos[1..], id);
      assert [todos[0]] + todos[1..] == todos;
    }
  }

  /** Deleting is idempotent. */
  lemma DeleteIdempotent(todos: seq<Todo>, id: int)
    ensures Delete(Delete(todos, id), id) == Delete(todos, id)
  {
    DeleteAbsent(Delete(todos, id), id);
  }
}
