/**
 * The pure part of the todo view: which fetched items the status filter shows, in
 * which order, and which rendered row is in edit mode.
 */
module TodoList {
  import opened Wrappers

  /** A todo item as the server returns it (`_id`, `text`, `completed`). */
  datatype Todo = Todo(id: string, text: string, completed: bool)

  /** The status filter chosen with the three filter buttons. */
  datatype Filter = All | Completed | Incomplete

  /** The filter callback: `all` keeps every item, the other two keep one completion status. */
  predicate Shows(f: Filter, t: Todo)
  {
    f == All || (f == Completed && t.completed) || (f == Incomplete && !t.completed)
  }

  /** `todos.filter(...)`: the items the list renders under filter `f`, in list order. */
  function Visible(todos: seq<Todo>, f: Filter): (r: seq<Todo>)
    ensures |r| <= |todos|
    ensures forall t :: t in r <==> t in todos && Shows(f, t)
  {
    if todos == [] then []
    else (if Shows(f, todos[0]) then [todos[0]] else []) + Visible(todos[1..], f)
  }

  /** `a` occurs in `s` in the same relative order, possibly with other items in between. */
  ghost predicate IsSubsequence(a: seq<Todo>, s: seq<Todo>)
    decreases |s|
  {
    if a == [] then true
    else if s == [] then false
    else (a[0] == s[0] && IsSubsequence(a[1..], s[1..])) || IsSubsequence(a, s[1..])
  }

  /** `s` is a merge of `a` and `b`: every item of `s` is taken, in order, from the front of one of them. */
  ghost predicate Interleaves(s: seq<Todo>, a: seq<Todo>, b: seq<Todo>)
    decreases |s|
  {
    if s == [] then a == [] && b == []
    else
      (a != [] && a[0] == s[0] && Interleaves(s[1..], a[1..], b)) ||
      (b != [] && b[0] == s[0] && Interleaves(s[1..], a, b[1..]))
  }

  /** The `all` filter renders every fetched item, in its original order. */
  lemma {:induction false} AllShowsEverything(todos: seq<Todo>)
    ensures Visible(todos, All) == todos
  {
    if todos != [] {
      AllShowsEverything(todos[1..]);
      assert [todos[0]] + todos[1..] == todos;
    }
  }

  /** Every filter keeps the relative order of the items it shows. */
  lemma {:induction false} VisibleIsSubsequence(todos: seq<Todo>, f: Filter)
    ensures IsSubsequence(Visible(todos, f), todos)
  {
    if todos != [] {
      VisibleIsSubsequence(todos[1..], f);
      var rest := Visible(todos[1..], f);
      if Shows(f, todos[0]) {
        assert Visible(todos, f) == [todos[0]] + rest;
        assert ([todos[0]] + rest)[1..] == rest;
      } else {
        assert Visible(todos, f) == rest;
        if rest != [] {
          assert IsSubsequence(rest, todos[1..]);
        }
      }
    }
  }

  /** A merge holds every item of its two parts, and nothing else. */
  lemma {:induction false} InterleavesCounts(s: seq<Todo>, a: seq<Todo>, b: seq<Todo>)
    requires Interleaves(s, a, b)
    ensures multiset(a) + multiset(b) == multiset(s)
    ensures |a| + |b| == |s|
    decreases |s|
  {
    if s != [] {
      assert s == [s[0]] + s[1..];
      if a != [] && a[0] == s[0] && Interleaves(s[1..], a[1..], b) {
        InterleavesCounts(s[1..], a[1..], b);
        assert a == [a[0]] + a[1..];
      } else {
        InterleavesCounts(s[1..], a, b[1..]);
        assert b == [b[0]] + b[1..];
      }
    }
  }

  /**
   * The `completed` and `incomplete` filters split the list in two: the list is a merge of
   * the two views, so each item lands in exactly one and each view keeps the list's order.
   */
  lemma {:induction false} CompletedIncompleteInterleave(todos: seq<Todo>)
    ensures Interleaves(todos, Visible(todos, Completed), Visible(todos, Incomplete))
  {
    if todos != [] {
      var t, tail := todos[0], todos[1..];
      CompletedIncompleteInterleave(tail);
      var c, i := Visible(tail, Completed), Visible(tail, Incomplete);
      if t.completed {
        assert Visible(todos, Completed) == [t] + c;
        assert Visible(todos, Incomplete) == i;
        assert ([t] + c)[1..] == c;
      } else {
        assert Visible(todos, Completed) == c;
        assert Visible(todos, Incomplete) == [t] + i;
        assert ([t] + i)[1..] == i;
      }
    }
  }

  /** The two status views together hold each fetched item exactly as often as the list does. */
  lemma CompletedIncompletePartition(todos: seq<Todo>)
    ensures multiset(Visible(todos, Completed)) + multiset(Visible(todos, Incomplete)) == multiset(todos)
    ensures |Visible(todos, Completed)| + |Visible(todos, Incomplete)| == |todos|
  {
    CompletedIncompleteInterleave(todos);
    InterleavesCounts(todos, Visible(todos, Completed), Visible(todos, Incomplete));
  }

  /** The server assigns each item its own `_id`. */
  predicate UniqueIds(todos: seq<Todo>)
  {
    forall i, j :: 0 <= i < j < |todos| ==> todos[i].id != todos[j].id
  }

  /** Filtering never duplicates an item, so the rendered rows keep distinct ids (their React keys). */
  lemma {:induction false} VisibleKeepsUniqueIds(todos: seq<Todo>, f: Filter)
    requires UniqueIds(todos)
    ensures UniqueIds(Visible(todos, f))
  {
    if todos != [] {
      var t, tail := todos[0], todos[1..];
      assert UniqueIds(tail) by {
        forall i, j | 0 <= i < j < |tail| ensures tail[i].id != tail[j].id {
          assert tail[i] == todos[i + 1] && tail[j] == todos[j + 1];
        }
      }
      VisibleKeepsUniqueIds(tail, f);
      var rest := Visible(tail, f);
      if Shows(f, t) {
        var r := [t] + rest;
        assert Visible(todos, f) == r;
        forall k | 0 <= k < |rest| ensures t.id != rest[k].id {
          assert rest[k] in tail;
          var j :| 0 <= j < |tail| && tail[j] == rest[k];
          assert todos[j + 1] == rest[k];
        }
        forall i, j | 0 <= i < j < |r| ensures r[i].id != r[j].id {
          if i == 0 {
            assert r[j] == rest[j - 1];
          } else {
            assert r[i] == rest[i - 1] && r[j] == rest[j - 1];
          }
        }
      }
    }
  }

  /** Row `t` renders its edit input and Save/Cancel buttons: `editId === todo._id`. */
  predicate IsEditing(t: Todo, editId: Option<string>)
  {
    editId == Some(t.id)
  }

  /** How many of the rows `rows` render in edit mode. */
  function EditingCount(rows: seq<Todo>, editId: Option<string>): nat
  {
    if rows == [] then 0
    else (if IsEditing(rows[0], editId) then 1 else 0) + EditingCount(rows[1..], editId)
  }

  /** No row carries the edited id, so no row is in edit mode. */
  lemma {:induction false} NoRowEditing(rows: seq<Todo>, editId: Option<string>)
    requires forall k :: 0 <= k < |rows| ==> !IsEditing(rows[k], editId)
    ensures EditingCount(rows, editId) == 0
  {
    if rows != [] {
      NoRowEditing(rows[1..], editId);
    }
  }

  /**
   * With distinct ids, at most one row is in edit mode, and one is exactly when
   * `editId` names a row that is shown.
   */
  lemma {:induction false} AtMostOneEditing(rows: seq<Todo>, editId: Option<string>)
    requires UniqueIds(rows)
    ensures EditingCount(rows, editId) <= 1
    ensures EditingCount(rows, editId) == 1 <==>
              exists k :: 0 <= k < |rows| && IsEditing(rows[k], editId)
  {
    if rows != [] {
      var tail := rows[1..];
      assert UniqueIds(tail) by {
        forall i, j | 0 <= i < j < |tail| ensures tail[i].id != tail[j].id {
          assert tail[i] == rows[i + 1] && tail[j] == rows[j + 1];
        }
      }
      AtMostOneEditing(tail, editId);
      if IsEditing(rows[0], editId) {
        assert forall k :: 0 <= k < |tail| ==> tail[k] == rows[k + 1];
        NoRowEditing(tail, editId);
      } else {
        if exists k :: 0 <= k < |rows| && IsEditing(rows[k], editId) {
          var k :| 0 <= k < |rows| && IsEditing(rows[k], editId);
          assert tail[k - 1] == rows[k];
        }
        if exists k :: 0 <= k < |tail| && IsEditing(tail[k], editId) {
          var k :| 0 <= k < |tail| && IsEditing(tail[k], editId);
          assert rows[k + 1] == tail[k];
        }
      }
    }
  }

  /** Under any filter, at most one rendered row is in edit mode. */
  lemma AtMostOneRowEditing(todos: seq<Todo>, f: Filter, editId: Option<string>)
    requires UniqueIds(todos)
    ensures EditingCount(Visible(todos, f), editId) <= 1
  {
    VisibleKeepsUniqueIds(todos, f);
    AtMostOneEditing(Visible(todos, f), editId);
  }
}
