/** The client-side todo list (`useTodos`): the `Todo` and filter types, the
    derived view `visibleTodos` (search, status filter, then a stable sort),
    and the list state that create, update, delete and fetch replace. */
module UseTodos {
  import opened Wrappers
  import opened Text
  import opened Seqs

  datatype TodoStatus = TODO | DOING | DONE

  /** A date as the API sends it: its ISO text, and the millisecond timestamp
      `new Date(text)` reads from it. */
  datatype DateText = DateText(text: string, time: int)

  /** A todo as the client holds it; `createdAt` is the timestamp of the
      record's creation date. */
  datatype Todo = Todo(
    id: string,
    title: string,
    description: Option<string>,
    status: TodoStatus,
    deadline: Option<DateText>,
    createdAt: int)

  /** The status control: everything, or one status. */
  datatype StatusChoice = ALL | Only(status: TodoStatus)

  datatype SortOrder = CreatedAtDesc | CreatedAtAsc | DeadlineAsc | DeadlineDesc

  datatype TodoFilter = TodoFilter(search: string, status: StatusChoice, sort: SortOrder)

  const DefaultFilter := TodoFilter("", ALL, CreatedAtDesc)

  /** The fields an update may carry (`Partial<Pick<Todo, ...>>`); `None` is
      an absent field, `Some(None)` an explicit null. */
  datatype TodoPatch = TodoPatch(
    title: Option<string>,
    description: Option<Option<string>>,
    status: Option<TodoStatus>,
    deadline: Option<Option<string>>)

  // ---------------------------------------------------------------------
  // The derived view
  // ---------------------------------------------------------------------

  /** `+new Date(t.deadline || 0)`: the deadline's timestamp, and 0 (the
      epoch) when the deadline is null or the empty string. */
  function DeadlineTime(t: Todo): (r: int)
    ensures t.deadline.None? ==> r == 0
    ensures t.deadline.Some? && t.deadline.value.text == "" ==> r == 0
    ensures t.deadline.Some? && t.deadline.value.text != "" ==> r == t.deadline.value.time
  {
    if t.deadline.Some? && t.deadline.value.text != "" then t.deadline.value.time else 0
  }

  /** The number the stable ascending sort orders by; the descending orders
      sort ascending on the negated timestamp, which keeps ties in their
      input order exactly as the comparator `b - a` does. */
  function Rank(order: SortOrder, t: Todo): (r: int)
    ensures order == CreatedAtAsc ==> r == t.createdAt
    ensures order == CreatedAtDesc ==> r == -t.createdAt
    ensures order == DeadlineAsc ==> r == DeadlineTime(t)
    ensures order == DeadlineDesc ==> r == -DeadlineTime(t)
  {
    match order
    case CreatedAtAsc => t.createdAt
    case DeadlineAsc => DeadlineTime(t)
    case DeadlineDesc => -DeadlineTime(t)
    case CreatedAtDesc => -t.createdAt
  }

  function RankBy(order: SortOrder): Todo -> int
  {
    t => Rank(order, t)
  }

  /** The lower-cased query occurs in the lower-cased title, or in the
      lower-cased description when there is one. */
  predicate MatchesSearch(t: Todo, search: string)
    ensures search == "" ==> MatchesSearch(t, search)
    ensures t.description.None? ==> (MatchesSearch(t, search) <==> Contains(Lower(t.title), Lower(search)))
    ensures Contains(Lower(t.title), Lower(search)) ==> MatchesSearch(t, search)
  {
    var q := Lower(search);
    || Contains(Lower(t.title), q)
    || (t.description.Some? && Contains(Lower(t.description.value), q))
  }

  predicate MatchesStatus(t: Todo, choice: StatusChoice)
  {
    choice.ALL? || t.status == choice.status
  }

  /** Whether a todo survives both filters of `f`. */
  predicate Keeps(f: TodoFilter, t: Todo)
    ensures f.search == "" && f.status.ALL? ==> Keeps(f, t)
    ensures Keeps(f, t) && f.status.Only? ==> t.status == f.status.status
    ensures Keeps(f, t) ==> MatchesSearch(t, f.search)
  {
    (f.search == "" || MatchesSearch(t, f.search)) && MatchesStatus(t, f.status)
  }

  function KeepsBy(f: TodoFilter): Todo -> bool
  {
    t => Keeps(f, t)
  }

  function SearchBy(search: string): Todo -> bool
  {
    t => MatchesSearch(t, search)
  }

  function HasStatus(status: TodoStatus): Todo -> bool
  {
    (t: Todo) => t.status == status
  }

  /** The search stage: skipped for an empty query. */
  function SearchStage(todos: seq<Todo>, search: string): seq<Todo>
  {
    if search == "" then todos else Filter(todos, SearchBy(search))
  }

  /** The status stage: skipped for `ALL`. */
  function StatusStage(todos: seq<Todo>, choice: StatusChoice): seq<Todo>
  {
    if choice.ALL? then todos else Filter(todos, HasStatus(choice.status))
  }

  /** The copy of the list after both filters, before sorting. */
  function Kept(todos: seq<Todo>, f: TodoFilter): seq<Todo>
  {
    StatusStage(SearchStage(todos, f.search), f.status)
  }

  /** `visibleTodos`: filter by search, then by status, then sort. */
  function Visible(todos: seq<Todo>, f: TodoFilter): (r: seq<Todo>)
    ensures multiset(r) == multiset(Kept(todos, f))
    ensures SortedBy(r, RankBy(f.sort))
  {
    SortByKey(Kept(todos, f), RankBy(f.sort))
  }

  /** The two filter stages together are one filter by `Keeps`: search and
      status compose as a conjunction. */
  lemma KeptIsOneFilter(todos: seq<Todo>, f: TodoFilter)
    ensures Kept(todos, f) == Filter(todos, KeepsBy(f))
  {
    var s := SearchStage(todos, f.search);
    var search := (t: Todo) => f.search == "" || MatchesSearch(t, f.search);
    var status := (t: Todo) => MatchesStatus(t, f.status);
    if f.search == "" {
      FilterAll(todos, search);
    } else {
      FilterCongruent(todos, SearchBy(f.search), search);
    }
    assert s == Filter(todos, search);
    if f.status.ALL? {
      FilterAll(s, status);
    } else {
      FilterCongruent(s, HasStatus(f.status.status), status);
    }
    assert Kept(todos, f) == Filter(s, status);
    FilterFilter(todos, search, status, KeepsBy(f));
  }

  /** The view holds each todo as often as the stored list does when the
      filter keeps it, and not at all otherwise: a permutation of a
      sub-multiset of the list. */
  lemma VisibleCount(todos: seq<Todo>, f: TodoFilter, t: Todo)
    ensures multiset(Visible(todos, f))[t] == if Keeps(f, t) then multiset(todos)[t] else 0
    ensures t in Visible(todos, f) <==> t in todos && Keeps(f, t)
  {
    KeptIsOneFilter(todos, f);
    FilterCount(todos, KeepsBy(f), t);
  }

  /** The view is a sub-multiset of the stored list. */
  lemma VisibleSubMultiset(todos: seq<Todo>, f: TodoFilter)
    ensures multiset(Visible(todos, f)) <= multiset(todos)
  {
    forall t | t in multiset(Visible(todos, f))
      ensures multiset(Visible(todos, f))[t] <= multiset(todos)[t]
    {
      VisibleCount(todos, f, t);
    }
  }

  /** The order of the view, for each of the four sort settings. */
  lemma VisibleOrder(todos: seq<Todo>, f: TodoFilter, i: int, j: int)
    requires 0 <= i < j < |Visible(todos, f)|
    ensures var r := Visible(todos, f);
      && (f.sort == CreatedAtAsc ==> r[i].createdAt <= r[j].createdAt)
      && (f.sort == CreatedAtDesc ==> r[i].createdAt >= r[j].createdAt)
      && (f.sort == DeadlineAsc ==> DeadlineTime(r[i]) <= DeadlineTime(r[j]))
      && (f.sort == DeadlineDesc ==> DeadlineTime(r[i]) >= DeadlineTime(r[j]))
  {
    var r := Visible(todos, f);
    assert RankBy(f.sort)(r[i]) <= RankBy(f.sort)(r[j]);
  }

  /** A todo without a deadline counts as due at the epoch: in ascending
      deadline order everything before it is due at or before the epoch, in
      descending order everything after it. */
  lemma UndatedAtEpoch(todos: seq<Todo>, f: TodoFilter, i: int, j: int)
    requires 0 <= i < j < |Visible(todos, f)|
    ensures var r := Visible(todos, f);
      && (f.sort == DeadlineAsc && r[j].deadline.None? ==> DeadlineTime(r[i]) <= 0)
      && (f.sort == DeadlineDesc && r[i].deadline.None? ==> DeadlineTime(r[j]) <= 0)
  {
    VisibleOrder(todos, f, i, j);
  }

  /** The sort is stable: the todos that tie on the sort key appear in the
      view in the order the filtered list has them. */
  lemma VisibleStable(todos: seq<Todo>, f: TodoFilter, k: int)
    ensures WithKey(Visible(todos, f), RankBy(f.sort), k) == WithKey(Kept(todos, f), RankBy(f.sort), k)
    ensures IsSubsequence(Kept(todos, f), todos)
  {
    SortStable(Kept(todos, f), RankBy(f.sort), k);
    KeptIsOneFilter(todos, f);
    FilterIsSubsequence(todos, KeepsBy(f));
  }

  /** With the default filter the view is the whole list, newest first. */
  lemma DefaultFilterShowsAll(todos: seq<Todo>)
    ensures var r := Visible(todos, DefaultFilter);
      && multiset(r) == multiset(todos)
      && forall i, j :: 0 <= i < j < |r| ==> r[i].createdAt >= r[j].createdAt
  {
    var r := Visible(todos, DefaultFilter);
    forall i, j | 0 <= i < j < |r| ensures r[i].createdAt >= r[j].createdAt {
      VisibleOrder(todos, DefaultFilter, i, j);
    }
  }

  /** The search is case-insensitive in the query: two queries that lower-case
      alike give the same view. */
  lemma SearchIgnoresCase(todos: seq<Todo>, f: TodoFilter, g: TodoFilter)
    requires Lower(f.search) == Lower(g.search)
    requires f.status == g.status && f.sort == g.sort
    ensures Visible(todos, f) == Visible(todos, g)
  {
    assert |f.search| == |g.search|;
    if f.search != "" {
      FilterCongruent(todos, SearchBy(f.search), SearchBy(g.search));
    }
  }

  /** Which of the three example titles the query "foo" matches. */
  lemma ExampleMatches()
    ensures Contains(Lower("Foo bar"), Lower("foo"))
    ensures !Contains(Lower("baz"), Lower("foo"))
    ensures Contains(Lower("FOOD"), Lower("foo"))
  {
    assert Lower("foo") == "foo";
    assert Lower("Foo bar") == "foo bar";
    assert Lower("baz") == "baz";
    assert Lower("FOOD") == "food";
    assert OccursAt("foo bar", "foo", 0);
    assert OccursAt("food", "foo", 0);
    forall i | 0 <= i <= |"baz"| - |"foo"| ensures !OccursAt("baz", "foo", i) {
      assert "baz"[0] != "foo"[0];
    }
  }

  /** The search "foo" on each of the three example todos. */
  lemma ExampleSearchHits()
    ensures MatchesSearch(Todo("a", "Foo bar", None, TODO, None, 1), "foo")
    ensures !MatchesSearch(Todo("b", "baz", None, TODO, None, 2), "foo")
    ensures MatchesSearch(Todo("c", "FOOD", None, TODO, None, 3), "foo")
  {
    ExampleMatches();
  }

  /** The filter stage of the example below. */
  lemma ExampleKept()
    ensures var a := Todo("a", "Foo bar", None, TODO, None, 1);
      var b := Todo("b", "baz", None, TODO, None, 2);
      var c := Todo("c", "FOOD", None, TODO, None, 3);
      Kept([a, b, c], TodoFilter("foo", ALL, CreatedAtAsc)) == [a, c]
  {
    var a := Todo("a", "Foo bar", None, TODO, None, 1);
    var b := Todo("b", "baz", None, TODO, None, 2);
    var c := Todo("c", "FOOD", None, TODO, None, 3);
    ExampleSearchHits();
    var p := SearchBy("foo");
    assert p(a) && !p(b) && p(c);
    assert [a, b, c][1..] == [b, c] && [b, c][1..] == [c];
    assert Filter([c], p) == [c] + Filter([], p) == [c];
    assert Filter([b, c], p) == Filter([c], p);
    assert Filter([a, b, c], p) == [a] + Filter([b, c], p) == [a, c];
  }

  /** Searching "foo" over the titles "Foo bar", "baz" and "FOOD" keeps the
      first and the last, oldest first. */
  lemma SearchExample()
    ensures var a := Todo("a", "Foo bar", None, TODO, None, 1);
      var b := Todo("b", "baz", None, TODO, None, 2);
      var c := Todo("c", "FOOD", None, TODO, None, 3);
      Visible([a, b, c], TodoFilter("foo", ALL, CreatedAtAsc)) == [a, c]
  {
    var a := Todo("a", "Foo bar", None, TODO, None, 1);
    var c := Todo("c", "FOOD", None, TODO, None, 3);
    ExampleKept();
    var key := RankBy(CreatedAtAsc);
    assert SortByKey([c], key) == [c];
    assert [a, c][1..] == [c];
    assert SortByKey([a, c], key) == Insert(a, [c], key) == [a, c];
  }

  // ---------------------------------------------------------------------
  // List updates
  // ---------------------------------------------------------------------

  /** `prev.map(t => t.id === id ? updated : t)`. */
  function ReplaceById(todos: seq<Todo>, id: string, updated: Todo): (r: seq<Todo>)
    ensures |r| == |todos|
    ensures forall i :: 0 <= i < |todos| ==> r[i] == if todos[i].id == id then updated else todos[i]
  {
    if todos == [] then []
    else [if todos[0].id == id then updated else todos[0]] + ReplaceById(todos[1..], id, updated)
  }

  /** Replacing twice with the same todo is replacing once. */
  lemma ReplaceByIdIdempotent(todos: seq<Todo>, id: string, updated: Todo)
    ensures ReplaceById(ReplaceById(todos, id, updated), id, updated) == ReplaceById(todos, id, updated)
  {
  }

  /** `t.filter(x => x.id !== id)`. */
  function RemoveById(todos: seq<Todo>, id: string): (r: seq<Todo>)
    ensures forall i :: 0 <= i < |r| ==> r[i].id != id
  {
    Filter(todos, (t: Todo) => t.id != id)
  }

  /** Deleting keeps every other todo, as often as before and in its relative
      order. */
  lemma RemoveByIdKeepsOthers(todos: seq<Todo>, id: string, t: Todo)
    ensures multiset(RemoveById(todos, id))[t] == if t.id == id then 0 else multiset(todos)[t]
    ensures IsSubsequence(RemoveById(todos, id), todos)
  {
    FilterCount(todos, (t: Todo) => t.id != id, t);
    FilterIsSubsequence(todos, (t: Todo) => t.id != id);
  }

  /** What a server call comes back with: a response with `res.ok` and its
      parsed body, a response without `res.ok`, or a rejected `fetch` (a
      network error) with its message. */
  datatype Reply<T> = Ok(value: T) | NotOk | Rejected(reason: string)

  /** How an async list operation ends: it resolves, or it throws. */
  datatype Completion = Completed | Threw(message: string)

  /** The state `useTodos` keeps for one signed-in page: the stored list and
      the current filter. */
  class TodosHook {
    const isEnabled: bool
    var todos: seq<Todo>
    var filter: TodoFilter

    constructor(isEnabled: bool)
      ensures this.isEnabled == isEnabled && todos == [] && filter == DefaultFilter
    {
      this.isEnabled := isEnabled;
      todos := [];
      filter := DefaultFilter;
    }

    /** The hook's `todos` output: computed from a copy, it leaves the stored
        list alone, and holds only stored todos that the filter keeps. */
    method VisibleTodos() returns (r: seq<Todo>)
      ensures r == Visible(todos, filter)
      ensures multiset(r) <= multiset(todos)
      ensures forall t :: t in r <==> t in todos && Keeps(filter, t)
    {
      r := Visible(todos, filter);
      VisibleSubMultiset(todos, filter);
      forall t ensures t in r <==> t in todos && Keeps(filter, t) {
        VisibleCount(todos, filter, t);
      }
    }

    /** `setFilter`. */
    method SetFilter(f: TodoFilter)
      modifies this
      ensures filter == f && todos == old(todos)
    {
      filter := f;
    }

    /** `fetchTodos`: disabled, it empties the list; enabled, it takes the
        server's list, and keeps the old one when the request fails or is
        rejected (the error is caught). */
    method FetchTodos(reply: Reply<seq<Todo>>)
      modifies this
      ensures todos == if !isEnabled then [] else if reply.Ok? then reply.value else old(todos)
      ensures filter == old(filter)
    {
      if !isEnabled {
        todos := [];
        return;
      }
      if reply.Ok? {
        todos := reply.value;
      }
    }

    /** `createTodo`: on success the created todo goes in front of the list;
        otherwise it throws and the list is untouched. */
    method CreateTodo(reply: Reply<Todo>) returns (result: Completion)
      modifies this
      ensures result == match reply
        case Ok(_) => Completed
        case NotOk => Threw("Create todo failed")
        case Rejected(reason) => Threw(reason)
      ensures todos == if reply.Ok? then [reply.value] + old(todos) else old(todos)
      ensures filter == old(filter)
    {
      match reply
      case Rejected(reason) =>
        return Threw(reason);
      case NotOk =>
        return Threw("Create todo failed");
      case Ok(created) =>
        todos := [created] + todos;
        result := Completed;
    }

    /** `updateTodo`: on success every todo with the id becomes the server's
        copy; otherwise it throws before touching the list. */
    method UpdateTodo(id: string, reply: Reply<Todo>) returns (result: Completion)
      modifies this
      ensures result == match reply
        case Ok(_) => Completed
        case NotOk => Threw("Update todo failed")
        case Rejected(reason) => Threw(reason)
      ensures todos == if reply.Ok? then ReplaceById(old(todos), id, reply.value) else old(todos)
      ensures filter == old(filter)
    {
      match reply
      case Rejected(reason) =>
        return Threw(reason);
      case NotOk =>
        return Threw("Update todo failed");
      case Ok(updated) =>
        todos := ReplaceById(todos, id, updated);
        result := Completed;
    }

    /** `deleteTodo`: removes the todo before the request. A response without
        `res.ok` restores the snapshot taken beforehand and throws; a rejected
        request throws with the todo still removed, since the restore sits
        only on the `!res.ok` path. */
    method DeleteTodo(id: string, reply: Reply<()>) returns (result: Completion)
      modifies this
      ensures result == match reply
        case Ok(_) => Completed
        case NotOk => Threw("Delete todo failed")
        case Rejected(reason) => Threw(reason)
      ensures todos == if reply.NotOk? then old(todos) else RemoveById(old(todos), id)
      ensures filter == old(filter)
    {
      var prev := todos;
      todos := RemoveById(todos, id);
      match reply
      case Rejected(reason) =>
        return Threw(reason);
      case NotOk =>
        todos := prev;
        return Threw("Delete todo failed");
      case Ok(_) =>
        result := Completed;
    }
  }
}
