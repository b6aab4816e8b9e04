/** The todo-list engine (`useTodoList`): filter criteria with the derived
    "today task" flag, one page of root tasks, the per-parent subtask map, and
    the create/update/delete operations with their refresh policies.

    Each call to the persistence API is an input of the model: the list
    queries are the two functions of a `Server` (so the request a method
    issues is visible in what it stores), and create/update/delete are
    `Outcome` parameters. A ghost `trace` records every request issued, in
    order, so "no API call" reads `trace == old(trace)`. */
module TodoList {
  import opened Outcome
  import opened Text
  import opened TodoTypes

  /** The add form of the page (`NewForm`). */
  datatype NewForm = NewForm(
    title: string,
    description: string,
    category: Category,
    priority: Priority,
    state: State,
    dueAt: string)

  const EmptyForm := NewForm("", "", Personal, Normal, ToDo, "")

  const InitialFilters := Filters([ToDo, InProgress], All, All)

  /** The priorities the "Today task" button selects. */
  const TodayPriorities: seq<Priority> := [Urgent, Critical]

  /** What `createTodo` is sent: the add form, or a subtask draft with its parent. */
  datatype CreateBody = RootBody(form: NewForm) | SubBody(draft: SubDraft, parentId: string)

  /** A request issued to the persistence API. An `UpdateTodo` patch of `None` is the empty object. */
  datatype Request =
    | ListTodos(filters: Filters, skip: int, take: int)
    | ListSubtasks(parentId: string, filters: Filters)
    | CreateTodo(body: CreateBody)
    | UpdateTodo(id: string, patch: Option<Todo>)
    | DeleteTodo(id: string)

  /** The answers the persistence API gives to the two list queries. */
  datatype Server = Server(
    listTodos: (Filters, int, int) -> Outcome<ListData>,
    listSubtasks: (string, Filters) -> Outcome<SubData>)

  /** `isTodayTaskPriorities`: an explicit list whose set of elements has size 2
      and holds `urgent` and `critical`. */
  predicate IsTodayTaskPriorities(p: Sel<Priority>) {
    match p
    case All => false
    case Only(list) =>
      var s := set x | x in list;
      |s| == 2 && Urgent in s && Critical in s
  }

  /** The today test depends only on the set of listed priorities: it holds
      exactly when that set is {urgent, critical}, whatever the order or the
      repetitions, and never for `'all'`. */
  lemma TodayTaskMeansUrgentAndCritical(p: Sel<Priority>)
    ensures IsTodayTaskPriorities(p) <==> p.Only? && (set x | x in p.list) == {Urgent, Critical}
  {
    if p.Only? {
      var s := set x | x in p.list;
      if |s| == 2 && Urgent in s && Critical in s {
        var rest := s - {Urgent, Critical};
        assert s == rest + {Urgent, Critical};
        assert |{Urgent, Critical}| == 2;
        assert rest * {Urgent, Critical} == {};
      }
    }
  }

  /** The new priorities chosen by `toggleTodayTask`. */
  function TogglePriorities(p: Sel<Priority>): Sel<Priority> {
    if IsTodayTaskPriorities(p) then All else Only(TodayPriorities)
  }

  /** Toggling always flips the today flag derived from the priorities. */
  lemma ToggleFlipsTodayFlag(p: Sel<Priority>)
    ensures IsTodayTaskPriorities(TogglePriorities(p)) == !IsTodayTaskPriorities(p)
  {
    var s := set x | x in TodayPriorities;
    assert TodayPriorities[0] == Urgent && TodayPriorities[1] == Critical;
    assert s == {Urgent, Critical};
  }

  /** Two toggles give back the original priorities exactly when they were
      `'all'` or the list `[urgent, critical]` itself; any other list is lost. */
  lemma ToggleTwiceRestores(p: Sel<Priority>)
    ensures TogglePriorities(TogglePriorities(p)) == p <==> p == All || p == Only(TodayPriorities)
  {
    ToggleFlipsTodayFlag(p);
    ToggleFlipsTodayFlag(TogglePriorities(p));
  }

  /** The subtasks stored for one parent: the fetched items (`?? []`), or `[]` when the fetch failed. */
  function SubtasksOf(r: Outcome<SubData>): seq<Todo> {
    match r
    case Ok(data) => data.items.GetOr([])
    case Err(_) => []
  }

  /** The subtask map after `prefetchSubtasksFor(roots)` writes one entry per root, in list order. */
  function Prefetched(m: map<string, seq<Todo>>, roots: seq<Todo>, filters: Filters, server: Server): map<string, seq<Todo>>
    decreases |roots|
  {
    if roots == [] then m
    else
      var last := roots[|roots| - 1];
      Prefetched(m, roots[..|roots| - 1], filters, server)[last.id := SubtasksOf(server.listSubtasks(last.id, filters))]
  }

  /** The requests `prefetchSubtasksFor(roots)` issues: one subtask query per root. */
  function SubRequests(roots: seq<Todo>, filters: Filters): seq<Request> {
    seq(|roots|, i requires 0 <= i < |roots| => ListSubtasks(roots[i].id, filters))
  }

  /** Prefetching writes an entry for every root id (what that parent's query
      gave, or `[]`) and keeps every other entry as it was. */
  lemma {:induction false} PrefetchedAt(m: map<string, seq<Todo>>, roots: seq<Todo>, filters: Filters, server: Server)
    ensures Prefetched(m, roots, filters, server).Keys == m.Keys + Ids(roots)
    ensures forall k :: k in Ids(roots) ==>
      Prefetched(m, roots, filters, server)[k] == SubtasksOf(server.listSubtasks(k, filters))
    ensures forall k :: k in m && k !in Ids(roots) ==> Prefetched(m, roots, filters, server)[k] == m[k]
  {
    if roots != [] {
      var init := roots[..|roots| - 1];
      PrefetchedAt(m, init, filters, server);
      assert roots == init + [roots[|roots| - 1]];
      assert Ids(roots) == Ids(init) + {roots[|roots| - 1].id};
    }
  }

  /** Writes are keyed, so the resulting map does not depend on the order in
      which the roots are processed (nor on repeated roots). */
  lemma PrefetchOrderIrrelevant(m: map<string, seq<Todo>>, a: seq<Todo>, b: seq<Todo>, filters: Filters, server: Server)
    requires Ids(a) == Ids(b)
    ensures Prefetched(m, a, filters, server) == Prefetched(m, b, filters, server)
  {
    PrefetchedAt(m, a, filters, server);
    PrefetchedAt(m, b, filters, server);
  }

  /** The root query of `fetchList`: `skip = (page - 1) * pageSize`, `take = pageSize`. */
  function RootResponse(server: Server, filters: Filters, page: int, pageSize: int): Outcome<ListData> {
    server.listTodos(filters, (page - 1) * pageSize, pageSize)
  }

  /** `items.find((x) => x.id === id)`: the first task with that id. */
  function FindById(list: seq<Todo>, id: string): (r: Option<Todo>)
    ensures r.None? <==> id !in Ids(list)
    ensures r.Some? ==> r.value.id == id
    ensures r.Some? ==> exists i :: 0 <= i < |list| && list[i] == r.value && id !in Ids(list[..i])
  {
    if list == [] then None
    else if list[0].id == id then
      assert list[..0] == [];
      Some(list[0])
    else
      var r := FindById(list[1..], id);
      assert Ids(list) == {list[0].id} + Ids(list[1..]) by {
        assert list == [list[0]] + list[1..];
      }
      if r.Some? then
        var i :| 0 <= i < |list[1..]| && list[1..][i] == r.value && id !in Ids(list[1..][..i]);
        assert list[..i + 1] == [list[0]] + list[1..][..i];
        assert Ids(list[..i + 1]) == {list[0].id} + Ids(list[1..][..i]);
        r
      else
        r
  }

  class TodoListEngine {
    var items: seq<Todo>
    var subtasks: map<string, seq<Todo>>
    var total: int
    var page: int
    var pageSize: int
    var filters: Filters
    var todayTaskOn: bool
    var isLoading: bool
    var form: NewForm
    var creating: bool
    var editing: Option<Todo>
    var editForm: Option<Todo>
    var updating: bool
    ghost var trace: seq<Request>

    /** Between events the today flag agrees with the priorities (the sync
        effect has run) and no list fetch is in progress. */
    ghost predicate Valid()
      reads this
    {
      todayTaskOn == IsTodayTaskPriorities(filters.priorities) && !isLoading
    }

    /** The state after a `fetchList` that started from the given root page,
        total, subtask map and trace, under the current filters and page. */
    ghost predicate Fetched(server: Server, items0: seq<Todo>, total0: int, subtasks0: map<string, seq<Todo>>, trace0: seq<Request>)
      reads this
    {
      var query := ListTodos(filters, (page - 1) * pageSize, pageSize);
      match RootResponse(server, filters, page, pageSize)
      case Ok(data) =>
        && items == data.items.GetOr([])
        && total == data.total.GetOr(0)
        && subtasks == Prefetched(subtasks0, items, filters, server)
        && trace == trace0 + [query] + SubRequests(items, filters)
      case Err(_) =>
        && items == items0 && total == total0 && subtasks == subtasks0
        && trace == trace0 + [query]
    }

    /** The initial state of the hook; the mount effect is a `Reload`. */
    constructor ()
      ensures Valid()
      ensures items == [] && subtasks == map[] && total == 0 && page == 1 && pageSize == 10
      ensures filters == InitialFilters && !todayTaskOn
      ensures form == EmptyForm && !creating && editing == None && editForm == None && !updating
      ensures trace == []
    {
      items := [];
      subtasks := map[];
      total := 0;
      page := 1;
      pageSize := 10;
      filters := InitialFilters;
      todayTaskOn := false;
      isLoading := false;
      form := EmptyForm;
      creating := false;
      editing := None;
      editForm := None;
      updating := false;
      trace := [];
    }

    /** `prefetchSubtasksFor`: one subtask query per root, each result written
        under that root's id (`[]` when the query fails). The concurrent
        queries are taken one after the other. */
    method PrefetchSubtasksFor(list: seq<Todo>, server: Server)
      modifies this`subtasks, this`trace
      ensures subtasks == Prefetched(old(subtasks), list, filters, server)
      ensures trace == old(trace) + SubRequests(list, filters)
    {
      if |list| == 0 {
        return;
      }
      var i := 0;
      while i < |list|
        invariant 0 <= i <= |list|
        invariant subtasks == Prefetched(old(subtasks), list[..i], filters, server)
        invariant trace == old(trace) + SubRequests(list[..i], filters)
      {
        var id := list[i].id;
        var res := server.listSubtasks(id, filters);
        trace := trace + [ListSubtasks(id, filters)];
        match res {
          case Ok(data) =>
            subtasks := subtasks[id := data.items.GetOr([])];
          case Err(_) =>
            subtasks := subtasks[id := []];
        }
        assert list[..i + 1][..i] == list[..i];
        i := i + 1;
      }
      assert list[..|list|] == list;
    }

    /** `fetchList`: query the current page of roots; on success store the
        items (`?? []`) and the total (`?? 0`) and prefetch their subtasks; on
        failure keep the previous page. The loading flag is cleared either way. */
    method FetchList(server: Server)
      requires Valid()
      modifies this`items, this`total, this`subtasks, this`isLoading, this`trace
      ensures Valid()
      ensures Fetched(server, old(items), old(total), old(subtasks), old(trace))
    {
      isLoading := true;
      var skip := (page - 1) * pageSize;
      trace := trace + [ListTodos(filters, skip, pageSize)];
      var res := server.listTodos(filters, skip, pageSize);
      match res {
        case Ok(data) =>
          var roots := data.items.GetOr([]);
          items := roots;
          total := data.total.GetOr(0);
          PrefetchSubtasksFor(roots, server);
        case Err(_) =>
      }
      isLoading := false;
    }

    /** The effect that runs whenever filters, page or page size change (and on
        mount): clear the subtask map, then `fetchList`. After a successful
        fetch the map holds exactly one entry per returned root. */
    method Reload(server: Server)
      requires Valid()
      modifies this`items, this`total, this`subtasks, this`isLoading, this`trace
      ensures Valid()
      ensures Fetched(server, old(items), old(total), map[], old(trace))
      ensures RootResponse(server, filters, page, pageSize).Ok? ==>
        && subtasks.Keys == Ids(items)
        && forall k :: k in subtasks ==> subtasks[k] == SubtasksOf(server.listSubtasks(k, filters))
      ensures RootResponse(server, filters, page, pageSize).Err? ==> subtasks == map[]
    {
      subtasks := map[];
      FetchList(server);
      PrefetchedAt(map[], items, filters, server);
    }

    /** One batched update of filters (`None`: `setFilters` not called),
        page and page size, as React applies the setter calls of one event.
        The today flag is re-derived; the reset effect runs when the filters
        were replaced (a new object) or page or page size changed value. */
    method Commit(newFilters: Option<Filters>, newPage: int, newPageSize: int, server: Server)
      requires Valid()
      modifies this`filters, this`page, this`pageSize, this`todayTaskOn
      modifies this`items, this`total, this`subtasks, this`isLoading, this`trace
      ensures Valid()
      ensures filters == newFilters.GetOr(old(filters)) && page == newPage && pageSize == newPageSize
      ensures if newFilters.Some? || newPage != old(page) || newPageSize != old(pageSize)
        then Fetched(server, old(items), old(total), map[], old(trace))
        else items == old(items) && total == old(total) && subtasks == old(subtasks) && trace == old(trace)
    {
      var changed := newFilters.Some? || newPage != page || newPageSize != pageSize;
      filters := newFilters.GetOr(filters);
      page := newPage;
      pageSize := newPageSize;
      todayTaskOn := IsTodayTaskPriorities(filters.priorities);
      if changed {
        Reload(server);
      }
    }

    /** `toggleTodayTask`: back to page 1, priorities toggled between `'all'`
        and `[urgent, critical]`, states and categories kept; the today flag
        flips and the list reloads with a cleared subtask map. */
    method ToggleTodayTask(server: Server)
      requires Valid()
      modifies this`filters, this`page, this`pageSize, this`todayTaskOn
      modifies this`items, this`total, this`subtasks, this`isLoading, this`trace
      ensures Valid()
      ensures page == 1 && pageSize == old(pageSize)
      ensures filters == old(filters).(priorities := TogglePriorities(old(filters).priorities))
      ensures todayTaskOn == !old(todayTaskOn)
      ensures Fetched(server, old(items), old(total), map[], old(trace))
    {
      ToggleFlipsTodayFlag(filters.priorities);
      Commit(Some(filters.(priorities := TogglePriorities(filters.priorities))), 1, pageSize, server);
    }

    /** `onCreateRoot`: an all-blank title is refused before any request. Otherwise
        the form is sent; on success the form is reset and the list re-fetched
        (without clearing the subtask map); on failure the error is shown.
        `creating` is false afterwards. */
    method OnCreateRoot(created: Outcome<Todo>, server: Server) returns (alert: Option<string>)
      requires Valid()
      modifies this`form, this`creating, this`items, this`total, this`subtasks, this`isLoading, this`trace
      ensures Valid()
      ensures Trim(old(form).title) == [] ==> alert == Some("Title is required") && unchanged(this)
      ensures Trim(old(form).title) != [] ==>
        && !creating
        && var trace1 := old(trace) + [CreateTodo(RootBody(old(form)))];
        match created
        case Ok(_) =>
          form == EmptyForm && alert == None && Fetched(server, old(items), old(total), old(subtasks), trace1)
        case Err(msg) =>
          && form == old(form) && alert == Some(AlertText(msg, "Create failed"))
          && items == old(items) && total == old(total) && subtasks == old(subtasks) && trace == trace1
    {
      var trimmed := Trim(form.title);
      if trimmed == [] {
        return Some("Title is required");
      }
      creating := true;
      trace := trace + [CreateTodo(RootBody(form))];
      match created {
        case Ok(_) =>
          form := EmptyForm;
          FetchList(server);
          alert := None;
        case Err(msg) =>
          alert := Some(AlertText(msg, "Create failed"));
      }
      creating := false;
    }

    /** `loadSub`: re-query one parent's subtasks and replace only that entry;
        on failure the map is unchanged and the error is shown. */
    method LoadSub(parentId: string, server: Server) returns (alert: Option<string>)
      modifies this`subtasks, this`trace
      ensures trace == old(trace) + [ListSubtasks(parentId, filters)]
      ensures match server.listSubtasks(parentId, filters)
        case Ok(data) => subtasks == old(subtasks)[parentId := data.items.GetOr([])] && alert == None
        case Err(msg) => subtasks == old(subtasks) && alert == Some(AlertText(msg, "Load subtasks failed"))
      ensures forall k :: k != parentId ==>
        (k in subtasks <==> k in old(subtasks)) && (k in subtasks ==> subtasks[k] == old(subtasks)[k])
    {
      trace := trace + [ListSubtasks(parentId, filters)];
      var res := server.listSubtasks(parentId, filters);
      match res {
        case Ok(data) =>
          subtasks := subtasks[parentId := data.items.GetOr([])];
          alert := None;
        case Err(msg) =>
          alert := Some(AlertText(msg, "Load subtasks failed"));
      }
    }

    /** `onCreateSub`: an all-blank title is refused before any request.
        Otherwise the draft is sent with its parent id; on success only that
        parent's entry is reloaded (a failed reload shows its own error), on
        failure the error is shown. */
    method OnCreateSub(parentId: string, sub: SubDraft, created: Outcome<Todo>, server: Server)
      returns (alert: Option<string>)
      modifies this`subtasks, this`trace
      ensures Trim(sub.title) == [] ==> alert == Some("Title required") && unchanged(this)
      ensures Trim(sub.title) != [] ==>
        match created
        case Ok(_) =>
          && trace == old(trace) + [CreateTodo(SubBody(sub, parentId)), ListSubtasks(parentId, filters)]
          && subtasks == (match server.listSubtasks(parentId, filters)
                          case Ok(data) => old(subtasks)[parentId := data.items.GetOr([])]
                          case Err(_) => old(subtasks))
          && alert == (match server.listSubtasks(parentId, filters)
                       case Ok(_) => None
                       case Err(m) => Some(AlertText(m, "Load subtasks failed")))
        case Err(msg) =>
          && trace == old(trace) + [CreateTodo(SubBody(sub, parentId))]
          && subtasks == old(subtasks) && alert == Some(AlertText(msg, "Create subtask failed"))
      ensures forall k :: k != parentId ==>
        (k in subtasks <==> k in old(subtasks)) && (k in subtasks ==> subtasks[k] == old(subtasks)[k])
    {
      var trimmed := Trim(sub.title);
      if trimmed == [] {
        return Some("Title required");
      }
      trace := trace + [CreateTodo(SubBody(sub, parentId))];
      match created {
        case Ok(_) =>
          alert := LoadSub(parentId, server);
        case Err(msg) =>
          alert := Some(AlertText(msg, "Create subtask failed"));
      }
    }

    /** `openEdit`: select the to-do and copy it into the edit form, with its
        due date as the date-input text `formattedDue` (`fmtDateInput`). */
    method OpenEdit(todo: Todo, formattedDue: string)
      modifies this`editing, this`editForm
      ensures editing == Some(todo) && editForm == Some(todo.(dueAt := Some(formattedDue)))
    {
      editing := Some(todo);
      editForm := Some(todo.(dueAt := Some(formattedDue)));
    }

    /** `onUpdate`: nothing without a selected task. Otherwise the edit form is
        sent; on success the selection is cleared and the list re-fetched, on
        failure the error is shown. `updating` is false afterwards. */
    method OnUpdate(updated: Outcome<Todo>, server: Server) returns (alert: Option<string>)
      requires Valid()
      modifies this`editing, this`updating, this`items, this`total, this`subtasks, this`isLoading, this`trace
      ensures Valid()
      ensures old(editing).None? ==> alert == None && unchanged(this)
      ensures old(editing).Some? ==>
        && !updating
        && var trace1 := old(trace) + [UpdateTodo(old(editing).value.id, editForm)];
        match updated
        case Ok(_) =>
          editing == None && alert == None && Fetched(server, old(items), old(total), old(subtasks), trace1)
        case Err(msg) =>
          && editing == old(editing) && alert == Some(AlertText(msg, "Update failed"))
          && items == old(items) && total == old(total) && subtasks == old(subtasks) && trace == trace1
    {
      if editing.None? {
        return None;
      }
      updating := true;
      trace := trace + [UpdateTodo(editing.value.id, editForm)];
      match updated {
        case Ok(_) =>
          editing := None;
          FetchList(server);
          alert := None;
        case Err(msg) =>
          alert := Some(AlertText(msg, "Update failed"));
      }
      updating := false;
    }

    /** `onDelete`: a declined confirmation does nothing. Otherwise the to-do is
        deleted; on success the list is re-fetched, on failure the error is
        shown and the page is left as it was. */
    method OnDelete(todo: Todo, confirmed: bool, deleted: Outcome<()>, server: Server) returns (alert: Option<string>)
      requires Valid()
      modifies this`items, this`total, this`subtasks, this`isLoading, this`trace
      ensures Valid()
      ensures !confirmed ==> alert == None && unchanged(this)
      ensures confirmed ==>
        var trace1 := old(trace) + [DeleteTodo(todo.id)];
        match deleted
        case Ok(_) => alert == None && Fetched(server, old(items), old(total), old(subtasks), trace1)
        case Err(msg) =>
          && alert == Some(AlertText(msg, "Delete failed"))
          && items == old(items) && total == old(total) && subtasks == old(subtasks) && trace == trace1
    {
      if !confirmed {
        return None;
      }
      trace := trace + [DeleteTodo(todo.id)];
      match deleted {
        case Ok(_) =>
          FetchList(server);
          alert := None;
        case Err(msg) =>
          alert := Some(AlertText(msg, "Delete failed"));
      }
    }

    /** `onDeleteById`: acts only on an id among the root items, so the id of a
        subtask deletes nothing. */
    method OnDeleteById(id: string, confirmed: bool, deleted: Outcome<()>, server: Server) returns (alert: Option<string>)
      requires Valid()
      modifies this`items, this`total, this`subtasks, this`isLoading, this`trace
      ensures Valid()
      ensures id !in Ids(old(items)) || !confirmed ==> alert == None && unchanged(this)
      ensures id in Ids(old(items)) && confirmed ==>
        var trace1 := old(trace) + [DeleteTodo(id)];
        match deleted
        case Ok(_) => alert == None && Fetched(server, old(items), old(total), old(subtasks), trace1)
        case Err(msg) =>
          && alert == Some(AlertText(msg, "Delete failed"))
          && items == old(items) && total == old(total) && subtasks == old(subtasks) && trace == trace1
    {
      var todo := FindById(items, id);
      if todo.Some? {
        alert := OnDelete(todo.value, confirmed, deleted, server);
      } else {
        alert := None;
      }
    }
  }

  /** A list fetch that is not preceded by the reset effect (the refresh after
      a create, update or delete) never drops a key: entries of parents that
      left the page stay in the map. */
  lemma MutationFetchKeepsStaleKeys(m: map<string, seq<Todo>>, roots: seq<Todo>, filters: Filters, server: Server)
    ensures m.Keys <= Prefetched(m, roots, filters, server).Keys
    ensures roots == [] ==> Prefetched(m, roots, filters, server) == m
  {
    PrefetchedAt(m, roots, filters, server);
  }
}
