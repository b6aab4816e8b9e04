/** The feed of task cards (`TodoFeed`): one card per root task, each given
    its subtasks, its subtask-form flag, the form toggle and the delete
    callback, plus the load-more button. */
module TodoFeed {
  import opened Outcome
  import opened TodoTypes
  import TodoList
  import TodoCard

  /** The data a card receives. */
  datatype CardProps = CardProps(item: Todo, subtasks: seq<Todo>, isSubFormOpen: bool)

  datatype FeedView = FeedView(cards: seq<CardProps>, showLoadMore: bool)

  /** `subtasksMap?.[id] ?? []` */
  function SubtasksFor(m: map<string, seq<Todo>>, id: string): (r: seq<Todo>)
    ensures id in m ==> r == m[id]
    ensures id !in m ==> r == []
  {
    if id in m then m[id] else []
  }

  /** `!!subFormOpen?.[id]`: a missing map or a missing key reads as closed. */
  predicate IsSubFormOpen(open: Option<map<string, bool>>, id: string) {
    open.Some? && id in open.value && open.value[id]
  }

  /** The updater the feed hands to `setSubFormOpen` for the card of `itId`
      when the card calls `onToggleSubForm(argId, open)`: the card's own key
      is set to `open`, or flipped when `open` is not given; the argument id
      is not used and every other key is kept. */
  function ToggleSubForm(m: Option<map<string, bool>>, itId: string, argId: string, open: Option<bool>): (r: map<string, bool>)
    ensures IsSubFormOpen(Some(r), itId) == open.GetOr(!IsSubFormOpen(m, itId))
    ensures forall k :: k != itId ==> IsSubFormOpen(Some(r), k) == IsSubFormOpen(m, k)
    ensures forall k :: k != itId && k in m.GetOr(map[]) ==> k in r && r[k] == m.GetOr(map[])[k]
    ensures r.Keys == m.GetOr(map[]).Keys + {itId}
  {
    var base := m.GetOr(map[]);
    base[itId := open.GetOr(!(itId in base && base[itId]))]
  }

  /** Two toggles without an explicit value leave every card's form as it was. */
  lemma ToggleTwiceRestores(m: Option<map<string, bool>>, itId: string, a: string, b: string, k: string)
    ensures IsSubFormOpen(Some(ToggleSubForm(Some(ToggleSubForm(m, itId, a, None)), itId, b, None)), k)
         == IsSubFormOpen(m, k)
  {
  }

  /** The id passed by the card does not influence the toggle. */
  lemma ToggleIgnoresArgument(m: Option<map<string, bool>>, itId: string, a: string, b: string, open: Option<bool>)
    ensures ToggleSubForm(m, itId, a, open) == ToggleSubForm(m, itId, b, open)
  {
  }

  /** The id that reaches the page's `onDelete` when the card of `itId` calls
      its `onDelete(argId)`, as wired: `() => onDelete(it.id)` drops the argument. */
  function DeleteTarget(itId: string, argId: string): string {
    itId
  }

  /** As wired, the Delete item of a subtask's menu, which passes the subtask's
      id, deletes its parent root task instead. */
  lemma SubtaskDeleteTargetsParent(parent: Todo, sub: Todo)
    requires sub.id != parent.id
    ensures DeleteTarget(parent.id, sub.id) == parent.id && DeleteTarget(parent.id, sub.id) != sub.id
  {
  }

  /** The delete callback forwarding the id the card passes. */
  function ForwardedDeleteTarget(itId: string, argId: string): (r: string)
    ensures r == argId
  {
    argId
  }

  /** With the argument forwarded, the card's main-menu Delete still deletes
      the card's task, and a subtask's Delete can no longer reach the parent. */
  lemma ForwardedDeleteTargets(parent: Todo, sub: Todo)
    requires sub.id != parent.id
    ensures ForwardedDeleteTarget(parent.id, parent.id) == parent.id
    ensures ForwardedDeleteTarget(parent.id, sub.id) == sub.id
    ensures ForwardedDeleteTarget(parent.id, sub.id) != parent.id
  {
  }

  /** The props of the cards: one per root task, in order. */
  function Cards(items: seq<Todo>, subMap: map<string, seq<Todo>>, open: Option<map<string, bool>>): (r: seq<CardProps>)
    ensures |r| == |items|
    ensures forall i :: 0 <= i < |items| ==> r[i].item == items[i]
    ensures forall i :: 0 <= i < |items| ==>
      && r[i].subtasks == SubtasksFor(subMap, items[i].id)
      && r[i].isSubFormOpen == IsSubFormOpen(open, items[i].id)
  {
    seq(|items|, i requires 0 <= i < |items| =>
      CardProps(items[i], SubtasksFor(subMap, items[i].id), IsSubFormOpen(open, items[i].id)))
  }

  /** The feed: the cards, and the load-more button exactly when `hasMore`. */
  function Feed(items: seq<Todo>, subMap: map<string, seq<Todo>>, open: Option<map<string, bool>>, hasMore: bool): (r: FeedView)
    ensures r.cards == Cards(items, subMap, open)
    ensures r.showLoadMore <==> hasMore
  {
    FeedView(Cards(items, subMap, open), hasMore)
  }

  /** Cards with the same root id see the same subtasks and form flag, and
      the subtasks a card sees are exactly the stored entry, when there is one. */
  lemma CardsFollowKeys(items: seq<Todo>, subMap: map<string, seq<Todo>>, open: Option<map<string, bool>>, i: int, j: int)
    requires 0 <= i < |items| && 0 <= j < |items| && items[i].id == items[j].id
    ensures Cards(items, subMap, open)[i].subtasks == Cards(items, subMap, open)[j].subtasks
    ensures Cards(items, subMap, open)[i].isSubFormOpen == Cards(items, subMap, open)[j].isSubFormOpen
    ensures items[i].id in subMap ==> Cards(items, subMap, open)[i].subtasks == subMap[items[i].id]
  {
  }

  /** After a list fetch the feed shows each card the subtasks its own query
      returned (`[]` when that query failed), whatever the map held before. */
  lemma CardsShowFetchedSubtasks(m: map<string, seq<Todo>>, items: seq<Todo>, open: Option<map<string, bool>>,
                                 filters: Filters, server: TodoList.Server)
    ensures forall i :: 0 <= i < |items| ==>
      Cards(items, TodoList.Prefetched(m, items, filters, server), open)[i].subtasks
        == TodoList.SubtasksOf(server.listSubtasks(items[i].id, filters))
  {
    TodoList.PrefetchedAt(m, items, filters, server);
    forall i | 0 <= i < |items|
      ensures items[i].id in Ids(items)
    {
    }
  }

  /** The reset effect of the engine followed by a render of the feed: on a
      successful root query there is one card per root, in order, each with
      the subtasks of its own query; on a failed one the old roots stay and
      every card shows no subtasks. */
  method ReloadAndRender(engine: TodoList.TodoListEngine, open: Option<map<string, bool>>, hasMore: bool,
                         server: TodoList.Server)
    returns (view: FeedView)
    requires engine.Valid()
    modifies engine`items, engine`total, engine`subtasks, engine`isLoading, engine`trace
    ensures engine.Valid()
    ensures view == Feed(engine.items, engine.subtasks, open, hasMore)
    ensures |view.cards| == |engine.items|
    ensures TodoList.RootResponse(server, engine.filters, engine.page, engine.pageSize).Ok? ==>
      forall i :: 0 <= i < |view.cards| ==>
        && view.cards[i].item == engine.items[i]
        && view.cards[i].subtasks == TodoList.SubtasksOf(server.listSubtasks(engine.items[i].id, engine.filters))
    ensures TodoList.RootResponse(server, engine.filters, engine.page, engine.pageSize).Err? ==>
      && engine.items == old(engine.items)
      && forall i :: 0 <= i < |view.cards| ==> view.cards[i].subtasks == []
  {
    engine.Reload(server);
    view := Feed(engine.items, engine.subtasks, open, hasMore);
    CardsShowFetchedSubtasks(map[], engine.items, open, engine.filters, server);
  }

  /** A subtask's Delete as wired: the card passes the subtask's id, the feed
      replaces it by the parent's, and the page's `onDeleteById` finds the
      parent among the root items. Once confirmed, the parent is deleted and
      the subtask is not. */
  method SubtaskDeleteAsWired(card: TodoCard.CardState, engine: TodoList.TodoListEngine, parent: Todo, sub: Todo,
                              confirmed: bool, deleted: Outcome<()>, server: TodoList.Server)
    returns (alert: Option<string>)
    requires engine.Valid() && parent.id in Ids(engine.items)
    modifies card`subMenuOpenId
    modifies engine`items, engine`total, engine`subtasks, engine`isLoading, engine`trace
    ensures engine.Valid() && card.subMenuOpenId == None
    ensures !confirmed ==> unchanged(engine)
    ensures confirmed ==> old(engine.trace) + [TodoList.DeleteTodo(parent.id)] <= engine.trace
    ensures confirmed && sub.id != parent.id ==> TodoList.DeleteTodo(sub.id) !in engine.trace[|old(engine.trace)|..]
  {
    var arg := card.SubMenuDelete(sub);
    alert := engine.OnDeleteById(DeleteTarget(parent.id, arg), confirmed, deleted, server);
  }

  /** The first stored subtask with `id`, searching the roots in order. */
  function FindSubtask(roots: seq<Todo>, m: map<string, seq<Todo>>, id: string): (r: Option<Todo>)
    ensures r.None? <==> forall i :: 0 <= i < |roots| ==> id !in Ids(SubtasksFor(m, roots[i].id))
    ensures r.Some? ==> r.value.id == id
  {
    if roots == [] then None
    else
      var here := TodoList.FindById(SubtasksFor(m, roots[0].id), id);
      if here.Some? then here
      else
        var rest := FindSubtask(roots[1..], m, id);
        assert forall i :: 1 <= i < |roots| ==> roots[i] == roots[1..][i - 1];
        rest
  }

  /** The lookup the delete callback needs once subtask ids are forwarded: a
      root item first, as `onDeleteById` does, then a stored subtask. */
  function FindInFeed(roots: seq<Todo>, m: map<string, seq<Todo>>, id: string): (r: Option<Todo>)
    ensures r.None? <==>
      id !in Ids(roots) && forall i :: 0 <= i < |roots| ==> id !in Ids(SubtasksFor(m, roots[i].id))
    ensures r.Some? ==> r.value.id == id
    ensures id in Ids(roots) ==> r == TodoList.FindById(roots, id)
  {
    var root := TodoList.FindById(roots, id);
    if root.Some? then root else FindSubtask(roots, m, id)
  }

  /** Every subtask shown under a root on the page is found by the corrected lookup. */
  lemma StoredSubtaskFound(roots: seq<Todo>, m: map<string, seq<Todo>>, parent: Todo, sub: Todo)
    requires parent.id in Ids(roots) && sub in SubtasksFor(m, parent.id)
    ensures FindInFeed(roots, m, sub.id).Some?
    ensures FindInFeed(roots, m, sub.id).value.id == sub.id
  {
    var t :| t in roots && t.id == parent.id;
    var i :| 0 <= i < |roots| && roots[i] == t;
    assert sub.id in Ids(SubtasksFor(m, roots[i].id));
  }

  /** The corrected `onDeleteById`: any id shown on the page, root or
      subtask, is deleted after confirmation; an id not shown does nothing. */
  method DeleteByIdInFeed(engine: TodoList.TodoListEngine, id: string, confirmed: bool, deleted: Outcome<()>,
                          server: TodoList.Server)
    returns (alert: Option<string>)
    requires engine.Valid()
    modifies engine`items, engine`total, engine`subtasks, engine`isLoading, engine`trace
    ensures engine.Valid()
    ensures FindInFeed(old(engine.items), old(engine.subtasks), id).None? || !confirmed ==>
      alert == None && unchanged(engine)
    ensures FindInFeed(old(engine.items), old(engine.subtasks), id).Some? && confirmed ==>
      var trace1 := old(engine.trace) + [TodoList.DeleteTodo(id)];
      match deleted
      case Ok(_) =>
        alert == None && engine.Fetched(server, old(engine.items), old(engine.total), old(engine.subtasks), trace1)
      case Err(msg) =>
        && alert == Some(AlertText(msg, "Delete failed"))
        && engine.items == old(engine.items) && engine.total == old(engine.total)
        && engine.subtasks == old(engine.subtasks) && engine.trace == trace1
  {
    var todo := FindInFeed(engine.items, engine.subtasks, id);
    if todo.Some? {
      alert := engine.OnDelete(todo.value, confirmed, deleted, server);
    } else {
      alert := None;
    }
  }

  /** A subtask's Delete with the id forwarded and the corrected lookup: once
      confirmed, the subtask itself is deleted. */
  method SubtaskDeleteForwarded(card: TodoCard.CardState, engine: TodoList.TodoListEngine, parent: Todo, sub: Todo,
                                confirmed: bool, deleted: Outcome<()>, server: TodoList.Server)
    returns (alert: Option<string>)
    requires engine.Valid() && parent.id in Ids(engine.items) && sub in SubtasksFor(engine.subtasks, parent.id)
    modifies card`subMenuOpenId
    modifies engine`items, engine`total, engine`subtasks, engine`isLoading, engine`trace
    ensures engine.Valid() && card.subMenuOpenId == None
    ensures !confirmed ==> unchanged(engine)
    ensures confirmed ==> old(engine.trace) + [TodoList.DeleteTodo(sub.id)] <= engine.trace
  {
    var arg := card.SubMenuDelete(sub);
    StoredSubtaskFound(engine.items, engine.subtasks, parent, sub);
    alert := DeleteByIdInFeed(engine, ForwardedDeleteTarget(parent.id, arg), confirmed, deleted, server);
  }
}
