/** The filter panel (`FiltersBar`): a local, checkbox-shaped copy of the
    engine's filters (an all-flag plus a list per dimension), the MultiSelect
    change handlers, `apply()` and the page-size selector. */
module FiltersBar {
  import opened Outcome
  import opened TodoTypes
  import TodoList

  /** The panel's local state: `states`, `cateAll`/`categories`, `prioAll`/`priorities`. */
  datatype LocalFilters = LocalFilters(
    states: seq<State>,
    cateAll: bool,
    categories: seq<Category>,
    prioAll: bool,
    priorities: seq<Priority>)

  /** `x === 'all' ? [] : x`: the list a selection shows when it is not `'all'`. */
  function ListOf<T>(s: Sel<T>): seq<T> {
    if s.All? then [] else s.list
  }

  /** `all ? 'all' : list` */
  function SelOf<T>(all: bool, list: seq<T>): Sel<T> {
    if all then All else Only(list)
  }

  /** The local state derived from `filters` (initial state and the sync effect). */
  function LocalFrom(f: Filters): LocalFilters {
    LocalFilters(f.states, f.categories.All?, ListOf(f.categories), f.priorities.All?, ListOf(f.priorities))
  }

  /** The `setFilters` updater of `apply()`: `{...f, states, categories, priorities}`. */
  function Applied(l: LocalFilters, f: Filters): Filters {
    f.(states := l.states, categories := SelOf(l.cateAll, l.categories), priorities := SelOf(l.prioAll, l.priorities))
  }

  /** A set all-flag comes with an empty list, as every handler of the panel leaves it. */
  predicate LocalValid(l: LocalFilters) {
    (l.cateAll ==> l.categories == []) && (l.prioAll ==> l.priorities == [])
  }

  /** Derived local state: the all-flag is set exactly for `'all'`, with an
      empty list; otherwise the list is the explicit one. */
  lemma LocalFromShape(f: Filters)
    ensures LocalValid(LocalFrom(f))
    ensures LocalFrom(f).cateAll <==> f.categories == All
    ensures LocalFrom(f).prioAll <==> f.priorities == All
    ensures f.categories.Only? ==> LocalFrom(f).categories == f.categories.list
    ensures f.priorities.Only? ==> LocalFrom(f).priorities == f.priorities.list
  {
  }

  /** Deriving the local state and applying it straight back gives the same filters. */
  lemma ApplyLocalFromRoundTrip(f: Filters, current: Filters)
    ensures Applied(LocalFrom(f), current) == f
  {
  }

  /** Applying a well-formed local state and deriving it again gives the same local state. */
  lemma LocalFromApplyRoundTrip(l: LocalFilters, current: Filters)
    requires LocalValid(l)
    ensures LocalFrom(Applied(l, current)) == l
  {
  }

  /** `apply()` writes `'all'` exactly when the flag is set; an empty explicit
      list stays an empty list and is not widened to `'all'`. */
  lemma AppliedSelections(l: LocalFilters, current: Filters)
    ensures Applied(l, current).categories == All <==> l.cateAll
    ensures Applied(l, current).priorities == All <==> l.prioAll
    ensures !l.cateAll ==> Applied(l, current).categories == Only(l.categories)
    ensures !l.prioAll ==> Applied(l, current).priorities == Only(l.priorities)
    ensures Applied(l, current).states == l.states
  {
  }

  class FilterPanel {
    var states: seq<State>
    var cateAll: bool
    var categories: seq<Category>
    var prioAll: bool
    var priorities: seq<Priority>
    var showFilters: bool

    function Local(): LocalFilters
      reads this
    {
      LocalFilters(states, cateAll, categories, prioAll, priorities)
    }

    ghost predicate Valid()
      reads this
    {
      LocalValid(Local())
    }

    /** The initial local state, derived from the engine's filters; the panel starts hidden. */
    constructor (filters: Filters)
      ensures Valid()
      ensures Local() == LocalFrom(filters) && !showFilters
    {
      states := filters.states;
      cateAll := filters.categories.All?;
      categories := ListOf(filters.categories);
      prioAll := filters.priorities.All?;
      priorities := ListOf(filters.priorities);
      showFilters := false;
    }

    /** The sync effect run when the engine's filters change. */
    method SyncFrom(filters: Filters)
      modifies this`states, this`cateAll, this`categories, this`prioAll, this`priorities
      ensures Valid()
      ensures Local() == LocalFrom(filters)
    {
      states := filters.states;
      cateAll := filters.categories.All?;
      categories := ListOf(filters.categories);
      prioAll := filters.priorities.All?;
      priorities := ListOf(filters.priorities);
    }

    /** The Show/Hide Filters button. */
    method ToggleShowFilters()
      modifies this`showFilters
      ensures showFilters == !old(showFilters)
    {
      showFilters := !showFilters;
    }

    /** Category MultiSelect: `'all'` sets the flag and clears the list, a list clears the flag and is stored. */
    method OnCategoriesChange(v: Sel<Category>)
      requires Valid()
      modifies this`cateAll, this`categories
      ensures Valid()
      ensures cateAll == v.All? && categories == ListOf(v)
      ensures SelOf(cateAll, categories) == v
    {
      if v.All? {
        cateAll := true;
        categories := [];
      } else {
        cateAll := false;
        categories := v.list;
      }
    }

    /** Priority MultiSelect, handled as the categories are. */
    method OnPrioritiesChange(v: Sel<Priority>)
      requires Valid()
      modifies this`prioAll, this`priorities
      ensures Valid()
      ensures prioAll == v.All? && priorities == ListOf(v)
      ensures SelOf(prioAll, priorities) == v
    {
      if v.All? {
        prioAll := true;
        priorities := [];
      } else {
        prioAll := false;
        priorities := v.list;
      }
    }

    /** State MultiSelect: an array is stored, anything else becomes `[]`. */
    method OnStatesChange(v: Sel<State>)
      modifies this`states
      ensures states == ListOf(v)
    {
      states := if v.Only? then v.list else [];
    }

    /** `apply()`: page 1 and the updated filters in one batch; the engine's
        reset effect reloads the list, and the panel's sync effect re-derives
        a local state equal to the one applied. */
    method Apply(engine: TodoList.TodoListEngine, server: TodoList.Server)
      requires Valid() && engine.Valid()
      modifies this`states, this`cateAll, this`categories, this`prioAll, this`priorities
      modifies engine`filters, engine`page, engine`pageSize, engine`todayTaskOn
      modifies engine`items, engine`total, engine`subtasks, engine`isLoading, engine`trace
      ensures Valid() && engine.Valid()
      ensures engine.page == 1 && engine.pageSize == old(engine.pageSize)
      ensures engine.filters == Applied(old(Local()), old(engine.filters))
      ensures engine.Fetched(server, old(engine.items), old(engine.total), map[], old(engine.trace))
      ensures Local() == old(Local())
    {
      var l := Local();
      engine.Commit(Some(Applied(l, engine.filters)), 1, engine.pageSize, server);
      SyncFrom(engine.filters);
      LocalFromApplyRoundTrip(l, old(engine.filters));
    }

    /** `handleChangePageSize(n)`: hands `n` to `onChangePageSize` when the page
        supplies one (`delegate`), and otherwise sets the page size to `n` and
        the page to 1 in one batch. */
    method HandleChangePageSize(n: int, delegate: bool, engine: TodoList.TodoListEngine, server: TodoList.Server)
      returns (delegated: bool)
      requires engine.Valid()
      modifies engine`filters, engine`page, engine`pageSize, engine`todayTaskOn
      modifies engine`items, engine`total, engine`subtasks, engine`isLoading, engine`trace
      ensures engine.Valid()
      ensures delegated == delegate
      ensures delegate ==> unchanged(engine)
      ensures !delegate ==>
        && engine.pageSize == n && engine.page == 1 && engine.filters == old(engine.filters)
        && if n != old(engine.pageSize) || old(engine.page) != 1
           then engine.Fetched(server, old(engine.items), old(engine.total), map[], old(engine.trace))
           else
             && engine.items == old(engine.items) && engine.total == old(engine.total)
             && engine.subtasks == old(engine.subtasks) && engine.trace == old(engine.trace)
    {
      if delegate {
        return true;
      }
      engine.Commit(None, 1, n, server);
      delegated := false;
    }
  }
}
