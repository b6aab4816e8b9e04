/** The todo entity, its enumerations and the filter criteria shared by the
    todo-list hook and its components. */
module TodoTypes {
  import opened Outcome

  datatype Priority = Low | Normal | High | Urgent | Critical

  /** `'todo' | 'in_progress' | ...`; `ToDo` stands for the value `'todo'`. */
  datatype State = ToDo | InProgress | Waiting | Blocked | Done | Canceled | Archived

  datatype Category = Ainka | Kuku | Freelancer | Personal | Learning | Other

  /** A task as the persistence API returns it. `parentId` is `None` for a root task. */
  datatype Todo = Todo(
    id: string,
    title: string,
    description: Option<string>,
    category: Category,
    priority: Priority,
    state: State,
    dueAt: Option<string>,
    parentId: Option<string>)

  /** A filter dimension: the sentinel `'all'` or an explicit list. */
  datatype Sel<T> = All | Only(list: seq<T>)

  /** `FilterMode`: states are always an explicit list. */
  datatype Filters = Filters(states: seq<State>, categories: Sel<Category>, priorities: Sel<Priority>)

  /** The payload of the subtask form of a card (`SubNewPayload`). */
  datatype SubDraft = SubDraft(title: string, priority: Priority, state: State, dueAt: string)

  /** The body of a `listTodos` response: `items` and `total` may be missing. */
  datatype ListData = ListData(items: Option<seq<Todo>>, total: Option<int>)

  /** The body of a `listSubtasks` response. */
  datatype SubData = SubData(items: Option<seq<Todo>>)

  /** The ids of a list of tasks. */
  function Ids(list: seq<Todo>): set<string> {
    set t | t in list :: t.id
  }

  function PriorityName(p: Priority): string {
    match p
    case Low => "low"
    case Normal => "normal"
    case High => "high"
    case Urgent => "urgent"
    case Critical => "critical"
  }

  function StateName(s: State): string {
    match s
    case ToDo => "todo"
    case InProgress => "in_progress"
    case Waiting => "waiting"
    case Blocked => "blocked"
    case Done => "done"
    case Canceled => "canceled"
    case Archived => "archived"
  }
}
