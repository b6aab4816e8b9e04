# Personal worklog: a verified model of the to-do list and health-log logic

This project models the logic of a small personal worklog web app in Dafny, and proves properties of that model. The app has four parts:

- **The to-do list.** A filterable, paginated list of root tasks, each with its subtasks.
- **The health log.** One entry per day, viewed over a window of days.
- **A random-number tool.**
- **A mobile bottom navigation bar.**

The modules follow the source files:

| module | file | source |
|---|---|---|
| `Outcome` | `outcome.dfy` | `Option`, and `Outcome` (`Ok(value)` or `Err(message)`) for an API answer; the `message \|\| fallback` alert text |
| `Text` | `text.dfy` | `trim` with JavaScript's white space, decimal digits, `String(n)`, `padStart(2, '0')`, `split` |
| `TodoTypes` | `todo_types.dfy` | tasks, priorities, states, categories and the filter record |
| `TodoList` | `todo_list.dfy` | the engine `useTodoList` (class `TodoListEngine`) |
| `FiltersBar` | `filters_bar.dfy` | the filter panel (class `FilterPanel`) |
| `TodoFeed` | `todo_feed.dfy` | the feed of cards |
| `TodoCard` | `todo_card.dfy` | a card: labels, the subtask form and the menus (class `CardState`) |
| `DueColor`, `PriorityColor`, `StateColor` | `due_color.dfy`, `priority_color.dfy`, `state_color.dfy` | the colour classifiers |
| `BottomNav` | `bottom_nav.dfy` | the active-link test of the bottom navigation |
| `HealthLogDates` | `healthlog_dates.dfy` | `addDays` and `monthStartEndOf` |
| `HealthLogTypes` | `healthlog_types.dfy` | the health-log entry, its status and the view modes |
| `HealthLogPage` | `healthlog_page.dfy` | the page: query, forms and the CRUD round trips (class `HealthLogPageState`) |
| `LogTable` | `log_table.dfy` | the helpers and the pager shared by the desktop table and the mobile list |
| `LogListMobile` | `log_list_mobile.dfy` | the chips of the mobile list |
| `RandomTool` | `random_tool.dfy` | the random-number tool (class `RandomPage`) |

**Stateful code.** Code that updates state step by step is a class whose fields are the React state. Its methods carry `modifies` frames and state the whole new state.

**API calls.**
- The list endpoints are the total functions of a `Server` (to-do list) or a `LogServer` (health log). So the request a method makes appears in what it stores.
- Create, update and delete calls are `Outcome` parameters.
- A ghost `trace` field records every request in order. "No API call" therefore reads `trace == old(trace)`.

**Other inputs.** `confirm`, today's date, `Math.random()` and the due-date formatter are inputs too. An `alert` is the method's `alert` result.

**React batching.** The setter calls of one event are applied together, as React batches them. The reset effect of the engine runs when the filter object was replaced, or when page or page size changed value. The health-log load effect runs when view, page or page size changed value.

## Model

| member | source | states |
|---|---|---|
| TodoList.IsTodayTaskPriorities | src/app/todolist/hooks/useTodoList.ts:23-27 | no contract of its own; stated by `TodayTaskMeansUrgentAndCritical` |
| TodoList.TodayTaskMeansUrgentAndCritical | src/app/todolist/hooks/useTodoList.ts:23-27 | the today test holds exactly for an explicit list whose set of elements is {urgent, critical}, whatever the order or repetitions, and never for `'all'` |
| TodoList.TogglePriorities | src/app/todolist/hooks/useTodoList.ts:48-56 | no contract of its own; stated by `ToggleFlipsTodayFlag` and `ToggleTwiceRestores` |
| TodoList.ToggleFlipsTodayFlag | src/app/todolist/hooks/useTodoList.ts:48-56 | the toggled priorities always have the opposite today flag |
| TodoList.ToggleTwiceRestores | src/app/todolist/hooks/useTodoList.ts:48-56 | two toggles restore the priorities if and only if they were `'all'` or exactly `[urgent, critical]` |
| TodoList.Prefetched | src/app/todolist/hooks/useTodoList.ts:78-93 | no contract of its own; stated by `PrefetchedAt` |
| TodoList.PrefetchedAt | src/app/todolist/hooks/useTodoList.ts:78-93 | after prefetching, every root id maps to its subtask query's items (`[]` on failure), and every other key keeps its entry |
| TodoList.PrefetchOrderIrrelevant | src/app/todolist/hooks/useTodoList.ts:81-90 | two root lists with the same ids give the same map, so completion order does not matter |
| TodoList.FindById | src/app/todolist/hooks/useTodoList.ts:191 | `find` gives nothing if and only if no item has the id; otherwise the first item with it |
| TodoList.MutationFetchKeepsStaleKeys | src/app/todolist/hooks/useTodoList.ts:95-109 | a fetch without the reset effect never drops an existing key of the subtask map |
| TodoList.TodoListEngine.constructor | src/app/todolist/hooks/useTodoList.ts:30-76 | initial state: no items, page 1 of 10, states todo and in_progress, all categories and priorities, today flag off, empty form |
| TodoList.TodoListEngine.PrefetchSubtasksFor | src/app/todolist/hooks/useTodoList.ts:78-93 | the loop leaves the map of the prefetch fold and issues one subtask query per root, in order |
| TodoList.TodoListEngine.FetchList | src/app/todolist/hooks/useTodoList.ts:95-109 | queries `skip = (page-1)*pageSize`, `take = pageSize`. On success it stores items `?? []` and total `?? 0`, then prefetches. On failure it keeps the old page. Loading is off afterwards |
| TodoList.TodoListEngine.Reload | src/app/todolist/hooks/useTodoList.ts:111-114 | the reset effect: after a successful fetch the map's keys are exactly the root ids; after a failed one the map is empty |
| TodoList.TodoListEngine.Commit | src/app/todolist/hooks/useTodoList.ts:44-46 | a batch of filter/page/pageSize setters re-derives the today flag and reloads exactly when filters were set or page/pageSize changed |
| TodoList.TodoListEngine.ToggleTodayTask | src/app/todolist/hooks/useTodoList.ts:48-56 | page 1, page size kept, priorities toggled, states and categories kept, today flag flipped, list reloaded with a cleared map |
| TodoList.TodoListEngine.OnCreateRoot | src/app/todolist/hooks/useTodoList.ts:117-137 | a blank title alerts and changes nothing. Otherwise the form is sent. Success resets the form and re-fetches; failure keeps the form and alerts the message or 'Create failed' |
| TodoList.TodoListEngine.LoadSub | src/app/todolist/hooks/useTodoList.ts:139-146 | replaces only that parent's entry on success; on failure the map is unchanged and 'Load subtasks failed' is the fallback alert |
| TodoList.TodoListEngine.OnCreateSub | src/app/todolist/hooks/useTodoList.ts:148-156 | a blank title alerts with no request. Otherwise the draft is sent with its parent id. On success only that parent's entry is reloaded, and the alert is the reload's own ('Load subtasks failed' as fallback) or none; other keys are never touched. A failed create keeps the map and alerts 'Create subtask failed' as fallback |
| TodoList.TodoListEngine.OpenEdit | src/app/todolist/hooks/useTodoList.ts:158-164 | the selected task and an edit copy whose due date is the formatted input text |
| TodoList.TodoListEngine.OnUpdate | src/app/todolist/hooks/useTodoList.ts:166-178 | does nothing without a selection. Otherwise it sends the edit form. Success clears the selection and re-fetches; failure keeps it and alerts |
| TodoList.TodoListEngine.OnDelete | src/app/todolist/hooks/useTodoList.ts:180-188 | a declined confirm does nothing. Otherwise it deletes that to-do. Success re-fetches; failure alerts and keeps the page |
| TodoList.TodoListEngine.OnDeleteById | src/app/todolist/hooks/useTodoList.ts:190-193 | an id that is not among the root items does nothing; otherwise it acts as `onDelete` on that item |
| FiltersBar.LocalFrom | src/app/todolist/components/FiltersBar.tsx:31-39 | no contract of its own; stated by `LocalFromShape` and the two round-trip lemmas |
| FiltersBar.LocalFromShape | src/app/todolist/components/FiltersBar.tsx:31-39 | the derived all-flag is set exactly for `'all'` and then the list is empty; otherwise the list is the explicit one |
| FiltersBar.ApplyLocalFromRoundTrip | src/app/todolist/components/FiltersBar.tsx:45-65 | deriving the local state and applying it back gives the same filters |
| FiltersBar.LocalFromApplyRoundTrip | src/app/todolist/components/FiltersBar.tsx:45-65 | applying a well-formed local state and re-deriving it gives the same local state |
| FiltersBar.Applied | src/app/todolist/components/FiltersBar.tsx:57-65 | no contract of its own; stated by `AppliedSelections` and the two round-trip lemmas |
| FiltersBar.AppliedSelections | src/app/todolist/components/FiltersBar.tsx:57-65 | `apply` writes `'all'` exactly when the flag is set; an empty explicit list stays an empty list |
| FiltersBar.FilterPanel.constructor | src/app/todolist/components/FiltersBar.tsx:31-42 | the local state is derived from the engine's filters; the panel starts hidden |
| FiltersBar.FilterPanel.SyncFrom | src/app/todolist/components/FiltersBar.tsx:45-51 | the sync effect re-derives the whole local state |
| FiltersBar.FilterPanel.ToggleShowFilters | src/app/todolist/components/FiltersBar.tsx:82 | the panel visibility flips |
| FiltersBar.FilterPanel.OnCategoriesChange | src/app/todolist/components/FiltersBar.tsx:116-124 | `'all'` sets the flag and clears the list; a list clears the flag and is stored, so the selection reads back unchanged |
| FiltersBar.FilterPanel.OnStatesChange | src/app/todolist/components/FiltersBar.tsx:137 | an array is stored, `'all'` becomes `[]` |
| FiltersBar.FilterPanel.OnPrioritiesChange | src/app/todolist/components/FiltersBar.tsx:148-156 | as for categories |
| FiltersBar.FilterPanel.Apply | src/app/todolist/components/FiltersBar.tsx:57-65 | page 1 and the applied filters in one batch, the list reloaded, and the synced local state equal to the one applied |
| FiltersBar.FilterPanel.HandleChangePageSize | src/app/todolist/components/FiltersBar.tsx:67-74 | delegates to the page's handler when there is one, leaving the engine unchanged; otherwise page size `n`, page 1, reload if either changed, and with no change items, total, subtask map and requests all stay as they were |
| TodoFeed.SubtasksFor | src/app/todolist/components/TodoFeed.tsx:42 | the stored entry of the card's id, or `[]` |
| TodoFeed.IsSubFormOpen | src/app/todolist/components/TodoFeed.tsx:43 | no contract of its own; stated by `ToggleSubForm` and `ToggleTwiceRestores` |
| TodoFeed.ToggleSubForm | src/app/todolist/components/TodoFeed.tsx:44-49 | the card's own flag becomes `open`, or its negation when `open` is missing; every other key is kept |
| TodoFeed.ToggleTwiceRestores | src/app/todolist/components/TodoFeed.tsx:44-49 | two toggles without a value leave every card's form flag as it was |
| TodoFeed.ToggleIgnoresArgument | src/app/todolist/components/TodoFeed.tsx:44 | the id the card passes has no effect on the toggle |
| TodoFeed.DeleteTarget | src/app/todolist/components/TodoFeed.tsx:51 | no contract of its own; stated by `SubtaskDeleteTargetsParent` and `SubtaskDeleteAsWired` |
| TodoFeed.SubtaskDeleteTargetsParent | src/app/todolist/components/TodoFeed.tsx:51 | as wired, a subtask's Delete reaches `onDelete` with the parent's id |
| TodoFeed.ForwardedDeleteTarget | src/app/todolist/components/TodoFeed.tsx:51 | the corrected callback `(id) => onDelete(id)`: the id the card passes reaches the page |
| TodoFeed.ForwardedDeleteTargets | src/app/todolist/components/TodoFeed.tsx:51 | with forwarding, the card menu still passes the card's id and a subtask menu passes the subtask's id, never the parent's |
| TodoFeed.Cards | src/app/todolist/components/TodoFeed.tsx:38-54 | one card per root, in order, each with its subtasks and form flag |
| TodoFeed.Feed | src/app/todolist/components/TodoFeed.tsx:38-67 | the cards, and the load-more button exactly when `hasMore` |
| TodoFeed.CardsFollowKeys | src/app/todolist/components/TodoFeed.tsx:40-43 | cards with the same root id see the same subtasks and form flag; a card whose id has an entry sees exactly that entry |
| TodoFeed.CardsShowFetchedSubtasks | src/app/todolist/components/TodoFeed.tsx:40-43 | after a list fetch each card shows the subtasks its own query returned (`[]` if it failed), whatever the map held before |
| TodoFeed.ReloadAndRender | src/app/todolist/components/TodoFeed.tsx:38-67 | the engine's reset effect then the feed: on success one card per root, in order, each with its own query's subtasks; on failure the old roots, each with no subtasks |
| TodoFeed.SubtaskDeleteAsWired | src/app/todolist/components/TodoFeed.tsx:51 | a subtask's menu Delete, through the card, the feed wiring and `onDeleteById`, deletes the parent once confirmed and never issues a delete of the subtask |
| TodoFeed.FindSubtask | src/app/todolist/hooks/useTodoList.ts:190-193 | the corrected lookup's second step: nothing if and only if no stored subtask list of the roots has the id; otherwise a subtask with that id |
| TodoFeed.FindInFeed | src/app/todolist/hooks/useTodoList.ts:190-193 | the corrected lookup: a root item first, exactly as `items.find` does, then a stored subtask; nothing if and only if the id is shown nowhere |
| TodoFeed.StoredSubtaskFound | src/app/todolist/hooks/useTodoList.ts:190-193 | every subtask stored under a root on the page is found by the corrected lookup |
| TodoFeed.DeleteByIdInFeed | src/app/todolist/hooks/useTodoList.ts:190-193 | the corrected `onDeleteById`: any id shown on the page, root or subtask, is deleted after confirmation and then re-fetched or alerted; an id shown nowhere does nothing |
| TodoFeed.SubtaskDeleteForwarded | src/app/todolist/components/TodoFeed.tsx:51 | with the id forwarded and the corrected lookup, a subtask's menu Delete deletes that subtask once confirmed |
| TodoCard.ToUpper | src/app/todolist/components/TodoCard.tsx:44 | only `a`–`z` change, each to its capital, and word characters stay word characters |
| TodoCard.Underscores | src/app/todolist/components/TodoCard.tsx:44 | same length; each `_` becomes a space and every other character is kept |
| TodoCard.LabelizeWord | src/app/todolist/components/TodoCard.tsx:43-45 | same length; each `_` becomes a space; the character at each word start (after that replacement) becomes its capital; every other character is kept |
| TodoCard.CapitalizeWords | src/app/todolist/components/TodoCard.tsx:44 | no contract of its own; stated by `CapitalizeKeepsWords` |
| TodoCard.CapitalizeKeepsWords | src/app/todolist/components/TodoCard.tsx:44 | capitalising keeps word characters and word starts where they were |
| TodoCard.LabelizeIdempotent | src/app/todolist/components/TodoCard.tsx:43-45 | labelising a label changes nothing |
| TodoCard.LabelizeInProgress | src/app/todolist/components/TodoCard.tsx:43-45 | `in_progress` is shown as `In Progress` |
| TodoCard.StateLabelsCapitalized | src/app/todolist/components/TodoCard.tsx:189 | every state label is non-empty and starts with the capital of the state's first letter |
| TodoCard.SubtaskRowClass | src/app/todolist/components/TodoCard.tsx:283 | grey on even rows, white on odd rows |
| TodoCard.SubtaskRowsAlternate | src/app/todolist/components/TodoCard.tsx:283 | neighbouring rows never share a background |
| TodoCard.CardState.constructor | src/app/todolist/components/TodoCard.tsx:56-65 | menus closed, empty subtask form with priority normal and state todo, not saving |
| TodoCard.CardState.HandleCreateSub | src/app/todolist/components/TodoCard.tsx:89-110 | a blank title or a pending save sends nothing and changes nothing. Otherwise the trimmed draft is sent. Success resets the four fields and closes the form; failure keeps them; `savingSub` is off afterwards |
| TodoCard.CardState.ToggleMenu | src/app/todolist/components/TodoCard.tsx:136 | the card menu flips |
| TodoCard.CardState.MenuEdit | src/app/todolist/components/TodoCard.tsx:147-150 | the menu closes and the card's task is opened |
| TodoCard.CardState.MenuDelete | src/app/todolist/components/TodoCard.tsx:157-160 | the menu closes and `onDelete` gets the card's id |
| TodoCard.CardState.MenuAddSubtask | src/app/todolist/components/TodoCard.tsx:167-170 | the menu closes and the form is asked for the opposite visibility |
| TodoCard.CardState.ToggleSubMenu | src/app/todolist/components/TodoCard.tsx:315 | the same row closes its menu; another row opens its own, closing the rest |
| TodoCard.CardState.SubMenuEdit | src/app/todolist/components/TodoCard.tsx:326-329 | the subtask menu closes and the subtask is opened |
| TodoCard.CardState.SubMenuDelete | src/app/todolist/components/TodoCard.tsx:336-339 | the subtask menu closes and `onDelete` gets the subtask's id |
| TodoCard.SentTitlePassesEngineCheck | src/app/todolist/components/TodoCard.tsx:90-99 | the title a card sends is already trimmed and non-blank, so the engine's blank check lets it through |
| DueColor.DueDateBgClass | src/app/todolist/utils/dueColor.ts:3-33 | `''` if and only if there is no due date or it cannot be parsed; overdue or today, 1–3 days, later: each class if and only if its range |
| DueColor.BucketsPartition | src/app/todolist/utils/dueColor.ts:22-32 | every day difference falls in exactly one of three distinct classes |
| DueColor.UrgencyNonIncreasing | src/app/todolist/utils/dueColor.ts:22-32 | a later due date never gets a more urgent class |
| PriorityColor.PriorityBgText | src/app/todolist/utils/priorityColor.ts:3-17 | each of critical, urgent, high and normal gets its own class, if and only if; critical alone has white text; any other value gets the low class |
| PriorityColor.OnlyCriticalIsWhite | src/app/todolist/utils/priorityColor.ts:5-6 | the text is white if and only if the priority is critical |
| PriorityColor.PriorityClassesDistinct | src/app/todolist/utils/priorityColor.ts:4-16 | the five priorities get five different classes |
| PriorityColor.UnknownShownAsLow | src/app/todolist/utils/priorityColor.ts:13-15 | an unknown priority is shown as low |
| StateColor.CategoryTagColor | src/app/todolist/utils/stateColor.ts:3-19 | each of the five named categories gets its own colour, if and only if; the slate default if and only if the category is missing, `Other` or unknown |
| StateColor.NamedCategoriesDistinct | src/app/todolist/utils/stateColor.ts:5-14 | the five named categories get different, non-default colours |
| StateColor.OtherIsDefault | src/app/todolist/utils/stateColor.ts:15-17 | `Other`, a missing category and an unknown one share the default |
| BottomNav.EffectivePath | src/components/BottomNavMobile.tsx:12 | a null or empty pathname reads as `/`; any other is kept |
| BottomNav.IsActive | src/components/BottomNavMobile.tsx:7-9 | no contract of its own; stated by `ActiveOnOwnRoute`, `NestedRouteActive`, `TodolistxNotActive` and `RootItemActive` |
| BottomNav.ActiveOnOwnRoute | src/components/BottomNavMobile.tsx:7-9 | every link is active on its own path |
| BottomNav.NestedRouteActive | src/components/BottomNavMobile.tsx:7-9 | a link is active on any path nested below it |
| BottomNav.NoFalsePrefixMatch | src/components/BottomNavMobile.tsx:7-9 | a path that extends the link by anything but `/` is not active |
| BottomNav.TodolistxNotActive | src/components/BottomNavMobile.tsx:8 | `/todolistx` does not activate `/todolist` |
| BottomNav.RootItemActive | src/components/BottomNavMobile.tsx:8 | the `/` link is active only on `/` and on paths starting with `//` |
| BottomNav.MissingPathHighlightsRoot | src/components/BottomNavMobile.tsx:12-18 | with no pathname, only the `/` link (or an empty href) is active |
| HealthLogDates.DaysInMonth | src/app/healthlog/page.tsx:39-40 | 28 to 31 days; February has 29 exactly in leap years |
| HealthLogDates.PrevNext | src/app/healthlog/page.tsx:40 | a day forward and a day back are inverse |
| HealthLogDates.AddDays | src/app/healthlog/page.tsx:40 | `setUTCDate(getUTCDate() + delta)` always lands on a valid date |
| HealthLogDates.AddDaysCompose | src/app/healthlog/page.tsx:37-45 | adding `a` then `b` days is adding `a + b` |
| HealthLogDates.FirstOfMonthPlus | src/app/healthlog/page.tsx:39 | `Date.UTC(y, m-1, d)` of a valid day is that day |
| HealthLogDates.NumberOf | src/app/healthlog/page.tsx:38 | a digit string reads as its value, anything else as NaN |
| HealthLogDates.FullYear | src/app/healthlog/page.tsx:39 | years 0 to 99 are read as 1900 to 1999 |
| HealthLogDates.UtcDate | src/app/healthlog/page.tsx:39 | the normalised `Date.UTC` result is a valid date |
| HealthLogDates.Format | src/app/healthlog/page.tsx:41-44 | a four-digit year prints as 10 characters with `-` at positions 4 and 7 |
| HealthLogDates.SplitFormat | src/app/healthlog/page.tsx:38 | splitting a printed date on `-` gives year, month and day |
| HealthLogDates.ParseDate | src/app/healthlog/page.tsx:38-39 | no contract of its own; stated by `ParseFormat` |
| HealthLogDates.ParseFormat | src/app/healthlog/page.tsx:37-45 | reading back a printed date with a year of at least 100 gives the date |
| HealthLogDates.AddDaysStr | src/app/healthlog/page.tsx:37-45 | no contract of its own; stated by `AddDaysStrZero` and `AddDaysStrCompose` |
| HealthLogDates.AddDaysStrZero | src/app/healthlog/page.tsx:37-45 | `addDays(s, 0) == s` for a printed date |
| HealthLogDates.AddDaysStrCompose | src/app/healthlog/page.tsx:37-45 | `addDays(addDays(s, a), b) == addDays(s, a + b)` |
| HealthLogDates.MonthEnd | src/app/healthlog/page.tsx:49 | day 0 of the next month index is the month's last day |
| HealthLogDates.MonthStartEndOf | src/app/healthlog/page.tsx:46-52 | no contract of its own; stated by `MonthStartEndOfFormat` and `MissingMonthPrintsUndefined` |
| HealthLogDates.MonthStartEndOfFormat | src/app/healthlog/page.tsx:46-52 | the month window of a printed date runs from its first to its last day |
| HealthLogDates.MissingMonthPrintsUndefined | src/app/healthlog/page.tsx:47-50 | a date string without `-` has no month: the window is `<year>-undefined-01` to `<year>-undefined-NaN`, because `String(undefined)` prints the word and `Date.UTC` with an undefined month is NaN |
| HealthLogPage.BuildParams | src/app/healthlog/page.tsx:120-138 | status `active`, `skip = (page-1)*pageSize`, `take = pageSize` first; five parameters with a window, three for `all` |
| HealthLogPage.QueryAlwaysPaged | src/app/healthlog/page.tsx:123-125 | every query reads back status, skip and take |
| HealthLogPage.WindowParams | src/app/healthlog/page.tsx:126-136 | no contract of its own; stated by `GetWindow`, `RollingWindows` and `RollingWindowsEndToday` |
| HealthLogPage.GetWindow | src/app/healthlog/page.tsx:126-136 | `from`/`to` read back as the window's bounds, and are absent for `all` |
| HealthLogPage.RollingWindows | src/app/healthlog/page.tsx:126-131 | last 7 and last 30 days: from 6 and 29 days before today, to today |
| HealthLogPage.RollingWindowsEndToday | src/app/healthlog/page.tsx:127-130 | the rolling windows span exactly 7 and 30 days ending today |
| HealthLogPage.MonthWindow | src/app/healthlog/page.tsx:132-136 | this month: from its first to its last day |
| HealthLogPage.OrNull | src/app/healthlog/page.tsx:175-180 | empty text becomes `null`, other text is sent as it is |
| HealthLogPage.FieldsPayload | src/app/healthlog/page.tsx:172-181 | each field is `null` exactly when its form text is empty |
| HealthLogPage.CreatePayload | src/app/healthlog/page.tsx:172-181 | the form date and no status |
| HealthLogPage.UpdatePayload | src/app/healthlog/page.tsx:227-237 | the edit form's date and its status |
| HealthLogPage.FormPayloads | src/app/healthlog/page.tsx:272-293 | a cleared form posts no field; the defaults post weight 57, the morning activity, 1500 kcal and gout 2 |
| HealthLogPage.EditFormOf | src/app/healthlog/page.tsx:208-221 | no contract of its own; stated by `UntouchedEditRoundTrip` |
| HealthLogPage.UntouchedEditRoundTrip | src/app/healthlog/page.tsx:208-237 | saving an untouched edit sends the entry back: the same date (today's if it had none) and status, texts with `''` as `null`, numbers as printed |
| HealthLogPage.HealthLogPageState.constructor | src/app/healthlog/page.tsx:57-97 | today's date, last 30 days, page 1 of 30, empty forms, nothing open, loading |
| HealthLogPage.HealthLogPageState.Load | src/app/healthlog/page.tsx:141-160 | one GET of the current query. Success stores items `?? []` and total `?? 0`. Failure alerts (fallback 'Load failed') and empties the list. Never loading afterwards |
| HealthLogPage.HealthLogPageState.Commit | src/app/healthlog/page.tsx:162-165 | a batch of view/page/pageSize setters reloads exactly when one of them changed |
| HealthLogPage.HealthLogPageState.ViewChange | src/app/healthlog/components/LogTableDesktop.tsx:105-108 | page 1 in the chosen view; reloads unless nothing changed |
| HealthLogPage.HealthLogPageState.PageSizeChange | src/app/healthlog/components/LogTableDesktop.tsx:122-125 | page 1 with the chosen size; reloads unless nothing changed |
| HealthLogPage.HealthLogPageState.PrevClick | src/app/healthlog/components/LogTableDesktop.tsx:288-289 | disabled at page 1; otherwise one page back with a reload |
| HealthLogPage.HealthLogPageState.NextClick | src/app/healthlog/components/LogTableDesktop.tsx:298-299 | disabled on the last page or with no rows; otherwise one page on, never past the last, with a reload |
| HealthLogPage.HealthLogPageState.CreateItem | src/app/healthlog/page.tsx:168-206 | ignored while a create is pending. Otherwise the payload is posted. Success reloads and then clears the form; failure keeps the form and alerts 'Cannot create' as the fallback |
| HealthLogPage.HealthLogPageState.OpenEdit | src/app/healthlog/page.tsx:208-221 | the modal opens on the entry with its fields filled in |
| HealthLogPage.HealthLogPageState.CloseEdit | src/app/healthlog/page.tsx:510-519 | the modal closes |
| HealthLogPage.HealthLogPageState.UpdateItem | src/app/healthlog/page.tsx:223-254 | ignored without an entry or while pending. Otherwise the edit form is sent. Success closes the modal and reloads; failure keeps it open and alerts |
| HealthLogPage.HealthLogPageState.DeleteItem | src/app/healthlog/page.tsx:256-269 | the row menu closes first. Nothing more without confirmation. Otherwise it deletes and reloads, or alerts 'Cannot delete' |
| HealthLogPage.HealthLogPageState.ToggleRowMenu | src/app/healthlog/components/LogTableDesktop.tsx:228 | the same row's button closes its menu, another row's opens its own |
| HealthLogPage.HealthLogPageState.RowEdit | src/app/healthlog/components/LogTableDesktop.tsx:246-249 | the row menu closes and the entry opens for editing |
| HealthLogPage.HealthLogPageState.GenDefaults | src/app/healthlog/page.tsx:272-282 | the form takes the default values |
| HealthLogPage.HealthLogPageState.ClearForm | src/app/healthlog/page.tsx:283-293 | the form is emptied |
| LogTable.Shorten | src/app/healthlog/components/LogTableDesktop.tsx:7-10 | missing or empty text gives `''`; text longer than `n` is cut to `n` characters plus an ellipsis; shorter text is kept |
| LogTable.ShortenBounds | src/app/healthlog/components/LogTableDesktop.tsx:7-10 | the result is at most `n + 1` long, never longer than the input, and agrees with it on the first `n` characters |
| LogTable.WdAbbr | src/app/healthlog/components/LogTableDesktop.tsx:16-27 | a short weekday name gives its first two letters; any other text is returned as it is |
| LogTable.WdAbbrDistinct | src/app/healthlog/components/LogTableDesktop.tsx:16-27 | the seven abbreviations are different |
| LogTable.KcalBgClass | src/app/healthlog/components/LogTableDesktop.tsx:28-36 | one of six shades, each exactly on its band: white if and only if the value is missing or below 1000; orange-300 on [1000, 1200); orange-400 on [1200, 1600); orange-500 on [1600, 2000); orange-600 on [2000, 2500); orange-800 at 2500 and above |
| LogTable.KcalMonotone | src/app/healthlog/components/LogTableDesktop.tsx:28-36 | more calories never give a lighter shade |
| LogTable.GoutLevel | src/app/healthlog/components/LogTableDesktop.tsx:39 | the floor clamped to 0..8 |
| LogTable.GoutBgClass | src/app/healthlog/components/LogTableDesktop.tsx:37-52 | white when missing or below 1, otherwise the shade of the level, always within the shade list |
| LogTable.GoutMonotone | src/app/healthlog/components/LogTableDesktop.tsx:37-52 | a larger value never gets a lower level; from 8 up, the darkest shade |
| LogTable.CeilDiv | src/app/healthlog/components/LogTableDesktop.tsx:96 | the least page count that covers `total` |
| LogTable.MaxPage | src/app/healthlog/components/LogTableDesktop.tsx:96 | at least 1, covers every row, the last page is non-empty when there are rows, and 1 when everything fits on one page |
| LogTable.ShowingFrom | src/app/healthlog/components/LogTableDesktop.tsx:277 | no contract of its own; stated by `ShowingRange` and `ShowingCapped` |
| LogTable.ShowingTo | src/app/healthlog/components/LogTableDesktop.tsx:277 | no contract of its own; stated by `ShowingRange` and `ShowingCapped` |
| LogTable.ShowingRange | src/app/healthlog/components/LogTableDesktop.tsx:274-280 | on a page within range the rows shown start at `(page-1)*pageSize+1`, lie in `1..total` and number at most one page |
| LogTable.ShowingCapped | src/app/healthlog/components/LogTableDesktop.tsx:274-280 | both ends never exceed the total |
| LogTable.PrevPage | src/app/healthlog/components/LogTableDesktop.tsx:288 | one back, never below 1 |
| LogTable.NextPage | src/app/healthlog/components/LogTableDesktop.tsx:298 | one on, never past the last page |
| LogTable.PrevDisabled | src/app/healthlog/components/LogTableDesktop.tsx:289 | no contract of its own; stated by `PagerStaysInRange` |
| LogTable.NextDisabled | src/app/healthlog/components/LogTableDesktop.tsx:299 | no contract of its own; stated by `PagerStaysInRange` |
| LogTable.PagerStaysInRange | src/app/healthlog/components/LogTableDesktop.tsx:288-299 | Prev and Next keep the page in `1..maxPage`; an enabled button moves exactly one page |
| LogTable.OnViewChange | src/app/healthlog/components/LogTableDesktop.tsx:105-108 | the view is set and the page goes back to 1 |
| LogTable.OnPageSizeChange | src/app/healthlog/components/LogTableDesktop.tsx:122-125 | the page size is set and the page goes back to 1 |
| LogTable.ToggleMenuId | src/app/healthlog/components/LogTableDesktop.tsx:228 | the open row's button closes the menu, any other opens that row's |
| LogTable.ToggleMenuTwice | src/app/healthlog/components/LogTableDesktop.tsx:228 | pressing a row's button twice leaves the menu closed |
| LogListMobile.ChipText | src/app/healthlog/components/LogListMobile.tsx:81-101 | missing values and 0 show as empty, texts as themselves, other numbers as printed |
| LogListMobile.ChipClass | src/app/healthlog/components/LogListMobile.tsx:90 | green if and only if the trimmed text is non-empty |
| LogListMobile.ChipLabel | src/app/healthlog/components/LogListMobile.tsx:101 | at most 21 characters; text of up to 20 is shown whole, and longer text as its first 20 characters followed by `…` |
| LogListMobile.ChipFilledCases | src/app/healthlog/components/LogListMobile.tsx:90 | a text chip is filled exactly when it has a non-space character; missing values and 0 never are |
| RandomTool.BgColorsDistinct | src/app/tools/random/page.tsx:5-14 | the eight colours are different |
| RandomTool.FormatElapsed | src/app/tools/random/page.tsx:16-20 | no contract of its own; stated by `FormatElapsedReadsBack` |
| RandomTool.FormatElapsedReadsBack | src/app/tools/random/page.tsx:16-20 | the text is minutes, `:`, two-digit seconds below 60, and reads back as the elapsed seconds; below 6000 s it is exactly `MM:SS` |
| RandomTool.Clamp | src/app/tools/random/page.tsx:39 | the value is forced into 1..10 and kept if already there |
| RandomTool.RandomValue | src/app/tools/random/page.tsx:40 | a whole number from 1 to 10, at most one above the clamped `num` |
| RandomTool.RandomValueRange | src/app/tools/random/page.tsx:38-41 | for a whole `num` the draw is in `1..num`, and every value there is drawn for some random input |
| RandomTool.Without | src/app/tools/random/page.tsx:34 | the colours kept are exactly those different from `prev` |
| RandomTool.WithoutLength | src/app/tools/random/page.tsx:34 | filtering a list without repetitions removes at most one colour |
| RandomTool.WithoutAbsent | src/app/tools/random/page.tsx:34 | filtering out a colour that is not in the list keeps the list |
| RandomTool.OthersLength | src/app/tools/random/page.tsx:34 | at least seven colours remain to choose from, whatever the previous background |
| RandomTool.PickOther | src/app/tools/random/page.tsx:35 | a colour of the list other than `prev` when one exists, `prev` otherwise |
| RandomTool.PickRandomBg | src/app/tools/random/page.tsx:33-36 | always one of the eight colours and never the previous one |
| RandomTool.EveryOtherColourReachable | src/app/tools/random/page.tsx:33-36 | every other colour can come next |
| RandomTool.PickOtherReachable | src/app/tools/random/page.tsx:35 | every colour of the list other than `prev` is picked for some random input in [0, 1) |
| RandomTool.IntervalMs | src/app/tools/random/page.tsx:68 | the draw period is between 1 and 10 seconds |
| RandomTool.RandomPage.constructor | src/app/tools/random/page.tsx:23-31 | num 5, time 1, no number, not running, 0 s, slate background, no intervals |
| RandomTool.RandomPage.DoRandom | src/app/tools/random/page.tsx:38-43 | a new number from the draw and a colour different from the previous one |
| RandomTool.RandomPage.ClearAll | src/app/tools/random/page.tsx:45-50 | both intervals are cleared |
| RandomTool.RandomPage.Start | src/app/tools/random/page.tsx:52-70 | a no-op while running. Otherwise: elapsed 0, running, a first draw, both intervals set with the clamped period, keeping the invariant that the intervals are set exactly while running |
| RandomTool.RandomPage.Stop | src/app/tools/random/page.tsx:72-75 | not running and both intervals cleared |
| RandomTool.RandomPage.TickElapsed | src/app/tools/random/page.tsx:60-62 | the stopwatch advances by one second |
| RandomTool.RandomPage.TickRandom | src/app/tools/random/page.tsx:64-69 | each tick draws again with a new colour |
| RandomTool.RandomPage.SetNum | src/app/tools/random/page.tsx:100-101 | the Number input, only while stopped, sets `num` |
| RandomTool.RandomPage.SetTime | src/app/tools/random/page.tsx:113-114 | the Time input, only while stopped, sets `time` |
| Text.Trim | src/app/todolist/hooks/useTodoList.ts:118 | no contract of its own; stated by `TrimEmptyIffBlank` and `TrimIdempotent` |
| Text.TrimEmptyIffBlank | src/app/todolist/hooks/useTodoList.ts:118 | a title trims to empty if and only if all its characters are white space |
| Text.TrimIdempotent | src/app/todolist/components/TodoCard.tsx:90 | trimming twice is trimming once |

## Left out

- HTTP and the persistence services. `listTodos`, `listSubtasks`, `createTodo`, `updateTodo` and `deleteTodo` come from `src/app/todolist/services/todos.service`, which is not part of this model; neither is the health-log API. Each call is an input: a `Server` function or an `Outcome` parameter. Error messages are whatever the call reports, and `AlertText` supplies the fallback.
- Concurrency. `Promise.allSettled` in `prefetchSubtasksFor` is run one root after another. `PrefetchOrderIrrelevant` shows that order does not change the map. Responses that arrive after a later fetch are not modelled. The source has no stale-response guard, so none is modelled either.
- Timers. `setInterval`/`clearInterval` in the random tool become the fields `randomInterval` and `timerInterval` and the tick methods. Real time and the unmount cleanup are not modelled.
- Browser prompts and DOM listeners. `alert` is a method result and `confirm` a boolean input. `console.error` is dropped. The document click and Escape listeners of the health-log page and of the card are not modelled.
- Clock, time zone and locale. `todayVN`/`toVNDateStr` are replaced by a `today` parameter. `weekdayOf` is not modelled. In the due-date classifier, reading the clock, parsing the date and rounding are replaced by the three cases of `DueDate` (no date, unparsable, a whole number of days away).
- Number parsing and printing. `Number(...)` on a date part is modelled for digit strings only. Signs, decimals, white space and hexadecimal are read as NaN, whereas JavaScript reads some of them as numbers. `Number(x).toFixed(2)` and `Number(x)` in the health-log payload are not modelled: the payload carries the form text. `String(number)` is the `numberText` parameter.
- JavaScript `Date` range limits (years beyond ±275760) are not modelled; dates are unbounded proleptic Gregorian dates.
- HealthLogDates.ParseFormat: the round trip is stated for years of at least 100. `Date.UTC` maps years 0 to 99 to 1900 to 1999, so smaller years do not read back, as `FullYear` states.
- HealthLogPage.BuildParams: the query is kept as the ordered list of parameters. URL encoding is not modelled, because the values the page sets contain only letters, digits and `-`.
- HealthLogPage.HealthLogPageState.PageSizeChange: requires a positive size. The selector only offers 10, 30 and 50.
- LogTable.WdAbbr: `map[w] ?? w` would also answer for keys inherited from `Object.prototype` (such as `constructor`); only the seven weekday keys are modelled.
- Text lengths are counted in Unicode characters, not UTF-16 code units. This matters only for `Shorten` on text outside the Basic Multilingual Plane.
- RandomTool.RandomValue: `num` comes from a number input and may be fractional. The draw is then bounded by one above the clamped value (with `num = 2.5` it can be 3). `RandomValueRange` states the exact range for whole numbers. NaN inputs are not modelled.
- Markup and layout files. `layout.tsx`, `tools/page.tsx`, `EditModal.tsx` and the to-do page are not part of this model. The same goes for the form field setters of every page, the `addOpen` flag and `subFormOpen` beyond its updater, icons, spinners and class strings other than the classifiers. `src/app/todolist/types.ts`, where the enums are declared, is not part of this model either; the values follow the option lists and classifiers that use them.
- The to-do page passes neither `onToggleTodayTask` nor `todayTaskOn` to the filter bar (`src/app/todolist/page.tsx:141-147`). So in the app the "Today task" button does nothing and shows off. The engine's `ToggleTodayTask` models the hook as written.

### Behaviour worth knowing

- Toggling "Today task" twice does not always restore the priorities. `ToggleTwiceRestores` shows that only `'all'` and the exact list `[urgent, critical]` come back. Any other list, for instance `[critical, urgent]` or `[high]`, ends as `[urgent, critical]` or `'all'`.
- Refreshes after create, update and delete call `fetchList` without the reset effect. So subtask entries of parents that left the page stay in the map (`MutationFetchKeepsStaleKeys`).
- The engine's `onCreateSub` catches its own errors and never rejects. So the card's `handleCreateSub` always resets its fields and closes the form, even when the create failed. `HandleCreateSub` models both outcomes of the call it awaits.

## Findings

| source | as written | input that shows it | evidently intended | confidence | as-written member | corrected member |
|---|---|---|---|---|---|---|
| src/app/todolist/components/TodoFeed.tsx:51 | the card's `onDelete` is wired as `() => onDelete(it.id)`, dropping the id the card passes | a root task `p` with a subtask `s`, `s.id != p.id`: Delete in the subtask's menu calls `onDelete(s.id)`, and the page receives `p.id`, so the parent root is deleted (after confirmation) | forward the argument, `(id) => onDelete(id)`, and let `onDeleteById` (`useTodoList.ts:190-193`) also find stored subtasks, since it searches only the root items; then a subtask's Delete deletes that subtask | medium, not executed | TodoFeed.SubtaskDeleteAsWired | TodoFeed.SubtaskDeleteForwarded |
