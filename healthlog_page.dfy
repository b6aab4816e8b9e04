/** The health-log page: the query built from the view mode and the pager,
    the add form and its payload, the edit modal, the row menu and the
    load / create / update / delete round trips with the API. The API's
    answers, `confirm` and today's date are inputs; the calls the page makes
    are recorded in the ghost `trace`. */
module HealthLogPage {
  import opened Outcome
  import opened Text
  import opened HealthLogTypes
  import opened HealthLogDates
  import LogTable

  /** A query parameter, in the order the page sets it. */
  type Param = (string, string)

  /** The `from` / `to` window of a view mode; `all` sets neither. */
  function WindowParams(today: string, mode: ViewMode): seq<Param> {
    match mode
    case Last7 => [("from", AddDaysStr(today, -6)), ("to", today)]
    case Last30 => [("from", AddDaysStr(today, -29)), ("to", today)]
    case ThisMonth =>
      var w := MonthStartEndOf(today);
      [("from", w.0), ("to", w.1)]
    case AllDays => []
  }

  /** `buildQuery`'s parameters: the status, the page as `skip`/`take`, then the window. */
  function BuildParams(today: string, mode: ViewMode, page: int, pageSize: int): (ps: seq<Param>)
    ensures |ps| == if mode == AllDays then 3 else 5
    ensures ps[..3] == [("status", "active"), ("skip", IntToString((page - 1) * pageSize)), ("take", IntToString(pageSize))]
  {
    [("status", "active"), ("skip", IntToString((page - 1) * pageSize)), ("take", IntToString(pageSize))]
      + WindowParams(today, mode)
  }

  /** `URLSearchParams.get(key)`: the value of the first entry with that key. */
  function Get(ps: seq<Param>, key: string): (r: Option<string>)
    ensures r.None? <==> forall i :: 0 <= i < |ps| ==> ps[i].0 != key
    ensures r.Some? ==> exists i :: 0 <= i < |ps| && ps[i] == (key, r.value) && forall j :: 0 <= j < i ==> ps[j].0 != key
  {
    if ps == [] then None
    else if ps[0].0 == key then Some(ps[0].1)
    else
      var r := Get(ps[1..], key);
      assert forall i :: 1 <= i < |ps| ==> ps[i] == ps[1..][i - 1];
      r
  }

  /** Every query asks for active entries and for exactly the rows of the current page. */
  lemma QueryAlwaysPaged(today: string, mode: ViewMode, page: int, pageSize: int)
    ensures Get(BuildParams(today, mode, page, pageSize), "status") == Some("active")
    ensures Get(BuildParams(today, mode, page, pageSize), "skip") == Some(IntToString((page - 1) * pageSize))
    ensures Get(BuildParams(today, mode, page, pageSize), "take") == Some(IntToString(pageSize))
  {
    var ps := BuildParams(today, mode, page, pageSize);
    assert ps[0] == ("status", "active");
    assert ps[1..][0] == ("skip", IntToString((page - 1) * pageSize));
    assert ps[1..][1..][0] == ("take", IntToString(pageSize));
  }

  /** The window bounds as `get` reads them back from the query. */
  lemma GetWindow(today: string, mode: ViewMode, page: int, pageSize: int)
    ensures mode == AllDays ==>
      Get(BuildParams(today, mode, page, pageSize), "from") == None
      && Get(BuildParams(today, mode, page, pageSize), "to") == None
    ensures mode != AllDays ==>
      Get(BuildParams(today, mode, page, pageSize), "from") == Some(WindowParams(today, mode)[0].1)
      && Get(BuildParams(today, mode, page, pageSize), "to") == Some(WindowParams(today, mode)[1].1)
  {
    var ps := BuildParams(today, mode, page, pageSize);
    if mode != AllDays {
      assert ps[1..][1..][1..][0] == ("from", WindowParams(today, mode)[0].1);
      assert ps[1..][1..][1..][1..][0] == ("to", WindowParams(today, mode)[1].1);
    }
  }

  /** For a printed date `today`, the last 7 and the last 30 days end today,
      starting 6 and 29 days earlier. */
  lemma RollingWindows(dt: Date, mode: ViewMode, page: int, pageSize: int)
    requires ValidDate(dt) && dt.year >= 100
    requires mode == Last7 || mode == Last30
    ensures Get(BuildParams(Format(dt), mode, page, pageSize), "from")
         == Some(Format(AddDays(dt, if mode == Last7 then -6 else -29)))
    ensures Get(BuildParams(Format(dt), mode, page, pageSize), "to") == Some(Format(dt))
  {
    GetWindow(Format(dt), mode, page, pageSize);
    ParseFormat(dt);
  }

  /** For a printed date `today`, this month's window runs from the first to
      the last day of today's month. */
  lemma MonthWindow(dt: Date, page: int, pageSize: int)
    requires ValidDate(dt) && dt.year >= 100
    ensures ValidDate(Date(dt.year, dt.month, 1))
    ensures ValidDate(Date(dt.year, dt.month, DaysInMonth(dt.year, dt.month)))
    ensures Get(BuildParams(Format(dt), ThisMonth, page, pageSize), "from") == Some(Format(Date(dt.year, dt.month, 1)))
    ensures Get(BuildParams(Format(dt), ThisMonth, page, pageSize), "to")
         == Some(Format(Date(dt.year, dt.month, DaysInMonth(dt.year, dt.month))))
  {
    GetWindow(Format(dt), ThisMonth, page, pageSize);
    MonthStartEndOfFormat(dt);
  }

  /** The two rolling windows hold exactly 7 and 30 days up to today. */
  lemma RollingWindowsEndToday(dt: Date)
    requires ValidDate(dt)
    ensures AddDays(AddDays(dt, -6), 6) == dt
    ensures AddDays(AddDays(dt, -29), 29) == dt
  {
    AddDaysCompose(dt, -6, 6);
    AddDaysCompose(dt, -29, 29);
  }

  /** The seven text fields of the add form, and of the edit form. */
  datatype LogForm = LogForm(
    weight: string, morning: string, gym: string, afternoon: string,
    noEatAfter: string, calories: string, goutTreatment: string)

  const EmptyLogForm := LogForm("", "", "", "", "", "", "")

  /** `genDefaults`: the values most days share. */
  const DefaultLogForm := LogForm("57", "Tập bóng", "", "", "", "1500", "2")

  /** The edit modal's form: the date, the seven fields and the status. */
  datatype EditForm = EditForm(date: string, fields: LogForm, status: Status)

  /** The body of a POST or a PUT. The numeric fields carry the text they are
      converted from. */
  datatype Payload = Payload(
    date: string,
    weight: Option<string>, morning: Option<string>, gym: Option<string>, afternoon: Option<string>,
    noEatAfter: Option<string>, calories: Option<string>, goutTreatment: Option<string>,
    status: Option<Status>)

  /** `s || null` (and `s ? … : null` for the numeric fields). */
  function OrNull(s: string): (r: Option<string>)
    ensures r == None <==> s == ""
    ensures r.Some? ==> r.value == s
  {
    if s == "" then None else Some(s)
  }

  function FieldsPayload(date: string, f: LogForm, status: Option<Status>): (p: Payload)
    ensures p.date == date && p.status == status
    ensures p.weight == OrNull(f.weight) && p.morning == OrNull(f.morning) && p.gym == OrNull(f.gym)
    ensures p.afternoon == OrNull(f.afternoon) && p.noEatAfter == OrNull(f.noEatAfter)
    ensures p.calories == OrNull(f.calories) && p.goutTreatment == OrNull(f.goutTreatment)
  {
    Payload(date, OrNull(f.weight), OrNull(f.morning), OrNull(f.gym), OrNull(f.afternoon),
      OrNull(f.noEatAfter), OrNull(f.calories), OrNull(f.goutTreatment), status)
  }

  /** `createItem`'s body: the chosen date and the add form, without a status. */
  function CreatePayload(formDate: string, f: LogForm): (p: Payload)
    ensures p.date == formDate && p.status == None
  {
    FieldsPayload(formDate, f, None)
  }

  /** `updateItem`'s body: the edit form, with its status. */
  function UpdatePayload(e: EditForm): (p: Payload)
    ensures p.date == e.date && p.status == Some(e.status)
  {
    FieldsPayload(e.date, e.fields, Some(e.status))
  }

  /** A cleared form posts no field at all; the defaults post weight,
      morning, calories and gout treatment and nothing else. */
  lemma FormPayloads(formDate: string)
    ensures CreatePayload(formDate, EmptyLogForm) == Payload(formDate, None, None, None, None, None, None, None, None)
    ensures CreatePayload(formDate, DefaultLogForm)
         == Payload(formDate, Some("57"), Some("Tập bóng"), None, None, None, Some("1500"), Some("2"), None)
  {
  }

  /** `openEdit`'s form: a missing date becomes today, missing texts become
      `''`, numbers are printed by `numberText` (`String`). */
  function EditFormOf(item: HealthLog, today: string, numberText: real -> string): EditForm {
    EditForm(
      if item.date != "" then item.date else today,
      LogForm(
        item.weight.GetOr(""), item.morning.GetOr(""), item.gym.GetOr(""), item.afternoon.GetOr(""),
        item.noEatAfter.GetOr(""),
        if item.calories.Some? then numberText(item.calories.value) else "",
        if item.goutTreatment.Some? then numberText(item.goutTreatment.value) else ""),
      item.status)
  }

  /** Text stored as `null` or as `''` is sent back as `null`. */
  function Normalized(t: Option<string>): (r: Option<string>)
    ensures r == None <==> t == None || t == Some("")
    ensures r.Some? ==> r == t
  {
    if t == Some("") then None else t
  }

  /** Saving the edit modal without touching it sends the entry back as it
      was: same date (today's if it had none), same status, each text field as
      stored with `''` normalised to `null`, each number as `numberText` prints it. */
  lemma UntouchedEditRoundTrip(item: HealthLog, today: string, numberText: real -> string)
    requires forall x: real :: |numberText(x)| > 0
    ensures UpdatePayload(EditFormOf(item, today, numberText)).date == if item.date != "" then item.date else today
    ensures UpdatePayload(EditFormOf(item, today, numberText)).status == Some(item.status)
    ensures UpdatePayload(EditFormOf(item, today, numberText)).weight == Normalized(item.weight)
    ensures UpdatePayload(EditFormOf(item, today, numberText)).morning == Normalized(item.morning)
    ensures UpdatePayload(EditFormOf(item, today, numberText)).gym == Normalized(item.gym)
    ensures UpdatePayload(EditFormOf(item, today, numberText)).afternoon == Normalized(item.afternoon)
    ensures UpdatePayload(EditFormOf(item, today, numberText)).noEatAfter == Normalized(item.noEatAfter)
    ensures UpdatePayload(EditFormOf(item, today, numberText)).calories
         == if item.calories.None? then None else Some(numberText(item.calories.value))
    ensures UpdatePayload(EditFormOf(item, today, numberText)).goutTreatment
         == if item.goutTreatment.None? then None else Some(numberText(item.goutTreatment.value))
  {
    if item.calories.Some? {
      var v: real := item.calories.value;
      assert |numberText(v)| > 0;
    }
    if item.goutTreatment.Some? {
      var v: real := item.goutTreatment.value;
      assert |numberText(v)| > 0;
    }
  }

  /** What `GET /api/healthlog` answers: optional items and total. */
  datatype LogListData = LogListData(items: Option<seq<HealthLog>>, total: Option<int>)

  /** The list endpoint, as a function of the query. */
  datatype LogServer = LogServer(list: seq<Param> -> Outcome<LogListData>)

  /** A call the page makes to the API. */
  datatype LogRequest = GetList(query: seq<Param>) | PostLog(payload: Payload) | PutLog(id: string, payload: Payload) | DeleteLog(id: string)

  class HealthLogPageState {
    var formDate: string
    var items: seq<HealthLog>
    var total: int
    var isLoading: bool
    var filterMode: ViewMode
    var page: int
    var pageSize: int
    var form: LogForm
    var isCreating: bool
    var editing: Option<HealthLog>
    var editForm: EditForm
    var isUpdating: bool
    var menuOpenId: Option<string>
    ghost var trace: seq<LogRequest>

    /** The page size is positive, so the page count is defined. */
    predicate Valid()
      reads this`pageSize
    {
      pageSize > 0
    }

    /** The query `load` sends for the current view and page. */
    function Query(today: string): seq<Param>
      reads this`filterMode, this`page, this`pageSize
    {
      BuildParams(today, filterMode, page, pageSize)
    }

    /** The state after `load` from `trace0`: one GET of the current query;
        on success the items and total (defaulting to `[]` and 0), on failure
        an alert and an emptied list; never loading afterwards. */
    ghost predicate Loaded(server: LogServer, today: string, trace0: seq<LogRequest>, alert: Option<string>)
      reads this
    {
      var q := Query(today);
      && trace == trace0 + [GetList(q)]
      && !isLoading
      && (match server.list(q)
          case Ok(data) => items == data.items.GetOr([]) && total == data.total.GetOr(0) && alert == None
          case Err(msg) => items == [] && total == 0 && alert == Some(AlertText(msg, "Load failed")))
    }

    /** The first render: today's date in the add form, the last 30 days,
        page 1 of 30 rows, empty forms, nothing open, loading; the mount
        effect is a `Load`. */
    constructor (today: string)
      ensures Valid()
      ensures formDate == today && items == [] && total == 0 && isLoading
      ensures filterMode == Last30 && page == 1 && pageSize == 30
      ensures form == EmptyLogForm && !isCreating
      ensures editing == None && editForm == EditForm("", EmptyLogForm, Active) && !isUpdating
      ensures menuOpenId == None && trace == []
    {
      formDate := today;
      items := [];
      total := 0;
      isLoading := true;
      filterMode := Last30;
      page := 1;
      pageSize := 30;
      form := EmptyLogForm;
      isCreating := false;
      editing := None;
      editForm := EditForm("", EmptyLogForm, Active);
      isUpdating := false;
      menuOpenId := None;
      trace := [];
    }

    /** `load`: fetch the current query. It reports its own failure and never throws. */
    method Load(server: LogServer, today: string) returns (alert: Option<string>)
      modifies this`items, this`total, this`isLoading, this`trace
      ensures Loaded(server, today, old(trace), alert)
    {
      isLoading := true;
      var q := Query(today);
      trace := trace + [GetList(q)];
      match server.list(q) {
        case Ok(data) =>
          items := data.items.GetOr([]);
          total := data.total.GetOr(0);
          alert := None;
        case Err(msg) =>
          alert := Some(AlertText(msg, "Load failed"));
          items := [];
          total := 0;
      }
      isLoading := false;
    }

    /** A render that sets the view mode, the page and the page size: the
        effect on `[filterMode, page, pageSize]` reloads exactly when one of
        them changed. */
    method Commit(mode: ViewMode, newPage: int, newPageSize: int, server: LogServer, today: string)
      returns (alert: Option<string>)
      modifies this`filterMode, this`page, this`pageSize, this`items, this`total, this`isLoading, this`trace
      ensures filterMode == mode && page == newPage && pageSize == newPageSize
      ensures mode != old(filterMode) || newPage != old(page) || newPageSize != old(pageSize) ==>
        Loaded(server, today, old(trace), alert)
      ensures mode == old(filterMode) && newPage == old(page) && newPageSize == old(pageSize) ==>
        && alert == None && items == old(items) && total == old(total)
        && isLoading == old(isLoading) && trace == old(trace)
    {
      var changed := mode != filterMode || newPage != page || newPageSize != pageSize;
      filterMode, page, pageSize := mode, newPage, newPageSize;
      alert := None;
      if changed {
        alert := Load(server, today);
      }
    }

    /** The view selector of either table: back to page 1 in the new view. */
    method ViewChange(v: ViewMode, server: LogServer, today: string) returns (alert: Option<string>)
      modifies this`filterMode, this`page, this`pageSize, this`items, this`total, this`isLoading, this`trace
      ensures filterMode == v && page == 1 && pageSize == old(pageSize)
      ensures v != old(filterMode) || old(page) != 1 ==> Loaded(server, today, old(trace), alert)
      ensures v == old(filterMode) && old(page) == 1 ==> alert == None && trace == old(trace) && items == old(items)
    {
      var p := LogTable.OnViewChange(LogTable.Pager(filterMode, page, pageSize), v);
      alert := Commit(p.mode, p.page, p.pageSize, server, today);
    }

    /** The page-size selector of either table: back to page 1 with `n` rows. */
    method PageSizeChange(n: int, server: LogServer, today: string) returns (alert: Option<string>)
      requires n > 0
      modifies this`filterMode, this`page, this`pageSize, this`items, this`total, this`isLoading, this`trace
      ensures Valid()
      ensures filterMode == old(filterMode) && page == 1 && pageSize == n
      ensures n != old(pageSize) || old(page) != 1 ==> Loaded(server, today, old(trace), alert)
      ensures n == old(pageSize) && old(page) == 1 ==> alert == None && trace == old(trace) && items == old(items)
    {
      var p := LogTable.OnPageSizeChange(LogTable.Pager(filterMode, page, pageSize), n);
      alert := Commit(p.mode, p.page, p.pageSize, server, today);
    }

    /** Prev: disabled on page 1 and below; otherwise one page back and a reload. */
    method PrevClick(server: LogServer, today: string) returns (alert: Option<string>)
      modifies this`filterMode, this`page, this`pageSize, this`items, this`total, this`isLoading, this`trace
      ensures filterMode == old(filterMode) && pageSize == old(pageSize)
      ensures old(page) <= 1 ==> page == old(page) && alert == None && trace == old(trace) && items == old(items)
      ensures old(page) > 1 ==> page == old(page) - 1 && Loaded(server, today, old(trace), alert)
    {
      alert := None;
      if !LogTable.PrevDisabled(page) {
        alert := Commit(filterMode, LogTable.PrevPage(page), pageSize, server, today);
      }
    }

    /** Next: disabled on the last page or when there are no rows; otherwise
        one page on, never past the last, and a reload. */
    method NextClick(server: LogServer, today: string) returns (alert: Option<string>)
      requires Valid()
      modifies this`filterMode, this`page, this`pageSize, this`items, this`total, this`isLoading, this`trace
      ensures Valid() && filterMode == old(filterMode) && pageSize == old(pageSize)
      ensures old(page) >= LogTable.MaxPage(old(total), pageSize) || old(total) == 0 ==>
        page == old(page) && alert == None && trace == old(trace) && items == old(items)
      ensures old(page) < LogTable.MaxPage(old(total), pageSize) && old(total) != 0 ==>
        page == old(page) + 1 && page <= LogTable.MaxPage(old(total), pageSize) && Loaded(server, today, old(trace), alert)
    {
      alert := None;
      var maxPage := LogTable.MaxPage(total, pageSize);
      if !LogTable.NextDisabled(page, maxPage, total) {
        alert := Commit(filterMode, LogTable.NextPage(page, maxPage), pageSize, server, today);
      }
    }

    /** `createItem`: ignored while a create is pending. Otherwise the form is
        posted; on success the list is reloaded and only then the form
        cleared (a failed reload reports its own alert and still clears it);
        on failure the form is kept and an alert shown. */
    method CreateItem(posted: Outcome<()>, server: LogServer, today: string) returns (alert: Option<string>)
      modifies this`isCreating, this`form, this`items, this`total, this`isLoading, this`trace
      ensures old(isCreating) ==> alert == None && unchanged(this)
      ensures !old(isCreating) ==> !isCreating
      ensures !old(isCreating) && posted.Ok? ==>
        form == EmptyLogForm && Loaded(server, today, old(trace) + [PostLog(CreatePayload(formDate, old(form)))], alert)
      ensures !old(isCreating) && posted.Err? ==>
        && form == old(form) && alert == Some(AlertText(posted.message, "Cannot create"))
        && items == old(items) && total == old(total) && isLoading == old(isLoading)
        && trace == old(trace) + [PostLog(CreatePayload(formDate, old(form)))]
    {
      alert := None;
      if isCreating {
        return;
      }
      isCreating := true;
      trace := trace + [PostLog(CreatePayload(formDate, form))];
      match posted {
        case Ok(_) =>
          alert := Load(server, today);
          form := EmptyLogForm;
        case Err(msg) =>
          alert := Some(AlertText(msg, "Cannot create"));
      }
      isCreating := false;
    }

    /** `openEdit`: the modal opens on the entry with its fields filled in. */
    method OpenEdit(item: HealthLog, today: string, numberText: real -> string)
      modifies this`editing, this`editForm
      ensures editing == Some(item) && editForm == EditFormOf(item, today, numberText)
    {
      editing := Some(item);
      editForm := EditFormOf(item, today, numberText);
    }

    /** Closing the modal (the backdrop, the close button, Cancel). */
    method CloseEdit()
      modifies this`editing
      ensures editing == None
    {
      editing := None;
    }

    /** `updateItem`: ignored with no entry open or while an update is
        pending. Otherwise the edit form is sent; on success the modal closes
        and the list reloads; on failure the modal stays open with an alert. */
    method UpdateItem(put: Outcome<()>, server: LogServer, today: string) returns (alert: Option<string>)
      modifies this`isUpdating, this`editing, this`items, this`total, this`isLoading, this`trace
      ensures old(editing).None? || old(isUpdating) ==> alert == None && unchanged(this)
      ensures old(editing).Some? && !old(isUpdating) ==> !isUpdating
      ensures old(editing).Some? && !old(isUpdating) && put.Ok? ==>
        editing == None && Loaded(server, today, old(trace) + [PutLog(old(editing).value.id, UpdatePayload(editForm))], alert)
      ensures old(editing).Some? && !old(isUpdating) && put.Err? ==>
        && editing == old(editing) && alert == Some(AlertText(put.message, "Cannot update"))
        && items == old(items) && total == old(total) && isLoading == old(isLoading)
        && trace == old(trace) + [PutLog(old(editing).value.id, UpdatePayload(editForm))]
    {
      alert := None;
      if editing.None? || isUpdating {
        return;
      }
      isUpdating := true;
      trace := trace + [PutLog(editing.value.id, UpdatePayload(editForm))];
      match put {
        case Ok(_) =>
          editing := None;
          alert := Load(server, today);
        case Err(msg) =>
          alert := Some(AlertText(msg, "Cannot update"));
      }
      isUpdating := false;
    }

    /** `deleteItem(id)`: the row menu closes first; nothing more happens
        unless the user confirms; then the entry is deleted and the list
        reloaded, or an alert is shown. */
    method DeleteItem(id: string, confirmed: bool, deleted: Outcome<()>, server: LogServer, today: string)
      returns (alert: Option<string>)
      modifies this`menuOpenId, this`items, this`total, this`isLoading, this`trace
      ensures menuOpenId == None
      ensures !confirmed ==>
        alert == None && items == old(items) && total == old(total) && isLoading == old(isLoading) && trace == old(trace)
      ensures confirmed && deleted.Ok? ==> Loaded(server, today, old(trace) + [DeleteLog(id)], alert)
      ensures confirmed && deleted.Err? ==>
        && alert == Some(AlertText(deleted.message, "Cannot delete"))
        && items == old(items) && total == old(total) && isLoading == old(isLoading)
        && trace == old(trace) + [DeleteLog(id)]
    {
      menuOpenId := None;
      alert := None;
      if !confirmed {
        return;
      }
      trace := trace + [DeleteLog(id)];
      match deleted {
        case Ok(_) =>
          alert := Load(server, today);
        case Err(msg) =>
          alert := Some(AlertText(msg, "Cannot delete"));
      }
    }

    /** The menu button of a row. */
    method ToggleRowMenu(id: string)
      modifies this`menuOpenId
      ensures menuOpenId == LogTable.ToggleMenuId(old(menuOpenId), id)
      ensures old(menuOpenId) == Some(id) <==> menuOpenId == None
    {
      menuOpenId := LogTable.ToggleMenuId(menuOpenId, id);
    }

    /** Edit in a row menu: the menu closes and the entry opens in the modal. */
    method RowEdit(item: HealthLog, today: string, numberText: real -> string)
      modifies this`menuOpenId, this`editing, this`editForm
      ensures menuOpenId == None
      ensures editing == Some(item) && editForm == EditFormOf(item, today, numberText)
    {
      menuOpenId := None;
      OpenEdit(item, today, numberText);
    }

    /** `genDefaults` */
    method GenDefaults()
      modifies this`form
      ensures form == DefaultLogForm
    {
      form := DefaultLogForm;
    }

    /** `clearForm` */
    method ClearForm()
      modifies this`form
      ensures form == EmptyLogForm
    {
      form := EmptyLogForm;
    }
  }
}
