/** `dueDateBgClass`: the background of a task's due-date badge, by how many
    calendar days away the due date is. */
module DueColor {

  /** The due date as the function sees it: missing (`null`, `undefined` or
      `''`), unparsable, or parsed, with `diffDays` the rounded number of
      calendar days from today to the due day. */
  datatype DueDate = NoDue | Unparsable | DaysAway(diffDays: int)

  const OverdueClass := "bg-[rgb(240,102,51)] text-white"
  const SoonClass := "bg-red-100 text-red-800"
  const LaterClass := "bg-amber-100 text-amber-900"

  function DueDateBgClass(d: DueDate): (r: string)
    ensures r == "" <==> !d.DaysAway?
    ensures d.DaysAway? && d.diffDays <= 0 <==> r == OverdueClass
    ensures d.DaysAway? && 1 <= d.diffDays <= 3 <==> r == SoonClass
    ensures d.DaysAway? && d.diffDays > 3 <==> r == LaterClass
  {
    match d
    case NoDue => ""
    case Unparsable => ""
    case DaysAway(n) =>
      if n <= 0 then OverdueClass
      else if n <= 3 then SoonClass
      else LaterClass
  }

  /** How pressing a badge colour is: 2 overdue or today, 1 within three days, 0 later. */
  function Urgency(r: string): nat {
    if r == OverdueClass then 2 else if r == SoonClass then 1 else 0
  }

  /** Every parsed due date falls in exactly one of the three buckets. */
  lemma BucketsPartition(n: int)
    ensures DueDateBgClass(DaysAway(n)) in {OverdueClass, SoonClass, LaterClass}
    ensures OverdueClass != SoonClass && SoonClass != LaterClass && OverdueClass != LaterClass
  {
  }

  /** A due date further away never gets a more pressing colour. */
  lemma UrgencyNonIncreasing(n: int, m: int)
    requires n <= m
    ensures Urgency(DueDateBgClass(DaysAway(n))) >= Urgency(DueDateBgClass(DaysAway(m)))
  {
  }
}
