/** `priorityBgText`: the background and text colour of a priority badge. */
module PriorityColor {
  import opened TodoTypes

  /** `s` ends with `suffix`. */
  predicate EndsWith(s: string, suffix: string) {
    |suffix| <= |s| && s[|s| - |suffix|..] == suffix
  }

  /** The switch over the priority's string value; `'low'` and any other value share the last case. */
  function PriorityBgText(priority: string): (r: string)
    ensures priority == "critical" <==> r == "bg-red-600 text-white"
    ensures priority == "urgent" <==> r == "bg-red-100 text-gray-900"
    ensures priority == "high" <==> r == "bg-orange-200 text-gray-900"
    ensures priority == "normal" <==> r == "bg-green-200 text-gray-900"
    ensures priority !in {"critical", "urgent", "high", "normal"} <==> r == "bg-green-100 text-gray-900"
  {
    match priority
    case "critical" => "bg-red-600 text-white"
    case "urgent" => "bg-red-100 text-gray-900"
    case "high" => "bg-orange-200 text-gray-900"
    case "normal" => "bg-green-200 text-gray-900"
    case _ => "bg-green-100 text-gray-900"
  }

  /** Critical is the only priority, and the only value at all, shown with white text. */
  lemma OnlyCriticalIsWhite(priority: string)
    ensures EndsWith(PriorityBgText(priority), "text-white") <==> priority == "critical"
  {
  }

  /** The five priorities get five different badges. */
  lemma PriorityClassesDistinct(p: Priority, q: Priority)
    requires p != q
    ensures PriorityBgText(PriorityName(p)) != PriorityBgText(PriorityName(q))
  {
  }

  /** A value outside the enumeration is shown like `low`. */
  lemma UnknownShownAsLow(priority: string)
    requires forall p: Priority :: priority != PriorityName(p)
    ensures PriorityBgText(priority) == PriorityBgText(PriorityName(Low))
  {
    assert priority != PriorityName(Critical) && priority != PriorityName(Urgent);
    assert priority != PriorityName(High) && priority != PriorityName(Normal);
  }
}
