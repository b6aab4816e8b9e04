/** The mobile health-log list (`LogListMobile`). Its `shorten`, `wdAbbr`,
    `kcalBgClass`, `goutBgClass`, page count, showing range and pager
    updaters are line-for-line copies of the desktop table's, and are the
    members of `LogTable`; what it adds is the `Chip` of each entry field. */
module LogListMobile {
  import opened Outcome
  import opened Text
  import LogTable

  /** The value a chip receives: a text field, or a number (calories, gout
      treatment) after `?? ''`, or nothing at all. */
  datatype ChipValue = Absent | Str(s: string) | Num(x: real)

  /** `String(value || '')`: a falsy value (missing, `''`, `0`) shows as empty.
      `numberText` is the engine's `String(number)`. */
  function ChipText(v: ChipValue, numberText: real -> string): (t: string)
    ensures v.Absent? ==> t == ""
    ensures v.Str? ==> t == v.s
    ensures v == Num(0.0) ==> t == ""
    ensures v.Num? && v.x != 0.0 ==> t == numberText(v.x)
  {
    match v
    case Absent => ""
    case Str(s) => s
    case Num(x) => if x == 0.0 then "" else numberText(x)
  }

  /** `String(value || '').trim().length > 0`: whether the chip is shown green. */
  predicate ChipFilled(v: ChipValue, numberText: real -> string) {
    |Trim(ChipText(v, numberText))| > 0
  }

  /** The chip's class: `bg-green-300` when filled, otherwise `bg-white`. */
  function ChipClass(v: ChipValue, numberText: real -> string): (c: string)
    ensures c == "bg-green-300" <==> ChipFilled(v, numberText)
  {
    if ChipFilled(v, numberText) then "bg-green-300" else "bg-white"
  }

  /** The text in a chip: the value's text shortened to 20 characters. */
  function ChipLabel(v: ChipValue, numberText: real -> string): (r: string)
    ensures |r| <= 21
    ensures |ChipText(v, numberText)| <= 20 ==> r == ChipText(v, numberText)
    ensures |ChipText(v, numberText)| > 20 ==> r == ChipText(v, numberText)[..20] + "…"
  {
    LogTable.Shorten(Some(ChipText(v, numberText)), 20)
  }

  /** A text chip is filled exactly when the text is not all white space; a
      missing value and a zero are never filled, whatever `String` prints. */
  lemma ChipFilledCases(s: string, numberText: real -> string)
    ensures ChipFilled(Str(s), numberText) <==> exists i :: 0 <= i < |s| && !IsSpace(s[i])
    ensures !ChipFilled(Absent, numberText)
    ensures !ChipFilled(Num(0.0), numberText)
  {
    TrimEmptyIffBlank(s);
  }
}
