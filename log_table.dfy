/** The helpers and the pager of the desktop health-log table
    (`LogTableDesktop`): text shortening, weekday abbreviations, the calorie
    and gout colour buckets, the page count, the "Showing a–b of n" range,
    the Prev/Next updaters and the view and page-size selectors. */
module LogTable {
  import opened Outcome

  /** `shorten(s, n)`: missing or empty text gives `''`; text longer than `n`
      is cut to its first `n` characters followed by an ellipsis. */
  function Shorten(s: Option<string>, n: nat): (r: string)
    ensures s.None? || s.value == [] ==> r == []
    ensures s.Some? && |s.value| <= n ==> r == s.value
    ensures s.Some? && |s.value| > n ==> |r| == n + 1 && r == s.value[..n] + "…"
  {
    if s.None? || s.value == [] then []
    else if |s.value| > n then s.value[..n] + "…"
    else s.value
  }

  /** Shortened text is never longer than `n + 1` and always a prefix of the
      input, up to the added ellipsis. */
  lemma ShortenBounds(s: string, n: nat)
    ensures |Shorten(Some(s), n)| <= n + 1
    ensures |Shorten(Some(s), n)| <= |s|
    ensures Shorten(Some(s), n) == s || Shorten(Some(s), n)[..n] == s[..n]
  {
  }

  const WeekdayShort: seq<string> := ["Sun", "Mon", "Tue", "Wed", "Thu", "Fri", "Sat"]
  const WeekdayAbbr: seq<string> := ["Su", "Mo", "Tu", "We", "Th", "Fr", "Sa"]

  /** `wdAbbr(w)`: a short English weekday name becomes its first two letters;
      any other text is returned as it is. */
  function WdAbbr(w: string): (r: string)
    ensures w in WeekdayShort ==> |r| == 2 && r == w[..2]
    ensures w !in WeekdayShort ==> r == w
  {
    match w
    case "Sun" => "Su"
    case "Mon" => "Mo"
    case "Tue" => "Tu"
    case "Wed" => "We"
    case "Thu" => "Th"
    case "Fri" => "Fr"
    case "Sat" => "Sa"
    case _ => w
  }

  /** The seven abbreviations are different, so the days stay distinguishable. */
  lemma WdAbbrDistinct(i: int, j: int)
    requires 0 <= i < 7 && 0 <= j < 7 && i != j
    ensures WdAbbr(WeekdayShort[i]) == WeekdayAbbr[i]
    ensures WdAbbr(WeekdayShort[i]) != WdAbbr(WeekdayShort[j])
  {
  }

  const KcalShades: seq<string> := ["bg-white", "bg-orange-300", "bg-orange-400", "bg-orange-500", "bg-orange-600", "bg-orange-800"]

  /** `kcalBgClass(k)`: thresholds 1000, 1200, 1600, 2000 and 2500 kcal. */
  function KcalBgClass(k: Option<real>): (r: string)
    ensures r in KcalShades
    ensures r == "bg-white" <==> k.None? || k.value < 1000.0
    ensures r == "bg-orange-800" <==> k.Some? && k.value >= 2500.0
    ensures r == "bg-orange-600" <==> k.Some? && 2000.0 <= k.value < 2500.0
    ensures r == "bg-orange-500" <==> k.Some? && 1600.0 <= k.value < 2000.0
    ensures r == "bg-orange-400" <==> k.Some? && 1200.0 <= k.value < 1600.0
    ensures r == "bg-orange-300" <==> k.Some? && 1000.0 <= k.value < 1200.0
  {
    if k.None? then "bg-white"
    else if k.value >= 2500.0 then "bg-orange-800"
    else if k.value >= 2000.0 then "bg-orange-600"
    else if k.value >= 1600.0 then "bg-orange-500"
    else if k.value >= 1200.0 then "bg-orange-400"
    else if k.value >= 1000.0 then "bg-orange-300"
    else "bg-white"
  }

  /** The position of a calorie colour in the scale, 0 for white. */
  function KcalRank(c: string): nat {
    if c == "bg-orange-800" then 5
    else if c == "bg-orange-600" then 4
    else if c == "bg-orange-500" then 3
    else if c == "bg-orange-400" then 2
    else if c == "bg-orange-300" then 1
    else 0
  }

  /** More calories never give a lighter colour. */
  lemma KcalMonotone(a: real, b: real)
    requires a <= b
    ensures KcalRank(KcalBgClass(Some(a))) <= KcalRank(KcalBgClass(Some(b)))
  {
  }

  const GoutShades: seq<string> := [
    "bg-green-100", "bg-green-200", "bg-green-300", "bg-green-400",
    "bg-green-500", "bg-green-600", "bg-green-700", "bg-green-800"]

  /** `Math.max(0, Math.min(8, Math.floor(g)))` */
  function GoutLevel(g: real): (v: int)
    ensures 0 <= v <= 8
    ensures 1.0 <= g < 9.0 ==> v == g.Floor
    ensures g < 1.0 ==> v == 0
    ensures g >= 8.0 ==> v == 8
  {
    if g.Floor > 8 then 8 else if g.Floor < 0 then 0 else g.Floor
  }

  /** `goutBgClass(g)`: white for a missing value or a level of 0, otherwise
      the shade of that level (the index `v - 1` is always in range). */
  function GoutBgClass(g: Option<real>): (r: string)
    ensures g.None? || g.value < 1.0 ==> r == "bg-white"
    ensures g.Some? && g.value >= 1.0 ==> r == GoutShades[GoutLevel(g.value) - 1]
  {
    if g.None? then "bg-white"
    else
      var v := GoutLevel(g.value);
      if v == 0 then "bg-white" else GoutShades[v - 1]
  }

  /** A larger gout value never gives a lighter shade, and every value from 8 up gets the darkest. */
  lemma GoutMonotone(a: real, b: real)
    requires a <= b
    ensures GoutLevel(a) <= GoutLevel(b)
    ensures b >= 8.0 ==> GoutBgClass(Some(b)) == "bg-green-800"
  {
    assert a.Floor <= b.Floor;
  }

  /** `Math.ceil(total / pageSize)` on integers. */
  function CeilDiv(total: int, pageSize: int): (c: int)
    requires pageSize > 0
    ensures c * pageSize >= total
    ensures (c - 1) * pageSize < total
  {
    var q := (-total) / pageSize;
    assert q * pageSize <= -total < q * pageSize + pageSize;
    -q
  }

  /** `maxPage = Math.max(1, Math.ceil(total / pageSize))` */
  function MaxPage(total: int, pageSize: int): (m: int)
    requires pageSize > 0
    ensures m >= 1
    ensures m * pageSize >= total
    ensures total > 0 ==> (m - 1) * pageSize < total
    ensures total <= pageSize ==> m == 1
  {
    var c := CeilDiv(total, pageSize);
    assert total <= pageSize ==> c <= 1 by {
      if total <= pageSize && c > 1 {
        MulMonotone(1, c - 1, pageSize);
      }
    }
    if c > 1 then c else 1
  }

  /** The first row number of "Showing a–b of n". */
  function ShowingFrom(page: int, pageSize: int, total: int): int {
    if (page - 1) * pageSize + 1 < total then (page - 1) * pageSize + 1 else total
  }

  /** The last row number of "Showing a–b of n". */
  function ShowingTo(page: int, pageSize: int, total: int): int {
    if page * pageSize < total then page * pageSize else total
  }

  /** On any page from 1 to `maxPage` of a non-empty list the range is
      non-empty, within `1..total`, and holds at most one page of rows. */
  lemma ShowingRange(page: int, pageSize: int, total: int)
    requires pageSize > 0 && total > 0 && 1 <= page <= MaxPage(total, pageSize)
    ensures 1 <= ShowingFrom(page, pageSize, total) <= ShowingTo(page, pageSize, total) <= total
    ensures ShowingTo(page, pageSize, total) - ShowingFrom(page, pageSize, total) < pageSize
    ensures ShowingFrom(page, pageSize, total) == (page - 1) * pageSize + 1
  {
    var m := MaxPage(total, pageSize);
    assert (page - 1) * pageSize <= (m - 1) * pageSize by {
      MulMonotone(page - 1, m - 1, pageSize);
    }
    assert 0 <= (page - 1) * pageSize by {
      MulMonotone(0, page - 1, pageSize);
    }
    assert page * pageSize == (page - 1) * pageSize + pageSize;
  }

  lemma MulMonotone(a: int, b: int, k: int)
    requires a <= b && k >= 0
    ensures a * k <= b * k
  {
    assert b * k - a * k == (b - a) * k;
  }

  /** Both ends of the range are capped at `total`, whatever the page. */
  lemma ShowingCapped(page: int, pageSize: int, total: int)
    ensures ShowingFrom(page, pageSize, total) <= total
    ensures ShowingTo(page, pageSize, total) <= total
  {
  }

  /** The Prev updater `p => Math.max(p - 1, 1)`. */
  function PrevPage(p: int): (r: int)
    ensures r >= 1
    ensures p > 1 ==> r == p - 1
    ensures p <= 1 ==> r == 1
  {
    if p - 1 > 1 then p - 1 else 1
  }

  /** The Next updater `p => Math.min(p + 1, maxPage)`. */
  function NextPage(p: int, maxPage: int): (r: int)
    ensures r <= maxPage
    ensures p < maxPage ==> r == p + 1
    ensures p >= maxPage ==> r == maxPage
  {
    if p + 1 < maxPage then p + 1 else maxPage
  }

  predicate PrevDisabled(page: int) {
    page <= 1
  }

  predicate NextDisabled(page: int, maxPage: int, total: int) {
    page >= maxPage || total == 0
  }

  /** Prev and Next keep a page in `1..maxPage` there, and an enabled button
      moves exactly one page. */
  lemma PagerStaysInRange(p: int, maxPage: int, total: int)
    requires 1 <= p <= maxPage
    ensures 1 <= PrevPage(p) <= maxPage && 1 <= NextPage(p, maxPage) <= maxPage
    ensures !PrevDisabled(p) ==> PrevPage(p) == p - 1
    ensures !NextDisabled(p, maxPage, total) ==> NextPage(p, maxPage) == p + 1
  {
  }

  /** The view, page and page size a table controls. */
  datatype Pager<Mode> = Pager(mode: Mode, page: int, pageSize: int)

  /** The view selector: `setPage(1)` then `setFilterMode(v)`. */
  function OnViewChange<Mode>(p: Pager<Mode>, v: Mode): (r: Pager<Mode>)
    ensures r.page == 1 && r.mode == v && r.pageSize == p.pageSize
  {
    p.(mode := v, page := 1)
  }

  /** The page-size selector: `setPage(1)` then `setPageSize(n)`. */
  function OnPageSizeChange<Mode>(p: Pager<Mode>, n: int): (r: Pager<Mode>)
    ensures r.page == 1 && r.pageSize == n && r.mode == p.mode
  {
    p.(pageSize := n, page := 1)
  }

  /** The row-menu button `v => v === id ? null : id`: at most one row menu is open. */
  function ToggleMenuId(v: Option<string>, id: string): (r: Option<string>)
    ensures v == Some(id) ==> r == None
    ensures v != Some(id) ==> r == Some(id)
  {
    if v == Some(id) then None else Some(id)
  }

  /** Pressing the same row's button twice brings back a closed menu. */
  lemma ToggleMenuTwice(v: Option<string>, id: string)
    requires v != Some(id)
    ensures ToggleMenuId(ToggleMenuId(v, id), id) == None
  {
  }
}
