/** The random-number tool: a number from 1 to `num` is drawn every `time`
    seconds on a background colour that changes with every draw, while a
    stopwatch counts the seconds since Start. `Math.random()` is an input in
    `[0, 1)`; the two intervals are modelled by what they hold (the elapsed
    ticker and the draw period), and their ticks are methods. */
module RandomTool {
  import opened Outcome
  import opened Text

  const BgColors: seq<string> := [
    "bg-slate-900", "bg-indigo-900", "bg-emerald-900", "bg-rose-900",
    "bg-amber-800", "bg-teal-900", "bg-purple-900", "bg-cyan-900"]

  /** The eight background colours are different from each other. */
  lemma BgColorsDistinct()
    ensures forall i, j :: 0 <= i < j < |BgColors| ==> BgColors[i] != BgColors[j]
  {
  }

  /** `formatElapsed(seconds)`: minutes and seconds, each padded to two digits. */
  function FormatElapsed(seconds: nat): string {
    Pad2(seconds / 60) + ":" + Pad2(seconds % 60)
  }

  /** The stopwatch text reads back as the seconds it shows: the part after
      the last `:` is two digits below 60, the part before it the whole
      minutes; below 100 minutes it is exactly `MM:SS`. */
  lemma {:induction false} FormatElapsedReadsBack(seconds: nat)
    ensures |FormatElapsed(seconds)| >= 5
    ensures FormatElapsed(seconds)[|FormatElapsed(seconds)| - 3] == ':'
    ensures seconds < 6000 ==> |FormatElapsed(seconds)| == 5
    ensures AllDigits(FormatElapsed(seconds)[..|FormatElapsed(seconds)| - 3])
    ensures AllDigits(FormatElapsed(seconds)[|FormatElapsed(seconds)| - 2..])
    ensures ParseNat(FormatElapsed(seconds)[|FormatElapsed(seconds)| - 2..]) < 60
    ensures ParseNat(FormatElapsed(seconds)[..|FormatElapsed(seconds)| - 3]) * 60
          + ParseNat(FormatElapsed(seconds)[|FormatElapsed(seconds)| - 2..]) == seconds
  {
    var mm, ss := Pad2(seconds / 60), Pad2(seconds % 60);
    var r := FormatElapsed(seconds);
    assert |ss| == 2;
    assert r == mm + ":" + ss;
    assert r[..|r| - 3] == mm;
    assert r[|r| - 2..] == ss;
    ParsePad2(seconds / 60);
    ParsePad2(seconds % 60);
  }

  /** `Math.min(10, Math.max(1, x))`, the clamp of both `num` and `time`. */
  function Clamp(x: real): (c: real)
    ensures 1.0 <= c <= 10.0
    ensures 1.0 <= x <= 10.0 ==> c == x
    ensures x < 1.0 ==> c == 1.0
    ensures x > 10.0 ==> c == 10.0
  {
    if x < 1.0 then 1.0 else if x > 10.0 then 10.0 else x
  }

  /** A random input scaled by a positive length stays below that length. */
  lemma Scaled(rnd: real, n: real)
    requires 0.0 <= rnd < 1.0 && n > 0.0
    ensures 0.0 <= rnd * n < n
  {
    assert n - rnd * n == (1.0 - rnd) * n;
  }

  /** `Math.floor(Math.random() * n)` is a whole number in `[0, n)`. */
  lemma ScaledFloor(rnd: real, n: real)
    requires 0.0 <= rnd < 1.0 && n > 0.0
    ensures 0 <= (rnd * n).Floor && (rnd * n).Floor as real < n
  {
    Scaled(rnd, n);
  }

  /** A quotient `a / n` with `0 <= a < n` is in `[0, 1)` and scales back to `a`. */
  lemma DivBelowOne(a: real, n: real)
    requires 0.0 <= a < n
    ensures (a / n) * n == a
    ensures 0.0 <= a / n < 1.0
  {
  }

  /** `doRandom`'s draw `Math.floor(Math.random() * safeNum) + 1`. */
  function RandomValue(num: real, rnd: real): (v: int)
    requires 0.0 <= rnd < 1.0
    ensures 1 <= v <= 10
    ensures (v - 1) as real < Clamp(num)
  {
    var safe := Clamp(num);
    var p := rnd * safe;
    ScaledFloor(rnd, safe);
    p.Floor + 1
  }

  /** For a whole `num` from 1 to 10 the draw is one of `1..num`, and each of
      them is drawn for some random input. */
  lemma RandomValueRange(n: int, rnd: real, k: int)
    requires 1 <= n <= 10 && 0.0 <= rnd < 1.0 && 1 <= k <= n
    ensures 1 <= RandomValue(n as real, rnd) <= n
    ensures 0.0 <= (k - 1) as real / n as real < 1.0
    ensures RandomValue(n as real, (k - 1) as real / n as real) == k
  {
    var r := (k - 1) as real / n as real;
    DivBelowOne((k - 1) as real, n as real);
  }

  /** `BG_COLORS.filter((c) => c !== prev)` on any list of colours. */
  function Without(s: seq<string>, x: string): (r: seq<string>)
    ensures forall c :: c in r <==> c in s && c != x
  {
    if s == [] then []
    else if s[0] == x then Without(s[1..], x)
    else [s[0]] + Without(s[1..], x)
  }

  /** Filtering out a colour that is not there keeps the list. */
  lemma {:induction false} WithoutAbsent(s: seq<string>, x: string)
    requires x !in s
    ensures Without(s, x) == s
  {
    if s != [] {
      WithoutAbsent(s[1..], x);
    }
  }

  /** Filtering a list without repetitions removes at most one entry. */
  lemma {:induction false} WithoutLength(s: seq<string>, x: string)
    requires forall i, j :: 0 <= i < j < |s| ==> s[i] != s[j]
    ensures |Without(s, x)| >= |s| - 1
  {
    if s != [] {
      assert forall i, j :: 0 <= i < j < |s[1..]| ==> s[1..][i] == s[i + 1] && s[1..][j] == s[j + 1];
      if s[0] == x {
        assert x !in s[1..];
        WithoutAbsent(s[1..], x);
      } else {
        WithoutLength(s[1..], x);
      }
    }
  }

  /** At least seven colours remain whichever one is left out. */
  lemma OthersLength(prev: string)
    ensures |Without(BgColors, prev)| >= 7
  {
    BgColorsDistinct();
    WithoutLength(BgColors, prev);
  }

  /** `otherColors[Math.floor(Math.random() * otherColors.length)] ?? prev`
      for any list of colours. */
  function PickOther(colors: seq<string>, prev: string, rnd: real): (r: string)
    requires 0.0 <= rnd < 1.0
    ensures Without(colors, prev) != [] ==> r in colors && r != prev
    ensures Without(colors, prev) == [] ==> r == prev
  {
    var others := Without(colors, prev);
    var i := (rnd * |others| as real).Floor;
    assert others != [] ==> 0 <= i < |others| by {
      if others != [] {
        ScaledFloor(rnd, |others| as real);
      }
    }
    if 0 <= i < |others| then others[i] else prev
  }

  /** `pickRandomBg(prev)`: never the previous colour. */
  function PickRandomBg(prev: string, rnd: real): (r: string)
    requires 0.0 <= rnd < 1.0
    ensures r in BgColors && r != prev
  {
    OthersLength(prev);
    PickOther(BgColors, prev, rnd)
  }

  /** Each colour other than `prev` is picked for some random input. */
  lemma PickOtherReachable(colors: seq<string>, prev: string, c: string)
    requires c in colors && c != prev
    ensures exists rnd: real :: 0.0 <= rnd < 1.0 && PickOther(colors, prev, rnd) == c
  {
    var others := Without(colors, prev);
    var i :| 0 <= i < |others| && others[i] == c;
    var n := |others| as real;
    var rnd := i as real / n;
    DivBelowOne(i as real, n);
    assert (rnd * n).Floor == i;
    assert PickOther(colors, prev, rnd) == c;
  }

  /** Every other colour can come next. */
  lemma EveryOtherColourReachable(prev: string, c: string)
    requires c in BgColors && c != prev
    ensures exists rnd: real :: 0.0 <= rnd < 1.0 && PickRandomBg(prev, rnd) == c
  {
    PickOtherReachable(BgColors, prev, c);
    var rnd: real :| 0.0 <= rnd < 1.0 && PickOther(BgColors, prev, rnd) == c;
    assert PickRandomBg(prev, rnd) == c;
  }

  /** The draw period of the random interval, in milliseconds. */
  function IntervalMs(time: real): (ms: real)
    ensures 1000.0 <= ms <= 10000.0
    ensures 1.0 <= time <= 10.0 ==> ms == time * 1000.0
  {
    Clamp(time) * 1000.0
  }

  class RandomPage {
    var num: real
    var time: real
    var current: Option<int>
    var running: bool
    var elapsed: nat
    var bgClass: string
    /** The period of the draw interval while one is set. */
    var randomInterval: Option<real>
    /** Whether the one-second stopwatch interval is set. */
    var timerInterval: bool

    /** Both intervals are set exactly while the tool runs, and the draw
        period is within 1 to 10 seconds. */
    predicate Valid()
      reads this`running, this`randomInterval, this`timerInterval
    {
      && (running <==> randomInterval.Some?)
      && (running <==> timerInterval)
      && (randomInterval.Some? ==> 1000.0 <= randomInterval.value <= 10000.0)
    }

    constructor ()
      ensures Valid()
      ensures num == 5.0 && time == 1.0 && current == None && !running && elapsed == 0
      ensures bgClass == "bg-slate-900" && randomInterval == None && !timerInterval
    {
      num := 5.0;
      time := 1.0;
      current := None;
      running := false;
      elapsed := 0;
      bgClass := "bg-slate-900";
      randomInterval := None;
      timerInterval := false;
    }

    /** `doRandom`: a new number and a different colour. */
    method DoRandom(rndValue: real, rndColour: real)
      requires 0.0 <= rndValue < 1.0 && 0.0 <= rndColour < 1.0
      modifies this`current, this`bgClass
      ensures current == Some(RandomValue(num, rndValue))
      ensures bgClass == PickRandomBg(old(bgClass), rndColour) && bgClass != old(bgClass)
    {
      current := Some(RandomValue(num, rndValue));
      bgClass := PickRandomBg(bgClass, rndColour);
    }

    /** `clearAll`: both intervals are cleared. */
    method ClearAll()
      modifies this`randomInterval, this`timerInterval
      ensures randomInterval == None && !timerInterval
    {
      randomInterval := None;
      timerInterval := false;
    }

    /** `start`: nothing while running; otherwise the stopwatch restarts at
        0, a first number is drawn and both intervals are set. */
    method Start(rndValue: real, rndColour: real)
      requires Valid()
      requires 0.0 <= rndValue < 1.0 && 0.0 <= rndColour < 1.0
      modifies this`running, this`elapsed, this`current, this`bgClass, this`randomInterval, this`timerInterval
      ensures Valid()
      ensures old(running) ==> unchanged(this)
      ensures !old(running) ==>
        && running && elapsed == 0
        && current == Some(RandomValue(num, rndValue))
        && bgClass == PickRandomBg(old(bgClass), rndColour)
        && timerInterval && randomInterval == Some(IntervalMs(time))
    {
      if running {
        return;
      }
      ClearAll();
      elapsed := 0;
      running := true;
      DoRandom(rndValue, rndColour);
      timerInterval := true;
      randomInterval := Some(IntervalMs(time));
    }

    /** `stop`: not running, both intervals cleared; the number, the colour
        and the elapsed time stay on screen. */
    method Stop()
      modifies this`running, this`randomInterval, this`timerInterval
      ensures Valid()
      ensures !running && randomInterval == None && !timerInterval
    {
      running := false;
      ClearAll();
    }

    /** A tick of the stopwatch interval. */
    method TickElapsed()
      requires timerInterval
      modifies this`elapsed
      ensures elapsed == old(elapsed) + 1
    {
      elapsed := elapsed + 1;
    }

    /** A tick of the draw interval. */
    method TickRandom(rndValue: real, rndColour: real)
      requires randomInterval.Some?
      requires 0.0 <= rndValue < 1.0 && 0.0 <= rndColour < 1.0
      modifies this`current, this`bgClass
      ensures current == Some(RandomValue(num, rndValue))
      ensures bgClass == PickRandomBg(old(bgClass), rndColour) && bgClass != old(bgClass)
    {
      DoRandom(rndValue, rndColour);
    }

    /** The Num input, disabled while running. */
    method SetNum(n: real)
      requires !running
      modifies this`num
      ensures num == n
    {
      num := n;
    }

    /** The Time input, disabled while running. */
    method SetTime(t: real)
      requires !running
      modifies this`time
      ensures time == t
    {
      time := t;
    }
  }
}
