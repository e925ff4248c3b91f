/**
 * One row of the library list (src/components/ArticleCard.tsx): the
 * relative creation-time label and the choice of what the row shows.
 *
 * Parsing a date string and reading the clock are calls into the platform;
 * the parser is a parameter (it yields the time in milliseconds, or `None`
 * for an invalid date) and the current time is a number of milliseconds.
 */
module ArticleCard {
  import opened Wrappers
  import opened MockData
  import Decimal

  const MinuteMs: int := 1000 * 60
  const HourMs: int := 1000 * 60 * 60
  const DayMs: int := 1000 * 60 * 60 * 24

  const JustNow: string := "刚刚"
  const MinutesAgo: string := "分钟前"
  const HoursAgo: string := "小时前"
  const DaysAgo: string := "天前"

  /** The position of the first space in `s`, or `|s|` when there is none. */
  function FirstSpace(s: string): (k: nat)
    ensures k <= |s|
    ensures forall i :: 0 <= i < k ==> s[i] != ' '
    ensures k < |s| ==> s[k] == ' '
    decreases |s|
  {
    if s == [] then 0
    else if s[0] == ' ' then 0
    else 1 + FirstSpace(s[1..])
  }

  /** `s.split(' ')[0]`: the text before the first space, or all of it. */
  function DatePart(s: string): (r: string)
    ensures r <= s && ' ' !in r
    ensures r == s || s[|r|] == ' '
  {
    s[..FirstSpace(s)]
  }

  /** `s.replace(' ', 'T')`: a string pattern replaces the first space only. */
  function IsoForm(s: string): (r: string)
    ensures |r| == |s|
    ensures ' ' !in s ==> r == s
    ensures ' ' in s ==> r[FirstSpace(s)] == 'T'
    ensures forall i :: 0 <= i < |s| && i != FirstSpace(s) ==> r[i] == s[i]
  {
    var k := FirstSpace(s);
    if k == |s| then s else s[..k] + "T" + s[k + 1..]
  }

  /** `formatCreateTime`: the age of a creation time in the largest whole unit. */
  function FormatCreateTime(createTime: string, parse: string -> Option<int>, now: int): (r: string)
  {
    match parse(IsoForm(createTime))
    case None => DatePart(createTime)
    case Some(t) =>
      var diff := now - t;
      if diff < 0 then DatePart(createTime)
      else
        var days := diff / DayMs;
        var hours := diff / HourMs;
        var minutes := diff / MinuteMs;
        if days > 0 then Decimal.NatToString(days) + DaysAgo
        else if hours > 0 then Decimal.NatToString(hours) + HoursAgo
        else if minutes > 0 then Decimal.NatToString(minutes) + MinutesAgo
        else JustNow
  }

  /**
   * The label by age: an unparsable or future time gives the date part; then
   * whole days from one day on, whole hours (1 to 23) from one hour on,
   * whole minutes (1 to 59) from one minute on, and "just now" below that.
   */
  lemma CreateTimeBuckets(createTime: string, parse: string -> Option<int>, now: int)
    ensures var r := FormatCreateTime(createTime, parse, now);
      match parse(IsoForm(createTime))
      case None => r == DatePart(createTime)
      case Some(t) =>
        var diff := now - t;
        && (diff < 0 ==> r == DatePart(createTime))
        && (diff >= DayMs ==> diff / DayMs >= 1 && r == Decimal.NatToString(diff / DayMs) + DaysAgo)
        && (HourMs <= diff < DayMs ==>
              1 <= diff / HourMs <= 23 && r == Decimal.NatToString(diff / HourMs) + HoursAgo)
        && (MinuteMs <= diff < HourMs ==>
              1 <= diff / MinuteMs <= 59 && r == Decimal.NatToString(diff / MinuteMs) + MinutesAgo)
        && (0 <= diff < MinuteMs ==> r == JustNow)
  {
    match parse(IsoForm(createTime))
    case None =>
    case Some(t) =>
      var diff := now - t;
      if diff >= DayMs {
        WholeUnits(diff, DayMs, 1, diff / DayMs + 1);
      } else if diff >= HourMs {
        WholeUnits(diff, DayMs, 0, 1);
        WholeUnits(diff, HourMs, 1, 24);
      } else if diff >= MinuteMs {
        WholeUnits(diff, DayMs, 0, 1);
        WholeUnits(diff, HourMs, 0, 1);
        WholeUnits(diff, MinuteMs, 1, 60);
      } else if diff >= 0 {
        WholeUnits(diff, DayMs, 0, 1);
        WholeUnits(diff, HourMs, 0, 1);
        WholeUnits(diff, MinuteMs, 0, 1);
      }
  }

  /** Whole units in a span that lies between `lo` and `hi` units. */
  lemma WholeUnits(x: int, unit: int, lo: int, hi: int)
    requires unit > 0 && lo * unit <= x < hi * unit
    ensures lo <= x / unit < hi
  {
    var q := x / unit;
    assert q * unit <= x < q * unit + unit;
    assert q < lo ==> (q + 1) * unit <= lo * unit;
    assert q >= hi ==> q * unit >= hi * unit;
  }

  /** What a row shows. */
  datatype Card = Card(
    category: string,
    title: string,
    meta: string,            // creation time label, or the duration
    titleHighlighted: bool,  // the row's article is the current one
    playingIndicator: bool)  // highlighted frame, pulsing dot and speaker icon

  /** The row for an article; `createTime` is used only when it is a non-empty string. */
  function RenderCard(a: Article, isCurrent: bool, isPlaying: bool, parse: string -> Option<int>, now: int): (c: Card)
    ensures c.playingIndicator <==> isCurrent && isPlaying
    ensures c.titleHighlighted == isCurrent
    ensures c.category == a.category && c.title == a.title
    ensures a.createTime.None? || a.createTime == Some("") ==> c.meta == a.duration
    ensures a.createTime.Some? && a.createTime.value != "" ==>
      c.meta == FormatCreateTime(a.createTime.value, parse, now)
  {
    var meta :=
      match a.createTime
      case Some(t) => if t != "" then FormatCreateTime(t, parse, now) else a.duration
      case None => a.duration;
    Card(a.category, a.title, meta, isCurrent, isCurrent && isPlaying)
  }

  /** Library articles have no creation time, so their rows show the duration. */
  lemma MockCardsShowDuration(isCurrent: bool, isPlaying: bool, parse: string -> Option<int>, now: int)
    ensures forall i :: 0 <= i < |MockLibrary| ==>
      RenderCard(MockLibrary[i], isCurrent, isPlaying, parse, now).meta == MockLibrary[i].duration
  {
    MockCreateTimes();
  }
}
