/** The "Last updated" indicator (`project/src/components/RefreshIndicator.tsx`): how long
    ago a timestamp was, in whole seconds under a minute, whole minutes under an hour and
    whole hours beyond. The clock reading is a parameter in milliseconds, and the parsed
    timestamp is `None` when the text is not a date (JavaScript's `NaN`). */
module RefreshIndicator {
  import opened Wrappers
  import opened Decimal

  /** The unit the indicator chose, with its count; `NotANumber` is what an unparsable
      timestamp gives, since every comparison with `NaN` is false. */
  datatype Ago = Seconds(n: int) | Minutes(n: int) | Hours(n: int) | NotANumber

  /** The whole seconds elapsed, rounded down (`Math.floor` of a quotient by 1000). */
  function ElapsedSeconds(now: int, stamp: int): int {
    (now - stamp) / 1000
  }

  /** The unit and count `getTimeAgo` prints. */
  function Bucket(now: int, stamp: Option<int>): (a: Ago)
    ensures stamp.None? <==> a.NotANumber?
    ensures stamp.Some? ==>
              var s := ElapsedSeconds(now, stamp.value);
              && (a.Seconds? <==> s < 60)
              && (a.Minutes? <==> 60 <= s < 3600)
              && (a.Hours? <==> s >= 3600)
  {
    if stamp.None? then NotANumber
    else
      var seconds := ElapsedSeconds(now, stamp.value);
      if seconds < 60 then Seconds(seconds)
      else
        var minutes := seconds / 60;
        if minutes < 60 then Minutes(minutes) else Hours(minutes / 60)
  }

  /** The count never overstates the elapsed time and misses it by less than one unit. */
  lemma BucketBracketsElapsed(now: int, stamp: int)
    ensures var a, ms := Bucket(now, Some(stamp)), now - stamp;
      match a
      case Seconds(n) => n < 60 && n * 1000 <= ms < (n + 1) * 1000
      case Minutes(n) => 1 <= n < 60 && n * 60000 <= ms < (n + 1) * 60000
      case Hours(n) => 1 <= n && n * 3600000 <= ms < (n + 1) * 3600000
      case NotANumber => false
  {
    var ms := now - stamp;
    var s := ms / 1000;
    assert s * 1000 <= ms < s * 1000 + 1000;
    if s >= 60 {
      var m := s / 60;
      assert m * 60 <= s < m * 60 + 60;
      assert m * 60000 <= ms < (m + 1) * 60000;
      if m >= 60 {
        var h := m / 60;
        assert h * 60 <= m < h * 60 + 60;
        assert h * 3600000 <= ms < (h + 1) * 3600000;
      }
    }
  }

  /** The printed form: the count followed by "s ago", "m ago" or "h ago". */
  function Render(a: Ago): (text: string)
    ensures a.NotANumber? ==> text == "NaNh ago"
    ensures !a.NotANumber? ==> text == IntToString(a.n) + [Unit(a)] + " ago"
  {
    match a
    case Seconds(n) => IntToString(n) + "s ago"
    case Minutes(n) => IntToString(n) + "m ago"
    case Hours(n) => IntToString(n) + "h ago"
    case NotANumber => "NaNh ago"
  }

  function Unit(a: Ago): char
    requires !a.NotANumber?
  {
    match a
    case Seconds(_) => 's'
    case Minutes(_) => 'm'
    case Hours(_) => 'h'
  }

  /** `getTimeAgo`: the text always ends in " ago", preceded by the unit that matches
      the elapsed time; an unparsable timestamp falls through to the hours case. */
  function TimeAgo(now: int, stamp: Option<int>): (text: string)
    ensures |text| >= 5 && text[|text| - 4..] == " ago"
    ensures stamp.None? ==> text == "NaNh ago"
    ensures stamp.Some? ==>
              var s, unit := ElapsedSeconds(now, stamp.value), text[|text| - 5];
              && (unit == 's' <==> s < 60)
              && (unit == 'm' <==> 60 <= s < 3600)
              && (unit == 'h' <==> s >= 3600)
  {
    Render(Bucket(now, stamp))
  }

  /** Different readings never print alike: the text determines the unit and the count. */
  lemma RenderInjective(a: Ago, b: Ago)
    requires !a.NotANumber? && !b.NotANumber?
    requires Render(a) == Render(b)
    ensures a == b
  {
    var ta, tb := Render(a), Render(b);
    var sa, sb := IntToString(a.n), IntToString(b.n);
    assert ta == sa + [Unit(a)] + " ago" && tb == sb + [Unit(b)] + " ago";
    assert |sa| == |sb|;
    assert sa == ta[..|sa|] == tb[..|sb|] == sb;
    assert Unit(a) == ta[|sa|] == tb[|sb|] == Unit(b);
    IntRoundTrip(a.n);
    IntRoundTrip(b.n);
  }
}
