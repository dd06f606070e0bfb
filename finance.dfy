/** The finance page (`project/src/pages/Finance/FinanceDashboard.tsx`): its poll, its
    chart history, and the rules of its index and volatility cards and texts. */
module Finance {
  import opened Wrappers
  import opened Status
  import opened Api
  import Rolling

  datatype ChartPoint = ChartPoint(time: string, sp500: real, nasdaq: real, volatility: real)

  /** The chart point of a snapshot: the S&P 500 level, the NASDAQ level scaled down by
      three so that both fit one axis, and the volatility index. The page reads the first
      two indices, which every generated snapshot has. */
  function Project(d: FinanceData, time: string): (p: ChartPoint)
    requires |d.stockIndices| >= 2
    ensures p.time == time
    ensures p.sp500 == d.stockIndices[0].value
    ensures p.nasdaq * 3.0 == d.stockIndices[1].value
    ensures p.volatility == d.volatilityIndex
  {
    ChartPoint(time, d.stockIndices[0].value, d.stockIndices[1].value / 3.0, d.volatilityIndex)
  }

  function Abs(x: real): real {
    if x < 0.0 then -x else x
  }

  /** Stock-index card: a warning when the index moved by more than 2 percent either way. */
  function IndexSeverity(change: real): (s: Severity)
    ensures s != Critical
    ensures s == Warning <==> change > 2.0 || change < -2.0
  {
    if Abs(change) > 2.0 then Warning else Normal
  }

  /** Stock-index card: up for a positive change, down otherwise (zero included). */
  function IndexTrend(change: real): (tr: Trend)
    ensures tr != Neutral
    ensures tr == Up <==> change > 0.0
  {
    if change > 0.0 then Up else Down
  }

  /** The sign shown before a trending index's change: '+' exactly for positive changes;
      negative ones carry their own minus sign from the number's formatting. */
  function ChangePrefix(change: real): (p: string)
    ensures p == "+" <==> change > 0.0
    ensures p != "+" ==> p == ""
  {
    if change > 0.0 then "+" else ""
  }

  /** Volatility card: critical above 25, a warning in (20, 25], otherwise normal. */
  function VixSeverity(vix: real): (s: Severity)
    ensures s == Critical <==> vix > 25.0
    ensures s == Warning <==> 20.0 < vix <= 25.0
    ensures s == Normal <==> vix <= 20.0
  {
    if vix > 25.0 then Critical else if vix > 20.0 then Warning else Normal
  }

  /** Volatility card: up above 20, otherwise down. */
  function VixTrend(vix: real): (tr: Trend)
    ensures tr != Neutral
    ensures tr == Up <==> vix > 20.0
  {
    if vix > 20.0 then Up else Down
  }

  /** The word in the market-sentiment sentence. */
  function SentimentWord(vix: real): (w: string)
    ensures w == "heightened" <==> vix > 20.0
    ensures w != "heightened" ==> w == "moderate"
  {
    if vix > 20.0 then "heightened" else "moderate"
  }

  /** Whether the extreme-caution sentence follows it. */
  function CautionShown(vix: real): (b: bool)
    ensures b <==> vix > 25.0
  {
    vix > 25.0
  }

  /** The sentiment text follows the volatility card: heightened exactly when the card is
      not normal, extreme caution exactly when it is critical, and the arrow points up
      exactly when the card is not normal. */
  lemma SentimentFollowsCard(vix: real)
    ensures SentimentWord(vix) == "heightened" <==> VixSeverity(vix) != Normal
    ensures CautionShown(vix) <==> VixSeverity(vix) == Critical
    ensures VixTrend(vix) == Up <==> VixSeverity(vix) != Normal
  {
  }

  /** On generated data no index card is ever a warning (changes stay within 2 percent),
      the volatility card is never critical and the caution sentence never appears. */
  lemma GeneratedNeverAlarms(f: FinanceData)
    requires FinanceInRange(f)
    ensures forall i :: 0 <= i < |f.stockIndices| ==> IndexSeverity(f.stockIndices[i].change) == Normal
    ensures VixSeverity(f.volatilityIndex) != Critical
    ensures !CautionShown(f.volatilityIndex)
  {
  }

  /** The page's state: the latest snapshot, the chart history and the loading flag. */
  class Dashboard {
    var data: Option<FinanceData>
    var chart: seq<ChartPoint>
    var loading: bool

    ghost predicate Valid()
      reads this
    {
      |chart| <= Rolling.Capacity
    }

    constructor ()
      ensures Valid() && data == None && chart == [] && loading
    {
      data, chart, loading := None, [], true;
    }

    predicate ShowsCards()
      reads this
    {
      !loading && data.Some?
    }

    /** `fetchData` up to its await: raise the loading flag. */
    method BeginFetch()
      modifies this
      ensures loading && data == old(data) && chart == old(chart)
      ensures !ShowsCards()
    {
      loading := true;
    }

    /** `fetchData` after `apiService.getFinanceData()` resolved with `snapshot`. */
    method CompleteFetch(snapshot: FinanceData, time: string)
      requires Valid() && |snapshot.stockIndices| >= 2
      modifies this
      ensures Valid()
      ensures data == Some(snapshot) && !loading && ShowsCards()
      ensures chart == Rolling.Append(old(chart), Project(snapshot, time))
      ensures |chart| == Rolling.Min(|old(chart)| + 1, Rolling.Capacity)
      ensures |old(chart)| >= Rolling.Capacity ==> chart[..|chart| - 1] == old(chart)[1..]
      ensures |old(chart)| < Rolling.Capacity ==> chart[..|chart| - 1] == old(chart)
    {
      data := Some(snapshot);
      chart := Rolling.Append(chart, Project(snapshot, time));
      loading := false;
    }
  }
}
