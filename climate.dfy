/** The climate page (`project/src/pages/Climate/ClimateDashboard.tsx`): its poll, its
    chart history, and the severity and trend rules of its cards. */
module Climate {
  import opened Wrappers
  import opened Status
  import opened Api
  import Rolling

  datatype ChartPoint = ChartPoint(time: string, temperature: real, co2: real, rainfall: real)

  /** The point a snapshot adds to the charts, labelled with the local clock time. */
  function Project(d: ClimateData, time: string): (p: ChartPoint)
    ensures p.time == time
    ensures p.temperature == d.temperature && p.co2 == d.co2Level && p.rainfall == d.rainfall
  {
    ChartPoint(time, d.temperature, d.co2Level, d.rainfall)
  }

  /** Temperature card: a warning above 18 degrees, never critical. */
  function TemperatureSeverity(t: real): (s: Severity)
    ensures s != Critical
    ensures s == Warning <==> t > 18.0
  {
    if t > 18.0 then Warning else Normal
  }

  /** Temperature card: up above the 17-degree historical average, otherwise down. */
  function TemperatureTrend(t: real): (tr: Trend)
    ensures tr != Neutral
    ensures tr == Up <==> t > 17.0
  {
    if t > 17.0 then Up else Down
  }

  /** CO2 card: critical above 420 ppm, a warning in (415, 420], otherwise normal. */
  function Co2Severity(c: real): (s: Severity)
    ensures s == Critical <==> c > 420.0
    ensures s == Warning <==> 415.0 < c <= 420.0
    ensures s == Normal <==> c <= 415.0
  {
    if c > 420.0 then Critical else if c > 415.0 then Warning else Normal
  }

  /** CO2 card: up above 415 ppm, otherwise neutral. */
  function Co2Trend(c: real): (tr: Trend)
    ensures tr != Down
    ensures tr == Up <==> c > 415.0
  {
    if c > 415.0 then Up else Neutral
  }

  /** The cards agree with their arrows: a warm warning always points up, and the CO2
      arrow points up exactly when the CO2 card is not normal. */
  lemma CardsAgreeWithTrends(t: real, c: real)
    ensures TemperatureSeverity(t) == Warning ==> TemperatureTrend(t) == Up
    ensures Co2Severity(c) != Normal <==> Co2Trend(c) == Up
  {
  }

  /** On generated data the one alert and the temperature card say the same thing, and the
      alert card shows that severity too. */
  lemma GeneratedAlertMatchesCard(d: ClimateDraws, now: int)
    ensures var c := GenerateClimateData(d, now);
            && c.alerts[0].severity == TemperatureSeverity(c.temperature)
            && AlertsSeverity(c.alerts) == TemperatureSeverity(c.temperature)
  {
    var c := GenerateClimateData(d, now);
    assert AlertsSeverity(c.alerts) == c.alerts[0].severity;
  }

  /** The page's state: the latest snapshot, the chart history and the loading flag. */
  class Dashboard {
    var data: Option<ClimateData>
    var chart: seq<ChartPoint>
    var loading: bool

    ghost predicate Valid()
      reads this
    {
      |chart| <= Rolling.Capacity
    }

    constructor ()
      ensures Valid() && data == None && chart == [] && loading
    {
      data, chart, loading := None, [], true;
    }

    /** The page shows its cards only once it holds a snapshot and is not loading. */
    predicate ShowsCards()
      reads this
    {
      !loading && data.Some?
    }

    /** `fetchData` up to its await: raise the loading flag. */
    method BeginFetch()
      modifies this
      ensures loading && data == old(data) && chart == old(chart)
      ensures !ShowsCards()
    {
      loading := true;
    }

    /** `fetchData` after `apiService.getClimateData()` resolved with `snapshot`: store it,
        append its point to the chart keeping the newest ten, drop the loading flag. */
    method CompleteFetch(snapshot: ClimateData, time: string)
      requires Valid()
      modifies this
      ensures Valid()
      ensures data == Some(snapshot) && !loading && ShowsCards()
      ensures chart == Rolling.Append(old(chart), Project(snapshot, time))
      ensures |chart| == Rolling.Min(|old(chart)| + 1, Rolling.Capacity)
      ensures chart[|chart| - 1].temperature == snapshot.temperature
      ensures |old(chart)| < Rolling.Capacity ==> chart[..|chart| - 1] == old(chart)
    {
      data := Some(snapshot);
      chart := Rolling.Append(chart, Project(snapshot, time));
      loading := false;
    }
  }
}
