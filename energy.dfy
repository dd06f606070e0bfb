/** The energy page (`project/src/pages/Energy/EnergyDashboard.tsx`): its poll, its chart
    history, the rules of its cards, the energy-mix split and the market text. */
module Energy {
  import opened Wrappers
  import opened Status
  import opened Api
  import Rolling

  datatype ChartPoint = ChartPoint(time: string, generation: real, renewable: real, oil: real, gas: real)

  /** The chart point of a snapshot; generation is charted in thousands. */
  function Project(d: EnergyData, time: string): (p: ChartPoint)
    ensures p.time == time
    ensures p.generation * 1000.0 == d.globalGeneration
    ensures p.renewable == d.renewablePercentage && p.oil == d.oilPrice && p.gas == d.gasPrice
  {
    ChartPoint(time, d.globalGeneration / 1000.0, d.renewablePercentage, d.oilPrice, d.gasPrice)
  }

  /** Renewable card: normal above 30 percent, otherwise a warning. */
  function RenewableSeverity(pct: real): (s: Severity)
    ensures s != Critical
    ensures s == Normal <==> pct > 30.0
  {
    if pct > 30.0 then Normal else Warning
  }

  /** Renewable card: up above 30 percent, otherwise neutral. */
  function RenewableTrend(pct: real): (tr: Trend)
    ensures tr != Down
    ensures tr == Up <==> pct > 30.0
  {
    if pct > 30.0 then Up else Neutral
  }

  /** Oil card: a warning above 85 dollars a barrel. */
  function OilSeverity(price: real): (s: Severity)
    ensures s != Critical
    ensures s == Warning <==> price > 85.0
  {
    if price > 85.0 then Warning else Normal
  }

  /** Oil card: up above 80 dollars, otherwise down. */
  function OilTrend(price: real): (tr: Trend)
    ensures tr != Neutral
    ensures tr == Up <==> price > 80.0
  {
    if price > 80.0 then Up else Down
  }

  /** Gas card: a warning above 4.5 dollars per MMBtu. */
  function GasSeverity(price: real): (s: Severity)
    ensures s != Critical
    ensures s == Warning <==> price > 4.5
  {
    if price > 4.5 then Warning else Normal
  }

  /** Gas card: up above 4 dollars, otherwise down. */
  function GasTrend(price: real): (tr: Trend)
    ensures tr != Neutral
    ensures tr == Up <==> price > 4.0
  {
    if price > 4.0 then Up else Down
  }

  /** The three shares of the energy-mix panel. */
  datatype Mix = Mix(renewable: real, fossil: real, nuclear: real)

  /** Nuclear is a fixed 15 percent and fossil fuels take what the renewables leave. */
  function EnergyMix(renewablePct: real): (m: Mix)
    ensures m.renewable == renewablePct && m.nuclear == 15.0
    ensures m.renewable + m.fossil + m.nuclear == 100.0
  {
    Mix(renewablePct, 100.0 - renewablePct - 15.0, 15.0)
  }

  /** The word in the market-overview sentence. */
  function MarketWord(oilPrice: real): (w: string)
    ensures w == "elevated" <==> oilPrice > 85.0
    ensures w != "elevated" ==> w == "stable"
  {
    if oilPrice > 85.0 then "elevated" else "stable"
  }

  /** The market text and the arrows follow the cards: prices are called elevated exactly
      when the oil card warns; a warning oil or gas card always points up; the renewable
      arrow points up exactly when that card is normal. */
  lemma TextAndTrendsFollowCards(oil: real, gas: real, pct: real)
    ensures MarketWord(oil) == "elevated" <==> OilSeverity(oil) == Warning
    ensures OilSeverity(oil) == Warning ==> OilTrend(oil) == Up
    ensures GasSeverity(gas) == Warning ==> GasTrend(gas) == Up
    ensures RenewableTrend(pct) == Up <==> RenewableSeverity(pct) == Normal
  {
  }

  /** On generated data every share of the mix is positive and the charted generation
      lies in [25, 30) thousand. */
  lemma GeneratedMixAndChart(e: EnergyData, time: string)
    requires EnergyInRange(e)
    ensures var m := EnergyMix(e.renewablePercentage);
            m.renewable > 0.0 && 52.0 < m.fossil <= 57.0 && m.nuclear > 0.0
    ensures 25.0 <= Project(e, time).generation < 30.0
  {
  }

  /** The page's state: the latest snapshot, the chart history and the loading flag. */
  class Dashboard {
    var data: Option<EnergyData>
    var chart: seq<ChartPoint>
    var loading: bool

    ghost predicate Valid()
      reads this
    {
      |chart| <= Rolling.Capacity
    }

    constructor ()
      ensures Valid() && data == None && chart == [] && loading
    {
      data, chart, loading := None, [], true;
    }

    predicate ShowsCards()
      reads this
    {
      !loading && data.Some?
    }

    /** `fetchData` up to its await: raise the loading flag. */
    method BeginFetch()
      modifies this
      ensures loading && data == old(data) && chart == old(chart)
      ensures !ShowsCards()
    {
      loading := true;
    }

    /** `fetchData` after `apiService.getEnergyData()` resolved with `snapshot`. */
    method CompleteFetch(snapshot: EnergyData, time: string)
      requires Valid()
      modifies this
      ensures Valid()
      ensures data == Some(snapshot) && !loading && ShowsCards()
      ensures chart == Rolling.Append(old(chart), Project(snapshot, time))
      ensures |chart| == Rolling.Min(|old(chart)| + 1, Rolling.Capacity)
      ensures chart[|chart| - 1].generation * 1000.0 == snapshot.globalGeneration
    {
      data := Some(snapshot);
      chart := Rolling.Append(chart, Project(snapshot, time));
      loading := false;
    }
  }
}
