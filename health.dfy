/** The health page (`project/src/pages/Health/HealthDashboard.tsx`): its poll, its chart
    history, the total-cases sum and the rules of its cards and outbreak tags. */
module Health {
  import opened Wrappers
  import opened Status
  import opened Api
  import Rolling

  datatype ChartPoint = ChartPoint(time: string, vaccination: real, cases: real)

  /** `outbreaks.reduce((sum, o) => sum + o.cases, 0)`, folded from the left. */
  function TotalCases(os: seq<Outbreak>): (n: int)
    ensures (forall i :: 0 <= i < |os| ==> os[i].cases >= 0) ==> n >= 0
  {
    if os == [] then 0 else TotalCases(os[..|os| - 1]) + os[|os| - 1].cases
  }

  /** The total adds each outbreak once: prepending an outbreak adds its cases. */
  lemma {:induction false} TotalCasesCons(o: Outbreak, os: seq<Outbreak>)
    ensures TotalCases([o] + os) == o.cases + TotalCases(os)
    decreases |os|
  {
    if os != [] {
      var last := os[|os| - 1];
      assert ([o] + os)[..|os|] == [o] + os[..|os| - 1];
      TotalCasesCons(o, os[..|os| - 1]);
    } else {
      assert ([o] + os)[..0] == [];
    }
  }

  /** The chart point of a snapshot: the vaccination rate and the case total scaled down
      by one hundred. */
  function Project(d: HealthData, time: string): (p: ChartPoint)
    ensures p.time == time && p.vaccination == d.vaccinationRate
    ensures p.cases * 100.0 == TotalCases(d.outbreaks) as real
  {
    ChartPoint(time, d.vaccinationRate, TotalCases(d.outbreaks) as real / 100.0)
  }

  /** Vaccination card: normal above 80 percent, otherwise a warning. */
  function VaccinationSeverity(rate: real): (s: Severity)
    ensures s != Critical
    ensures s == Normal <==> rate > 80.0
  {
    if rate > 80.0 then Normal else Warning
  }

  /** Vaccination card: up above 75 percent, otherwise neutral. */
  function VaccinationTrend(rate: real): (tr: Trend)
    ensures tr != Down
    ensures tr == Up <==> rate > 75.0
  {
    if rate > 75.0 then Up else Neutral
  }

  /** Active-outbreaks card: critical for more than three, a warning for two or three. */
  function OutbreaksSeverity(count: int): (s: Severity)
    ensures s == Critical <==> count > 3
    ensures s == Warning <==> 1 < count <= 3
    ensures s == Normal <==> count <= 1
  {
    if count > 3 then Critical else if count > 1 then Warning else Normal
  }

  /** Total-cases card: a warning above ten thousand cases. */
  function TotalCasesSeverity(total: int): (s: Severity)
    ensures s != Critical
    ensures s == Warning <==> total > 10000
  {
    if total > 10000 then Warning else Normal
  }

  /** An outbreak's tag. */
  function OutbreakTag(cases: int): (tag: string)
    ensures tag == "High" <==> cases > 5000
    ensures tag != "High" ==> tag == "Moderate"
  {
    if cases > 5000 then "High" else "Moderate"
  }

  function MinReal(a: real, b: real): real {
    if a <= b then a else b
  }

  /** An outbreak's bar width in percent: proportional to its cases out of ten thousand,
      never beyond a full bar. */
  function BarWidth(cases: int): (w: real)
    ensures w <= 100.0
    ensures cases >= 0 ==> w >= 0.0
    ensures cases <= 10000 ==> w * 100.0 == cases as real
    ensures cases >= 10000 ==> w == 100.0
  {
    MinReal((cases as real / 10000.0) * 100.0, 100.0)
  }

  /** A vaccination card that is normal also trends up. */
  lemma NormalVaccinationTrendsUp(rate: real)
    ensures VaccinationSeverity(rate) == Normal ==> VaccinationTrend(rate) == Up
  {
  }

  /** On generated data: the case total is the two outbreaks' sum and stays below fifteen
      thousand, the chart's scaled value below 150, the outbreaks card and the alerts card
      both show a warning. */
  lemma GeneratedHealthCards(h: HealthData, time: string)
    requires HealthInRange(h)
    ensures TotalCases(h.outbreaks) == h.outbreaks[0].cases + h.outbreaks[1].cases
    ensures 0 <= TotalCases(h.outbreaks) < 15000
    ensures 0.0 <= Project(h, time).cases < 150.0
    ensures OutbreaksSeverity(|h.outbreaks|) == Warning
    ensures AlertsSeverity(h.healthAlerts) == Warning
  {
    var os := h.outbreaks;
    assert os[..|os| - 1] == [os[0]];
    assert [os[0]][..0] == [];
    assert TotalCases([os[0]]) == os[0].cases;
    assert TotalCases(os) == os[0].cases + os[1].cases;
    assert h.healthAlerts[0].severity == Warning;
  }

  /** The page's state: the latest snapshot, the chart history and the loading flag. */
  class Dashboard {
    var data: Option<HealthData>
    var chart: seq<ChartPoint>
    var loading: bool

    ghost predicate Valid()
      reads this
    {
      |chart| <= Rolling.Capacity
    }

    constructor ()
      ensures Valid() && data == None && chart == [] && loading
    {
      data, chart, loading := None, [], true;
    }

    predicate ShowsCards()
      reads this
    {
      !loading && data.Some?
    }

    /** `fetchData` up to its await: raise the loading flag. */
    method BeginFetch()
      modifies this
      ensures loading && data == old(data) && chart == old(chart)
      ensures !ShowsCards()
    {
      loading := true;
    }

    /** `fetchData` after `apiService.getHealthData()` resolved with `snapshot`. */
    method CompleteFetch(snapshot: HealthData, time: string)
      requires Valid()
      modifies this
      ensures Valid()
      ensures data == Some(snapshot) && !loading && ShowsCards()
      ensures chart == Rolling.Append(old(chart), Project(snapshot, time))
      ensures |chart| == Rolling.Min(|old(chart)| + 1, Rolling.Capacity)
      ensures chart[|chart| - 1] == Project(snapshot, time)
    {
      data := Some(snapshot);
      chart := Rolling.Append(chart, Project(snapshot, time));
      loading := false;
    }
  }
}
