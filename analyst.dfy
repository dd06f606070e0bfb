/** The risk analyst page (`project/src/pages/AnalystDashboard.tsx`): the mock data
    generator with its capped trend, clamped regions and alert list, the number formatting,
    the region colours, and the loading / error state of its polling fetch. Each
    `Math.random()` call is a draw in [0, 1) passed in; `floor(r * n - k)` is written
    `Scale(r, n) - k`, which is the same integer because k is whole. */
module Analyst {
  import opened Wrappers
  import opened Decimal
  import Api

  datatype RiskPoint = RiskPoint(time: string, risk: int, natural: int, conflict: int, health: int)

  datatype AlertType = CriticalAlert | HighAlert | MediumAlert

  datatype Impact = CriticalImpact | HighImpact | MediumImpact | LowImpact

  datatype Alert = Alert(id: int, kind: AlertType, category: string, title: string, location: string,
                         probability: string, time: string, impact: Impact)

  datatype Region = Region(id: string, name: string, risk: int)

  datatype AnalystData = AnalystData(
    globalRiskLevel: string, globalRiskChange: string,
    activeMonitoring: string, activeMonitoringChange: string,
    predictionsMade: string, predictionsMadeChange: string,
    accuracyRate: string, accuracyRateChange: string,
    riskData: seq<RiskPoint>, regions: seq<Region>, alerts: seq<Alert>,
    lastUpdateTime: string)

  /** The fixed trend the generator perturbs. */
  function BaseTrend(): (ps: seq<RiskPoint>)
    ensures |ps| == 7
  {
    [ RiskPoint("00:00", 25, 20, 15, 35), RiskPoint("04:00", 28, 25, 18, 32),
      RiskPoint("08:00", 35, 30, 25, 40), RiskPoint("12:00", 42, 35, 32, 45),
      RiskPoint("16:00", 38, 28, 35, 42), RiskPoint("20:00", 45, 40, 38, 48),
      RiskPoint("24:00", 50, 45, 42, 52) ]
  }

  /** The fixed regions before the random offsets: identifier, name and base risk (the
      global entry's base is the drawn global risk). */
  function BaseRegions(globalRisk: int): (rs: seq<Region>)
    ensures |rs| == 6 && rs[0].risk == globalRisk
  {
    [ Region("global", "Global", globalRisk), Region("asia", "Asia Pacific", 38),
      Region("europe", "Europe", 25), Region("americas", "Americas", 35),
      Region("africa", "Africa", 48), Region("middle-east", "Middle East", 52) ]
  }

  function Min(a: int, b: int): int {
    if a <= b then a else b
  }

  /** Bring a region's risk into [10, 100]; a risk already inside is kept. */
  function Clamp(x: int): (y: int)
    ensures 10 <= y <= 100
    ensures 10 <= x <= 100 ==> y == x
    ensures x < 10 ==> y == 10
    ensures x > 100 ==> y == 100
  {
    if x < 10 then 10 else if x > 100 then 100 else x
  }

  /** Tenths of a thousand, rounding an exact half upwards. */
  function Tenths(num: nat): (t: nat)
    ensures t * 100 <= num + 50 < t * 100 + 100
  {
    (num + 50) / 100
  }

  /** `formatNumber`: a number below 1000 prints as itself; from 1000 it prints in
      thousands with one decimal and a 'k'. */
  function FormatNumber(num: int): (s: string)
    ensures num < 1000 ==> s == IntToString(num)
    ensures num >= 1000 ==>
              s == NatToString(Tenths(num) / 10) + "." + [DigitChar(Tenths(num) % 10)] + "k"
  {
    if num >= 1000 then
      var t := Tenths(num);
      NatToString(t / 10) + "." + [DigitChar(t % 10)] + "k"
    else
      IntToString(num)
  }

  /** The suffix 'k' appears exactly when the number is at least 1000. */
  lemma FormatNumberSuffix(num: int)
    ensures FormatNumber(num)[|FormatNumber(num)| - 1] == 'k' <==> num >= 1000
  {
    var s := FormatNumber(num);
    if 0 <= num < 1000 {
      assert AllDigits(s);
      assert IsDigit(s[|s| - 1]);
    } else if num < 0 {
      assert AllDigits(s[1..]);
      assert IsDigit(s[1..][|s| - 2]);
    }
  }

  /** A signed change: '+' when the sign draw is above one half, '-' otherwise, then the
      magnitude (so a zero magnitude may print as "-0"). */
  function SignedChange(signDraw: real, magnitude: string): (s: string)
    ensures |s| == |magnitude| + 1
    ensures s[0] == '+' <==> signDraw > 0.5
    ensures s[0] == '-' <==> signDraw <= 0.5
    ensures s[1..] == magnitude
  {
    (if signDraw > 0.5 then "+" else "-") + magnitude
  }

  /** The four draws that perturb one trend point. */
  datatype PointDraws = PointDraws(risk: real, natural: real, conflict: real, health: real)

  /** The three draws of one alert: its type, its location and its age. */
  datatype AlertDraws = AlertDraws(kind: real, location: real, age: real)

  /** Every draw of one generation, by the field it feeds. */
  datatype Draws = Draws(
    points: seq<PointDraws>, baseRisk: real, baseMonit: real, basePred: real,
    regions: seq<real>, alerts: seq<AlertDraws>,
    riskSign: real, monitExtra: real, monitSign: real, monitChange: real,
    predExtra: real, predSign: real, predChange: real, accuracySign: real)
  {
    /** The shape the generator always has: one draw set per point, region and alert. */
    predicate Shaped() {
      |points| == 7 && |regions| == 6 && |alerts| == 3
    }

    predicate Valid() {
      && Shaped()
      && (forall i :: 0 <= i < 7 ==>
            Api.Unit(points[i].risk) && Api.Unit(points[i].natural) &&
            Api.Unit(points[i].conflict) && Api.Unit(points[i].health))
      && (forall i :: 0 <= i < 6 ==> Api.Unit(regions[i]))
      && (forall i :: 0 <= i < 3 ==>
            Api.Unit(alerts[i].kind) && Api.Unit(alerts[i].location) && Api.Unit(alerts[i].age))
      && Api.Unit(baseRisk) && Api.Unit(baseMonit) && Api.Unit(basePred)
      && Api.Unit(monitExtra) && Api.Unit(monitChange) && Api.Unit(predExtra) && Api.Unit(predChange)
    }
  }

  /** The strings the generator produces with `toFixed`, whose rounding is not modelled:
      the global risk change and accuracy magnitudes, the accuracy rate, and each alert's
      probability. */
  datatype FixedTexts = FixedTexts(riskChange: string, accuracy: string, accuracyChange: string,
                                   probabilities: seq<string>)

  /** One trend point after its perturbation and caps (65, 50, 50, 60). */
  function PerturbPoint(p: RiskPoint, d: PointDraws): (q: RiskPoint)
    ensures q.time == p.time
    ensures q.risk == Min(65, p.risk + Api.Scale(d.risk, 5) - 2)
    ensures q.natural == Min(50, p.natural + Api.Scale(d.natural, 3) - 1)
    ensures q.conflict == Min(50, p.conflict + Api.Scale(d.conflict, 3) - 1)
    ensures q.health == Min(60, p.health + Api.Scale(d.health, 4) - 1)
    ensures q.risk <= 65 && q.natural <= 50 && q.conflict <= 50 && q.health <= 60
  {
    p.(risk := Min(65, p.risk + Api.Scale(d.risk, 5) - 2),
       natural := Min(50, p.natural + Api.Scale(d.natural, 3) - 1),
       conflict := Min(50, p.conflict + Api.Scale(d.conflict, 3) - 1),
       health := Min(60, p.health + Api.Scale(d.health, 4) - 1))
  }

  function Pick(pool: seq<string>, r: real): (s: string)
    requires |pool| == 3
    ensures Api.Unit(r) ==> s in pool
  {
    var k := Api.Scale(r, 3);
    if 0 <= k < 3 then pool[k] else pool[0]
  }

  function Locations(id: int): (pool: seq<string>)
    ensures |pool| == 3
  {
    if id == 1 then ["Pacific Ring of Fire", "Coastal Japan", "Chilean Trench"]
    else if id == 2 then ["Central Africa", "South East Asia", "Amazon Basin"]
    else ["Eastern Europe", "Balkan Peninsula", "North Korea Border"]
  }

  /** The three alerts: the first critical with probability below 0.3 and high otherwise,
      the second critical below 0.2 and medium otherwise, the third always critical. */
  function Alerts(ds: seq<AlertDraws>, probabilities: seq<string>): (r: seq<Alert>)
    requires |ds| == 3 && |probabilities| == 3
    ensures |r| == 3
    ensures forall i :: 0 <= i < 3 ==> r[i].id == i + 1 && r[i].probability == probabilities[i]
    ensures r[0].kind == CriticalAlert <==> ds[0].kind < 0.3
    ensures r[0].kind != CriticalAlert ==> r[0].kind == HighAlert
    ensures r[1].kind == CriticalAlert <==> ds[1].kind < 0.2
    ensures r[1].kind != CriticalAlert ==> r[1].kind == MediumAlert
    ensures r[2].kind == CriticalAlert
    ensures (r[0].impact, r[1].impact, r[2].impact) == (HighImpact, MediumImpact, CriticalImpact)
    ensures forall i :: 0 <= i < 3 && Api.Unit(ds[i].location) ==> r[i].location in Locations(i + 1)
  {
    [ Alert(1, if ds[0].kind < 0.3 then CriticalAlert else HighAlert, "Natural Disaster",
            "Tectonic Shift Detected", Pick(Locations(1), ds[0].location), probabilities[0],
            IntToString(Api.Scale(ds[0].age, 30)) + " minutes ago", HighImpact),
      Alert(2, if ds[1].kind < 0.2 then CriticalAlert else MediumAlert, "Health Emergency",
            "Rapid Virus Strain Mutation", Pick(Locations(2), ds[1].location), probabilities[1],
            IntToString(Api.Scale(ds[1].age, 5)) + " hours ago", MediumImpact),
      Alert(3, CriticalAlert, "Conflict", "Unrest Index Surging",
            Pick(Locations(3), ds[2].location), probabilities[2],
            IntToString(Api.Scale(ds[2].age, 12)) + " hours ago", CriticalImpact) ]
  }

  /** The seven trend points, each perturbed and capped. */
  function Trend(ds: seq<PointDraws>): (ps: seq<RiskPoint>)
    requires |ds| == 7
    ensures |ps| == 7
    ensures forall i :: 0 <= i < 7 ==> ps[i] == PerturbPoint(BaseTrend()[i], ds[i])
    ensures forall i :: 0 <= i < 7 ==>
              ps[i].time == ["00:00", "04:00", "08:00", "12:00", "16:00", "20:00", "24:00"][i]
  {
    seq(7, i requires 0 <= i < 7 => PerturbPoint(BaseTrend()[i], ds[i]))
  }

  /** A region's random offset: [0, 5) for the global entry, [-5, 5) for the others. */
  function Offset(i: nat, r: real): (k: int)
    ensures Api.Unit(r) && i == 0 ==> 0 <= k < 5
    ensures Api.Unit(r) && i != 0 ==> -5 <= k < 5
  {
    if i == 0 then Api.Scale(r, 5) else Api.Scale(r, 10) - 5
  }

  /** The six regions, in their fixed order, each offset and clamped into [10, 100]. */
  function Regions(globalRisk: int, ds: seq<real>): (rs: seq<Region>)
    requires |ds| == 6
    ensures |rs| == 6
    ensures forall i :: 0 <= i < 6 ==>
              && rs[i].id == BaseRegions(globalRisk)[i].id
              && rs[i].name == BaseRegions(globalRisk)[i].name
              && rs[i].risk == Clamp(BaseRegions(globalRisk)[i].risk + Offset(i, ds[i]))
              && 10 <= rs[i].risk <= 100
    ensures forall i :: 0 <= i < 6 ==>
              rs[i].id == ["global", "asia", "europe", "americas", "africa", "middle-east"][i]
  {
    var base := BaseRegions(globalRisk);
    seq(6, i requires 0 <= i < 6 => base[i].(risk := Clamp(base[i].risk + Offset(i, ds[i]))))
  }

  function GlobalRisk(d: Draws): int {
    30 + Api.Scale(d.baseRisk, 30)
  }

  function Monitoring(d: Draws): int {
    100 + Api.Scale(d.baseMonit, 100) + Api.Scale(d.monitExtra, 20)
  }

  function Predictions(d: Draws): int {
    2500 + Api.Scale(d.basePred, 1000) + Api.Scale(d.predExtra, 200)
  }

  /** `generateMockData`: the perturbed trend, the metrics, the clamped regions and the
      alerts, stamped with the given time label. */
  function GenerateMockData(d: Draws, texts: FixedTexts, now: string): (r: AnalystData)
    requires d.Shaped() && |texts.probabilities| == 3
    ensures r.riskData == Trend(d.points)
    ensures r.regions == Regions(GlobalRisk(d), d.regions)
    ensures r.alerts == Alerts(d.alerts, texts.probabilities)
    ensures r.globalRiskLevel == IntToString(GlobalRisk(d)) + "%"
    ensures r.globalRiskChange == SignedChange(d.riskSign, texts.riskChange) + "%"
    ensures r.activeMonitoring == FormatNumber(Monitoring(d))
    ensures r.activeMonitoringChange == SignedChange(d.monitSign, IntToString(Api.Scale(d.monitChange, 5)))
    ensures r.predictionsMade == FormatNumber(Predictions(d))
    ensures r.predictionsMadeChange == SignedChange(d.predSign, IntToString(Api.Scale(d.predChange, 50)))
    ensures r.accuracyRate == texts.accuracy + "%"
    ensures r.accuracyRateChange == SignedChange(d.accuracySign, texts.accuracyChange) + "%"
    ensures r.lastUpdateTime == now
  {
    AnalystData(
      IntToString(GlobalRisk(d)) + "%",
      SignedChange(d.riskSign, texts.riskChange) + "%",
      FormatNumber(Monitoring(d)),
      SignedChange(d.monitSign, IntToString(Api.Scale(d.monitChange, 5))),
      FormatNumber(Predictions(d)),
      SignedChange(d.predSign, IntToString(Api.Scale(d.predChange, 50))),
      texts.accuracy + "%",
      SignedChange(d.accuracySign, texts.accuracyChange) + "%",
      Trend(d.points),
      Regions(GlobalRisk(d), d.regions),
      Alerts(d.alerts, texts.probabilities),
      now)
  }

  /** With draws in [0, 1) no cap of the trend is ever reached: each series moves at most
      two points from its base and stays below its cap. */
  lemma CapsNeverBind(d: Draws, i: int)
    requires d.Valid() && 0 <= i < 7
    ensures var p, q := BaseTrend()[i], Trend(d.points)[i];
      && q.risk == p.risk + Api.Scale(d.points[i].risk, 5) - 2 < 65
      && q.natural == p.natural + Api.Scale(d.points[i].natural, 3) - 1 < 50
      && q.conflict == p.conflict + Api.Scale(d.points[i].conflict, 3) - 1 < 50
      && q.health == p.health + Api.Scale(d.points[i].health, 4) - 1 < 60
      && p.risk - 2 <= q.risk <= p.risk + 2
  {
    var p := BaseTrend()[i];
    assert p.risk <= 50 && p.natural <= 45 && p.conflict <= 42 && p.health <= 52;
  }

  /** With draws in [0, 1) the clamp never changes a region: the global risk lies in
      [30, 63] and every other region within five points of its base. */
  lemma ClampNeverBinds(d: Draws, i: int)
    requires d.Valid() && 0 <= i < 6
    ensures Regions(GlobalRisk(d), d.regions)[i].risk == BaseRegions(GlobalRisk(d))[i].risk + Offset(i, d.regions[i])
    ensures i == 0 ==> 30 <= Regions(GlobalRisk(d), d.regions)[i].risk <= 63
    ensures i != 0 ==> 20 <= Regions(GlobalRisk(d), d.regions)[i].risk <= 56
  {
    var base := BaseRegions(GlobalRisk(d));
    assert Api.Unit(d.baseRisk) && Api.Unit(d.regions[i]);
    assert i != 0 ==> 25 <= base[i].risk <= 52;
  }

  /** With draws in [0, 1) the monitoring count (100 to 218) always prints in full, and the
      prediction count (2500 to 3698) always prints in thousands. */
  lemma MetricFormats(d: Draws, texts: FixedTexts, now: string)
    requires d.Valid() && |texts.probabilities| == 3
    ensures var r := GenerateMockData(d, texts, now);
      && 100 <= Monitoring(d) <= 218
      && r.activeMonitoring == IntToString(Monitoring(d))
      && r.activeMonitoring[|r.activeMonitoring| - 1] != 'k'
      && 2500 <= Predictions(d) <= 3698
      && r.predictionsMade[|r.predictionsMade| - 1] == 'k'
  {
    FormatNumberSuffix(Monitoring(d));
    FormatNumberSuffix(Predictions(d));
  }

  /** A region's bar colour: red above 50, yellow above 30, green otherwise. */
  function RegionColor(risk: int): (col: string)
    ensures col == "bg-red-500" <==> risk > 50
    ensures col == "bg-yellow-500" <==> 30 < risk <= 50
    ensures col == "bg-green-500" <==> risk <= 30
  {
    if risk > 50 then "bg-red-500" else if risk > 30 then "bg-yellow-500" else "bg-green-500"
  }

  /** An alert's border colour, by its type. */
  function AlertBorder(kind: AlertType): (col: string)
    ensures col == "border-red-500" <==> kind == CriticalAlert
    ensures col == "border-orange-500" <==> kind == HighAlert
    ensures col == "border-yellow-500" <==> kind == MediumAlert
  {
    match kind
    case CriticalAlert => "border-red-500"
    case HighAlert => "border-orange-500"
    case MediumAlert => "border-yellow-500"
  }

  const FetchError: string := "Failed to load real-time data. Check your network."

  /** The page's state: the last data, the loading flag (true at mount) and the error. */
  class Dashboard {
    var data: Option<AnalystData>
    var isLoading: bool
    var error: Option<string>

    constructor ()
      ensures data.None? && isLoading && error.None?
    {
      data := None;
      isLoading := true;
      error := None;
    }

    /** The full-screen spinner is shown only while loading with no data yet. */
    predicate ShowsSpinner()
      reads this
    {
      isLoading && data.None?
    }

    /** `fetchData` up to its await. The callback tests the `data` of the render it was
        created in: the one the interval holds is the mount's, which had no data, while the
        refresh button's is current. It raises the loading flag when that data was absent,
        and clears the error. */
    method BeginFetch(closureHadData: bool)
      requires closureHadData ==> data.Some?
      modifies this
      ensures isLoading == (old(isLoading) || !closureHadData)
      ensures data == old(data) && error.None?
      ensures ShowsSpinner() <==> data.None?
    {
      if !closureHadData {
        isLoading := true;
      }
      error := None;
    }

    /** `fetchData` after its await: a result replaces the data, a failure sets the error
        message and keeps the old data; loading ends either way. */
    method CompleteFetch(result: Response<AnalystData>)
      modifies this
      ensures !isLoading && !ShowsSpinner()
      ensures result.Resolved? ==> data == Some(result.value) && error == old(error)
      ensures result.Rejected? ==> data == old(data) && error == Some(FetchError)
    {
      if result.Resolved? {
        data := Some(result.value);
      } else {
        error := Some(FetchError);
      }
      isLoading := false;
    }
  }
}
