/** The economic-analyst page (`project/src/pages/EconomicAnalystDashboard.tsx`): the
    guarded fetch, the rebuild of the key financial metrics, and the colour rules for
    report scores and statuses. */
module EconomicAnalyst {
  import opened Wrappers
  import opened Decimal

  datatype Icon = Zap | Wallet | Activity | TrendingUp

  datatype Metric = Metric(title: string, value: string, change: string, color: string, icon: Icon)

  datatype SectorQuarter = SectorQuarter(month: string, growth: real, investment: real, efficiency: int)

  datatype Asset = Asset(name: string, value: int, color: string)

  datatype Report = Report(id: string, topic: string, date: string, status: string, score: int,
                           findings: string, analyst: string)

  datatype Exposure = Exposure(sector: string, exposure: int, total: int, percentage: int)

  datatype DashboardData = DashboardData(
    sectorPerformance: seq<SectorQuarter>,
    assetAllocation: seq<Asset>,
    recentReports: seq<Report>,
    keyFinancialMetrics: seq<Metric>,
    riskExposure: seq<Exposure>)

  /** The data the page starts from (`initialData`). */
  function InitialData(): (d: DashboardData)
    ensures |d.keyFinancialMetrics| == 4 && |d.recentReports| == 3
  {
    DashboardData(
      [ SectorQuarter("Q1", 5.2, 4.8, 93), SectorQuarter("Q2", 4.8, 4.5, 92),
        SectorQuarter("Q3", 6.1, 5.7, 95), SectorQuarter("Q4", 7.3, 6.9, 95) ],
      [ Asset("Technology", 35, "#0EA5E9"), Asset("Financials", 28, "#F59E0B"),
        Asset("Healthcare", 20, "#8B5CF6"), Asset("Energy", 17, "#DC2626") ],
      [ Report("RPT-2024-001", "Q4 Tech Sector Valuation", "2024-01-15", "Published", 94,
               "Strong revenue growth, minor regulatory risk identified.", "Dr. Sarah Chen"),
        Report("RPT-2024-002", "Global Supply Chain Forecast", "2024-01-12", "Drafting", 89,
               "Shipping costs stabilized, inflation pressure pending review.", "James Rodriguez"),
        Report("RPT-2024-003", "Emerging Markets Bond Analysis", "2024-01-08", "Published", 97,
               "Outstanding yield performance in Asian bonds.", "Dr. Lisa Kim") ],
      [ Metric("Index Volatility (VIX)", "18.45", "+1.02", "text-red-400", Zap),
        Metric("Global Liquidity Ratio", "1.27", "-0.15", "text-blue-400", Wallet),
        Metric("Active Markets (24h)", "2,847", "+156", "text-purple-400", Activity),
        Metric("Forecast Accuracy (MA)", "91.2%", "+2.1%", "text-green-400", TrendingUp) ],
      [ Exposure("Technology", 156, 200, 78), Exposure("Energy", 89, 120, 74),
        Exposure("Finance", 24, 30, 80), Exposure("Consumer Goods", 12, 15, 80) ])
  }

  predicate StartsWith(s: string, c: char) {
    |s| > 0 && s[0] == c
  }

  /** A metric's freshly computed change: the markets metric computes a whole number
      (`Math.floor`), the others a formatted string (`toFixed`). */
  datatype NewChange = Whole(n: int) | Text(s: string)

  /** How the change prints without any added sign. */
  function Plain(c: NewChange): string {
    match c
    case Whole(n) => IntToString(n)
    case Text(s) => s
  }

  /** The sign rule: a '+' is put in front of a non-negative number and of a string that
      does not already start with '-'; anything else prints as it is. */
  function FormatChange(c: NewChange): (r: string)
    ensures StartsWith(r, '+') <==> (c.Whole? && c.n >= 0) || (c.Text? && !StartsWith(c.s, '-'))
    ensures StartsWith(r, '+') ==> r == "+" + Plain(c)
    ensures !StartsWith(r, '+') ==> r == Plain(c)
  {
    var positive := (c.Whole? && c.n >= 0) || (c.Text? && !StartsWith(c.s, '-'));
    if positive then "+" + Plain(c) else Plain(c)
  }

  /** A metric's colour: green exactly when its change string starts with '+'. */
  function ChangeColor(change: string): (col: string)
    ensures col == "text-green-400" <==> StartsWith(change, '+')
    ensures col != "text-green-400" ==> col == "text-red-400"
  {
    if StartsWith(change, '+') then "text-green-400" else "text-red-400"
  }

  /** What one refresh computes for one metric. */
  datatype MetricUpdate = MetricUpdate(value: string, change: NewChange)

  /** One metric after a refresh: same title and icon, the new value, the signed change, and
      green exactly when the new change is non-negative (or a string without a minus). */
  function RebuildMetric(m: Metric, u: MetricUpdate): (r: Metric)
    ensures r.title == m.title && r.icon == m.icon && r.value == u.value
    ensures r.change == FormatChange(u.change)
    ensures r.color == "text-green-400" <==>
              (u.change.Whole? && u.change.n >= 0) || (u.change.Text? && !StartsWith(u.change.s, '-'))
    ensures r.color != "text-green-400" ==> r.color == "text-red-400"
  {
    var change := FormatChange(u.change);
    m.(value := u.value, change := change, color := ChangeColor(change))
  }

  /** `generateNewData`: rebuild every key metric, position by position, and keep every
      other part of the data. */
  function GenerateNewData(d: DashboardData, updates: seq<MetricUpdate>): (r: DashboardData)
    requires |updates| == |d.keyFinancialMetrics|
    ensures r.sectorPerformance == d.sectorPerformance
    ensures r.assetAllocation == d.assetAllocation
    ensures r.recentReports == d.recentReports
    ensures r.riskExposure == d.riskExposure
    ensures |r.keyFinancialMetrics| == |d.keyFinancialMetrics|
    ensures forall i :: 0 <= i < |updates| ==>
              && r.keyFinancialMetrics[i].title == d.keyFinancialMetrics[i].title
              && r.keyFinancialMetrics[i].icon == d.keyFinancialMetrics[i].icon
              && r.keyFinancialMetrics[i] == RebuildMetric(d.keyFinancialMetrics[i], updates[i])
  {
    var ms := d.keyFinancialMetrics;
    d.(keyFinancialMetrics := seq(|ms|, i requires 0 <= i < |ms| => RebuildMetric(ms[i], updates[i])))
  }

  /** A report's score colour: green from 90, yellow from 80 to 89, red below 80. */
  function ScoreColor(score: int): (col: string)
    ensures col == "text-green-400" <==> score >= 90
    ensures col == "text-yellow-400" <==> 80 <= score < 90
    ensures col == "text-red-400" <==> score < 80
  {
    if score >= 90 then "text-green-400" else if score >= 80 then "text-yellow-400" else "text-red-400"
  }

  /** A report's status badge. */
  function StatusColor(status: string): (col: string)
    ensures status == "Published" ==> col == "text-green-400 bg-green-500/20"
    ensures status == "Drafting" ==> col == "text-yellow-400 bg-yellow-500/20"
    ensures status == "Reviewing" ==> col == "text-blue-400 bg-blue-500/20"
    ensures status != "Published" && status != "Drafting" && status != "Reviewing" ==>
              col == "text-gray-400 bg-gray-500/20"
  {
    match status
    case "Published" => "text-green-400 bg-green-500/20"
    case "Drafting" => "text-yellow-400 bg-yellow-500/20"
    case "Reviewing" => "text-blue-400 bg-blue-500/20"
    case _ => "text-gray-400 bg-gray-500/20"
  }

  /** The badge tells the three known statuses apart, from each other and from every other
      status. */
  lemma StatusColorsDistinct(status: string)
    requires status == "Published" || status == "Drafting" || status == "Reviewing"
    ensures StatusColor(status) != StatusColor("Unknown")
    ensures forall other: string ::
              (other != status && (other == "Published" || other == "Drafting" || other == "Reviewing")) ==>
              StatusColor(other) != StatusColor(status)
  {
  }

  /** The page's state: its data and whether a fetch is in flight. */
  class Dashboard {
    var data: DashboardData
    var isFetching: bool

    constructor ()
      ensures data == InitialData() && !isFetching
    {
      data := InitialData();
      isFetching := false;
    }

    /** `fetchData(isManual)` up to its await: a scheduled call while a fetch is in flight
        returns at once and changes nothing; any other call marks a fetch in flight. */
    method BeginFetch(isManual: bool) returns (proceeds: bool)
      modifies this
      ensures proceeds <==> isManual || !old(isFetching)
      ensures data == old(data)
      ensures proceeds ==> isFetching
      ensures !proceeds ==> isFetching == old(isFetching)
    {
      if isFetching && !isManual {
        return false;
      }
      isFetching := true;
      proceeds := true;
    }

    /** `fetchData` after its delay: `Some(updates)` when the body ran, `None` when it threw.
        The data is rebuilt only in the first case; the flag is cleared in both. */
    method FinishFetch(result: Option<seq<MetricUpdate>>)
      requires result.Some? ==> |result.value| == |data.keyFinancialMetrics|
      modifies this
      ensures !isFetching
      ensures result.Some? ==> data == GenerateNewData(old(data), result.value)
      ensures result.None? ==> data == old(data)
    {
      if result.Some? {
        data := GenerateNewData(data, result.value);
      }
      isFetching := false;
    }
  }
}
