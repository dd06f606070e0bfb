/** The mock data source (`project/src/utils/api.ts`): generators that build one
    snapshot per domain from random draws, and the `apiService` wrappers that hand
    them out after an artificial delay. Each `Math.random()` call is a parameter;
    the delay and the clock are left out, the clock's reading is passed in. */
module Api {
  import opened Wrappers
  import opened Status

  /** What `Math.random()` guarantees of each draw. */
  predicate Unit(r: real) {
    0.0 <= r < 1.0
  }

  /** An alert embedded in a snapshot; climate alerts carry a `type`, health alerts do not. */
  datatype Alert = Alert(kind: Option<string>, message: string, severity: Severity)

  datatype ClimateData = ClimateData(
    temperature: real, co2Level: real, rainfall: real, alerts: seq<Alert>, timestamp: int)

  datatype StockIndex = StockIndex(name: string, value: real, change: real)

  datatype CurrencyRate = CurrencyRate(pair: string, rate: real, change: real)

  datatype FinanceData = FinanceData(
    stockIndices: seq<StockIndex>, currencyRates: seq<CurrencyRate>, volatilityIndex: real, timestamp: int)

  datatype Outbreak = Outbreak(disease: string, cases: int, region: string)

  datatype HealthData = HealthData(
    outbreaks: seq<Outbreak>, vaccinationRate: real, healthAlerts: seq<Alert>, timestamp: int)

  datatype EnergyData = EnergyData(
    globalGeneration: real, oilPrice: real, gasPrice: real, renewablePercentage: real, timestamp: int)

  datatype RiskLevel = LowRisk | MediumRisk | HighRisk | CriticalRisk

  datatype AIInsight = AIInsight(
    prediction: string, riskLevel: RiskLevel, confidence: int, actions: seq<string>, domain: string)

  /** The severities of a list of alerts, in order. */
  function Severities(alerts: seq<Alert>): (ss: seq<Severity>)
    ensures |ss| == |alerts|
    ensures forall i :: 0 <= i < |alerts| ==> ss[i] == alerts[i].severity
  {
    seq(|alerts|, i requires 0 <= i < |alerts| => alerts[i].severity)
  }

  /** The alert card's severity on the climate and health pages: critical if some alert is
      critical, else warning if some alert is a warning, else normal. */
  function AlertsSeverity(alerts: seq<Alert>): (s: Severity)
    ensures s == Critical <==> exists i :: 0 <= i < |alerts| && alerts[i].severity == Critical
    ensures s == Warning <==>
              (forall i :: 0 <= i < |alerts| ==> alerts[i].severity != Critical)
              && (exists i :: 0 <= i < |alerts| && alerts[i].severity == Warning)
    ensures forall i :: 0 <= i < |alerts| ==> Rank(alerts[i].severity) <= Rank(s)
  {
    var ss := Severities(alerts);
    assert forall v :: v in ss <==> exists i :: 0 <= i < |alerts| && alerts[i].severity == v;
    Aggregate(ss)
  }

  // ----- climate -----

  datatype ClimateDraws = ClimateDraws(temperature: real, co2: real, rainfall: real) {
    predicate Valid() { Unit(temperature) && Unit(co2) && Unit(rainfall) }
  }

  /** The documented ranges of a climate snapshot. */
  predicate ClimateInRange(c: ClimateData) {
    && 15.0 <= c.temperature < 20.0
    && 410.0 <= c.co2Level < 430.0
    && 0.0 <= c.rainfall < 100.0
  }

  /** One temperature alert, a warning exactly when the temperature is above 18. */
  function GenerateClimateData(d: ClimateDraws, now: int): (r: ClimateData)
    ensures |r.alerts| == 1 && r.alerts[0].kind == Some("Temperature")
    ensures r.alerts[0].severity == Warning <==> r.temperature > 18.0
    ensures r.alerts[0].severity == Normal <==> r.temperature <= 18.0
    ensures r.alerts[0].message ==
              if r.temperature > 18.0 then "Above average temperatures detected" else "Normal temperature range"
    ensures d.Valid() ==> ClimateInRange(r)
    ensures r.timestamp == now
  {
    var baseTemp := 15.0 + d.temperature * 5.0;
    var baseCO2 := 410.0 + d.co2 * 20.0;
    var alert := Alert(
      Some("Temperature"),
      if baseTemp > 18.0 then "Above average temperatures detected" else "Normal temperature range",
      if baseTemp > 18.0 then Warning else Normal);
    ClimateData(baseTemp, baseCO2, d.rainfall * 100.0, [alert], now)
  }

  // ----- finance -----

  /** Draws for one quoted instrument: its level and its change. */
  datatype QuoteDraw = QuoteDraw(level: real, change: real) {
    predicate Valid() { Unit(level) && Unit(change) }
  }

  datatype FinanceDraws = FinanceDraws(
    sp500: QuoteDraw, nasdaq: QuoteDraw, ftse: QuoteDraw,
    eurUsd: QuoteDraw, gbpUsd: QuoteDraw, volatility: real)
  {
    predicate Valid() {
      sp500.Valid() && nasdaq.Valid() && ftse.Valid() && eurUsd.Valid() && gbpUsd.Valid() && Unit(volatility)
    }
  }

  /** The fixed shape of a finance snapshot: three indices and two pairs, in this order. */
  predicate FinanceShape(f: FinanceData) {
    && |f.stockIndices| == 3
    && f.stockIndices[0].name == "S&P 500"
    && f.stockIndices[1].name == "NASDAQ"
    && f.stockIndices[2].name == "FTSE 100"
    && |f.currencyRates| == 2
    && f.currencyRates[0].pair == "EUR/USD"
    && f.currencyRates[1].pair == "GBP/USD"
  }

  predicate FinanceInRange(f: FinanceData) {
    && FinanceShape(f)
    && 4500.0 <= f.stockIndices[0].value < 4700.0
    && 14000.0 <= f.stockIndices[1].value < 14500.0
    && 7500.0 <= f.stockIndices[2].value < 7700.0
    && (forall i :: 0 <= i < 3 ==> -2.0 <= f.stockIndices[i].change < 2.0)
    && 1.08 <= f.currencyRates[0].rate < 1.10
    && 1.26 <= f.currencyRates[1].rate < 1.28
    && (forall i :: 0 <= i < 2 ==> -0.01 <= f.currencyRates[i].change < 0.01)
    && 15.0 <= f.volatilityIndex < 25.0
  }

  function GenerateFinanceData(d: FinanceDraws, now: int): (r: FinanceData)
    ensures FinanceShape(r)
    ensures d.Valid() ==> FinanceInRange(r)
    ensures r.timestamp == now
  {
    FinanceData(
      [ StockIndex("S&P 500", 4500.0 + d.sp500.level * 200.0, -2.0 + d.sp500.change * 4.0),
        StockIndex("NASDAQ", 14000.0 + d.nasdaq.level * 500.0, -2.0 + d.nasdaq.change * 4.0),
        StockIndex("FTSE 100", 7500.0 + d.ftse.level * 200.0, -2.0 + d.ftse.change * 4.0) ],
      [ CurrencyRate("EUR/USD", 1.08 + d.eurUsd.level * 0.02, -0.01 + d.eurUsd.change * 0.02),
        CurrencyRate("GBP/USD", 1.26 + d.gbpUsd.level * 0.02, -0.01 + d.gbpUsd.change * 0.02) ],
      15.0 + d.volatility * 10.0,
      now)
  }

  // ----- health -----

  datatype HealthDraws = HealthDraws(influenza: real, dengue: real, vaccination: real) {
    predicate Valid() { Unit(influenza) && Unit(dengue) && Unit(vaccination) }
  }

  /** The fixed shape of a health snapshot: Influenza then Dengue, and one warning alert. */
  predicate HealthShape(h: HealthData) {
    && |h.outbreaks| == 2
    && h.outbreaks[0].disease == "Influenza" && h.outbreaks[0].region == "North America"
    && h.outbreaks[1].disease == "Dengue" && h.outbreaks[1].region == "Southeast Asia"
    && |h.healthAlerts| == 1
    && h.healthAlerts[0].severity == Warning
    && h.healthAlerts[0].message == "Seasonal flu activity increasing"
  }

  predicate HealthInRange(h: HealthData) {
    && HealthShape(h)
    && 0 <= h.outbreaks[0].cases < 10000
    && 0 <= h.outbreaks[1].cases < 5000
    && 70.0 <= h.vaccinationRate < 85.0
  }

  /** `Math.floor(Math.random() * n)` for the integer case counts. */
  function Scale(r: real, n: nat): (k: int)
    requires n > 0
    ensures Unit(r) ==> 0 <= k < n
  {
    var x := r * n as real;
    assert Unit(r) ==> 0.0 <= x < n as real by {
      if Unit(r) {
        assert (1.0 - r) * n as real > 0.0;
      }
    }
    x.Floor
  }

  function GenerateHealthData(d: HealthDraws, now: int): (r: HealthData)
    ensures HealthShape(r)
    ensures d.Valid() ==> HealthInRange(r)
    ensures r.timestamp == now
  {
    HealthData(
      [ Outbreak("Influenza", Scale(d.influenza, 10000), "North America"),
        Outbreak("Dengue", Scale(d.dengue, 5000), "Southeast Asia") ],
      70.0 + d.vaccination * 15.0,
      [Alert(None, "Seasonal flu activity increasing", Warning)],
      now)
  }

  // ----- energy -----

  datatype EnergyDraws = EnergyDraws(generation: real, oil: real, gas: real, renewable: real) {
    predicate Valid() { Unit(generation) && Unit(oil) && Unit(gas) && Unit(renewable) }
  }

  predicate EnergyInRange(e: EnergyData) {
    && 25000.0 <= e.globalGeneration < 30000.0
    && 75.0 <= e.oilPrice < 90.0
    && 3.5 <= e.gasPrice < 5.0
    && 28.0 <= e.renewablePercentage < 33.0
  }

  function GenerateEnergyData(d: EnergyDraws, now: int): (r: EnergyData)
    ensures d.Valid() ==> EnergyInRange(r)
    ensures r.timestamp == now
  {
    EnergyData(
      25000.0 + d.generation * 5000.0,
      75.0 + d.oil * 15.0,
      3.5 + d.gas * 1.5,
      28.0 + d.renewable * 5.0,
      now)
  }

  // ----- AI insights -----

  /** A well-formed insight: a known risk level, a confidence percentage, three actions. */
  predicate WellFormedInsight(a: AIInsight) {
    0 <= a.confidence <= 100 && |a.actions| == 3
  }

  /** The fixed pool `generateAIInsights` draws from. */
  function InsightPool(): (pool: seq<AIInsight>)
    ensures |pool| == 3
    ensures forall i :: 0 <= i < |pool| ==> WellFormedInsight(pool[i])
    ensures forall i, j :: 0 <= i < j < |pool| ==> pool[i].prediction != pool[j].prediction
  {
    [ AIInsight("Rising financial instability in Asia-Pacific region", MediumRisk, 72,
                ["Monitor currency fluctuations", "Review investment portfolios", "Strengthen financial reserves"],
                "Finance"),
      AIInsight("High probability of heatwave in next 7 days", HighRisk, 85,
                ["Issue public health warnings", "Prepare cooling centers", "Monitor vulnerable populations"],
                "Climate"),
      AIInsight("Potential energy shortage during peak demand", MediumRisk, 68,
                ["Increase renewable energy output", "Optimize grid distribution", "Prepare backup systems"],
                "Energy") ]
  }

  /** The order a random-comparator sort leaves the three pool entries in: some
      arrangement of the positions 0, 1, 2. */
  predicate IsShuffle(order: seq<nat>) {
    && |order| == 3
    && (forall i :: 0 <= i < 3 ==> order[i] < 3)
    && order[0] != order[1] && order[0] != order[2] && order[1] != order[2]
  }

  /** The pool after `sort(() => Math.random() - 0.5)`, the sort's outcome given as `order`. */
  function Shuffled(order: seq<nat>): (r: seq<AIInsight>)
    requires IsShuffle(order)
    ensures |r| == 3
  {
    var pool := InsightPool();
    [pool[order[0]], pool[order[1]], pool[order[2]]]
  }

  /** The multiset of a three-element list is the multiset of its entries. */
  lemma MultisetOfThree<T>(a: T, b: T, c: T)
    ensures multiset([a, b, c]) == multiset{a, b, c}
  {
    assert [a, b, c] == [a] + [b] + [c];
  }

  /** Every arrangement of three values has the same multiset. */
  lemma Arrangements<T>(a: T, b: T, c: T)
    ensures multiset{a, c, b} == multiset{a, b, c}
    ensures multiset{b, a, c} == multiset{a, b, c}
    ensures multiset{b, c, a} == multiset{a, b, c}
    ensures multiset{c, a, b} == multiset{a, b, c}
    ensures multiset{c, b, a} == multiset{a, b, c}
  {}

  /** The entry at position `i` of the list `[a, b, c]`. */
  function Nth<T>(a: T, b: T, c: T, i: nat): T {
    if i == 0 then a else if i == 1 then b else c
  }

  /** Three distinct positions pick every entry exactly once. */
  lemma PickAll<T>(a: T, b: T, c: T, i: nat, j: nat, k: nat)
    requires i < 3 && j < 3 && k < 3 && i != j && i != k && j != k
    ensures multiset{Nth(a, b, c, i), Nth(a, b, c, j), Nth(a, b, c, k)} == multiset{a, b, c}
  {
    Arrangements(a, b, c);
    var x, y, z := Nth(a, b, c, i), Nth(a, b, c, j), Nth(a, b, c, k);
    if i == 0 {
      if j == 1 { assert (x, y, z) == (a, b, c); } else { assert (x, y, z) == (a, c, b); }
    } else if i == 1 {
      if j == 0 { assert (x, y, z) == (b, a, c); } else { assert (x, y, z) == (b, c, a); }
    } else {
      if j == 0 { assert (x, y, z) == (c, a, b); } else { assert (x, y, z) == (c, b, a); }
    }
  }

  /** Picking the entries of a three-element list in any arrangement of its positions
      yields the same multiset. */
  lemma RearrangeThree<T>(xs: seq<T>, order: seq<nat>)
    requires |xs| == 3 && IsShuffle(order)
    ensures multiset([xs[order[0]], xs[order[1]], xs[order[2]]]) == multiset(xs)
  {
    var a, b, c := xs[0], xs[1], xs[2];
    assert xs == [a, b, c];
    MultisetOfThree(a, b, c);
    assert forall i :: 0 <= i < 3 ==> xs[i] == Nth(a, b, c, i);
    MultisetOfThree(xs[order[0]], xs[order[1]], xs[order[2]]);
    PickAll(a, b, c, order[0], order[1], order[2]);
  }

  /** Sorting only reorders: the shuffled pool is a permutation of the pool. */
  lemma ShuffledIsPermutation(order: seq<nat>)
    requires IsShuffle(order)
    ensures multiset(Shuffled(order)) == multiset(InsightPool())
  {
    RearrangeThree(InsightPool(), order);
  }

  /** Two distinct, well-formed insights of the pool. */
  function GenerateAIInsights(order: seq<nat>): (r: seq<AIInsight>)
    requires IsShuffle(order)
    ensures |r| == 2
    ensures r[0] in InsightPool() && r[1] in InsightPool()
    ensures r[0] != r[1]
    ensures WellFormedInsight(r[0]) && WellFormedInsight(r[1])
  {
    Shuffled(order)[..2]
  }

  // ----- apiService -----

  /** `apiService.getClimateData`: resolves with a fresh snapshot, never rejects. */
  function GetClimateData(d: ClimateDraws, now: int): (r: Response<ClimateData>)
    ensures r.Resolved? && r.value == GenerateClimateData(d, now)
  {
    Resolved(GenerateClimateData(d, now))
  }

  function GetFinanceData(d: FinanceDraws, now: int): (r: Response<FinanceData>)
    ensures r.Resolved? && r.value == GenerateFinanceData(d, now)
  {
    Resolved(GenerateFinanceData(d, now))
  }

  function GetHealthData(d: HealthDraws, now: int): (r: Response<HealthData>)
    ensures r.Resolved? && r.value == GenerateHealthData(d, now)
  {
    Resolved(GenerateHealthData(d, now))
  }

  function GetEnergyData(d: EnergyDraws, now: int): (r: Response<EnergyData>)
    ensures r.Resolved? && r.value == GenerateEnergyData(d, now)
  {
    Resolved(GenerateEnergyData(d, now))
  }

  function GetAIInsights(order: seq<nat>): (r: Response<seq<AIInsight>>)
    requires IsShuffle(order)
    ensures r.Resolved? && r.value == GenerateAIInsights(order)
  {
    Resolved(GenerateAIInsights(order))
  }
}
