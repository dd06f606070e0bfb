/** The overview page (`project/src/pages/Overview/OverviewDashboard.tsx`): one combined
    fetch of all five producers, each domain's status, the counts and the overall status. */
module Overview {
  import opened Wrappers
  import opened Status
  import opened Api
  import Climate
  import Finance
  import Health
  import Energy

  /** The status of each monitored domain. */
  datatype SystemStatus = SystemStatus(climate: Severity, finance: Severity, health: Severity, energy: Severity)

  /** Climate is a warning when either the temperature or the CO2 level is high; the
      overview never calls it critical. */
  function ClimateStatus(c: ClimateData): (s: Severity)
    ensures s != Critical
    ensures s == Warning <==> c.temperature > 18.0 || c.co2Level > 420.0
  {
    if c.temperature > 18.0 || c.co2Level > 420.0 then Warning else Normal
  }

  function FinanceStatus(f: FinanceData): (s: Severity)
    ensures s == Critical <==> f.volatilityIndex > 25.0
    ensures s == Warning <==> 20.0 < f.volatilityIndex <= 25.0
  {
    if f.volatilityIndex > 25.0 then Critical else if f.volatilityIndex > 20.0 then Warning else Normal
  }

  function HealthStatus(h: HealthData): (s: Severity)
    ensures s == Critical <==> |h.outbreaks| > 3
    ensures s == Warning <==> 1 < |h.outbreaks| <= 3
  {
    if |h.outbreaks| > 3 then Critical else if |h.outbreaks| > 1 then Warning else Normal
  }

  function EnergyStatus(e: EnergyData): (s: Severity)
    ensures s != Critical
    ensures s == Warning <==> e.oilPrice > 85.0
  {
    if e.oilPrice > 85.0 then Warning else Normal
  }

  function StatusOf(c: ClimateData, f: FinanceData, h: HealthData, e: EnergyData): SystemStatus {
    SystemStatus(ClimateStatus(c), FinanceStatus(f), HealthStatus(h), EnergyStatus(e))
  }

  /** The domain statuses as a list, in the page's order (`Object.values(systemStatus)`). */
  function Statuses(s: SystemStatus): seq<Severity> {
    [s.climate, s.finance, s.health, s.energy]
  }

  /** The number of critical domains shown on the page. */
  function CriticalCount(s: SystemStatus): (n: nat)
    ensures n == multiset(Statuses(s))[Critical]
    ensures n > 0 <==> Critical in Statuses(s)
  {
    Count(Statuses(s), Critical)
  }

  /** The number of domains in warning shown on the page. */
  function WarningCount(s: SystemStatus): (n: nat)
    ensures n == multiset(Statuses(s))[Warning]
    ensures n > 0 <==> Warning in Statuses(s)
  {
    Count(Statuses(s), Warning)
  }

  /** The overall status, decided on the counts: it is the same rule as an alert card's,
      the worst of the four domain statuses. */
  function OverallStatus(s: SystemStatus): (r: Severity)
    ensures r == Aggregate(Statuses(s))
    ensures r == Critical <==> Critical in Statuses(s)
    ensures r == Warning <==> Critical !in Statuses(s) && Warning in Statuses(s)
  {
    if CriticalCount(s) > 0 then Critical else if WarningCount(s) > 0 then Warning else Normal
  }

  /** No domain is counted twice: critical and warning domains together are at most four. */
  lemma CountsBounded(s: SystemStatus)
    ensures CriticalCount(s) + WarningCount(s) <= 4
  {
    CountsDisjoint(Statuses(s), Critical, Warning);
  }

  /** The overview's rules against the domain pages' cards: finance, health and energy
      repeat the volatility, outbreaks and oil cards; climate merges the temperature card
      with the CO2 card, but shows a critical CO2 level only as a warning and ignores a
      CO2 warning. */
  lemma StatusesMatchCards(c: ClimateData, f: FinanceData, h: HealthData, e: EnergyData)
    ensures FinanceStatus(f) == Finance.VixSeverity(f.volatilityIndex)
    ensures HealthStatus(h) == Health.OutbreaksSeverity(|h.outbreaks|)
    ensures EnergyStatus(e) == Energy.OilSeverity(e.oilPrice)
    ensures ClimateStatus(c) == Warning <==>
              Climate.TemperatureSeverity(c.temperature) == Warning || Climate.Co2Severity(c.co2Level) == Critical
  {
  }

  /** With generated snapshots the health domain is always a warning (there are always two
      outbreaks) and nothing is ever critical, so the overall status is always a warning. */
  lemma GeneratedOverallIsWarning(c: ClimateData, f: FinanceData, h: HealthData, e: EnergyData)
    requires FinanceInRange(f) && HealthShape(h)
    ensures HealthStatus(h) == Warning
    ensures CriticalCount(StatusOf(c, f, h, e)) == 0
    ensures OverallStatus(StatusOf(c, f, h, e)) == Warning
  {
    var s := StatusOf(c, f, h, e);
    assert Statuses(s)[2] == Warning;
  }

  /** The page's state: one cell per producer, the insights, the loading flag and the time
      of the last complete fetch. */
  class Dashboard {
    var climate: Option<ClimateData>
    var finance: Option<FinanceData>
    var health: Option<HealthData>
    var energy: Option<EnergyData>
    var insights: seq<AIInsight>
    var loading: bool
    var timestamp: int

    constructor (now: int)
      ensures climate == None && finance == None && health == None && energy == None
      ensures insights == [] && loading && timestamp == now
    {
      climate, finance, health, energy := None, None, None, None;
      insights, loading, timestamp := [], true, now;
    }

    /** The page renders its body only when not loading and all four snapshots are in. */
    predicate Ready()
      reads this
    {
      !loading && climate.Some? && finance.Some? && health.Some? && energy.Some?
    }

    /** The status panel, available once the page is ready. */
    function Status(): (s: SystemStatus)
      reads this
      requires Ready()
      ensures s == StatusOf(climate.value, finance.value, health.value, energy.value)
    {
      StatusOf(climate.value, finance.value, health.value, energy.value)
    }

    /** `fetchAllData` up to its await: raise the loading flag. */
    method BeginFetchAll()
      modifies this
      ensures loading && !Ready()
      ensures climate == old(climate) && finance == old(finance) && health == old(health)
      ensures energy == old(energy) && insights == old(insights) && timestamp == old(timestamp)
    {
      loading := true;
    }

    /** `fetchAllData` once `Promise.all` over the five producers settled. If every producer
        resolved, all five cells and the timestamp are set and loading ends; if any one
        rejected, `Promise.all` rejects, nothing after the await runs, and the page keeps
        showing its loading placeholder. */
    method CompleteFetchAll(
      c: Response<ClimateData>, f: Response<FinanceData>, h: Response<HealthData>,
      e: Response<EnergyData>, ai: Response<seq<AIInsight>>, now: int)
      requires loading
      modifies this
      ensures c.Resolved? && f.Resolved? && h.Resolved? && e.Resolved? && ai.Resolved? ==>
                && climate == Some(c.value) && finance == Some(f.value)
                && health == Some(h.value) && energy == Some(e.value)
                && insights == ai.value && timestamp == now && !loading && Ready()
      ensures !(c.Resolved? && f.Resolved? && h.Resolved? && e.Resolved? && ai.Resolved?) ==>
                && climate == old(climate) && finance == old(finance)
                && health == old(health) && energy == old(energy)
                && insights == old(insights) && timestamp == old(timestamp)
                && loading && !Ready()
    {
      if c.Resolved? && f.Resolved? && h.Resolved? && e.Resolved? && ai.Resolved? {
        climate := Some(c.value);
        finance := Some(f.value);
        health := Some(h.value);
        energy := Some(e.value);
        insights := ai.value;
        timestamp := now;
        loading := false;
      }
    }
  }

  /** Fed by `apiService`, whose producers never reject, the combined fetch always lands
      and the page shows the overall status of the generated snapshots: a warning. */
  method FetchFromApi(
    page: Dashboard, cd: ClimateDraws, fd: FinanceDraws, hd: HealthDraws, ed: EnergyDraws,
    order: seq<nat>, now: int)
    returns (overall: Severity)
    requires IsShuffle(order) && fd.Valid()
    modifies page
    ensures page.Ready()
    ensures overall == OverallStatus(page.Status()) == Warning
  {
    page.BeginFetchAll();
    page.CompleteFetchAll(
      GetClimateData(cd, now), GetFinanceData(fd, now), GetHealthData(hd, now),
      GetEnergyData(ed, now), GetAIInsights(order), now);
    GeneratedOverallIsWarning(page.climate.value, page.finance.value, page.health.value, page.energy.value);
    overall := OverallStatus(page.Status());
  }
}
