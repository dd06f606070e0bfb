/** The trainer page (`project/src/pages/TrainerDashboard.tsx`): the polled update of the
    overview metrics, the simulation statistics and the five most recent sessions, and the
    badge colours. Each `Math.random()` call is a draw in [0, 1) passed in; clock readings
    are millisecond timestamps and their printed forms are opaque labels. The score
    nudges are kept as exact reals: their rounding to one decimal is not modelled. */
module Trainer {
  import opened Decimal
  import Api

  datatype Metrics = Metrics(activeSimulations: int, totalParticipants: int, avgScore: real,
                             completionRate: int)

  datatype Simulation = Simulation(
    id: string, title: string, kind: string, difficulty: string, duration: string,
    participants: int, completionRate: int, averageScore: real, status: string,
    description: string)

  datatype Session = Session(participant: string, simulation: string, score: int,
                             duration: string, completed: string)

  /** How many sessions the page keeps. */
  const MaxSessions: nat := 5

  function InitialMetrics(): (m: Metrics)
    ensures m.completionRate <= 99
  {
    Metrics(12, 847, 89.5, 84)
  }

  function InitialSimulations(): (sims: seq<Simulation>)
    ensures |sims| == 3
    ensures forall i :: 0 <= i < |sims| ==> 0 <= sims[i].completionRate <= 100
  {
    [ Simulation("SIM-001", "Earthquake Response Protocol", "Natural Disaster", "Advanced",
                 "45 minutes", 24, 87, 92.0, "Active",
                 "Comprehensive earthquake response simulation with multi-agency coordination"),
      Simulation("SIM-002", "Pandemic Response Coordination", "Health Emergency", "Expert",
                 "60 minutes", 18, 78, 88.0, "Scheduled",
                 "Complex pandemic management scenario with resource allocation challenges"),
      Simulation("SIM-003", "Flood Evacuation Exercise", "Natural Disaster", "Intermediate",
                 "30 minutes", 32, 95, 89.0, "Completed",
                 "Large-scale evacuation coordination and logistics management") ]
  }

  /** The three sessions the page starts with; `completed` holds the labels of the times
      two, four and six hours before the mount. */
  function InitialSessions(completed: seq<string>): (ss: seq<Session>)
    requires |completed| == 3
    ensures |ss| == 3 <= MaxSessions
  {
    [ Session("Alpha Team", "Earthquake Response", 94, "42 min", completed[0]),
      Session("Bravo Squad", "Flood Evacuation", 87, "28 min", completed[1]),
      Session("Charlie Unit", "Health Crisis", 91, "55 min", completed[2]) ]
  }

  function Min(a: int, b: int): int {
    if a <= b then a else b
  }

  datatype MetricDraws = MetricDraws(active: real, participants: real, score: real, completion: real)

  /** The metrics update: one more active simulation when its draw exceeds 0.8, up to 19
      more participants, the average score moved by a draw in [-0.2, 0.3), and the
      completion rate raised by one when its draw exceeds 0.7 but never above 99. */
  function UpdateMetrics(m: Metrics, d: MetricDraws): (r: Metrics)
    ensures r.activeSimulations == m.activeSimulations + (if d.active > 0.8 then 1 else 0)
    ensures Api.Unit(d.participants) ==>
              m.totalParticipants <= r.totalParticipants < m.totalParticipants + 20
    ensures Api.Unit(d.score) ==> m.avgScore - 0.2 <= r.avgScore < m.avgScore + 0.3
    ensures r.completionRate <= 99
    ensures m.completionRate <= 99 ==> m.completionRate <= r.completionRate <= m.completionRate + 1
    ensures r.completionRate == m.completionRate + 1 <==> d.completion > 0.7 && m.completionRate < 99
  {
    Metrics(
      m.activeSimulations + (if d.active > 0.8 then 1 else 0),
      m.totalParticipants + Api.Scale(d.participants, 20),
      m.avgScore + (d.score * 0.5 - 0.2),
      Min(99, m.completionRate + (if d.completion > 0.7 then 1 else 0)))
  }

  datatype SimulationDraws = SimulationDraws(completion: real, score: real)

  /** One simulation's update: a completed one keeps its completion rate, any other gains
      one point when its draw exceeds 0.6 but never passes 100; the average score moves by
      a draw in [-0.1, 0.2); nothing else changes. */
  function UpdateSimulation(sim: Simulation, d: SimulationDraws): (r: Simulation)
    ensures r.(completionRate := sim.completionRate, averageScore := sim.averageScore) == sim
    ensures sim.status == "Completed" ==> r.completionRate == sim.completionRate
    ensures sim.status != "Completed" ==>
              r.completionRate == Min(100, sim.completionRate + (if d.completion > 0.6 then 1 else 0))
    ensures sim.completionRate <= 100 ==> sim.completionRate <= r.completionRate <= 100
    ensures Api.Unit(d.score) ==> sim.averageScore - 0.1 <= r.averageScore < sim.averageScore + 0.2
  {
    sim.(completionRate :=
           if sim.status != "Completed"
           then Min(100, sim.completionRate + (if d.completion > 0.6 then 1 else 0))
           else sim.completionRate,
         averageScore := sim.averageScore + (d.score * 0.3 - 0.1))
  }

  /** Every simulation updated in place, the list's length and order kept. */
  function UpdateSimulations(sims: seq<Simulation>, ds: seq<SimulationDraws>): (r: seq<Simulation>)
    requires |ds| == |sims|
    ensures |r| == |sims|
    ensures forall i :: 0 <= i < |sims| ==> r[i] == UpdateSimulation(sims[i], ds[i])
  {
    seq(|sims|, i requires 0 <= i < |sims| => UpdateSimulation(sims[i], ds[i]))
  }

  /** Completion rates in [0, 100] stay there, and never decrease, across any number of
      updates. */
  lemma {:induction false} CompletionRatesStayBounded(sims: seq<Simulation>, rounds: seq<seq<SimulationDraws>>, i: int)
    requires forall k :: 0 <= k < |rounds| ==> |rounds[k]| == |sims|
    requires 0 <= i < |sims| && 0 <= sims[i].completionRate <= 100
    ensures |Rounds(sims, rounds)| == |sims|
    ensures sims[i].completionRate <= Rounds(sims, rounds)[i].completionRate <= 100
    ensures Rounds(sims, rounds)[i].status == sims[i].status
    ensures sims[i].status == "Completed" ==>
              Rounds(sims, rounds)[i].completionRate == sims[i].completionRate
    decreases |rounds|
  {
    if rounds != [] {
      var next := UpdateSimulations(sims, rounds[0]);
      CompletionRatesStayBounded(next, rounds[1..], i);
    }
  }

  /** The simulations after one update per entry of `rounds`, oldest first. */
  function Rounds(sims: seq<Simulation>, rounds: seq<seq<SimulationDraws>>): (r: seq<Simulation>)
    requires forall k :: 0 <= k < |rounds| ==> |rounds[k]| == |sims|
    decreases |rounds|
  {
    if rounds == [] then sims
    else
      var next := UpdateSimulations(sims, rounds[0]);
      Rounds(next, rounds[1..])
  }

  function Participants(): seq<string> {
    ["Delta Squad", "Echo Team", "Foxtrot Unit", "Zeta Force"]
  }

  function Simulations(): seq<string> {
    ["Fire Hazard Drill", "Earthquake Response", "Pandemic Response", "Riot Control"]
  }

  function Pick(pool: seq<string>, r: real): (s: string)
    requires |pool| == 4
    ensures Api.Unit(r) ==> s in pool
  {
    var k := Api.Scale(r, 4);
    if 0 <= k < 4 then pool[k] else pool[0]
  }

  datatype SessionDraws = SessionDraws(add: real, participant: real, simulation: real,
                                       score: real, duration: real)

  /** A new session: a participant and a drill from their pools, a whole score from 75 to
      99 and a duration from 20 to 59 minutes, completed at the given time label. */
  function NewSession(d: SessionDraws, completed: string): (s: Session)
    ensures s.completed == completed
    ensures Api.Unit(d.participant) ==> s.participant in Participants()
    ensures Api.Unit(d.simulation) ==> s.simulation in Simulations()
    ensures Api.Unit(d.score) ==> 75 <= s.score <= 99
    ensures s.duration == IntToString(20 + Api.Scale(d.duration, 40)) + " min"
    ensures Api.Unit(d.duration) ==> 20 <= 20 + Api.Scale(d.duration, 40) <= 59
  {
    Session(Pick(Participants(), d.participant), Pick(Simulations(), d.simulation),
            75 + Api.Scale(d.score, 25), IntToString(20 + Api.Scale(d.duration, 40)) + " min",
            completed)
  }

  function Take<T>(s: seq<T>, n: nat): (r: seq<T>)
    ensures |r| == Min(|s|, n) && r == s[..|r|]
  {
    if |s| <= n then s else s[..n]
  }

  /** The new session goes first and at most four of the previous ones follow, so the
      list keeps the five newest. */
  function AddSession(sessions: seq<Session>, s: Session): (r: seq<Session>)
    ensures r == Take([s] + sessions, MaxSessions)
    ensures |r| <= MaxSessions && r[0] == s
    ensures r[1..] == sessions[..|r| - 1]
  {
    [s] + sessions[..Min(4, |sessions|)]
  }

  function Reverse<T>(s: seq<T>): (r: seq<T>)
    ensures |r| == |s|
    ensures forall i :: 0 <= i < |s| ==> r[i] == s[|s| - 1 - i]
  {
    if s == [] then [] else Reverse(s[1..]) + [s[0]]
  }

  /** Sessions added one after another, oldest first. */
  function AddSessions(sessions: seq<Session>, news: seq<Session>): seq<Session>
    decreases |news|
  {
    if news == [] then sessions else AddSessions(AddSession(sessions, news[0]), news[1..])
  }

  lemma TakeOfTake<T>(a: seq<T>, b: seq<T>, n: nat)
    ensures Take(a + Take(b, n), n) == Take(a + b, n)
  {
    var l, r := a + Take(b, n), a + b;
    assert forall i :: 0 <= i < |Take(l, n)| ==> Take(l, n)[i] == Take(r, n)[i];
  }

  /** After any run of additions the list holds exactly the five newest sessions, newest
      first: the additions in reverse order, then the original list. */
  lemma {:induction false} AddSessionsKeepsNewest(sessions: seq<Session>, news: seq<Session>)
    requires |sessions| <= MaxSessions
    ensures AddSessions(sessions, news) == Take(Reverse(news) + sessions, MaxSessions)
    decreases |news|
  {
    if news == [] {
      assert Reverse(news) == [];
    } else {
      var x, rest := news[0], news[1..];
      var added := AddSession(sessions, x);
      AddSessionsKeepsNewest(added, rest);
      TakeOfTake(Reverse(rest), [x] + sessions, MaxSessions);
      assert Reverse(news) == Reverse(rest) + [x];
      calc {
        AddSessions(sessions, news);
        AddSessions(added, rest);
        Take(Reverse(rest) + added, MaxSessions);
        Take(Reverse(rest) + ([x] + sessions), MaxSessions);
        { assert Reverse(rest) + ([x] + sessions) == Reverse(news) + sessions; }
        Take(Reverse(news) + sessions, MaxSessions);
      }
    }
  }

  /** A difficulty badge: green, yellow, orange and red from Beginner to Expert, grey for
      anything else. */
  function DifficultyColor(difficulty: string): (col: string)
    ensures difficulty == "Beginner" ==> col == "text-green-400 bg-green-500/20"
    ensures difficulty == "Intermediate" ==> col == "text-yellow-400 bg-yellow-500/20"
    ensures difficulty == "Advanced" ==> col == "text-orange-400 bg-orange-500/20"
    ensures difficulty == "Expert" ==> col == "text-red-400 bg-red-500/20"
    ensures difficulty !in ["Beginner", "Intermediate", "Advanced", "Expert"] ==>
              col == "text-gray-400 bg-gray-500/20"
  {
    match difficulty
    case "Beginner" => "text-green-400 bg-green-500/20"
    case "Intermediate" => "text-yellow-400 bg-yellow-500/20"
    case "Advanced" => "text-orange-400 bg-orange-500/20"
    case "Expert" => "text-red-400 bg-red-500/20"
    case _ => "text-gray-400 bg-gray-500/20"
  }

  /** A simulation's status colour. */
  function StatusColor(status: string): (col: string)
    ensures status == "Active" ==> col == "text-green-400"
    ensures status == "Scheduled" ==> col == "text-yellow-400"
    ensures status == "Completed" ==> col == "text-blue-400"
    ensures status !in ["Active", "Scheduled", "Completed"] ==> col == "text-gray-400"
  {
    match status
    case "Active" => "text-green-400"
    case "Scheduled" => "text-yellow-400"
    case "Completed" => "text-blue-400"
    case _ => "text-gray-400"
  }

  /** Every draw of one poll. */
  datatype UpdateDraws = UpdateDraws(metrics: MetricDraws, simulations: seq<SimulationDraws>,
                                     session: SessionDraws)

  /** The page's polled state. */
  class Dashboard {
    var lastPollTime: int
    var metrics: Metrics
    var simulations: seq<Simulation>
    var recentSessions: seq<Session>

    /** At most five sessions, a completion rate of at most 99, and simulation completion
        rates in [0, 100]. */
    ghost predicate Valid()
      reads this
    {
      && |recentSessions| <= MaxSessions
      && metrics.completionRate <= 99
      && forall i :: 0 <= i < |simulations| ==> 0 <= simulations[i].completionRate <= 100
    }

    constructor (now: int, earlier: seq<string>)
      requires |earlier| == 3
      ensures Valid()
      ensures lastPollTime == now && metrics == InitialMetrics()
      ensures simulations == InitialSimulations() && recentSessions == InitialSessions(earlier)
    {
      lastPollTime := now;
      metrics := InitialMetrics();
      simulations := InitialSimulations();
      recentSessions := InitialSessions(earlier);
    }

    /** `simulateDataUpdate`: update the metrics and every simulation, add a session when
        its draw exceeds 0.4, and record the poll time. */
    method SimulateDataUpdate(d: UpdateDraws, now: int, nowLabel: string)
      requires Valid() && |d.simulations| == |simulations|
      modifies this
      ensures Valid()
      ensures metrics == UpdateMetrics(old(metrics), d.metrics)
      ensures simulations == UpdateSimulations(old(simulations), d.simulations)
      ensures d.session.add > 0.4 ==>
                recentSessions == AddSession(old(recentSessions), NewSession(d.session, nowLabel))
      ensures d.session.add <= 0.4 ==> recentSessions == old(recentSessions)
      ensures lastPollTime == now
    {
      metrics := UpdateMetrics(metrics, d.metrics);
      simulations := UpdateSimulations(simulations, d.simulations);
      if d.session.add > 0.4 {
        recentSessions := AddSession(recentSessions, NewSession(d.session, nowLabel));
      }
      lastPollTime := now;
    }
  }
}
