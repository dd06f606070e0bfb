/** The responder page (`project/src/pages/ResponderDashboard.tsx`): the polled incident
    update, whose only change besides the update stamp is the first incident's deployed
    resources cycling through 12, 13, 14, 15, and the colour rules. Clock readings are
    millisecond timestamps and their printed forms opaque labels. */
module Responder {
  datatype Incident = Incident(
    id: string, kind: string, title: string, location: string, severity: string,
    status: string, priority: int, timeElapsed: string, resourcesDeployed: int,
    peopleAffected: int, lastUpdate: string)

  datatype Resource = Resource(kind: string, available: int, deployed: int, total: int, color: string)

  /** The three incidents the page starts with, all stamped with the mount's time stamp. */
  function InitialIncidents(stamp: string): (incs: seq<Incident>)
    ensures |incs| == 3 && incs[0].id == "INC-001" && incs[0].resourcesDeployed == 12
    ensures forall i :: 0 <= i < 3 ==> incs[i].lastUpdate == stamp
  {
    [ Incident("INC-001", "Natural Disaster", "Earthquake Response - Zone Alpha", "San Andreas, CA",
               "Critical", "Active", 1, "2h 34m", 12, 15000, stamp),
      Incident("INC-002", "Health Emergency", "Disease Outbreak Containment",
               "Metro City Hospital District", "High", "Monitoring", 2, "6h 12m", 8, 2500, stamp),
      Incident("INC-003", "Conflict", "Evacuation Operation - Sector 7", "Border Region East",
               "Medium", "Preparation", 3, "45m", 5, 800, stamp) ]
  }

  /** The fixed resource table. */
  function Resources(): (rs: seq<Resource>)
    ensures |rs| == 4
  {
    [ Resource("Medical Teams", 24, 12, 36, "text-blue-400"),
      Resource("Emergency Vehicles", 18, 8, 26, "text-green-400"),
      Resource("Supply Stations", 15, 5, 20, "text-purple-400"),
      Resource("Coordination Centers", 6, 3, 9, "text-orange-400") ]
  }

  /** The first incident's next resource count: one more below 15, back to 12 otherwise. */
  function NextResources(x: int): (y: int)
    ensures x < 15 ==> y == x + 1
    ensures x >= 15 ==> y == 12
    ensures 12 <= x <= 15 ==> 12 <= y <= 15 && y != x
  {
    if x < 15 then x + 1 else 12
  }

  /** One poll's change to one incident: only INC-001's resources move, every incident gets
      the new stamp, and nothing else changes. */
  function UpdateIncident(inc: Incident, stamp: string): (r: Incident)
    ensures r.(resourcesDeployed := inc.resourcesDeployed, lastUpdate := inc.lastUpdate) == inc
    ensures r.lastUpdate == stamp
    ensures inc.id == "INC-001" ==> r.resourcesDeployed == NextResources(inc.resourcesDeployed)
    ensures inc.id != "INC-001" ==> r.resourcesDeployed == inc.resourcesDeployed
  {
    inc.(resourcesDeployed := if inc.id == "INC-001" then NextResources(inc.resourcesDeployed)
                               else inc.resourcesDeployed,
         lastUpdate := stamp)
  }

  /** `simulateDataUpdate` on the incident list: every incident updated in place. */
  function UpdateIncidents(incs: seq<Incident>, stamp: string): (r: seq<Incident>)
    ensures |r| == |incs|
    ensures forall i :: 0 <= i < |incs| ==> r[i] == UpdateIncident(incs[i], stamp)
  {
    seq(|incs|, i requires 0 <= i < |incs| => UpdateIncident(incs[i], stamp))
  }

  /** The first incident's count after n polls. */
  function Iterate(x: int, n: nat): int
    decreases n
  {
    if n == 0 then x else Iterate(NextResources(x), n - 1)
  }

  /** From any count in [12, 15] the cycle is closed: after n polls the count is 12 plus
      (its offset from 12 plus n) modulo 4. */
  lemma {:induction false} IterateCycles(x: int, n: nat)
    requires 12 <= x <= 15
    ensures Iterate(x, n) == 12 + (x - 12 + n) % 4
    decreases n
  {
    if n > 0 {
      IterateCycles(NextResources(x), n - 1);
      assert (NextResources(x) - 12 + (n - 1)) % 4 == (x - 12 + n) % 4 by {
        if x < 15 {
          assert NextResources(x) - 12 + (n - 1) == x - 12 + n;
        } else {
          assert NextResources(x) - 12 + (n - 1) == (x - 12 + n) - 4;
        }
      }
    }
  }

  /** Every four polls the count is back where it was. */
  lemma PeriodFour(x: int, n: nat)
    requires 12 <= x <= 15
    ensures Iterate(x, n + 4) == Iterate(x, n)
    ensures 12 <= Iterate(x, n) <= 15
  {
    IterateCycles(x, n);
    IterateCycles(x, n + 4);
    assert (x - 12 + n + 4) % 4 == (x - 12 + n) % 4;
  }

  /** The "Active Incidents" card counts the list, a number no poll changes. */
  function ActiveIncidentsCard(incs: seq<Incident>): (n: nat)
    ensures n == |incs|
    ensures forall stamp :: n == |UpdateIncidents(incs, stamp)|
  {
    |incs|
  }

  /** The share of a resource that is deployed, in per cent. */
  function Utilisation(deployed: int, total: int): real
    requires total > 0
  {
    (deployed as real / total as real) * 100.0
  }

  /** Comparing the percentage with a whole threshold is comparing whole numbers. */
  lemma AboveThreshold(deployed: int, total: int, c: int)
    requires total > 0
    ensures Utilisation(deployed, total) > c as real <==> deployed * 100 > c * total
  {
    var t := total as real;
    var u := Utilisation(deployed, total);
    var scaled := (deployed * 100) as real;
    assert u * t == scaled;
    CompareScaled(u, c as real, t);
    assert c as real * t == (c * total) as real;
    assert u > c as real <==> scaled > (c * total) as real;
  }

  /** A utilisation bar's colour: red above 80 %, yellow above 60 %, green otherwise. */
  function UtilisationColor(deployed: int, total: int): (col: string)
    requires total > 0
    ensures col == "bg-red-500" <==> deployed * 100 > 80 * total
    ensures col == "bg-yellow-500" <==> 60 * total < deployed * 100 <= 80 * total
    ensures col == "bg-green-500" <==> deployed * 100 <= 60 * total
  {
    var utilisation := Utilisation(deployed, total);
    AboveThreshold(deployed, total, 80);
    AboveThreshold(deployed, total, 60);
    if utilisation > 80.0 then "bg-red-500" else if utilisation > 60.0 then "bg-yellow-500" else "bg-green-500"
  }

  lemma CompareScaled(u: real, c: real, t: real)
    requires t > 0.0
    ensures u > c <==> u * t > c * t
  {
    if u > c {
      assert (u - c) * t > 0.0;
    } else {
      assert (c - u) * t >= 0.0;
    }
  }

  /** The resource table is consistent (available plus deployed is the total) and every bar
      is green. */
  lemma ResourcesConsistentAndGreen(i: int)
    requires 0 <= i < 4
    ensures Resources()[i].available + Resources()[i].deployed == Resources()[i].total
    ensures UtilisationColor(Resources()[i].deployed, Resources()[i].total) == "bg-green-500"
  {
  }

  /** An incident's severity badge. */
  function SeverityColor(severity: string): (col: string)
    ensures severity == "Critical" ==> col == "text-red-400 bg-red-500/20 border-red-500/50"
    ensures severity == "High" ==> col == "text-orange-400 bg-orange-500/20 border-orange-500/50"
    ensures severity == "Medium" ==> col == "text-yellow-400 bg-yellow-500/20 border-yellow-500/50"
    ensures severity !in ["Critical", "High", "Medium"] ==>
              col == "text-green-400 bg-green-500/20 border-green-500/50"
  {
    match severity
    case "Critical" => "text-red-400 bg-red-500/20 border-red-500/50"
    case "High" => "text-orange-400 bg-orange-500/20 border-orange-500/50"
    case "Medium" => "text-yellow-400 bg-yellow-500/20 border-yellow-500/50"
    case _ => "text-green-400 bg-green-500/20 border-green-500/50"
  }

  /** An incident's status colour. */
  function StatusColor(status: string): (col: string)
    ensures status == "Active" ==> col == "text-red-400"
    ensures status == "Monitoring" ==> col == "text-yellow-400"
    ensures status == "Preparation" ==> col == "text-blue-400"
    ensures status !in ["Active", "Monitoring", "Preparation"] ==> col == "text-green-400"
  {
    match status
    case "Active" => "text-red-400"
    case "Monitoring" => "text-yellow-400"
    case "Preparation" => "text-blue-400"
    case _ => "text-green-400"
  }

  /** The page's polled state. */
  class Dashboard {
    var lastPollTime: int
    var activeIncidents: seq<Incident>

    /** The first incident is INC-001 and its count stays in [12, 15]. */
    ghost predicate Valid()
      reads this
    {
      && |activeIncidents| == 3
      && activeIncidents[0].id == "INC-001"
      && 12 <= activeIncidents[0].resourcesDeployed <= 15
    }

    constructor (now: int, stamp: string)
      ensures Valid()
      ensures lastPollTime == now && activeIncidents == InitialIncidents(stamp)
    {
      lastPollTime := now;
      activeIncidents := InitialIncidents(stamp);
    }

    /** `simulateDataUpdate`: update every incident and record the poll time. */
    method SimulateDataUpdate(now: int, stamp: string)
      requires Valid()
      modifies this
      ensures Valid()
      ensures activeIncidents == UpdateIncidents(old(activeIncidents), stamp)
      ensures ActiveIncidentsCard(activeIncidents) == ActiveIncidentsCard(old(activeIncidents))
      ensures lastPollTime == now
    {
      activeIncidents := UpdateIncidents(activeIncidents, stamp);
      lastPollTime := now;
    }
  }
}
