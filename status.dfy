/** The three-level severity shown on every card, the trend arrow, and the two
    aggregation rules the pages apply to lists of severities. */
module Status {

  datatype Severity = Normal | Warning | Critical

  datatype Trend = Up | Down | Neutral

  /** Urgency order: normal < warning < critical. */
  function Rank(s: Severity): nat {
    match s
    case Normal => 0
    case Warning => 1
    case Critical => 2
  }

  /** Critical if any entry is critical, else warning if any is warning, else normal:
      the rule of the climate and health alert cards (`some(a => a.severity === ...)`). */
  function Aggregate(ss: seq<Severity>): (r: Severity)
    ensures forall s :: s in ss ==> Rank(s) <= Rank(r)
    ensures r == Normal || r in ss
  {
    if Critical in ss then Critical else if Warning in ss then Warning else Normal
  }

  /** The worst severity of a list, computed entry by entry: a reference definition
      of `Aggregate` independent of its membership tests. */
  function Worst(ss: seq<Severity>): Severity {
    if ss == [] then Normal
    else
      var rest := Worst(ss[1..]);
      if Rank(ss[0]) >= Rank(rest) then ss[0] else rest
  }

  lemma {:induction false} AggregateIsWorst(ss: seq<Severity>)
    ensures Aggregate(ss) == Worst(ss)
  {
    if ss != [] {
      AggregateIsWorst(ss[1..]);
      assert ss == [ss[0]] + ss[1..];
      assert forall s :: s in ss <==> s == ss[0] || s in ss[1..];
    }
  }

  /** How many entries equal `v`: `filter(s => s === v).length`. */
  function Count(ss: seq<Severity>, v: Severity): (n: nat)
    ensures n == multiset(ss)[v]
    ensures n <= |ss|
    ensures n > 0 <==> v in ss
  {
    if ss == [] then 0
    else
      assert ss == [ss[0]] + ss[1..];
      (if ss[0] == v then 1 else 0) + Count(ss[1..], v)
  }

  /** Two different severities are never counted for the same entry. */
  lemma {:induction false} CountsDisjoint(ss: seq<Severity>, a: Severity, b: Severity)
    requires a != b
    ensures Count(ss, a) + Count(ss, b) <= |ss|
  {
    if ss != [] {
      CountsDisjoint(ss[1..], a, b);
    }
  }
}
