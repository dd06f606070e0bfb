/** The chart history that the climate, finance, health and energy pages keep:
    `setChartData(prev => [...prev, point].slice(-10))`. */
module Rolling {

  /** How many points a chart keeps. */
  const Capacity: nat := 10

  function Min(a: int, b: int): int {
    if a <= b then a else b
  }

  /** The last `n` elements of `s` (all of `s` when it is shorter): `s.slice(-n)` for n > 0. */
  function KeepLast<T>(s: seq<T>, n: nat): (r: seq<T>)
    ensures |r| == Min(|s|, n)
    ensures forall k :: 0 <= k < |r| ==> r[k] == s[|s| - |r| + k]
  {
    if |s| <= n then s else s[|s| - n..]
  }

  /** One poll's update of the chart: append the new point, then keep the newest ten. */
  function Append<T>(window: seq<T>, p: T): (r: seq<T>)
    ensures |r| == Min(|window| + 1, Capacity)
    ensures r[|r| - 1] == p
    ensures |window| < Capacity ==> r == window + [p]
    ensures |window| >= Capacity ==> r == window[|window| + 1 - Capacity..] + [p]
  {
    var r := KeepLast(window + [p], Capacity);
    assert |window| >= Capacity ==> r == window[|window| + 1 - Capacity..] + [p];
    r
  }

  /** The chart after one poll per point of `ps`, oldest poll first. */
  function AppendAll<T>(window: seq<T>, ps: seq<T>): seq<T>
    decreases |ps|
  {
    if ps == [] then window else AppendAll(Append(window, ps[0]), ps[1..])
  }

  /** Trimming before appending more does not change the final window. */
  lemma KeepLastTwice<T>(s: seq<T>, t: seq<T>, n: nat)
    ensures KeepLast(KeepLast(s, n) + t, n) == KeepLast(s + t, n)
  {
    if |s| > n {
      var x := s + t;
      assert KeepLast(s, n) + t == x[|s| - n..];
      assert x[|s| - n..][|t|..] == x[|x| - n..];
    }
  }

  /** Whatever was polled, the chart holds exactly the newest ten points seen,
      old ones included, in the order they were appended. */
  lemma {:induction false} AppendAllKeepsNewest<T>(window: seq<T>, ps: seq<T>)
    requires |window| <= Capacity
    ensures AppendAll(window, ps) == KeepLast(window + ps, Capacity)
    decreases |ps|
  {
    if ps == [] {
      assert window + ps == window;
    } else {
      var w' := Append(window, ps[0]);
      AppendAllKeepsNewest(w', ps[1..]);
      KeepLastTwice(window + [ps[0]], ps[1..], Capacity);
      assert window + [ps[0]] + ps[1..] == window + ps;
    }
  }

  /** After at least ten polls the chart is exactly the ten newest points. */
  lemma {:induction false} AppendAllSaturates<T>(window: seq<T>, ps: seq<T>)
    requires |window| <= Capacity && |ps| >= Capacity
    ensures AppendAll(window, ps) == ps[|ps| - Capacity..]
  {
    AppendAllKeepsNewest(window, ps);
    var all := window + ps;
    assert KeepLast(all, Capacity) == all[|all| - Capacity..];
    assert all[|all| - Capacity..] == ps[|ps| - Capacity..];
  }
}
