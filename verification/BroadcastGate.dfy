/**
 The gate on a node's broadcasts, as a function of the calls made to it: each call
 reads the clock, and is forced or not. The budget is a theorem about the calls alone.
 */
module BroadcastGate {
  import opened Prelude

  const BROADCAST_INTERVAL: UInt64 := 5000
  const MIN_GAP: int := 5001

  /** A call of the gate: forced (startup, first sight, leaving), or from the periodic update. */
  datatype Tick = Tick(at: UInt64, force: bool)

  /** Open on the first broadcast, or when more than 5000 ms have passed, with unsigned subtraction. */
  predicate Due(last: UInt64, now: UInt64) {
    last == 0 || Sub64(now, last) > BROADCAST_INTERVAL
  }

  predicate Opens(last: UInt64, t: Tick) {
    t.force || Due(last, t.at)
  }

  /** The times at which the gate opens, for a node that last broadcast at `last`. */
  function GatedBroadcasts(last: UInt64, ticks: seq<Tick>): seq<UInt64>
    decreases |ticks|
  {
    if |ticks| == 0 then []
    else if Opens(last, ticks[0]) then [ticks[0].at] + GatedBroadcasts(ticks[0].at, ticks[1..])
    else GatedBroadcasts(last, ticks[1..])
  }

  function Forced(ticks: seq<Tick>): nat {
    if |ticks| == 0 then 0 else Forced(ticks[..|ticks| - 1]) + if ticks[|ticks| - 1].force then 1 else 0
  }

  /** The readings are positive and never decrease. */
  predicate Ordered(ticks: seq<Tick>) {
    forall i, j :: 0 <= i <= j < |ticks| ==> 0 < ticks[i].at <= ticks[j].at
  }

  /** The gate one call later. */
  lemma {:induction false} GateAppend(last: UInt64, ticks: seq<Tick>, t: Tick)
    ensures var out := GatedBroadcasts(last, ticks);
            GatedBroadcasts(last, ticks + [t]) == out + if Opens(LastOf(last, out), t) then [t.at] else []
    decreases |ticks|
  {
    var longer := ticks + [t];
    if |ticks| == 0 {
      assert longer == [t];
    } else {
      assert longer[0] == ticks[0] && longer[1..] == ticks[1..] + [t];
      var next := if Opens(last, ticks[0]) then ticks[0].at else last;
      GateAppend(next, ticks[1..], t);
    }
  }

  lemma ForcedAppend(ticks: seq<Tick>, t: Tick)
    ensures Forced(ticks + [t]) == Forced(ticks) + if t.force then 1 else 0
  {
    assert (ticks + [t])[..|ticks|] == ticks;
  }

  /** What the calls so far have paid for: the first call is forced, the others open 5001 ms apart or are forced. */
  predicate WithinBudget(ticks: seq<Tick>, out: seq<UInt64>)
    requires |ticks| > 0
  {
    && 0 < |out| && ticks[0].at <= out[|out| - 1] <= ticks[|ticks| - 1].at
    && MIN_GAP * (|out| - Forced(ticks)) <= out[|out| - 1] - ticks[0].at
  }

  lemma BudgetStep(ticks: seq<Tick>, out: seq<UInt64>, t: Tick)
    requires |ticks| > 0 && WithinBudget(ticks, out)
    requires 0 < ticks[0].at && ticks[|ticks| - 1].at <= t.at
    ensures WithinBudget(ticks + [t], out + if Opens(LastOf(0, out), t) then [t.at] else [])
  {
    ForcedAppend(ticks, t);
    assert (ticks + [t])[0] == ticks[0];
  }

  lemma {:induction false} BudgetHolds(ticks: seq<Tick>)
    requires |ticks| > 0 && ticks[0].force && Ordered(ticks)
    ensures WithinBudget(ticks, GatedBroadcasts(0, ticks))
    decreases |ticks|
  {
    var n := |ticks| - 1;
    var init, t := ticks[..n], ticks[n];
    assert ticks == init + [t];
    GateAppend(0, init, t);
    if n == 0 {
      ForcedAppend(init, t);
    } else {
      BudgetHolds(init);
      assert 0 < ticks[0].at <= ticks[n - 1].at <= ticks[n].at;
      BudgetStep(init, GatedBroadcasts(0, init), t);
    }
  }

  /** Broadcasts are at most the forced calls plus one per 5001 ms between the first and the last call. */
  lemma GateBudget(ticks: seq<Tick>)
    requires |ticks| > 0 && ticks[0].force && Ordered(ticks)
    ensures |GatedBroadcasts(0, ticks)| <= Forced(ticks) + (ticks[|ticks| - 1].at - ticks[0].at) / 5001
  {
    BudgetHolds(ticks);
  }
}
