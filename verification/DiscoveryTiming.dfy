/**
 A live peer is never pruned. The sender's side is the broadcast gate run over
 its ticks; the receiver's side is the history of its table. Times of both
 sides are on one scale.
 */
module DiscoveryTiming {
  import opened Prelude
  import opened DiscoveryPeers
  import opened DiscoveryTable
  import opened BroadcastGate
  import opened DiscoveryService

  // ---------- The sender: how far apart its broadcasts are ----------

  function Times(ticks: seq<Tick>): seq<UInt64> {
    if |ticks| == 0 then [] else [ticks[0].at] + Times(ticks[1..])
  }

  /** Each time is no earlier than the one before, and later by at most `gap`. */
  predicate Paced(times: seq<UInt64>, gap: nat) {
    forall i :: 0 <= i < |times| - 1 ==> times[i] <= times[i + 1] <= times[i] + gap
  }

  /** The same for the times that follow `prev`, one by one. */
  predicate Follows(prev: UInt64, times: seq<UInt64>, gap: nat)
    decreases |times|
  {
    times != [] ==> prev <= times[0] <= prev + gap && Follows(times[0], times[1..], gap)
  }

  lemma {:induction false} FollowsIsPaced(prev: UInt64, times: seq<UInt64>, gap: nat)
    requires Follows(prev, times, gap)
    ensures Paced([prev] + times, gap)
    decreases |times|
  {
    if times != [] {
      FollowsIsPaced(times[0], times[1..], gap);
      assert [times[0]] + times[1..] == times;
      forall i | 0 <= i < |times| ensures ([prev] + times)[i] <= ([prev] + times)[i + 1] <= ([prev] + times)[i] + gap {
        assert i > 0 ==> times[i - 1] <= times[i - 1 + 1] <= times[i - 1] + gap;
      }
    }
  }

  /** Ticks at most `d` apart make broadcasts at most 5000 + d apart, the last one no older than 5000. */
  lemma {:induction false} BroadcastsArePaced(last: UInt64, before: UInt64, ticks: seq<Tick>, d: nat)
    requires 0 < last <= before <= last + BROADCAST_INTERVAL
    requires Follows(before, Times(ticks), d)
    ensures Follows(last, GatedBroadcasts(last, ticks), 5000 + d)
    ensures GatedBroadcasts(last, ticks) != [] ==> before <= GatedBroadcasts(last, ticks)[0]
    ensures LastOf(before, Times(ticks)) <= LastOf(last, GatedBroadcasts(last, ticks)) + BROADCAST_INTERVAL
    decreases |ticks|
  {
    if |ticks| > 0 {
      var now, rest := ticks[0].at, ticks[1..];
      var due := ticks[0].force || Due(last, now);
      assert ([now] + Times(rest))[1..] == Times(rest);
      BroadcastsArePaced(if due then now else last, now, rest, d);
      assert LastOf(before, Times(ticks)) == LastOf(now, Times(rest));
      if due {
        var tail := GatedBroadcasts(now, rest);
        assert GatedBroadcasts(last, ticks) == [now] + tail && ([now] + tail)[1..] == tail;
        assert LastOf(last, [now] + tail) == LastOf(now, tail);
      }
    }
  }

  // ---------- The receiver ----------

  predicate HeardAt(log: seq<Event>, id: string, t: UInt64) {
    exists i :: 0 <= i < |log| && log[i].Heard? && log[i].peer.deviceId == id && log[i].seen == t
  }

  predicate NeverLeft(log: seq<Event>, id: string) {
    forall i :: 0 <= i < |log| ==> log[i] != Left(id)
  }

  /** A later announcement only makes the last word newer. */
  lemma {:induction false} LastWordIsNewest(log: seq<Event>, id: string, t: UInt64)
    requires Monotone(log) && NeverLeft(log, id) && HeardAt(log, id, t)
    ensures LastWord(log, id).Some? && t <= LastWord(log, id).value.seen && t <= LastSweep(log)
  {
    var init, ev := log[..|log| - 1], log[|log| - 1];
    if ev.Heard? && ev.peer.deviceId == id && ev.seen == t {
    } else {
      var i :| 0 <= i < |log| && log[i].Heard? && log[i].peer.deviceId == id && log[i].seen == t;
      assert init[i] == log[i];
      LastWordIsNewest(init, id, t);
    }
  }

  /**
   How the broadcasts `b` of a live sender reach this receiver by the time `now`:
   arrival times are at most `delay` late, no two consecutive broadcasts are lost,
   and what must have arrived before `now` was heard.
   */
  predicate Delivers(log: seq<Event>, id: string, b: seq<UInt64>, arrival: seq<Option<UInt64>>, delay: nat, now: UInt64) {
    && |arrival| == |b| > 0
    && (forall i :: 0 <= i < |b| && arrival[i].Some? ==> b[i] <= arrival[i].value <= b[i] + delay)
    && (forall i :: 0 <= i < |b| - 1 ==> arrival[i].Some? || arrival[i + 1].Some?)
    && (forall i :: 0 <= i < |b| && arrival[i].Some? && b[i] + delay < now ==> HeardAt(log, id, arrival[i].value))
    && (forall t :: HeardAt(log, id, t) ==> b[0] <= t)
  }

  /** The last broadcast that must have arrived before `now`; |b| when there is none. */
  function LastDue(b: seq<UInt64>, delay: nat, now: UInt64): (k: nat)
    ensures k <= |b|
    ensures k < |b| ==> b[k] + delay < now && forall i :: k < i < |b| ==> now <= b[i] + delay
    ensures k == |b| ==> forall i :: 0 <= i < |b| ==> now <= b[i] + delay
  {
    if b == [] then 0
    else
      var n := |b| - 1;
      if b[n] + delay < now then n
      else
        var k := LastDue(b[..n], delay, now);
        if k == n then n + 1 else k
  }

  /** By then some announcement was heard no more than delay + two gaps ago. */
  lemma RecentlyHeard(log: seq<Event>, id: string, b: seq<UInt64>, arrival: seq<Option<UInt64>>, delay: nat, gap: nat,
                      now: UInt64)
    returns (t: UInt64)
    requires Delivers(log, id, b, arrival, delay, now) && Paced(b, gap)
    requires now <= b[|b| - 1] + gap
    requires exists first :: HeardAt(log, id, first)
    ensures HeardAt(log, id, t) && now <= t + delay + 2 * gap
  {
    var k := LastDue(b, delay, now);
    var first: UInt64 :| HeardAt(log, id, first);
    if k == |b| {
      t := first;
    } else {
      if k + 1 < |b| {
        assert b[k] <= b[k + 1] <= b[k] + gap;
        assert now <= b[k + 1] + delay;
      }
      if arrival[k].Some? {
        t := arrival[k].value;
      } else if k > 0 {
        var i := k - 1;
        assert arrival[i + 1].None? && b[i] <= b[i + 1] <= b[i] + gap;
        t := arrival[i].value;
      } else {
        t := first;
      }
    }
  }

  /**
   Once seen, a live peer is listed at every later step: for every monotone log in
   which it never left, whenever the log's latest prune is no later than the time
   up to which deliveries are known.
   */
  lemma LivePeerStaysListed(log: seq<Event>, id: string, b: seq<UInt64>, arrival: seq<Option<UInt64>>, delay: nat,
                            gap: nat)
    requires Monotone(log) && NeverLeft(log, id)
    requires Delivers(log, id, b, arrival, delay, LastSweep(log)) && Paced(b, gap)
    requires LastSweep(log) <= b[|b| - 1] + gap
    requires exists first :: HeardAt(log, id, first)
    requires 2 * gap + delay <= 15000
    ensures Lists(Run(log), id)
  {
    var t := RecentlyHeard(log, id, b, arrival, delay, gap, LastSweep(log));
    LastWordIsNewest(log, id, t);
    MonotoneHistory(log, id);
  }

  lemma {:induction false} MonotonePrefix(log: seq<Event>, n: nat)
    requires Monotone(log) && n <= |log|
    ensures Monotone(log[..n]) && LastSweep(log[..n]) <= LastSweep(log)
    decreases |log|
  {
    if n == |log| {
      assert log[..n] == log;
    } else {
      assert log[..|log| - 1][..n] == log[..n];
      MonotonePrefix(log[..|log| - 1], n);
    }
  }

  lemma HeardLate(log: seq<Event>, n: nat, i: nat)
    requires Monotone(log) && n <= i < |log| && log[i].Heard?
    ensures LastSweep(log[..n]) <= log[i].seen
  {
    MonotonePrefix(log, i + 1);
    assert log[..i + 1][..i] == log[..i];
    MonotonePrefix(log[..i], n);
    assert log[..i][..n] == log[..n];
  }

  /** An announcement stamped before the latest prune of a prefix is in that prefix. */
  lemma HeardEarly(log: seq<Event>, n: nat, id: string, t: UInt64)
    requires Monotone(log) && n <= |log| && HeardAt(log, id, t) && t < LastSweep(log[..n])
    ensures HeardAt(log[..n], id, t)
  {
    var i :| 0 <= i < |log| && log[i].Heard? && log[i].peer.deviceId == id && log[i].seen == t;
    if n <= i {
      HeardLate(log, n, i);
    }
    assert log[..n][i] == log[i];
  }

  /**
   The premises once, for a whole log: from the moment a live peer is first heard it is
   listed after every later event, not only at the end.
   */
  lemma LivePeerStaysThroughout(log: seq<Event>, id: string, b: seq<UInt64>, arrival: seq<Option<UInt64>>, delay: nat,
                                gap: nat, first: nat, n: nat)
    requires Monotone(log) && NeverLeft(log, id)
    requires Delivers(log, id, b, arrival, delay, LastSweep(log)) && Paced(b, gap)
    requires LastSweep(log) <= b[|b| - 1] + gap
    requires 2 * gap + delay <= 15000
    requires first < n <= |log| && log[first].Heard? && log[first].peer.deviceId == id
    ensures Lists(Run(log[..n]), id)
  {
    var prefix := log[..n];
    MonotonePrefix(log, n);
    assert prefix[first] == log[first] && HeardAt(prefix, id, log[first].seen);
    forall t | HeardAt(prefix, id, t) ensures HeardAt(log, id, t) {
      var i :| 0 <= i < |prefix| && prefix[i].Heard? && prefix[i].peer.deviceId == id && prefix[i].seen == t;
      assert log[i] == prefix[i];
    }
    forall i | 0 <= i < |b| && arrival[i].Some? && b[i] + delay < LastSweep(prefix)
      ensures HeardAt(prefix, id, arrival[i].value)
    {
      HeardEarly(log, n, id, arrival[i].value);
    }
    LivePeerStaysListed(prefix, id, b, arrival, delay, gap);
  }

  /**
   The same from the calls of the sender's gate: its startup call, then calls at most
   `d` apart, forced or periodic, with 2(5000 + d) + delay within the timeout.
   */
  lemma TickingPeerStaysListed(log: seq<Event>, id: string, gate: seq<Tick>, arrival: seq<Option<UInt64>>, delay: nat,
                               d: nat, first: nat, n: nat)
    requires Monotone(log) && NeverLeft(log, id)
    requires |gate| > 0 && gate[0].force && 0 < gate[0].at && Follows(gate[0].at, Times(gate[1..]), d)
    requires Delivers(log, id, GatedBroadcasts(0, gate), arrival, delay, LastSweep(log))
    requires LastSweep(log) <= gate[|gate| - 1].at + d
    requires 2 * (5000 + d) + delay <= 15000
    requires first < n <= |log| && log[first].Heard? && log[first].peer.deviceId == id
    ensures Lists(Run(log[..n]), id)
  {
    var start, ticks := gate[0].at, gate[1..];
    BroadcastsArePaced(start, start, ticks, d);
    FollowsIsPaced(start, GatedBroadcasts(start, ticks), BROADCAST_INTERVAL + d);
    LastTick(start, ticks);
    LivePeerStaysThroughout(log, id, [start] + GatedBroadcasts(start, ticks), arrival, delay, BROADCAST_INTERVAL + d,
                            first, n);
  }

  lemma {:induction false} LastTick(start: UInt64, ticks: seq<Tick>)
    ensures LastOf(start, Times(ticks)) == if |ticks| == 0 then start else ticks[|ticks| - 1].at
    decreases |ticks|
  {
    if |ticks| > 0 {
      LastTick(ticks[0].at, ticks[1..]);
    }
  }

  /**
   For a running sender and what it sent: if the calls of its gate were at most `d` apart
   and its broadcasts reach a receiver in time, the receiver lists it after every event
   from the first announcement on.
   */
  lemma RunningSenderStaysListed(s: DiscoveryService, log: seq<Event>, arrival: seq<Option<UInt64>>, delay: nat, d: nat,
                                 first: nat, n: nat)
    requires s.Valid() && s.hasClient
    requires 0 < s.gate[0].at && Follows(s.gate[0].at, Times(s.gate[1..]), d)
    requires Monotone(log) && NeverLeft(log, s.selfPeer.deviceId)
    requires Delivers(log, s.selfPeer.deviceId, SentTimes(s.sent), arrival, delay, LastSweep(log))
    requires LastSweep(log) <= s.gate[|s.gate| - 1].at + d
    requires 2 * (5000 + d) + delay <= 15000
    requires first < n <= |log| && log[first].Heard? && log[first].peer.deviceId == s.selfPeer.deviceId
    ensures Lists(Run(log[..n]), s.selfPeer.deviceId)
  {
    TickingPeerStaysListed(log, s.selfPeer.deviceId, s.gate, arrival, delay, d, first, n);
  }

  /** The bound is tight: one millisecond more and a live peer can be dropped. */
  lemma BoundIsTight(peer: Peer)
    ensures var log := [Heard(peer, 1, 1), Swept(15002)];
            var b: seq<UInt64>, arrival := [1, 7501, 15001], [Some(1), None, Some(15002)];
            && Monotone(log) && NeverLeft(log, peer.deviceId)
            && Delivers(log, peer.deviceId, b, arrival, 1, LastSweep(log)) && Paced(b, 7500)
            && LastSweep(log) <= b[2] + 7500 && HeardAt(log, peer.deviceId, 1)
            && 2 * 7500 + 1 == STALE_TIMEOUT + 1
            && !Lists(Run(log), peer.deviceId)
  {
    var first := [Heard(peer, 1, 1)];
    var log := first + [Swept(15002)];
    assert log == [Heard(peer, 1, 1), Swept(15002)];
    assert first[..0] == [] && log[..1] == first;
    assert Monotone([]) && LastSweep([]) == 0 && LastSweep(first) == 1;
    assert Monotone(first) && Monotone(log);
    assert log[0].Heard? && HeardAt(log, peer.deviceId, 1);
    assert LastWord(first, peer.deviceId) == Some(Entry(peer, 1));
    assert LastWord(log, peer.deviceId) == LastWord(first, peer.deviceId);
    MonotoneHistory(log, peer.deviceId);
  }
}
