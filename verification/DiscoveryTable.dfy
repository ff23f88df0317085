/**
 The peer table of one node as a function of the messages it accepted.

 The service keeps two parallel vectors; here they are one sequence of entries.
 A log records every accepted announcement (with the two clock readings it
 causes: one to stamp the entry, one to prune the table), every departure and
 every periodic prune. The history theorems say what the table holds in terms
 of the log alone.
 */
module DiscoveryTable {
  import opened Prelude
  import opened DiscoveryPeers

  const STALE_TIMEOUT: UInt64 := 15000
  const SELF_IP: string := "127.0.0.1"

  datatype Entry = Entry(peer: Peer, seen: UInt64)

  type Table = seq<Entry>

  /** The age is an unsigned 64-bit difference: it wraps if the clock went back. */
  predicate Stale(e: Entry, now: UInt64) {
    Sub64(now, e.seen) > STALE_TIMEOUT
  }

  function Pruned(t: Table, now: UInt64): Table {
    if t == [] then []
    else (if Stale(t[0], now) then [] else [t[0]]) + Pruned(t[1..], now)
  }

  /** The position of an id, or the length of the table when it is not listed. */
  function IndexOf(t: Table, id: string): (i: nat)
    ensures i <= |t|
    ensures i < |t| ==> t[i].peer.deviceId == id
    ensures forall j :: 0 <= j < i ==> t[j].peer.deviceId != id
  {
    if t == [] || t[0].peer.deviceId == id then 0 else 1 + IndexOf(t[1..], id)
  }

  predicate Lists(t: Table, id: string) {
    IndexOf(t, id) < |t|
  }

  function Find(t: Table, id: string): Option<Entry> {
    if Lists(t, id) then Some(t[IndexOf(t, id)]) else None
  }

  function Without(t: Table, id: string): Table {
    var i := IndexOf(t, id);
    if i < |t| then t[..i] + t[i + 1..] else t
  }

  function Upserted(t: Table, peer: Peer, now: UInt64): Table {
    var i := IndexOf(t, peer.deviceId);
    if i < |t| then t[i := Entry(peer, now)] else t + [Entry(peer, now)]
  }

  // ---------- Logs ----------

  datatype Event =
    | Heard(peer: Peer, seen: UInt64, sweep: UInt64)
    | Left(id: string)
    | Swept(sweep: UInt64)

  function Step(t: Table, ev: Event): Table {
    match ev
    case Heard(peer, seen, sweep) => Pruned(Upserted(t, peer, seen), sweep)
    case Left(id) => Without(t, id)
    case Swept(sweep) => Pruned(t, sweep)
  }

  function Run(log: seq<Event>): Table {
    if log == [] then [] else Step(Run(log[..|log| - 1]), log[|log| - 1])
  }

  /** What is accepted by a node: nothing from itself, and no announcement of a departure. */
  predicate Acceptable(selfId: string, ev: Event) {
    ev.Heard? ==> ev.peer.ip != SELF_IP && ev.peer.deviceId != selfId && ev.peer.state != Gone
  }

  predicate AcceptedLog(selfId: string, log: seq<Event>) {
    forall i :: 0 <= i < |log| ==> Acceptable(selfId, log[i])
  }

  /** The last message accepted about an id: its announcement, or nothing after a departure. */
  function LastWord(log: seq<Event>, id: string): Option<Entry> {
    if log == [] then None
    else
      match log[|log| - 1]
      case Heard(peer, seen, _) =>
        if peer.deviceId == id then Some(Entry(peer, seen)) else LastWord(log[..|log| - 1], id)
      case Left(gone) => if gone == id then None else LastWord(log[..|log| - 1], id)
      case Swept(_) => LastWord(log[..|log| - 1], id)
  }

  /** The clock readings of every prune since the last message about an id, its own included. */
  function SweepsSince(log: seq<Event>, id: string): set<UInt64> {
    if log == [] then {}
    else
      match log[|log| - 1]
      case Heard(peer, _, sweep) =>
        {sweep} + if peer.deviceId == id then {} else SweepsSince(log[..|log| - 1], id)
      case Left(gone) => if gone == id then {} else SweepsSince(log[..|log| - 1], id)
      case Swept(sweep) => {sweep} + SweepsSince(log[..|log| - 1], id)
  }

  function LastSweep(log: seq<Event>): UInt64 {
    if log == [] then 0
    else if log[|log| - 1].Left? then LastSweep(log[..|log| - 1])
    else log[|log| - 1].sweep
  }

  /** How many announcements came from an id that was not listed at that moment. */
  function FirstSights(log: seq<Event>): nat {
    if log == [] then 0
    else
      var init, ev := log[..|log| - 1], log[|log| - 1];
      FirstSights(init) + if ev.Heard? && !Lists(Run(init), ev.peer.deviceId) then 1 else 0
  }

  /** Clock readings never decrease along the log. */
  predicate Monotone(log: seq<Event>) {
    log == [] ||
    (var init, ev := log[..|log| - 1], log[|log| - 1];
     && Monotone(init)
     && (ev.Heard? ==> LastSweep(init) <= ev.seen <= ev.sweep)
     && (ev.Swept? ==> LastSweep(init) <= ev.sweep))
  }

  // ---------- Table operations ----------

  predicate DistinctIds(t: Table) {
    forall i, j :: 0 <= i < j < |t| ==> t[i].peer.deviceId != t[j].peer.deviceId
  }

  predicate Clean(t: Table, selfId: string) {
    forall e :: e in t ==> e.peer.deviceId != selfId && e.peer.ip != SELF_IP && e.peer.state != Gone
  }

  /** In a table without repeated ids, an entry is found exactly under its own id. */
  lemma FindAt(t: Table, i: nat)
    requires DistinctIds(t) && i < |t|
    ensures Find(t, t[i].peer.deviceId) == Some(t[i])
  {
  }

  lemma {:induction false} PrunedElements(t: Table, now: UInt64)
    ensures forall e :: e in Pruned(t, now) <==> e in t && !Stale(e, now)
    ensures DistinctIds(t) ==> DistinctIds(Pruned(t, now))
  {
    if t != [] {
      PrunedElements(t[1..], now);
      assert forall e :: e in t <==> e == t[0] || e in t[1..];
      if DistinctIds(t) {
        forall e | e in Pruned(t[1..], now) ensures e.peer.deviceId != t[0].peer.deviceId {
          assert e in t[1..];
        }
      }
    }
  }

  lemma FindIn(t: Table, id: string, e: Entry)
    requires DistinctIds(t)
    ensures Find(t, id) == Some(e) <==> e in t && e.peer.deviceId == id
  {
    if e in t {
      var i :| 0 <= i < |t| && t[i] == e;
      FindAt(t, i);
    }
  }

  lemma FindPruned(t: Table, now: UInt64, id: string)
    requires DistinctIds(t)
    ensures Find(Pruned(t, now), id) ==
            if Find(t, id).Some? && !Stale(Find(t, id).value, now) then Find(t, id) else None
  {
    PrunedElements(t, now);
    var p := Pruned(t, now);
    if Find(p, id).Some? {
      FindIn(p, id, Find(p, id).value);
      FindIn(t, id, Find(p, id).value);
    }
    if Find(t, id).Some? {
      FindIn(p, id, Find(t, id).value);
      FindIn(t, id, Find(t, id).value);
    }
  }

  lemma FindUpserted(t: Table, peer: Peer, now: UInt64, id: string)
    requires DistinctIds(t)
    ensures DistinctIds(Upserted(t, peer, now))
    ensures Find(Upserted(t, peer, now), id) ==
            if id == peer.deviceId then Some(Entry(peer, now)) else Find(t, id)
  {
    var u := Upserted(t, peer, now);
    var i := IndexOf(t, peer.deviceId);
    assert DistinctIds(u);
    FindAt(u, i);
    if Find(t, id).Some? && id != peer.deviceId {
      FindAt(u, IndexOf(t, id));
    }
  }

  lemma FindWithout(t: Table, gone: string, id: string)
    requires DistinctIds(t)
    ensures DistinctIds(Without(t, gone))
    ensures Find(Without(t, gone), id) == if id == gone then None else Find(t, id)
  {
    var w, i := Without(t, gone), IndexOf(t, gone);
    assert DistinctIds(w);
    if id != gone && Find(t, id).Some? {
      var j := IndexOf(t, id);
      FindAt(w, if j < i then j else j - 1);
    }
  }

  // ---------- Positions ----------

  /** An update keeps every entry where it is; a new one goes to the end. */
  lemma UpsertKeepsPositions(t: Table, peer: Peer, now: UInt64)
    requires DistinctIds(t)
    ensures var u := Upserted(t, peer, now);
            && |u| == |t| + (if Lists(t, peer.deviceId) then 0 else 1)
            && (forall i :: 0 <= i < |t| ==> u[i] == if t[i].peer.deviceId == peer.deviceId then Entry(peer, now) else t[i])
            && (!Lists(t, peer.deviceId) ==> u[|t|] == Entry(peer, now))
  {
  }

  /** How many entries of a log's run came after which: the place in the log of an id's latest first sight. */
  function ListedSince(log: seq<Event>, id: string): nat {
    if |log| == 0 then 0
    else
      var init, ev := log[..|log| - 1], log[|log| - 1];
      if ev.Heard? && ev.peer.deviceId == id && !Lists(Run(init), id) then |log| else ListedSince(init, id)
  }

  /** Whoever has been listed longer comes first. */
  predicate Ranked(t: Table, log: seq<Event>) {
    forall i, j :: 0 <= i < j < |t| ==> ListedSince(log, t[i].peer.deviceId) < ListedSince(log, t[j].peer.deviceId)
  }

  lemma {:induction false} PrunedRanked(t: Table, now: UInt64, log: seq<Event>)
    requires Ranked(t, log)
    ensures Ranked(Pruned(t, now), log)
    decreases |t|
  {
    if |t| > 0 {
      PrunedRanked(t[1..], now, log);
      PrunedElements(t[1..], now);
      forall e | e in Pruned(t[1..], now)
        ensures ListedSince(log, t[0].peer.deviceId) < ListedSince(log, e.peer.deviceId)
      {
        var k :| 0 <= k < |t[1..]| && t[1..][k] == e;
        assert t[k + 1] == e;
      }
    }
  }

  lemma {:induction false} ListedSinceBound(log: seq<Event>, id: string)
    ensures ListedSince(log, id) <= |log|
    decreases |log|
  {
    if |log| > 0 {
      ListedSinceBound(log[..|log| - 1], id);
    }
  }

  lemma ListedSinceAppend(log: seq<Event>, ev: Event, id: string)
    ensures ListedSince(log + [ev], id) ==
            if ev.Heard? && ev.peer.deviceId == id && !Lists(Run(log), id) then |log| + 1 else ListedSince(log, id)
    ensures ListedSince(log, id) <= |log|
  {
    assert (log + [ev])[..|log|] == log;
    ListedSinceBound(log, id);
  }

  /** An announcement ranks its id last if it is new, and changes no other rank. */
  lemma HeardRanked(log: seq<Event>, ev: Event)
    requires ev.Heard? && DistinctIds(Run(log)) && Ranked(Run(log), log)
    ensures Ranked(Upserted(Run(log), ev.peer, ev.seen), log + [ev])
  {
    var t, u := Run(log), Upserted(Run(log), ev.peer, ev.seen);
    UpsertKeepsPositions(t, ev.peer, ev.seen);
    forall i, j | 0 <= i < j < |u|
      ensures ListedSince(log + [ev], u[i].peer.deviceId) < ListedSince(log + [ev], u[j].peer.deviceId)
    {
      ListedSinceAppend(log, ev, u[i].peer.deviceId);
      ListedSinceAppend(log, ev, u[j].peer.deviceId);
      assert u[i].peer.deviceId == t[i].peer.deviceId;
      assert j < |t| ==> u[j].peer.deviceId == t[j].peer.deviceId;
    }
  }

  lemma SameRanks(log: seq<Event>, ev: Event, t: Table)
    requires !ev.Heard? && Ranked(t, log)
    ensures Ranked(t, log + [ev])
  {
    forall i | 0 <= i < |t|
      ensures ListedSince(log + [ev], t[i].peer.deviceId) == ListedSince(log, t[i].peer.deviceId)
    {
      ListedSinceAppend(log, ev, t[i].peer.deviceId);
    }
  }

  lemma StepRanked(log: seq<Event>, ev: Event)
    requires DistinctIds(Run(log)) && Ranked(Run(log), log)
    ensures Ranked(Step(Run(log), ev), log + [ev])
  {
    match ev
    case Heard(peer, seen, sweep) =>
      HeardRanked(log, ev);
      PrunedRanked(Upserted(Run(log), peer, seen), sweep, log + [ev]);
    case Left(_) =>
      SameRanks(log, ev, Run(log));
    case Swept(sweep) =>
      SameRanks(log, ev, Run(log));
      PrunedRanked(Run(log), sweep, log + [ev]);
  }

  lemma RankedNext(init: seq<Event>, ev: Event, log: seq<Event>)
    requires log == init + [ev] && DistinctIds(Run(init)) && Ranked(Run(init), init)
    ensures Ranked(Run(log), log)
  {
    StepRanked(init, ev);
    RunAppend(init, ev, "");
  }

  /** After any run the table is in the order of first sights. */
  lemma {:induction false} OrderOfFirstSight(log: seq<Event>)
    ensures Ranked(Run(log), log)
    decreases |log|
  {
    if |log| > 0 {
      var init, ev := log[..|log| - 1], log[|log| - 1];
      OrderOfFirstSight(init);
      DistinctAfterRun(init);
      assert log == init + [ev];
      RankedNext(init, ev, log);
    }
  }

  // ---------- Invariants and history ----------

  lemma RunAppend(log: seq<Event>, ev: Event, selfId: string)
    ensures Run(log + [ev]) == Step(Run(log), ev)
    ensures FirstSights(log + [ev]) ==
            FirstSights(log) + if ev.Heard? && !Lists(Run(log), ev.peer.deviceId) then 1 else 0
    ensures AcceptedLog(selfId, log) && Acceptable(selfId, ev) ==> AcceptedLog(selfId, log + [ev])
  {
    assert (log + [ev])[..|log|] == log;
  }

  lemma {:induction false} StepKeeps(t: Table, ev: Event, selfId: string)
    requires DistinctIds(t) && Clean(t, selfId) && Acceptable(selfId, ev)
    ensures DistinctIds(Step(t, ev)) && Clean(Step(t, ev), selfId)
  {
    match ev
    case Heard(peer, seen, sweep) =>
      var u := Upserted(t, peer, seen);
      FindUpserted(t, peer, seen, peer.deviceId);
      PrunedElements(u, sweep);
      assert forall e :: e in Pruned(u, sweep) ==> e in u;
    case Left(id) =>
      FindWithout(t, id, id);
    case Swept(sweep) =>
      PrunedElements(t, sweep);
      assert forall e :: e in Pruned(t, sweep) ==> e in t;
  }

  lemma {:induction false} DistinctAfterRun(log: seq<Event>)
    ensures DistinctIds(Run(log))
  {
    if log != [] {
      var t, ev := Run(log[..|log| - 1]), log[|log| - 1];
      DistinctAfterRun(log[..|log| - 1]);
      match ev
      case Heard(peer, seen, sweep) =>
        FindUpserted(t, peer, seen, peer.deviceId);
        PrunedElements(Upserted(t, peer, seen), sweep);
      case Left(id) => FindWithout(t, id, id);
      case Swept(sweep) => PrunedElements(t, sweep);
    }
  }

  /** After any run: ids are distinct, and no entry is the node itself, its address, or gone. */
  lemma {:induction false} TableInvariant(log: seq<Event>, selfId: string)
    requires AcceptedLog(selfId, log)
    ensures DistinctIds(Run(log)) && Clean(Run(log), selfId)
  {
    if log != [] {
      TableInvariant(log[..|log| - 1], selfId);
      StepKeeps(Run(log[..|log| - 1]), log[|log| - 1], selfId);
    }
  }

  /** What the log says about an id, whatever the clock did. */
  function Expected(log: seq<Event>, id: string): Option<Entry> {
    var word := LastWord(log, id);
    if word.Some? && (forall q :: q in SweepsSince(log, id) ==> !Stale(word.value, q)) then word else None
  }

  /**
   For every log and every behaviour of the clock: an id is listed exactly when
   its last message is an announcement that no later prune found stale, and
   then with that message's contents, address and time.
   */
  lemma {:induction false} History(log: seq<Event>, id: string)
    ensures Find(Run(log), id) == Expected(log, id)
  {
    if log != [] {
      var init, ev := log[..|log| - 1], log[|log| - 1];
      var t := Run(init);
      History(init, id);
      DistinctAfterRun(init);
      match ev
      case Heard(peer, seen, sweep) =>
        FindUpserted(t, peer, seen, id);
        FindPruned(Upserted(t, peer, seen), sweep, id);
      case Left(gone) =>
        FindWithout(t, gone, id);
      case Swept(sweep) =>
        FindPruned(t, sweep, id);
    }
  }

  lemma {:induction false} MonotoneSweeps(log: seq<Event>, id: string)
    requires Monotone(log)
    ensures LastWord(log, id).Some? ==> LastWord(log, id).value.seen <= LastSweep(log)
    ensures forall q :: q in SweepsSince(log, id) ==> q <= LastSweep(log)
    ensures LastWord(log, id).Some? ==> LastSweep(log) in SweepsSince(log, id)
    ensures LastWord(log, id).Some? ==>
              forall q :: q in SweepsSince(log, id) ==> LastWord(log, id).value.seen <= q
  {
    if log != [] {
      MonotoneSweeps(log[..|log| - 1], id);
    }
  }

  /**
   Under a monotone clock only the latest prune matters: the table holds exactly
   the ids whose last message is an announcement at most 15000 ms old then.
   */
  lemma MonotoneHistory(log: seq<Event>, id: string)
    requires Monotone(log)
    ensures Find(Run(log), id) ==
            if LastWord(log, id).Some? && LastSweep(log) - LastWord(log, id).value.seen <= 15000
            then LastWord(log, id) else None
  {
    History(log, id);
    MonotoneSweeps(log, id);
  }

  /**
   The clock premise is needed: between stamping and pruning the clock may step
   back, and the unsigned age then wraps. A message just accepted stays listed
   exactly when the second reading is between 0 and 15000 ms after the first,
   modulo 2^64.
   */
  lemma AnnouncementKeptIff(t: Table, peer: Peer, seen: UInt64, sweep: UInt64)
    requires DistinctIds(t)
    ensures Lists(Step(t, Heard(peer, seen, sweep)), peer.deviceId) <==>
            seen <= sweep <= seen + 15000 || sweep + TWO_TO_THE_64 <= seen + 15000
  {
    FindUpserted(t, peer, seen, peer.deviceId);
    FindPruned(Upserted(t, peer, seen), sweep, peer.deviceId);
  }

  /** A clock that goes back by one millisecond forgets a peer heard a moment before. */
  lemma ClockStepBackForgets(peer: Peer)
    ensures Run([Heard(peer, 1000, 1000)]) == [Entry(peer, 1000)]
    ensures Run([Heard(peer, 1000, 1000), Swept(999)]) == []
  {
    var e := Entry(peer, 1000);
    var log := [Heard(peer, 1000, 1000)];
    assert log[..0] == [] && Upserted([], peer, 1000) == [e];
    assert Pruned([e], 1000) == [e] + Pruned([e][1..], 1000) == [e];
    assert Run(log) == [e];
    assert Stale(e, 999) && Pruned([e], 999) == [] + Pruned([e][1..], 999) == [];
    assert [Heard(peer, 1000, 1000), Swept(999)][..1] == log;
  }
}
