/**
 One node's discovery service: two parallel vectors changed in place, the gate on
 its own broadcasts, and the candidate list it publishes. Clock readings and
 received datagrams are arguments; what the broadcast client sends is recorded.
 */
module DiscoveryService {
  import opened Prelude
  import opened InputEvents
  import opened DiscoveryPeers
  import opened DiscoveryTable
  import opened BroadcastGate

  const POLL_BUDGET: nat := 8
  const PEER_PORT: string := "8800"

  datatype Candidate = Candidate(busy: bool, name: string, ip: string, port: string)

  datatype Broadcast = Broadcast(at: UInt64, text: string)

  /** A datagram with the clock readings its handling would take. */
  datatype Datagram = Datagram(from: string, payload: string, seen: UInt64, sweep: UInt64, reply: UInt64)

  function CandidateOf(p: Peer): Candidate {
    Candidate(p.state == Busy, p.deviceName, p.ip, PEER_PORT)
  }

  /** The published list skips entries at the node's own address. */
  function Candidates(peers: seq<Peer>): seq<Candidate> {
    if peers == [] then []
    else
      Candidates(peers[..|peers| - 1]) +
      if peers[|peers| - 1].ip == SELF_IP then [] else [CandidateOf(peers[|peers| - 1])]
  }

  /** The two vectors, entry by entry. */
  predicate Paired(peers: seq<Peer>, seen: seq<UInt64>, t: Table) {
    |peers| == |seen| == |t| && forall i :: 0 <= i < |t| ==> t[i] == Entry(peers[i], seen[i])
  }

  lemma PairedErase(peers: seq<Peer>, seen: seq<UInt64>, t: Table, i: nat)
    requires Paired(peers, seen, t) && i < |t|
    ensures Paired(peers[..i] + peers[i + 1..], seen[..i] + seen[i + 1..], t[..i] + t[i + 1..])
  {
  }

  /** One turn of the prune loop, at position i of a table whose first i entries were kept. */
  lemma PruneTurn(t: Table, i: nat, now: UInt64)
    requires i < |t|
    ensures var erased := t[..i] + t[i + 1..];
            var kept := t[..i] + Pruned(t[i..], now);
            if Stale(t[i], now) then kept == erased[..i] + Pruned(erased[i..], now)
            else kept == t[..i + 1] + Pruned(t[i + 1..], now)
  {
    var erased := t[..i] + t[i + 1..];
    PrunedFrom(t, i, now);
    assert erased[..i] == t[..i] && erased[i..] == t[i + 1..];
    assert t[..i + 1] == t[..i] + [t[i]];
  }

  lemma PrunedFrom(t: Table, i: nat, now: UInt64)
    requires i < |t|
    ensures Pruned(t[i..], now) == (if Stale(t[i], now) then [] else [t[i]]) + Pruned(t[i + 1..], now)
  {
    assert t[i..][1..] == t[i + 1..];
  }

  /** The log event a datagram causes: none if it is the node's own, and an error if it does not decode. */
  function EventOf(selfId: string, m: Datagram): Result<Option<Event>, DecodeError> {
    var decoded :- DecodePeer(m.payload);
    var peer := decoded.(ip := m.from);
    Success(
      if peer.ip == SELF_IP || peer.deviceId == selfId then None
      else if peer.state == Gone then Some(Left(peer.deviceId))
      else Some(Heard(peer, m.seen, m.sweep)))
  }

  /** A datagram from elsewhere, about a node other than this one. */
  predicate Foreign(selfId: string, m: Datagram) {
    && m.from != SELF_IP
    && DecodePeer(m.payload).Success? && DecodePeer(m.payload).value.deviceId != selfId
  }

  /** It says that node leaves, or that it is there. */
  predicate Departs(selfId: string, m: Datagram) {
    Foreign(selfId, m) && DecodePeer(m.payload).value.state == Gone
  }

  predicate Appears(selfId: string, m: Datagram) {
    Foreign(selfId, m) && DecodePeer(m.payload).value.state != Gone
  }

  /** What an entry made from a datagram holds: the payload, with the sender's real address, and the time. */
  function EntryFrom(m: Datagram): Entry
    requires DecodePeer(m.payload).Success?
  {
    var peer := DecodePeer(m.payload).value;
    Entry(Peer(peer.deviceId, peer.deviceName, m.from, peer.platform, peer.state), m.seen)
  }

  /** What a datagram does to the log, from its payload and its sender alone. */
  lemma EventOfMeans(selfId: string, m: Datagram)
    ensures EventOf(selfId, m).Success? <==> DecodePeer(m.payload).Success?
    ensures Departs(selfId, m) ==> EventOf(selfId, m) == Success(Some(Left(DecodePeer(m.payload).value.deviceId)))
    ensures Appears(selfId, m) ==> EventOf(selfId, m) == Success(Some(Heard(EntryFrom(m).peer, m.seen, m.sweep)))
    ensures DecodePeer(m.payload).Success? && !Foreign(selfId, m) ==> EventOf(selfId, m) == Success(None)
  {
  }

  predicate Announces(ev: Option<Event>) {
    ev.Some? && ev.value.Heard?
  }

  /** An announcement from an id that is not listed calls for an immediate broadcast. */
  predicate Answered(t: Table, ev: Option<Event>) {
    Announces(ev) && !Lists(t, ev.value.peer.deviceId)
  }

  function Appended(log: seq<Event>, ev: Option<Event>): seq<Event> {
    if ev.Some? then log + [ev.value] else log
  }

  function PolledOne(selfId: string, log: seq<Event>, m: Datagram): Result<seq<Event>, DecodeError> {
    if m.from == "" then Success(log)
    else
      var ev :- EventOf(selfId, m);
      Success(Appended(log, ev))
  }

  /** The log after one poll: datagrams without a sender address are skipped. */
  function Polled(selfId: string, log: seq<Event>, inbox: seq<Datagram>): Result<seq<Event>, DecodeError> {
    if inbox == [] then Success(log)
    else
      var init :- Polled(selfId, log, inbox[..|inbox| - 1]);
      PolledOne(selfId, init, inbox[|inbox| - 1])
  }

  lemma {:induction false} PolledFailureSpreads(selfId: string, log: seq<Event>, inbox: seq<Datagram>, i: nat)
    requires i <= |inbox| && Polled(selfId, log, inbox[..i]).Failure?
    ensures Polled(selfId, log, inbox).Failure?
    decreases |inbox|
  {
    if i == |inbox| {
      assert inbox[..i] == inbox;
    } else {
      assert inbox[..|inbox| - 1][..i] == inbox[..i];
      PolledFailureSpreads(selfId, log, inbox[..|inbox| - 1], i);
    }
  }

  /** The immediate broadcast an event causes on a table. */
  function Reply(t: Table, ev: Option<Event>, at: UInt64, text: string): seq<Broadcast> {
    if Answered(t, ev) then [Broadcast(at, text)] else []
  }

  /** What the last datagram of a poll is answered with, after the log of those before it. */
  function ReplyTo(selfId: string, text: string, before: Result<seq<Event>, DecodeError>, m: Datagram): seq<Broadcast> {
    if before.Failure? || m.from == "" || EventOf(selfId, m).Failure? then []
    else Reply(Run(before.value), EventOf(selfId, m).value, m.reply, text)
  }

  /** All immediate broadcasts of one poll, in order. */
  function Replies(selfId: string, text: string, log: seq<Event>, inbox: seq<Datagram>): seq<Broadcast> {
    if |inbox| == 0 then []
    else
      var init := inbox[..|inbox| - 1];
      Replies(selfId, text, log, init) + ReplyTo(selfId, text, Polled(selfId, log, init), inbox[|inbox| - 1])
  }

  function LatestTime(last: UInt64, broadcasts: seq<Broadcast>): UInt64 {
    if |broadcasts| == 0 then last else broadcasts[|broadcasts| - 1].at
  }

  lemma LatestAppend(last: UInt64, earlier: seq<Broadcast>, later: seq<Broadcast>)
    ensures LatestTime(last, earlier + later) == LatestTime(LatestTime(last, earlier), later)
  {
    if |later| == 0 {
      assert earlier + later == earlier;
    }
  }

  /** What a session has on record: events, broadcasts, the time of the last one, and calls of the gate. */
  datatype Trace = Trace(log: seq<Event>, sent: seq<Broadcast>, last: UInt64, gate: seq<Tick>)

  /** b is a after these replies, with a new log. */
  predicate RepliesAdded(a: Trace, b: Trace, replies: seq<Broadcast>) {
    b.sent == a.sent + replies && b.last == LatestTime(a.last, replies) && b.gate == a.gate + Forces(replies)
  }

  /** The poll that began at a has come to b after the first i datagrams. */
  ghost predicate PolledTo(selfId: string, text: string, a: Trace, inbox: seq<Datagram>, i: nat, b: Trace)
    requires i <= |inbox|
  {
    Polled(selfId, a.log, inbox[..i]) == Success(b.log) && RepliesAdded(a, b, Replies(selfId, text, a.log, inbox[..i]))
  }

  lemma RepliesAddedTwice(a: Trace, b: Trace, c: Trace, first: seq<Broadcast>, second: seq<Broadcast>)
    requires RepliesAdded(a, b, first) && RepliesAdded(b, c, second)
    ensures RepliesAdded(a, c, first + second)
  {
    LatestAppend(a.last, first, second);
    ForcesAppend(first, second);
  }

  lemma PollAdvances(selfId: string, text: string, a: Trace, inbox: seq<Datagram>, i: nat, b: Trace, c: Trace)
    requires i < |inbox| && PolledTo(selfId, text, a, inbox, i, b)
    requires PolledOne(selfId, b.log, inbox[i]) == Success(c.log)
    requires RepliesAdded(b, c, ReplyTo(selfId, text, Success(b.log), inbox[i]))
    ensures PolledTo(selfId, text, a, inbox, i + 1, c)
  {
    assert inbox[..i + 1][..i] == inbox[..i];
    RepliesAddedTwice(a, b, c, Replies(selfId, text, a.log, inbox[..i]), ReplyTo(selfId, text, Success(b.log), inbox[i]));
  }

  lemma PollFails(selfId: string, log: seq<Event>, inbox: seq<Datagram>, i: nat, now: seq<Event>)
    requires i < |inbox| && Polled(selfId, log, inbox[..i]) == Success(now) && PolledOne(selfId, now, inbox[i]).Failure?
    ensures Polled(selfId, log, inbox).Failure?
  {
    assert inbox[..i + 1][..i] == inbox[..i];
    PolledFailureSpreads(selfId, log, inbox, i + 1);
  }

  lemma PollEnds(selfId: string, text: string, a: Trace, inbox: seq<Datagram>, b: Trace)
    requires PolledTo(selfId, text, a, inbox, |inbox|, b)
    ensures Polled(selfId, a.log, inbox) == Success(b.log)
    ensures RepliesAdded(a, b, Replies(selfId, text, a.log, inbox))
  {
    assert inbox[..|inbox|] == inbox;
  }

  /** One candidate for each peer, in the same order: its name, its address, port 8800, and whether it is busy. */
  predicate Mirrors(candidates: seq<Candidate>, peers: seq<Peer>) {
    && |candidates| == |peers|
    && forall i :: 0 <= i < |peers| ==>
         && (candidates[i].busy <==> peers[i].state == Busy)
         && candidates[i].name == peers[i].deviceName
         && candidates[i].ip == peers[i].ip
         && candidates[i].port == "8800"
  }

  /** No accepted entry sits at the node's own address, so the skip never fires. */
  lemma {:induction false} CandidatesMirrorPeers(peers: seq<Peer>)
    requires forall i :: 0 <= i < |peers| ==> peers[i].ip != SELF_IP
    ensures Mirrors(Candidates(peers), peers)
  {
    if peers != [] {
      CandidatesMirrorPeers(peers[..|peers| - 1]);
    }
  }

  /**
   What a message does, said of its payload and sender. A departure is logged, unlists that
   id and touches no other; an announcement is logged with the sender's address, and, handled
   within 15000 ms of being stamped, listed as such; anything else changes nothing.
   */
  ghost predicate MessageDone(selfId: string, m: Datagram, log: seq<Event>, log': seq<Event>, t: Table, t': Table)
    requires DecodePeer(m.payload).Success?
  {
    var id := DecodePeer(m.payload).value.deviceId;
    && (!Foreign(selfId, m) ==> log' == log && t' == t)
    && (Departs(selfId, m) ==>
          && log' == log + [Left(id)] && !Lists(t', id)
          && forall other :: other != id ==> Find(t', other) == Find(t, other))
    && (Appears(selfId, m) ==>
          && log' == log + [Heard(EntryFrom(m).peer, m.seen, m.sweep)]
          && (m.seen <= m.sweep <= m.seen + 15000 ==> Find(t', id) == Some(EntryFrom(m)))
          && forall other :: other != id ==>
               Find(t', other) == Find(t, other) || (Find(t', other) == None && Stale(Find(t, other).value, m.sweep)))
  }

  lemma MessageEffect(selfId: string, m: Datagram, log: seq<Event>)
    requires DecodePeer(m.payload).Success?
    ensures EventOf(selfId, m).Success?
    ensures var log' := Appended(log, EventOf(selfId, m).value);
            MessageDone(selfId, m, log, log', Run(log), Run(log'))
  {
    EventOfMeans(selfId, m);
    DistinctAfterRun(log);
    var id := DecodePeer(m.payload).value.deviceId;
    if Departs(selfId, m) {
      RunAppend(log, Left(id), selfId);
      FindWithout(Run(log), id, id);
      forall other ensures Find(Without(Run(log), id), other) == if other == id then None else Find(Run(log), other) {
        FindWithout(Run(log), id, other);
      }
    }
    if Appears(selfId, m) {
      AppearanceEffect(selfId, m, log);
    }
  }

  lemma AppearanceEffect(selfId: string, m: Datagram, log: seq<Event>)
    requires Appears(selfId, m)
    ensures var ev := Heard(EntryFrom(m).peer, m.seen, m.sweep);
            MessageDone(selfId, m, log, log + [ev], Run(log), Run(log + [ev]))
  {
    var peer, t := EntryFrom(m).peer, Run(log);
    DistinctAfterRun(log);
    RunAppend(log, Heard(peer, m.seen, m.sweep), selfId);
    forall other
      ensures Find(Upserted(t, peer, m.seen), other) ==
              if other == peer.deviceId then Some(Entry(peer, m.seen)) else Find(t, other)
      ensures var u := Find(Upserted(t, peer, m.seen), other);
              Find(Pruned(Upserted(t, peer, m.seen), m.sweep), other) ==
              if u.Some? && !Stale(u.value, m.sweep) then u else None
    {
      FindUpserted(t, peer, m.seen, other);
      FindPruned(Upserted(t, peer, m.seen), m.sweep, other);
    }
  }

  // ---------- A poll, by the last datagram about each id ----------

  predicate About(selfId: string, m: Datagram, id: string) {
    m.from != "" && Foreign(selfId, m) && DecodePeer(m.payload).value.deviceId == id
  }

  function LastAbout(selfId: string, inbox: seq<Datagram>, id: string): Option<Datagram> {
    if |inbox| == 0 then None
    else if About(selfId, inbox[|inbox| - 1], id) then Some(inbox[|inbox| - 1])
    else LastAbout(selfId, inbox[..|inbox| - 1], id)
  }

  /** Readings at which the table was pruned since the last message about an id, `earlier` before this poll. */
  function PrunesSince(selfId: string, inbox: seq<Datagram>, id: string, earlier: set<UInt64>): set<UInt64> {
    if |inbox| == 0 then earlier
    else
      var m := inbox[|inbox| - 1];
      (if m.from != "" && Appears(selfId, m) then {m.sweep} else {}) +
      if About(selfId, m, id) then {} else PrunesSince(selfId, inbox[..|inbox| - 1], id, earlier)
  }

  function WordAfter(selfId: string, inbox: seq<Datagram>, id: string, earlier: Option<Entry>): Option<Entry> {
    var m := LastAbout(selfId, inbox, id);
    if m.None? then earlier else if Departs(selfId, m.value) then None
    else if Appears(selfId, m.value) then Some(EntryFrom(m.value)) else earlier
  }

  /**
   What a poll leaves listed under an id: the last datagram about it, or else what was known
   before, provided no prune since found it stale.
   */
  function AfterPoll(selfId: string, log: seq<Event>, inbox: seq<Datagram>, id: string): Option<Entry> {
    var word := WordAfter(selfId, inbox, id, LastWord(log, id));
    if word.Some? && (forall q :: q in PrunesSince(selfId, inbox, id, SweepsSince(log, id)) ==> !Stale(word.value, q))
    then word else None
  }

  lemma PolledOneWord(selfId: string, log: seq<Event>, m: Datagram, id: string)
    requires PolledOne(selfId, log, m).Success?
    ensures var log' := PolledOne(selfId, log, m).value;
            && LastWord(log', id) == (if !About(selfId, m, id) then LastWord(log, id)
                                      else if Departs(selfId, m) then None else Some(EntryFrom(m)))
            && SweepsSince(log', id) == (if m.from != "" && Appears(selfId, m) then {m.sweep} else {})
                                        + if About(selfId, m, id) then {} else SweepsSince(log, id)
  {
    EventOfMeans(selfId, m);
    var log' := PolledOne(selfId, log, m).value;
    if m.from != "" && Foreign(selfId, m) {
      assert log'[..|log|] == log;
    } else {
      assert log' == log;
    }
  }

  lemma {:induction false} PolledWord(selfId: string, log: seq<Event>, inbox: seq<Datagram>, id: string)
    requires Polled(selfId, log, inbox).Success?
    ensures var log' := Polled(selfId, log, inbox).value;
            && LastWord(log', id) == WordAfter(selfId, inbox, id, LastWord(log, id))
            && SweepsSince(log', id) == PrunesSince(selfId, inbox, id, SweepsSince(log, id))
    decreases |inbox|
  {
    if |inbox| > 0 {
      var init := inbox[..|inbox| - 1];
      PolledWord(selfId, log, init, id);
      PolledOneWord(selfId, Polled(selfId, log, init).value, inbox[|inbox| - 1], id);
    }
  }

  lemma PollMeaning(selfId: string, log: seq<Event>, inbox: seq<Datagram>, id: string)
    requires Polled(selfId, log, inbox).Success?
    ensures Find(Run(Polled(selfId, log, inbox).value), id) == AfterPoll(selfId, log, inbox, id)
  {
    PolledWord(selfId, log, inbox, id);
    History(Polled(selfId, log, inbox).value, id);
  }

  ghost predicate Records(t: Table, log: seq<Event>, sights: nat, selfId: string) {
    t == Run(log) && sights == FirstSights(log) && AcceptedLog(selfId, log)
  }

  lemma NothingRecorded(t: Table, log: seq<Event>, selfId: string)
    requires |t| == 0 && |log| == 0
    ensures Records(t, log, 0, selfId)
  {
  }

  /** One more event, carried out on the table and written to the log. */
  lemma RecordsAppend(t: Table, log: seq<Event>, sights: nat, selfId: string, ev: Event)
    requires Records(t, log, sights, selfId) && Acceptable(selfId, ev)
    ensures var more := if ev.Heard? && !Lists(t, ev.peer.deviceId) then 1 else 0;
            Records(Step(t, ev), log + [ev], sights + more, selfId)
  {
    RunAppend(log, ev, selfId);
  }

  function SentTimes(sent: seq<Broadcast>): seq<UInt64> {
    if |sent| == 0 then [] else SentTimes(sent[..|sent| - 1]) + [sent[|sent| - 1].at]
  }

  /** What was sent, and when last, is what the gate let through. */
  ghost predicate Gated(sent: seq<Broadcast>, last: UInt64, gate: seq<Tick>) {
    SentTimes(sent) == GatedBroadcasts(0, gate) && last == LastOf(0, SentTimes(sent))
  }

  /** Forced calls of a session: two at startup, and one per first sight. */
  ghost predicate Counted(gate: seq<Tick>, sights: nat) {
    |gate| > 0 && gate[0].force && Forced(gate) == 2 + sights
  }

  lemma {:induction false} SentTimesLength(sent: seq<Broadcast>)
    ensures |SentTimes(sent)| == |sent|
    decreases |sent|
  {
    if |sent| > 0 {
      SentTimesLength(sent[..|sent| - 1]);
    }
  }

  lemma NothingGated(sent: seq<Broadcast>, gate: seq<Tick>)
    requires |sent| == 0 && |gate| == 0
    ensures Gated(sent, 0, gate) && Forced(gate) == 0
  {
  }

  lemma GatedStep(sent: seq<Broadcast>, last: UInt64, gate: seq<Tick>, t: Tick, text: string)
    requires Gated(sent, last, gate)
    ensures Opens(last, t) ==> Gated(sent + [Broadcast(t.at, text)], t.at, gate + [t])
    ensures !Opens(last, t) ==> Gated(sent, last, gate + [t])
  {
    GateAppend(0, gate, t);
    assert (sent + [Broadcast(t.at, text)])[..|sent|] == sent;
  }

  lemma CountedStep(gate: seq<Tick>, sights: nat, t: Tick)
    requires Counted(gate, sights)
    ensures Counted(gate + [t], sights + if t.force then 1 else 0)
  {
    ForcedAppend(gate, t);
  }

  lemma StartupCounted(first: Tick, second: Tick)
    requires first.force && second.force
    ensures Counted([first, second], 0)
  {
    ForcedAppend([], first);
    ForcedAppend([first], second);
    assert [] + [first] == [first] && [first] + [second] == [first, second];
  }

  /** The calls of the gate that these broadcasts answer to. */
  function Forces(sent: seq<Broadcast>): seq<Tick> {
    if |sent| == 0 then [] else Forces(sent[..|sent| - 1]) + [Tick(sent[|sent| - 1].at, true)]
  }

  lemma OneForced(b: Broadcast)
    ensures Forces([b]) == [Tick(b.at, true)]
  {
    assert [b][..0] == [];
  }

  lemma {:induction false} ForcesAppend(a: seq<Broadcast>, b: seq<Broadcast>)
    ensures Forces(a + b) == Forces(a) + Forces(b)
    decreases |b|
  {
    if |b| == 0 {
      assert a + b == a;
    } else {
      ForcesAppend(a, b[..|b| - 1]);
      assert (a + b)[..|a + b| - 1] == a + b[..|b| - 1];
    }
  }

  class DiscoveryService {
    var discoveredPeers: seq<Peer>
    var lastSeen: seq<UInt64>
    var selfPeer: Peer
    var lastBroadcast: UInt64
    var hasServer: bool
    var hasClient: bool
    var available: seq<Candidate>

    ghost var entries: Table           // the two vectors as one table
    ghost var log: seq<Event>          // accepted messages and prunes since init
    ghost var sights: nat              // first sights in that log
    ghost var sent: seq<Broadcast>     // broadcasts since init
    ghost var gate: seq<Tick>          // calls of the broadcast gate since init

    ghost predicate Lockstep()
      reads this`discoveredPeers, this`lastSeen, this`entries
    {
      Paired(discoveredPeers, lastSeen, entries)
    }

    /** The table is what the log of accepted messages says. */
    ghost predicate Recorded()
      reads this`entries, this`log, this`sights, this`selfPeer
    {
      Records(entries, log, sights, selfPeer.deviceId)
    }

    /** What was sent is what the gate let through, forced at startup and on first sights. */
    ghost predicate Accounted()
      reads this`hasClient, this`sent, this`lastBroadcast, this`gate, this`sights
    {
      hasClient ==> Gated(sent, lastBroadcast, gate) && Counted(gate, sights)
    }

    ghost function View(): Trace
      reads this
    {
      Trace(log, sent, lastBroadcast, gate)
    }

    ghost predicate Valid()
      reads this
    {
      && Lockstep() && Recorded() && Accounted()
      && hasServer == hasClient
      && (!hasClient ==> |discoveredPeers| == 0 && lastBroadcast == 0)
    }

    /** What Valid says for readers: the table is the history, it is clean, and so is a list made from it. */
    lemma TableMeaning()
      requires Valid()
      ensures forall id :: Find(entries, id) == Expected(log, id)
      ensures DistinctIds(entries) && Clean(entries, selfPeer.deviceId)
      ensures Mirrors(Candidates(discoveredPeers), discoveredPeers)
    {
      forall id ensures Find(entries, id) == Expected(log, id) {
        History(log, id);
      }
      TableInvariant(log, selfPeer.deviceId);
      forall i | 0 <= i < |discoveredPeers| ensures discoveredPeers[i].ip != SELF_IP {
        assert entries[i] in entries;
      }
      CandidatesMirrorPeers(discoveredPeers);
    }

    constructor ()
      ensures Valid() && !hasClient && available == []
    {
      discoveredPeers, lastSeen, available := [], [], [];
      selfPeer := Peer("", "", "", "", Idle);
      lastBroadcast, hasServer, hasClient := 0, false, false;
      entries, log, sights, sent, gate := [], [], 0, [], [];
    }

    method RemoveStalePeers(now: UInt64)
      requires Lockstep()
      modifies this`discoveredPeers, this`lastSeen, this`entries
      ensures Lockstep() && entries == Pruned(old(entries), now)
    {
      var i := 0;
      while i < |discoveredPeers| && i < |lastSeen|
        invariant Lockstep() && 0 <= i <= |discoveredPeers|
        invariant Pruned(old(entries), now) == entries[..i] + Pruned(entries[i..], now)
        decreases |discoveredPeers| - i
      {
        PruneTurn(entries, i, now);
        if Sub64(now, lastSeen[i]) > STALE_TIMEOUT {
          PairedErase(discoveredPeers, lastSeen, entries, i);
          discoveredPeers := discoveredPeers[..i] + discoveredPeers[i + 1..];
          lastSeen := lastSeen[..i] + lastSeen[i + 1..];
          entries := entries[..i] + entries[i + 1..];
        } else {
          i := i + 1;
        }
      }
      assert entries[..i] == entries;
    }

    method PositionOf(deviceId: string) returns (i: nat)
      requires Lockstep()
      ensures i == IndexOf(entries, deviceId)
    {
      i := 0;
      while i < |discoveredPeers| && discoveredPeers[i].deviceId != deviceId
        invariant i <= |discoveredPeers|
        invariant IndexOf(entries, deviceId) == i + IndexOf(entries[i..], deviceId)
      {
        assert entries[i..][1..] == entries[i + 1..];
        i := i + 1;
      }
    }

    method RemovePeerByDeviceId(deviceId: string) returns (found: bool)
      requires Lockstep()
      modifies this`discoveredPeers, this`lastSeen, this`entries
      ensures Lockstep() && entries == Without(old(entries), deviceId)
      ensures found <==> Lists(old(entries), deviceId)
      ensures !found ==> discoveredPeers == old(discoveredPeers)
    {
      var index := PositionOf(deviceId);
      if index == |discoveredPeers| {
        return false;
      }
      PairedErase(discoveredPeers, lastSeen, entries, index);
      discoveredPeers := discoveredPeers[..index] + discoveredPeers[index + 1..];
      if index < |lastSeen| {
        lastSeen := lastSeen[..index] + lastSeen[index + 1..];
      }
      entries := Without(entries, deviceId);
      found := true;
    }

    method UpdatePeerState(peer: Peer, now: UInt64, sweep: UInt64) returns (isNew: bool)
      requires Lockstep()
      modifies this`discoveredPeers, this`lastSeen, this`entries
      ensures Lockstep() && entries == Step(old(entries), Heard(peer, now, sweep))
      ensures isNew <==> !Lists(old(entries), peer.deviceId)
    {
      var index := PositionOf(peer.deviceId);
      if index < |discoveredPeers| {
        discoveredPeers := discoveredPeers[index := peer];
        if index < |lastSeen| {
          lastSeen := lastSeen[index := now];
        }
        isNew := false;
      } else {
        discoveredPeers := discoveredPeers + [peer];
        lastSeen := lastSeen + [now];
        isNew := true;
      }
      entries := Upserted(entries, peer, now);
      RemoveStalePeers(sweep);
    }

    /** Sends when forced, on the first broadcast, or when more than 5000 ms have passed. */
    method BroadcastOwnState(force: bool, now: UInt64)
      requires hasClient ==> Gated(sent, lastBroadcast, gate)
      modifies this`lastBroadcast, this`sent, this`gate
      ensures hasClient ==> Gated(sent, lastBroadcast, gate) && gate == old(gate) + [Tick(now, force)]
      ensures !hasClient ==> gate == old(gate)
      ensures hasClient && (force || Due(old(lastBroadcast), now)) ==>
                lastBroadcast == now && sent == old(sent) + [Broadcast(now, EncodePeer(selfPeer))]
      ensures !(hasClient && (force || Due(old(lastBroadcast), now))) ==>
                lastBroadcast == old(lastBroadcast) && sent == old(sent)
    {
      ghost var t := Tick(now, force);
      var shouldBroadcast := force || lastBroadcast == 0 || Sub64(now, lastBroadcast) > BROADCAST_INTERVAL;
      assert shouldBroadcast <==> Opens(lastBroadcast, t);
      if hasClient {
        GatedStep(sent, lastBroadcast, gate, t, EncodePeer(selfPeer));
      }
      if shouldBroadcast && hasClient {
        lastBroadcast, sent, gate := now, sent + [Broadcast(now, EncodePeer(selfPeer))], gate + [t];
      } else if hasClient {
        gate := gate + [t];
      }
    }

    method UpdateConnectionCandidates()
      modifies this`available
      ensures available == Candidates(discoveredPeers)
      ensures (forall i :: 0 <= i < |discoveredPeers| ==> discoveredPeers[i].ip != SELF_IP) ==>
                Mirrors(available, discoveredPeers)
    {
      var candidates: seq<Candidate> := [];
      for i := 0 to |discoveredPeers|
        invariant candidates == Candidates(discoveredPeers[..i])
      {
        assert discoveredPeers[..i + 1][..i] == discoveredPeers[..i];
        if discoveredPeers[i].ip != SELF_IP {
          candidates := candidates + [CandidateOf(discoveredPeers[i])];
        }
      }
      assert discoveredPeers[..|discoveredPeers|] == discoveredPeers;
      available := candidates;
      if forall i :: 0 <= i < |discoveredPeers| ==> discoveredPeers[i].ip != SELF_IP {
        CandidatesMirrorPeers(discoveredPeers);
      }
    }

    method RecordDeparture(deviceId: string) returns (found: bool)
      requires Lockstep() && Recorded()
      modifies this`discoveredPeers, this`lastSeen, this`entries, this`log
      ensures Lockstep() && Recorded() && log == old(log) + [Left(deviceId)]
      ensures found <==> Lists(old(entries), deviceId)
      ensures !found ==> discoveredPeers == old(discoveredPeers)
    {
      RecordsAppend(entries, log, sights, selfPeer.deviceId, Left(deviceId));
      found := RemovePeerByDeviceId(deviceId);
      log := log + [Left(deviceId)];
    }

    /** Remove, and publish if there was something to remove. */
    method RemoveAndPublish(deviceId: string)
      requires Lockstep() && Recorded()
      modifies this`discoveredPeers, this`lastSeen, this`entries, this`available, this`log
      ensures Lockstep() && Recorded() && log == old(log) + [Left(deviceId)]
      ensures Lists(old(entries), deviceId) || old(available == Candidates(discoveredPeers)) ==>
                available == Candidates(discoveredPeers)
    {
      var found := RecordDeparture(deviceId);
      if found {
        UpdateConnectionCandidates();
      }
    }

    /** A peer says it leaves: it is removed at once, and the list is published if it was there. */
    method AcceptDeparture(deviceId: string)
      requires Valid() && hasServer
      modifies this`discoveredPeers, this`lastSeen, this`entries, this`available, this`log
      ensures Valid() && log == old(log) + [Left(deviceId)]
      ensures Lists(old(entries), deviceId) || old(available == Candidates(discoveredPeers)) ==>
                available == Candidates(discoveredPeers)
    {
      RemoveAndPublish(deviceId);
    }

    /** Upsert and prune, then publish. */
    method RecordAnnouncement(peer: Peer, seen: UInt64, sweep: UInt64) returns (isNew: bool)
      requires Lockstep() && Recorded() && Acceptable(selfPeer.deviceId, Heard(peer, seen, sweep))
      modifies this`discoveredPeers, this`lastSeen, this`entries, this`available, this`log, this`sights
      ensures Lockstep() && Recorded() && log == old(log) + [Heard(peer, seen, sweep)]
      ensures isNew <==> !Lists(old(entries), peer.deviceId)
      ensures sights == old(sights) + if isNew then 1 else 0
      ensures available == Candidates(discoveredPeers)
    {
      RecordsAppend(entries, log, sights, selfPeer.deviceId, Heard(peer, seen, sweep));
      isNew := UpdatePeerState(peer, seen, sweep);
      log := log + [Heard(peer, seen, sweep)];
      sights := sights + if isNew then 1 else 0;
      UpdateConnectionCandidates();
    }

    /** An announcement is answered at once when its id was not listed. */
    method AcceptAnnouncement(peer: Peer, seen: UInt64, sweep: UInt64, reply: UInt64) returns (isNew: bool)
      requires Valid() && hasServer && Acceptable(selfPeer.deviceId, Heard(peer, seen, sweep))
      modifies this
      ensures Valid() && selfPeer == old(selfPeer) && hasClient && hasServer
      ensures log == old(log) + [Heard(peer, seen, sweep)]
      ensures isNew <==> !Lists(old(entries), peer.deviceId)
      ensures RepliesAdded(old(View()), View(), if isNew then [Broadcast(reply, EncodePeer(selfPeer))] else [])
      ensures available == Candidates(discoveredPeers)
    {
      OneForced(Broadcast(reply, EncodePeer(selfPeer)));
      isNew := RecordAnnouncement(peer, seen, sweep);
      if isNew {
        CountedStep(gate, old(sights), Tick(reply, true));
        BroadcastOwnState(true, reply);
      }
    }

    /** A decoded message: the node's own are ignored, a departure and an announcement accepted. */
    method React(m: Datagram, peer: Peer)
      requires Valid() && hasServer && DecodePeer(m.payload).Success? && peer == DecodePeer(m.payload).value.(ip := m.from)
      modifies this
      ensures Valid() && selfPeer == old(selfPeer) && hasClient && hasServer
      ensures log == Appended(old(log), EventOf(selfPeer.deviceId, m).value)
      ensures || old(available == Candidates(discoveredPeers)) || Appears(selfPeer.deviceId, m)
              || (Departs(selfPeer.deviceId, m) && Lists(old(entries), peer.deviceId)) ==>
                available == Candidates(discoveredPeers)
      ensures RepliesAdded(old(View()), View(),
                           Reply(old(entries), EventOf(selfPeer.deviceId, m).value, m.reply, EncodePeer(selfPeer)))
    {
      if peer.ip == SELF_IP || peer.deviceId == selfPeer.deviceId {
        return;
      }
      if peer.state == Gone {
        AcceptDeparture(peer.deviceId);
        return;
      }
      var isNew := AcceptAnnouncement(peer, m.seen, m.sweep, m.reply);
    }

    /** The receive callback. A payload whose fields have the wrong type raises, and changes nothing. */
    method OnMessage(m: Datagram) returns (r: Result<(), DecodeError>)
      requires Valid() && hasServer
      modifies this
      ensures Valid() && selfPeer == old(selfPeer) && hasClient && hasServer
      ensures r.Success? <==> DecodePeer(m.payload).Success?
      ensures r.Failure? ==> unchanged(this)
      ensures r.Success? ==> log == Appended(old(log), EventOf(selfPeer.deviceId, m).value)
      ensures r.Success? ==> MessageDone(selfPeer.deviceId, m, old(log), log, old(entries), entries)
      ensures old(available == Candidates(discoveredPeers)) ==> available == Candidates(discoveredPeers)
      ensures Appears(selfPeer.deviceId, m) ==> available == Candidates(discoveredPeers)
      ensures Departs(selfPeer.deviceId, m) && Lists(old(entries), DecodePeer(m.payload).value.deviceId) ==>
                available == Candidates(discoveredPeers)
      ensures r.Success? ==>
                RepliesAdded(old(View()), View(),
                             Reply(old(entries), EventOf(selfPeer.deviceId, m).value, m.reply, EncodePeer(selfPeer)))
      ensures r.Success? ==>
                sent == old(sent) +
                  if Appears(selfPeer.deviceId, m) && !Lists(old(entries), DecodePeer(m.payload).value.deviceId)
                  then [Broadcast(m.reply, EncodePeer(selfPeer))] else []
    {
      EventOfMeans(selfPeer.deviceId, m);
      var decoded := DecodePeer(m.payload);
      if decoded.Failure? {
        return Failure(decoded.error);
      }
      MessageEffect(selfPeer.deviceId, m, log);
      React(m, decoded.value.(ip := m.from));
      r := Success(());
    }

    /** A fresh record of this node, and its sockets. */
    method Open(self: Peer)
      requires Valid() && !hasClient
      modifies this`selfPeer, this`hasServer, this`hasClient, this`log, this`sights, this`sent, this`gate
      ensures Lockstep() && Recorded() && Gated(sent, lastBroadcast, gate) && hasClient && hasServer
      ensures selfPeer == self && |log| == 0 && sights == 0 && |sent| == 0 && |gate| == 0
    {
      NothingRecorded(entries, [], self.deviceId);
      NothingGated([], []);
      selfPeer, hasServer, hasClient, log, sights, sent, gate := self, true, true, [], 0, [], [];
    }

    /** Two forced broadcasts open a session; its clock readings are `now` and `again`. */
    method Init(deviceId: string, deviceName: string, platform: string, now: UInt64, again: UInt64)
      requires Valid() && !hasClient
      modifies this
      ensures Valid() && hasClient && |log| == 0
      ensures selfPeer == Peer(deviceId, deviceName, SELF_IP, platform, Idle)
      ensures sent == [Broadcast(now, EncodePeer(selfPeer)), Broadcast(again, EncodePeer(selfPeer))]
      ensures gate == [Tick(now, true), Tick(again, true)]
      ensures available == old(available)
    {
      Open(Peer(deviceId, deviceName, SELF_IP, platform, Idle));
      Announce(now, again);
    }

    /** The startup burst. */
    method Announce(now: UInt64, again: UInt64)
      requires hasClient && Gated(sent, lastBroadcast, gate) && |sent| == 0 && |gate| == 0
      modifies this`lastBroadcast, this`sent, this`gate
      ensures Gated(sent, lastBroadcast, gate) && Counted(gate, 0)
      ensures sent == [Broadcast(now, EncodePeer(selfPeer)), Broadcast(again, EncodePeer(selfPeer))]
      ensures gate == [Tick(now, true), Tick(again, true)]
    {
      StartupCounted(Tick(now, true), Tick(again, true));
      BroadcastOwnState(true, now);
      assert gate == [Tick(now, true)] && sent == [Broadcast(now, EncodePeer(selfPeer))];
      BroadcastOwnState(true, again);
      assert gate == [Tick(now, true), Tick(again, true)];
    }

    /** One datagram of a poll: without a sender address it is skipped. */
    method Handle(m: Datagram) returns (r: Result<(), DecodeError>)
      requires Valid() && hasServer
      modifies this
      ensures Valid() && selfPeer == old(selfPeer) && hasClient && hasServer
      ensures r.Success? <==> PolledOne(selfPeer.deviceId, old(log), m).Success?
      ensures r.Success? ==>
                && PolledOne(selfPeer.deviceId, old(log), m) == Success(log)
                && RepliesAdded(old(View()), View(), ReplyTo(selfPeer.deviceId, EncodePeer(selfPeer), Success(old(log)), m))
    {
      if m.from == "" {
        return Success(());
      }
      r := OnMessage(m);
    }

    /** Hands each datagram of one poll to the callback, which may raise. */
    method PollEvents(inbox: seq<Datagram>) returns (r: Result<(), DecodeError>)
      requires Valid() && hasServer && |inbox| <= POLL_BUDGET
      modifies this
      ensures Valid() && selfPeer == old(selfPeer) && hasClient && hasServer
      ensures r.Success? <==> Polled(selfPeer.deviceId, old(log), inbox).Success?
      ensures r.Success? ==>
                && log == Polled(selfPeer.deviceId, old(log), inbox).value
                && RepliesAdded(old(View()), View(), Replies(selfPeer.deviceId, EncodePeer(selfPeer), old(log), inbox))
      ensures r.Success? ==> forall id :: Find(entries, id) == AfterPoll(selfPeer.deviceId, old(log), inbox, id)
    {
      ghost var start, self := View(), selfPeer;
      for i := 0 to |inbox|
        invariant Valid() && selfPeer == self && hasServer && hasClient
        invariant PolledTo(self.deviceId, EncodePeer(self), start, inbox, i, View())
      {
        ghost var before := View();
        r := Handle(inbox[i]);
        if r.Failure? {
          PollFails(self.deviceId, start.log, inbox, i, before.log);
          return;
        }
        PollAdvances(self.deviceId, EncodePeer(self), start, inbox, i, before, View());
      }
      PollEnds(self.deviceId, EncodePeer(self), start, inbox, View());
      forall id ensures Find(Run(log), id) == AfterPoll(self.deviceId, start.log, inbox, id) {
        PollMeaning(self.deviceId, start.log, inbox, id);
      }
      r := Success(());
    }

    method RecordPrune(sweep: UInt64)
      requires Lockstep() && Recorded()
      modifies this`discoveredPeers, this`lastSeen, this`entries, this`log
      ensures Lockstep() && Recorded() && log == old(log) + [Swept(sweep)]
      ensures |old(discoveredPeers)| == 0 ==> |discoveredPeers| == 0
    {
      RecordsAppend(entries, log, sights, selfPeer.deviceId, Swept(sweep));
      RemoveStalePeers(sweep);
      log := log + [Swept(sweep)];
    }

    /** The periodic work after polling: broadcast if due, then prune. */
    method BroadcastAndPrune(now: UInt64, sweep: UInt64)
      requires Valid()
      modifies this
      ensures Valid() && selfPeer == old(selfPeer) && hasClient == old(hasClient)
      ensures log == old(log) + [Swept(sweep)]
      ensures lastBroadcast == if hasClient && Due(old(lastBroadcast), now) then now else old(lastBroadcast)
      ensures gate == old(gate) + if hasClient then [Tick(now, false)] else []
      ensures sent == old(sent) + if hasClient && Due(old(lastBroadcast), now) then [Broadcast(now, EncodePeer(selfPeer))] else []
    {
      if hasClient {
        CountedStep(gate, sights, Tick(now, false));
      }
      BroadcastOwnState(false, now);
      RecordPrune(sweep);
    }

    /** One tick: poll, broadcast if due, prune, publish. */
    method Update(inbox: seq<Datagram>, now: UInt64, sweep: UInt64) returns (r: Result<(), DecodeError>)
      requires Valid() && |inbox| <= POLL_BUDGET
      modifies this
      ensures Valid() && selfPeer == old(selfPeer) && hasClient == old(hasClient)
      ensures hasClient ==> (r.Success? <==> Polled(selfPeer.deviceId, old(log), inbox).Success?)
      ensures hasClient && r.Success? ==> log == Polled(selfPeer.deviceId, old(log), inbox).value + [Swept(sweep)]
      ensures !hasClient ==> r.Success? && discoveredPeers == [] && sent == old(sent) && gate == old(gate)
      ensures r.Success? ==> (forall id :: Find(entries, id) == Expected(log, id))
      ensures r.Success? ==> Mirrors(available, discoveredPeers)
      ensures r.Success? && hasClient ==>
                var replies := Replies(selfPeer.deviceId, EncodePeer(selfPeer), old(log), inbox);
                && gate == old(gate) + Forces(replies) + [Tick(now, false)]
                && sent == old(sent) + replies +
                     if Due(LatestTime(old(lastBroadcast), replies), now)
                     then [Broadcast(now, EncodePeer(selfPeer))] else []
    {
      r := Success(());
      if hasServer {
        r := PollEvents(inbox);
        if r.Failure? {
          return;
        }
      }
      BroadcastAndPrune(now, sweep);
      UpdateConnectionCandidates();
      TableMeaning();
    }

    method Reset()
      modifies this`hasServer, this`hasClient, this`discoveredPeers, this`lastSeen, this`lastBroadcast
      modifies this`entries, this`log, this`sights
      ensures Valid() && !hasClient && discoveredPeers == [] && lastSeen == [] && log == []
    {
      NothingRecorded([], [], selfPeer.deviceId);
      hasServer, hasClient, discoveredPeers, lastSeen, lastBroadcast, entries, log, sights :=
        false, false, [], [], 0, [], [], 0;
    }

    /** Leaving: one last broadcast, in state gone; the published list is not touched. */
    method Cleanup(now: UInt64)
      requires Valid()
      modifies this
      ensures Valid() && !hasClient && discoveredPeers == [] && lastSeen == [] && available == old(available)
      ensures !old(hasClient) ==> selfPeer == old(selfPeer) && sent == old(sent)
      ensures old(hasClient) ==> selfPeer == old(selfPeer).(state := Gone)
      ensures old(hasClient) ==> sent == old(sent) + [Broadcast(now, EncodePeer(old(selfPeer).(state := Gone)))]
      ensures old(hasClient) ==> gate == old(gate) + [Tick(now, true)]
    {
      if hasClient {
        selfPeer := selfPeer.(state := Gone);
        BroadcastOwnState(true, now);
      }
      Reset();
    }

    /** At any moment of a session: two broadcasts, one per first sight, and one per 5001 ms, if the gate read an ordered clock. */
    lemma BroadcastBudget()
      requires Valid() && hasClient && Ordered(gate)
      ensures |sent| <= 2 + FirstSights(log) + (gate[|gate| - 1].at - gate[0].at) / 5001
    {
      SentTimesLength(sent);
      GateBudget(gate);
    }

    /**
     A whole session: startup, then any number of ticks. All that is known of it follows
     from the clock readings and the datagrams: the log, the calls of the gate, and so,
     if the readings at those calls are positive and never decrease, the budget.
     */
    method RunSession(deviceId: string, deviceName: string, platform: string, now: UInt64, again: UInt64,
                      turns: seq<Turn>)
      returns (r: Result<(), DecodeError>)
      requires Valid() && !hasClient && forall i :: 0 <= i < |turns| ==> |turns[i].inbox| <= POLL_BUDGET
      modifies this
      ensures selfPeer == Peer(deviceId, deviceName, SELF_IP, platform, Idle)
      ensures r.Success? <==> SessionLog(deviceId, turns).Success?
      ensures r.Success? ==>
                && Valid() && hasClient
                && log == SessionLog(deviceId, turns).value
                && gate == SessionGate(selfPeer, now, again, turns)
                && SentTimes(sent) == GatedBroadcasts(0, SessionGate(selfPeer, now, again, turns))
      ensures r.Success? && Ordered(SessionGate(selfPeer, now, again, turns)) ==>
                var end := if |turns| == 0 then again else turns[|turns| - 1].now;
                |sent| <= 2 + FirstSights(SessionLog(deviceId, turns).value) + (end - now) / 5001
    {
      Init(deviceId, deviceName, platform, now, again);
      r := RunTurns(now, again, turns);
      if r.Success? {
        SessionEnds(selfPeer, now, again, turns);
        if Ordered(gate) {
          BroadcastBudget();
        }
      }
    }

    /** The ticks of a session that has just been opened. */
    method RunTurns(now: UInt64, again: UInt64, turns: seq<Turn>) returns (r: Result<(), DecodeError>)
      requires Valid() && hasClient && |log| == 0 && gate == [Tick(now, true), Tick(again, true)]
      requires forall i :: 0 <= i < |turns| ==> |turns[i].inbox| <= POLL_BUDGET
      modifies this
      ensures Valid() && hasClient && selfPeer == old(selfPeer)
      ensures r.Success? <==> SessionLog(selfPeer.deviceId, turns).Success?
      ensures r.Success? ==> SessionAt(selfPeer, now, again, turns, log, gate)
    {
      assert turns[..0] == [];
      for i := 0 to |turns|
        invariant Valid() && hasClient && selfPeer == old(selfPeer)
        invariant SessionAt(selfPeer, now, again, turns[..i], log, gate)
      {
        ghost var before, calls := log, gate;
        r := Update(turns[i].inbox, turns[i].now, turns[i].sweep);
        if r.Failure? {
          assert turns[..i + 1][..i] == turns[..i];
          SessionFailureSpreads(selfPeer.deviceId, turns, i + 1);
          return;
        }
        SessionStep(selfPeer, now, again, turns, i, before, calls);
      }
      assert turns[..|turns|] == turns;
      r := Success(());
    }
  }

  // ---------- Whole sessions ----------

  /** One tick: the datagrams polled, and the clock readings of the gate and of the prune. */
  datatype Turn = Turn(inbox: seq<Datagram>, now: UInt64, sweep: UInt64)

  /** The log of a session: the events of each poll, and a prune after it. */
  function SessionLog(selfId: string, turns: seq<Turn>): Result<seq<Event>, DecodeError> {
    if |turns| == 0 then Success([])
    else
      var before :- SessionLog(selfId, turns[..|turns| - 1]);
      var polled :- Polled(selfId, before, turns[|turns| - 1].inbox);
      Success(polled + [Swept(turns[|turns| - 1].sweep)])
  }

  /** The calls of the gate in one tick: one for each first sight, and the periodic one. */
  function TurnGate(self: Peer, before: Result<seq<Event>, DecodeError>, turn: Turn): seq<Tick> {
    if before.Failure? then []
    else Forces(Replies(self.deviceId, EncodePeer(self), before.value, turn.inbox)) + [Tick(turn.now, false)]
  }

  /** The calls of the gate in a session, in order. */
  function SessionGate(self: Peer, now: UInt64, again: UInt64, turns: seq<Turn>): seq<Tick> {
    if |turns| == 0 then [Tick(now, true), Tick(again, true)]
    else
      var init := turns[..|turns| - 1];
      SessionGate(self, now, again, init) + TurnGate(self, SessionLog(self.deviceId, init), turns[|turns| - 1])
  }

  /** The record of a session after these ticks. */
  ghost predicate SessionAt(self: Peer, now: UInt64, again: UInt64, turns: seq<Turn>, log: seq<Event>, gate: seq<Tick>) {
    SessionLog(self.deviceId, turns) == Success(log) && SessionGate(self, now, again, turns) == gate
  }

  /** One tick more. */
  lemma SessionStep(self: Peer, now: UInt64, again: UInt64, turns: seq<Turn>, i: nat, log: seq<Event>, gate: seq<Tick>)
    requires i < |turns| && SessionAt(self, now, again, turns[..i], log, gate)
    requires Polled(self.deviceId, log, turns[i].inbox).Success?
    ensures SessionAt(self, now, again, turns[..i + 1],
                      Polled(self.deviceId, log, turns[i].inbox).value + [Swept(turns[i].sweep)],
                      gate + Forces(Replies(self.deviceId, EncodePeer(self), log, turns[i].inbox))
                      + [Tick(turns[i].now, false)])
  {
    assert turns[..i + 1][..i] == turns[..i];
    assert turns[..i + 1][i] == turns[i];
  }

  lemma {:induction false} SessionFailureSpreads(selfId: string, turns: seq<Turn>, i: nat)
    requires i <= |turns| && SessionLog(selfId, turns[..i]).Failure?
    ensures SessionLog(selfId, turns).Failure?
    decreases |turns|
  {
    if i == |turns| {
      assert turns[..i] == turns;
    } else {
      assert turns[..|turns| - 1][..i] == turns[..i];
      SessionFailureSpreads(selfId, turns[..|turns| - 1], i);
    }
  }

  /** The first call of the gate is the first of startup, the last is that of the last tick. */
  lemma {:induction false} SessionEnds(self: Peer, now: UInt64, again: UInt64, turns: seq<Turn>)
    requires SessionLog(self.deviceId, turns).Success?
    ensures var gate := SessionGate(self, now, again, turns);
            && |gate| > 0 && gate[0] == Tick(now, true)
            && gate[|gate| - 1].at == if |turns| == 0 then again else turns[|turns| - 1].now
    decreases |turns|
  {
    if |turns| > 0 {
      SessionEnds(self, now, again, turns[..|turns| - 1]);
    }
  }
}
