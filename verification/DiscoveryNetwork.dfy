/**
 Discovery among many nodes on one network segment, as steps of a whole system.
 Every node runs the table of DiscoveryTable; a broadcast puts one copy of the
 announcement in flight to every running node, the sender included, and copies
 are delivered one at a time in any order. Premises of the model: ids are
 distinct (nodes are keyed by id), nothing is lost, nothing expires and nobody
 leaves.
 */
module DiscoveryNetwork {
  import opened Prelude
  import opened DiscoveryPeers
  import opened DiscoveryTable
  import opened DiscoveryService

  /** For each id, the node as others record it: what it announces, with the address it sends from. */
  type Roster = map<string, Peer>

  predicate ValidRoster(r: Roster) {
    forall id :: id in r ==> r[id].deviceId == id && r[id].ip != SELF_IP && r[id].state != Gone
  }

  /** Tables of the running nodes, and the copies in flight as (from, to). */
  datatype Net = Net(tables: map<string, Table>, inFlight: multiset<(string, string)>)

  const QUIET: Net := Net(map[], multiset{})

  datatype Action =
    | Start(id: string)
    | Deliver(from: string, to: string, seen: UInt64, sweep: UInt64)
    | Tick(id: string, due: bool, sweep: UInt64)

  /** The copies of one broadcast. */
  function Copies(from: string, targets: set<string>): multiset<(string, string)> {
    multiset(set b | b in targets :: (from, b))
  }

  /** The datagram that reaches a node when `from` broadcasts its own record. */
  function Announcement(r: Roster, from: string, seen: UInt64, sweep: UInt64): Datagram
    requires from in r
  {
    Datagram(r[from].ip, EncodePeer(r[from].(ip := SELF_IP)), seen, sweep, sweep)
  }

  /** The event a delivery causes at its target: none at the sender itself. */
  function EventAt(r: Roster, act: Action): Option<Event>
    requires act.Deliver? && act.from in r
  {
    if act.from == act.to then None else Some(Heard(r[act.from], act.seen, act.sweep))
  }

  /** That is what the receive callback makes of the announcement's text and sender address. */
  lemma DeliveredEvent(r: Roster, act: Action)
    requires ValidRoster(r) && act.Deliver? && act.from in r
    ensures EventOf(act.to, Announcement(r, act.from, act.seen, act.sweep)) == Success(EventAt(r, act))
  {
    PeerRoundTrip(r[act.from].(ip := SELF_IP));
  }

  /** Pruning at this moment drops nothing. */
  predicate NothingExpires(t: Table, sweep: UInt64) {
    Pruned(t, sweep) == t
  }

  predicate Enabled(r: Roster, s: Net, act: Action) {
    match act
    case Start(id) => id in r && id !in s.tables
    case Deliver(from, to, seen, sweep) =>
      && (from, to) in s.inFlight && from in r && to in s.tables
      && (Announces(EventAt(r, act)) ==> NothingExpires(Upserted(s.tables[to], r[from], seen), sweep))
    case Tick(id, due, sweep) => id in s.tables && NothingExpires(s.tables[id], sweep)
  }

  function Next(r: Roster, s: Net, act: Action): Net
    requires Enabled(r, s, act)
  {
    match act
    case Start(id) =>
      // the socket listens before the two startup broadcasts go out
      var running := s.tables.Keys + {id};
      Net(s.tables[id := []], s.inFlight + Copies(id, running) + Copies(id, running))
    case Deliver(from, to, _, _) =>
      var ev := EventAt(r, act);
      var rest := s.inFlight - multiset{(from, to)};
      if ev.None? then s.(inFlight := rest)
      else
        Net(s.tables[to := Step(s.tables[to], ev.value)],
            rest + if Answered(s.tables[to], ev) then Copies(to, s.tables.Keys) else multiset{})
    case Tick(id, due, sweep) =>
      Net(s.tables[id := Step(s.tables[id], Swept(sweep))],
          s.inFlight + if due then Copies(id, s.tables.Keys) else multiset{})
  }

  predicate CanRun(r: Roster, s: Net, acts: seq<Action>)
    decreases |acts|
  {
    acts == [] || (Enabled(r, s, acts[0]) && CanRun(r, Next(r, s, acts[0]), acts[1..]))
  }

  function After(r: Roster, s: Net, acts: seq<Action>): Net
    requires CanRun(r, s, acts)
    decreases |acts|
  {
    if acts == [] then s else After(r, Next(r, s, acts[0]), acts[1..])
  }

  // ---------- Who lists whom ----------

  function Ids(t: Table): set<string> {
    set i | 0 <= i < |t| :: t[i].peer.deviceId
  }

  predicate Knows(s: Net, a: string, b: string)
    requires a in s.tables
  {
    Lists(s.tables[a], b)
  }

  /** The system seen from outside: running nodes, who lists whom, and what is in flight. */
  datatype View = View(nodes: set<string>, knows: set<(string, string)>, sky: multiset<(string, string)>)

  function ViewOf(s: Net): View {
    View(s.tables.Keys, set a, b | a in s.tables && b in Ids(s.tables[a]) :: (a, b), s.inFlight)
  }

  /** a lists b, or b's announcement is on its way to a, or a's is on its way to make b answer. */
  predicate Covered(v: View, a: string, b: string) {
    (a, b) in v.knows || (b, a) in v.sky || ((b, a) !in v.knows && (a, b) in v.sky)
  }

  ghost predicate AllCovered(v: View) {
    && (forall p :: p in v.knows ==> p.0 in v.nodes && p.1 in v.nodes && p.0 != p.1)
    && (forall m :: m in v.sky ==> m.0 in v.nodes && m.1 in v.nodes)
    && (forall a, b :: a in v.nodes && b in v.nodes && a != b ==> Covered(v, a, b))
  }

  ghost predicate Inv(r: Roster, s: Net) {
    && ValidRoster(r) && s.tables.Keys <= r.Keys
    && (forall a :: a in s.tables ==> DistinctIds(s.tables[a]))
    && AllCovered(ViewOf(s))
  }

  lemma KnowsIsListed(s: Net, a: string, b: string)
    requires a in s.tables
    ensures Knows(s, a, b) <==> (a, b) in ViewOf(s).knows
  {
    var t := s.tables[a];
    assert Lists(t, b) ==> t[IndexOf(t, b)].peer.deviceId in Ids(t);
  }

  lemma IdsOfUpserted(t: Table, peer: Peer, now: UInt64)
    ensures Ids(Upserted(t, peer, now)) == Ids(t) + {peer.deviceId}
  {
    var u, i := Upserted(t, peer, now), IndexOf(t, peer.deviceId);
    assert u[i].peer.deviceId == peer.deviceId;
    forall id | id in Ids(t) ensures id in Ids(u) {
      var j :| 0 <= j < |t| && t[j].peer.deviceId == id;
      assert u[j].peer.deviceId == id;
    }
  }

  lemma CopiesContain(from: string, targets: set<string>, m: (string, string))
    ensures m in Copies(from, targets) <==> m.0 == from && m.1 in targets
    ensures |Copies(from, targets)| == |targets|
  {
    CopiesCount(from, targets);
  }

  lemma {:induction false} CopiesCount(from: string, targets: set<string>)
    ensures |(set b | b in targets :: (from, b))| == |targets|
  {
    if targets != {} {
      var x :| x in targets;
      CopiesCount(from, targets - {x});
      assert (set b | b in targets :: (from, b)) == (set b | b in targets - {x} :: (from, b)) + {(from, x)};
    }
  }

  // ---------- What the steps change ----------

  /** The outside effect of a step; a delivery that teaches its target something also makes it answer. */
  function Effect(v: View, act: Action): View {
    match act
    case Start(id) =>
      var running := v.nodes + {id};
      View(running, v.knows, v.sky + Copies(id, running) + Copies(id, running))
    case Deliver(from, to, _, _) =>
      var rest := v.sky - multiset{(from, to)};
      if from == to || (to, from) in v.knows then v.(sky := rest)
      else View(v.nodes, v.knows + {(to, from)}, rest + Copies(to, v.nodes))
    case Tick(id, due, _) =>
      v.(sky := v.sky + if due then Copies(id, v.nodes) else multiset{})
  }

  /** One table gains at most one id; who lists whom changes accordingly. */
  lemma KnowledgeGained(s: Net, s': Net, a: string, extra: set<string>)
    requires a in s'.tables && s'.tables.Keys == s.tables.Keys + {a}
    requires Ids(s'.tables[a]) == extra + if a in s.tables then Ids(s.tables[a]) else {}
    requires forall x :: x in s.tables && x != a ==> s'.tables[x] == s.tables[x]
    ensures ViewOf(s').knows == ViewOf(s).knows + set b | b in extra :: (a, b)
  {
  }

  /** A delivery in terms of tables: what Next does once decoding and pruning are worked out. */
  lemma DeliverNext(r: Roster, s: Net, act: Action)
    requires ValidRoster(r) && act.Deliver? && Enabled(r, s, act)
    ensures var from, to := act.from, act.to;
            var rest := s.inFlight - multiset{(from, to)};
            Next(r, s, act) ==
            if from == to then s.(inFlight := rest)
            else
              Net(s.tables[to := Upserted(s.tables[to], r[from], act.seen)],
                  rest + if Knows(s, to, from) then multiset{} else Copies(to, s.tables.Keys))
  {
  }

  lemma DeliverEffect(r: Roster, s: Net, act: Action)
    requires Inv(r, s) && act.Deliver? && Enabled(r, s, act)
    ensures ViewOf(Next(r, s, act)) == Effect(ViewOf(s), act)
    ensures act.from != act.to ==>
              Next(r, s, act).tables == s.tables[act.to := Upserted(s.tables[act.to], r[act.from], act.seen)]
  {
    DeliverNext(r, s, act);
    TeachingEffect(s, Next(r, s, act), act, r[act.from]);
  }

  lemma TeachingEffect(s: Net, s': Net, act: Action, peer: Peer)
    requires act.Deliver? && act.to in s.tables && peer.deviceId == act.from
    requires var from, to := act.from, act.to;
             var rest := s.inFlight - multiset{(from, to)};
             s' == if from == to then s.(inFlight := rest)
                   else
                     Net(s.tables[to := Upserted(s.tables[to], peer, act.seen)],
                         rest + if Knows(s, to, from) then multiset{} else Copies(to, s.tables.Keys))
    ensures ViewOf(s') == Effect(ViewOf(s), act)
  {
    var from, to := act.from, act.to;
    KnowsIsListed(s, to, from);
    if from != to {
      TaughtKnows(s, s', to, peer, act.seen);
    }
  }

  lemma TaughtKnows(s: Net, s': Net, to: string, peer: Peer, now: UInt64)
    requires to in s.tables && s'.tables == s.tables[to := Upserted(s.tables[to], peer, now)]
    ensures ViewOf(s').knows == ViewOf(s).knows + {(to, peer.deviceId)}
  {
    IdsOfUpserted(s.tables[to], peer, now);
    KnowledgeGained(s, s', to, {peer.deviceId});
    assert (set b | b in {peer.deviceId} :: (to, b)) == {(to, peer.deviceId)};
  }

  lemma StartEffect(r: Roster, s: Net, id: string)
    requires Enabled(r, s, Start(id))
    ensures ViewOf(Next(r, s, Start(id))) == Effect(ViewOf(s), Start(id))
  {
    KnowledgeGained(s, Next(r, s, Start(id)), id, {});
  }

  /** More copies in flight between running nodes do not uncover a pair. */
  lemma MoreCopiesKeepCover(v: View, sky: multiset<(string, string)>)
    requires AllCovered(v)
    requires forall m :: m in v.sky ==> m in sky
    requires forall m :: m in sky ==> m.0 in v.nodes && m.1 in v.nodes
    ensures AllCovered(v.(sky := sky))
  {
    forall a, b | a in v.nodes && b in v.nodes && a != b ensures Covered(v.(sky := sky), a, b) {
      assert Covered(v, a, b);
    }
  }

  lemma StartKeepsCover(v: View, id: string)
    requires AllCovered(v) && id !in v.nodes
    ensures AllCovered(Effect(v, Start(id)))
  {
    var v' := Effect(v, Start(id));
    forall m ensures m in v'.sky <==> m in v.sky || (m.0 == id && m.1 in v'.nodes) {
      CopiesContain(id, v.nodes + {id}, m);
    }
    forall a, b | a in v'.nodes && b in v'.nodes && a != b ensures Covered(v', a, b) {
      if a != id && b != id {
        assert Covered(v, a, b);
      }
    }
  }

  /** The copy that taught nothing was not what covered any pair. */
  lemma DeliverKeepsCover(v: View, act: Action)
    requires AllCovered(v) && act.Deliver? && (act.from, act.to) in v.sky
    ensures AllCovered(Effect(v, act))
  {
    var v', from, to := Effect(v, act), act.from, act.to;
    var answered := from != to && (to, from) !in v.knows;
    forall m ensures m in v.sky && m != (from, to) ==> m in v'.sky
             ensures answered && m.0 == to && m.1 in v.nodes ==> m in v'.sky
             ensures m in v'.sky ==> m in v.sky || (m.0 == to && m.1 in v.nodes)
    {
      CopiesContain(to, v.nodes, m);
    }
    forall a, b | a in v'.nodes && b in v'.nodes && a != b ensures Covered(v', a, b) {
      assert Covered(v, a, b);
      assert answered && a == from && b == to ==> (to, from) in v'.sky;
    }
  }

  lemma TickKeepsCover(v: View, act: Action)
    requires AllCovered(v) && act.Tick? && act.id in v.nodes
    ensures AllCovered(Effect(v, act))
  {
    forall m ensures m in Copies(act.id, v.nodes) <==> m.0 == act.id && m.1 in v.nodes {
      CopiesContain(act.id, v.nodes, m);
    }
    MoreCopiesKeepCover(v, Effect(v, act).sky);
  }

  lemma DeliverKeepsInv(r: Roster, s: Net, act: Action)
    requires Inv(r, s) && act.Deliver? && Enabled(r, s, act)
    ensures Inv(r, Next(r, s, act))
  {
    DeliverEffect(r, s, act);
    DeliverKeepsCover(ViewOf(s), act);
    DeliverNext(r, s, act);
    FindUpserted(s.tables[act.to], r[act.from], act.seen, act.from);
  }

  lemma NextKeepsInv(r: Roster, s: Net, act: Action)
    requires Inv(r, s) && Enabled(r, s, act)
    ensures Inv(r, Next(r, s, act))
  {
    match act
    case Start(id) =>
      StartEffect(r, s, id);
      StartKeepsCover(ViewOf(s), id);
    case Deliver(_, _, _, _) =>
      DeliverKeepsInv(r, s, act);
    case Tick(_, _, _) =>
      assert Next(r, s, act).tables == s.tables;
      TickKeepsCover(ViewOf(s), act);
  }

  lemma {:induction false} RunKeepsInv(r: Roster, s: Net, acts: seq<Action>)
    requires Inv(r, s) && CanRun(r, s, acts)
    ensures Inv(r, After(r, s, acts))
    decreases |acts|
  {
    if acts != [] {
      NextKeepsInv(r, s, acts[0]);
      RunKeepsInv(r, Next(r, s, acts[0]), acts[1..]);
    }
  }

  ghost predicate FullyDiscovered(s: Net) {
    forall a, b :: a in s.tables && b in s.tables && a != b ==> Knows(s, a, b)
  }

  lemma DrainedIsDiscovered(s: Net)
    requires AllCovered(ViewOf(s)) && s.inFlight == multiset{}
    ensures FullyDiscovered(s)
  {
    forall a, b | a in s.tables && b in s.tables && a != b ensures Knows(s, a, b) {
      assert Covered(ViewOf(s), a, b);
      KnowsIsListed(s, a, b);
    }
  }

  /** A run from the empty network keeps every pair covered; drained, it is fully discovered. */
  lemma MutualDiscovery(r: Roster, acts: seq<Action>)
    requires ValidRoster(r) && CanRun(r, QUIET, acts)
    ensures AllCovered(ViewOf(After(r, QUIET, acts)))
    ensures After(r, QUIET, acts).inFlight == multiset{} ==> FullyDiscovered(After(r, QUIET, acts))
  {
    RunKeepsInv(r, QUIET, acts);
    if After(r, QUIET, acts).inFlight == multiset{} {
      DrainedIsDiscovered(After(r, QUIET, acts));
    }
  }

  // ---------- No broadcast storm ----------

  /** Ordered pairs of running nodes of which the first does not list the second. */
  function Unknown(v: View): set<(string, string)> {
    (set a, b | a in v.nodes && b in v.nodes && a != b :: (a, b)) - v.knows
  }

  function Product(x: nat, y: nat): nat {
    x * y
  }

  function Weight(v: View): nat {
    Product(|Unknown(v)|, |v.nodes|) + |v.sky|
  }

  lemma Smaller<T>(small: set<T>, x: T, big: set<T>)
    requires x in big && x !in small && small <= big
    ensures |small| + 1 <= |big|
  {
    SubsetSize(small, big - {x});
  }

  lemma {:induction false} SubsetSize<T>(small: set<T>, big: set<T>)
    requires small <= big
    ensures |small| <= |big|
  {
    if small != {} {
      var x :| x in small;
      SubsetSize(small - {x}, big - {x});
    }
  }

  lemma Payoff(fewer: nat, more: nat, n: nat)
    requires fewer + 1 <= more
    ensures fewer * n + n <= more * n
  {
    assert (fewer + 1) * n == fewer * n + n;
    MulMonotone(fewer + 1, more, n);
  }

  lemma {:induction false} MulMonotone(x: nat, y: nat, n: nat)
    requires x <= y
    ensures x * n <= y * n
  {
    if n > 0 {
      MulMonotone(x, y, n - 1);
      assert x * n == x * (n - 1) + x && y * n == y * (n - 1) + y;
    }
  }

  /** Every delivery makes the system lighter, the answers it triggers included. */
  lemma DeliveryLowersWeight(v: View, act: Action)
    requires AllCovered(v) && act.Deliver? && (act.from, act.to) in v.sky
    ensures Weight(Effect(v, act)) < Weight(v)
  {
    var v', from, to := Effect(v, act), act.from, act.to;
    if from == to || (to, from) in v.knows {
      assert Unknown(v') == Unknown(v);
    } else {
      assert (to, from) in Unknown(v) && (to, from) !in Unknown(v');
      Smaller(Unknown(v'), (to, from), Unknown(v));
      CopiesContain(to, v.nodes, (to, to));
      Payoff(|Unknown(v')|, |Unknown(v)|, |v.nodes|);
    }
  }

  predicate OnlyDeliveries(acts: seq<Action>) {
    forall i :: 0 <= i < |acts| ==> acts[i].Deliver?
  }

  lemma DeliverStep(r: Roster, s: Net, act: Action, s': Net)
    requires Inv(r, s) && act.Deliver? && Enabled(r, s, act) && s' == Next(r, s, act)
    ensures Inv(r, s') && Weight(ViewOf(s')) < Weight(ViewOf(s))
  {
    DeliverEffect(r, s, act);
    DeliveryLowersWeight(ViewOf(s), act);
    DeliverKeepsInv(r, s, act);
  }

  /** The first delivery of a run, and the run that is left. */
  lemma DeliveryRunStep(r: Roster, s: Net, acts: seq<Action>, s': Net, rest: seq<Action>)
    requires |acts| > 0 && rest == acts[1..]
    requires Inv(r, s) && CanRun(r, s, acts) && OnlyDeliveries(acts) && s' == Next(r, s, acts[0])
    ensures Inv(r, s') && CanRun(r, s', rest) && OnlyDeliveries(rest)
    ensures Weight(ViewOf(s')) < Weight(ViewOf(s))
  {
    DeliverStep(r, s, acts[0], s');
  }

  /** With no further starts or ticks, a run is no longer than the weight it starts with. */
  lemma {:induction false} CascadeTerminates(r: Roster, s: Net, acts: seq<Action>)
    requires Inv(r, s) && CanRun(r, s, acts) && OnlyDeliveries(acts)
    ensures |acts| <= Weight(ViewOf(s))
    decreases |acts|
  {
    if |acts| > 0 {
      var s' := Next(r, s, acts[0]);
      DeliveryRunStep(r, s, acts, s', acts[1..]);
      CascadeTerminates(r, s', acts[1..]);
    }
  }

  lemma {:induction false} DeliveriesKeepNodes(r: Roster, s: Net, acts: seq<Action>)
    requires CanRun(r, s, acts) && OnlyDeliveries(acts)
    ensures After(r, s, acts).tables.Keys == s.tables.Keys
    decreases |acts|
  {
    if acts != [] {
      DeliveriesKeepNodes(r, Next(r, s, acts[0]), acts[1..]);
    }
  }

  // ---------- Deliveries go on until nothing is in flight ----------

  /** There is a moment at which nothing in the table is stale. */
  ghost predicate Settled(t: Table) {
    exists q: UInt64 :: NothingExpires(t, q)
  }

  ghost predicate AllSettled(s: Net) {
    forall a :: a in s.tables ==> Settled(s.tables[a])
  }

  lemma NextKeepsSettled(r: Roster, s: Net, act: Action)
    requires AllSettled(s) && Enabled(r, s, act)
    ensures AllSettled(Next(r, s, act))
  {
    match act
    case Start(id) => assert NothingExpires([], 0);
    case Deliver(from, to, seen, sweep) =>
      assert from != to ==> NothingExpires(Upserted(s.tables[to], r[from], seen), sweep);
    case Tick(id, _, sweep) => assert NothingExpires(s.tables[id], sweep);
  }

  lemma {:induction false} RunKeepsSettled(r: Roster, s: Net, acts: seq<Action>)
    requires AllSettled(s) && CanRun(r, s, acts)
    ensures AllSettled(After(r, s, acts))
    decreases |acts|
  {
    if |acts| > 0 {
      NextKeepsSettled(r, s, acts[0]);
      RunKeepsSettled(r, Next(r, s, acts[0]), acts[1..]);
    }
  }

  lemma {:induction false} NoneStale(t: Table, q: UInt64)
    requires forall i :: 0 <= i < |t| ==> !Stale(t[i], q)
    ensures NothingExpires(t, q)
    decreases |t|
  {
    if |t| > 0 {
      NoneStale(t[1..], q);
    }
  }

  /** Handled at a moment when nothing is stale, an announcement drops nothing. */
  lemma UpsertExpiresNothing(t: Table, peer: Peer, q: UInt64)
    requires NothingExpires(t, q)
    ensures NothingExpires(Upserted(t, peer, q), q)
  {
    var u := Upserted(t, peer, q);
    PrunedElements(t, q);
    forall i | 0 <= i < |u| ensures !Stale(u[i], q) {
      assert u[i] == Entry(peer, q) || u[i] in t;
    }
    NoneStale(u, q);
  }

  /** Any message in flight to a running node can be delivered. */
  lemma DeliveryPossible(r: Roster, s: Net, m: (string, string)) returns (act: Action)
    requires AllSettled(s) && m in s.inFlight && m.0 in r && m.1 in s.tables
    ensures act.Deliver? && act.from == m.0 && act.to == m.1 && Enabled(r, s, act)
  {
    assert Settled(s.tables[m.1]);
    var q: UInt64 :| NothingExpires(s.tables[m.1], q);
    UpsertExpiresNothing(s.tables[m.1], r[m.0], q);
    act := Deliver(m.0, m.1, q, q);
  }

  /** No delivery is possible. */
  ghost predicate Stuck(r: Roster, s: Net) {
    forall act: Action :: act.Deliver? ==> !Enabled(r, s, act)
  }

  /** Deliveries stop exactly when nothing is in flight. */
  lemma StuckIsDrained(r: Roster, s: Net)
    requires Inv(r, s) && AllSettled(s)
    ensures Stuck(r, s) <==> s.inFlight == multiset{}
  {
    if s.inFlight != multiset{} {
      var m :| m in s.inFlight;
      assert m in ViewOf(s).sky;
      var act := DeliveryPossible(r, s, m);
    }
  }

  lemma SomeDelivery(r: Roster, s: Net) returns (act: Action, s': Net)
    requires Inv(r, s) && AllSettled(s) && |s.inFlight| > 0
    ensures act.Deliver? && Enabled(r, s, act) && s' == Next(r, s, act)
    ensures Inv(r, s') && AllSettled(s') && Weight(ViewOf(s')) < Weight(ViewOf(s))
  {
    var m :| m in s.inFlight;
    assert m in ViewOf(s).sky;
    act := DeliveryPossible(r, s, m);
    s' := Next(r, s, act);
    DeliverStep(r, s, act, s');
    NextKeepsSettled(r, s, act);
  }

  lemma RunPrepend(r: Roster, s: Net, act: Action, rest: seq<Action>)
    requires act.Deliver? && Enabled(r, s, act) && CanRun(r, Next(r, s, act), rest) && OnlyDeliveries(rest)
    ensures CanRun(r, s, [act] + rest) && OnlyDeliveries([act] + rest)
    ensures After(r, s, [act] + rest) == After(r, Next(r, s, act), rest)
  {
    assert ([act] + rest)[1..] == rest;
  }

  /** From any such state some run of deliveries drains the network. */
  lemma {:induction false} SomeRunDrains(r: Roster, s: Net) returns (acts: seq<Action>)
    requires Inv(r, s) && AllSettled(s)
    ensures CanRun(r, s, acts) && OnlyDeliveries(acts)
    ensures |After(r, s, acts).inFlight| == 0
    decreases Weight(ViewOf(s))
  {
    acts := [];
    if |s.inFlight| > 0 {
      var act, s' := SomeDelivery(r, s);
      var rest := SomeRunDrains(r, s');
      RunPrepend(r, s, act, rest);
      acts := [act] + rest;
    }
  }

  /**
   From any reachable state, deliveries alone: at most Weight many happen, no node comes
   or goes, they stop exactly when nothing is left in flight, and whenever they have
   stopped everyone lists everyone.
   */
  lemma CascadeEndsDiscovered(r: Roster, before: seq<Action>, deliveries: seq<Action>)
    requires ValidRoster(r) && CanRun(r, QUIET, before)
    requires CanRun(r, After(r, QUIET, before), deliveries) && OnlyDeliveries(deliveries)
    ensures var s := After(r, QUIET, before);
            var end := After(r, s, deliveries);
            && |deliveries| <= Weight(ViewOf(s))
            && end.tables.Keys == s.tables.Keys
            && (Stuck(r, end) <==> end.inFlight == multiset{})
            && (Stuck(r, end) ==> FullyDiscovered(end))
  {
    var s := After(r, QUIET, before);
    RunKeepsInv(r, QUIET, before);
    RunKeepsSettled(r, QUIET, before);
    CascadeTerminates(r, s, deliveries);
    DeliveriesKeepNodes(r, s, deliveries);
    EndIsDiscovered(r, s, deliveries);
  }

  lemma EndIsDiscovered(r: Roster, s: Net, acts: seq<Action>)
    requires Inv(r, s) && AllSettled(s) && CanRun(r, s, acts)
    ensures Stuck(r, After(r, s, acts)) <==> After(r, s, acts).inFlight == multiset{}
    ensures Stuck(r, After(r, s, acts)) ==> FullyDiscovered(After(r, s, acts))
  {
    var end := After(r, s, acts);
    RunKeepsInv(r, s, acts);
    RunKeepsSettled(r, s, acts);
    StuckIsDrained(r, end);
    if end.inFlight == multiset{} {
      DrainedIsDiscovered(end);
    }
  }
}
