/** From the sender's pushes to what its client hands over, and to the receiver's cursor and keys. */
module EndToEnd {
  import opened Prelude
  import opened InputEvents
  import opened MoveAggregators
  import opened SenderFlow
  import opened WindowsEmitter
  import C = Communication
  import D = DiscoveryService
  import T = SenderThreads
  import UC = UdpClient

  // ---------- Lists element by element ----------

  function FlatMap<S, T>(f: S -> seq<T>, list: seq<S>): seq<T> {
    if |list| == 0 then [] else FlatMap(f, list[..|list| - 1]) + f(list[|list| - 1])
  }

  lemma FlatMapAppend<S, T>(f: S -> seq<T>, list: seq<S>, x: S)
    ensures FlatMap(f, list + [x]) == FlatMap(f, list) + f(x)
  {
    assert (list + [x])[..|list|] == list;
  }

  lemma Regroup<T>(a: seq<T>, b: seq<T>, c: seq<T>)
    ensures (a + b) + c == a + (b + c)
  {
  }

  lemma {:induction false} FlatMapConcat<S, T>(f: S -> seq<T>, a: seq<S>, b: seq<S>)
    ensures FlatMap(f, a + b) == FlatMap(f, a) + FlatMap(f, b)
    decreases |b|
  {
    if |b| == 0 {
      assert a + b == a;
    } else {
      var n := |b| - 1;
      FlatMapConcat(f, a, b[..n]);
      Regroup(FlatMap(f, a), FlatMap(f, b[..n]), f(b[n]));
      FlatMapAppend(f, a + b[..n], b[n]);
      assert a + b == (a + b[..n]) + [b[n]];
    }
  }

  lemma FlatMapHead<S, T>(f: S -> seq<T>, x: S, rest: seq<S>)
    ensures FlatMap(f, [x] + rest) == f(x) + FlatMap(f, rest)
  {
    FlatMapConcat(f, [x], rest);
    FlatMapAppend(f, [], x);
    assert [] + [x] == [x];
  }

  // ---------- Reliable packets ----------

  function EventIn(p: UC.Packet): seq<InputEvent> {
    var e := EventFromWire(p.payload);
    if e.Some? then [e.value] else []
  }

  /** The events that these packets carry. */
  function EventsIn(packets: seq<UC.Packet>): seq<InputEvent> {
    if |packets| == 0 then [] else EventsIn(packets[..|packets| - 1]) + EventIn(packets[|packets| - 1])
  }

  lemma EventsInAppend(packets: seq<UC.Packet>, p: UC.Packet)
    ensures EventsIn(packets + [p]) == EventsIn(packets) + EventIn(p)
  {
    assert (packets + [p])[..|packets|] == packets;
  }

  /** A subsequence stays one when at most one element is added to the longer, or to both. */
  lemma SubsequenceStep(a: seq<InputEvent>, b: seq<InputEvent>, more: seq<InputEvent>, taken: bool)
    requires UC.Subsequence(a, b) && |more| <= 1
    ensures UC.Subsequence(a + (if taken then more else []), b + more)
  {
    if |more| == 1 {
      assert more == [more[0]] && a + [] == a;
      UC.SubsequenceGrows(a, b, more[0]);
    } else {
      assert a + [] == a && b + [] == b && more == [];
    }
  }

  lemma {:induction false} EventsInSubsequence(a: seq<UC.Packet>, b: seq<UC.Packet>)
    requires UC.Subsequence(a, b)
    ensures UC.Subsequence(EventsIn(a), EventsIn(b))
    decreases |b|
  {
    if |a| > 0 {
      var last, init := b[|b| - 1], b[..|b| - 1];
      var taken := a[|a| - 1] == last && UC.Subsequence(a[..|a| - 1], init);
      var before := if taken then a[..|a| - 1] else a;
      EventsInSubsequence(before, init);
      SubsequenceStep(EventsIn(before), EventsIn(init), EventIn(last), taken);
      assert EventsIn(before) + [] == EventsIn(before);
    }
  }

  /** The event asked to be sent reliably, if this is one. */
  function ReliableEvent(s: C.Sent): seq<InputEvent> {
    if s.reliable then EventIn(UC.Packet(s.reliable, s.text)) else []
  }

  lemma ReliableAppend(packets: seq<UC.Packet>, p: UC.Packet)
    ensures UC.Reliable(packets + [p]) == UC.Reliable(packets) + if p.reliable then [p] else []
  {
    assert (packets + [p])[..|packets|] == packets;
  }

  lemma ReliableStep(packets: seq<UC.Packet>, s: C.Sent)
    ensures EventsIn(UC.Reliable(packets + [UC.Packet(s.reliable, s.text)])) ==
            EventsIn(UC.Reliable(packets)) + ReliableEvent(s)
  {
    var p := UC.Packet(s.reliable, s.text);
    ReliableAppend(packets, p);
    if s.reliable {
      EventsInAppend(UC.Reliable(packets), p);
    } else {
      assert UC.Reliable(packets) + [] == UC.Reliable(packets);
    }
  }

  /** What a client is asked to send reliably when these are sent through it. */
  lemma {:induction false} ReliableRequests(sent: seq<C.Sent>)
    ensures EventsIn(UC.Reliable(C.Packets(sent))) == FlatMap(ReliableEvent, sent)
    decreases |sent|
  {
    if |sent| > 0 {
      ReliableRequests(sent[..|sent| - 1]);
      ReliableStep(C.Packets(sent[..|sent| - 1]), sent[|sent| - 1]);
    }
  }

  lemma ReliableEventOf(to: string, e: InputEvent, reliable: bool)
    ensures ReliableEvent(C.Sent(to, EventToWire(e), reliable)) == if reliable then [e] else []
  {
    NestedRoundTrip(e);
  }

  /** Of an outbox sent to a peer, the reliable events are its clicks. */
  lemma {:induction false} ReliableEventsAreClicks(to: string, out: seq<Outgoing>)
    requires AllSendable(out)
    ensures FlatMap(ReliableEvent, T.Addressed(Some(to), out)) == ClicksIn(out)
    decreases |out|
  {
    if |out| > 0 {
      ReliableEventsAreClicks(to, out[1..]);
      ReliableEventOf(to, EventOf(out[0]), out[0].Click?);
      FlatMapHead(ReliableEvent, C.Sent(to, EventToWire(EventOf(out[0])), out[0].Click?), T.Addressed(Some(to), out[1..]));
    }
  }

  /** The request that opens a session carries no event. */
  lemma RequestIsNoEvent(selfId: string, to: string)
    ensures ReliableEvent(C.Sent(to, EncodePackage(C.BecomeReceiver(selfId)), true)) == []
  {
    PackageRoundTrip(C.BecomeReceiver(selfId));
    assert |C.BECOME_RECEIVER| != |KEYBOARD_INPUT|;
  }

  /**
   Reliable packets handed to ENet: for a client that was asked to send a session's request
   and then a flow's outbox, whatever ENet answered, they decode to an in-order
   subsequence of the accepted events that are neither move nor scroll.
   */
  lemma ReliablePushesInOrder(c: UC.UdpClient, selfId: string, to: string, acts: seq<Action>)
    requires c.Valid() && CanRun(NEW_FLOW, acts) && AllSendable(Outbox(NEW_FLOW, acts))
    requires c.requested == C.Packets([C.Sent(to, EncodePackage(C.BecomeReceiver(selfId)), true)]
                                      + T.Addressed(Some(to), Outbox(NEW_FLOW, acts)))
    ensures UC.Subsequence(EventsIn(UC.Reliable(c.handed)), AcceptedClicks(NEW_FLOW, acts))
  {
    c.ReliableInOrder();
    EventsInSubsequence(UC.Reliable(c.handed), UC.Reliable(c.requested));
    RequestedClicks(selfId, to, Outbox(NEW_FLOW, acts));
    ClicksSent(NEW_FLOW, acts);
  }

  lemma RequestedClicks(selfId: string, to: string, out: seq<Outgoing>)
    requires AllSendable(out)
    ensures EventsIn(UC.Reliable(C.Packets([C.Sent(to, EncodePackage(C.BecomeReceiver(selfId)), true)]
                                           + T.Addressed(Some(to), out)))) == ClicksIn(out)
  {
    var request, rest := C.Sent(to, EncodePackage(C.BecomeReceiver(selfId)), true), T.Addressed(Some(to), out);
    ReliableRequests([request] + rest);
    FlatMapHead(ReliableEvent, request, rest);
    RequestIsNoEvent(selfId, to);
    ReliableEventsAreClicks(to, out);
    assert [] + ClicksIn(out) == ClicksIn(out);
  }

  /**
   A sending session: a click on a listed device, then any schedule of a new flow. What
   was sent since the pin is the request and the flow's outbox, and the client handed
   over reliable packets in the order of the accepted events, none of them invented.
   */
  method SendingSession(home: C.HomeScene, d: D.Candidate, created: Option<UC.Host>, env: T.Env,
                        acts: seq<Action>, envs: seq<T.Env>)
    returns (sender: T.Sender)
    requires home.service.Valid() && C.FreshHost(created) && C.FreshHost(env.luck.creates)
    requires CanRun(NEW_FLOW, acts) && |envs| == |acts|
    requires forall i :: 0 <= i < |envs| ==> C.FreshHost(envs[i].luck.creates)
    modifies home, home.service
    ensures sender.registry == home.service && home.service.Valid() && home.service.client != null
    ensures sender.View() == After(NEW_FLOW, acts) && AllSendable(Outbox(NEW_FLOW, acts))
    ensures home.service.outbox[home.service.pinnedAt..] ==
            [C.Sent(d.ip, EncodePackage(C.BecomeReceiver(home.selfId)), true)]
            + T.Addressed(Some(d.ip), Outbox(NEW_FLOW, acts))
    ensures UC.Subsequence(EventsIn(UC.Reliable(home.service.client.handed)), AcceptedClicks(NEW_FLOW, acts))
  {
    home.OnConnectClick(d, created, env.now, env.luck);
    ghost var before, at := home.service.outbox, home.service.pinnedAt;
    sender := RunPinned(home.service, acts, envs);
    SinceMark(before, at, home.service.outbox, T.Addressed(Some(d.ip), Outbox(NEW_FLOW, acts)));
    ReliablePushesInOrder(home.service.client, home.selfId, d.ip, acts);
  }

  lemma SinceMark(before: seq<C.Sent>, at: nat, after: seq<C.Sent>, more: seq<C.Sent>)
    requires at <= |before| && after == before + more
    ensures after[at..] == before[at..] + more
  {
  }

  /** Any schedule of a new flow on a service that is pinned. */
  method RunPinned(service: C.CommunicationService, acts: seq<Action>, envs: seq<T.Env>) returns (sender: T.Sender)
    requires service.Valid() && service.client != null
    requires CanRun(NEW_FLOW, acts) && |envs| == |acts|
    requires forall i :: 0 <= i < |envs| ==> C.FreshHost(envs[i].luck.creates)
    modifies service`outbox, service.client
    ensures service.Valid() && sender.registry == service
    ensures sender.View() == After(NEW_FLOW, acts) && AllSendable(Outbox(NEW_FLOW, acts))
    ensures service.outbox == old(service.outbox) + T.Addressed(service.pinnedPeer, Outbox(NEW_FLOW, acts))
  {
    sender := new T.Sender(service);
    sender.RunFlow(acts, envs);
  }

  // ---------- Motion and keys at the receiver ----------

  function MoveOf(e: InputEvent): seq<InputEvent> {
    if IsMotion(e, Which.Move) then [e] else []
  }

  function PlainOf(e: InputEvent): seq<InputEvent> {
    if IsMotion(e, Which.Move) || IsMotion(e, Which.Scroll) then [] else [e]
  }

  /** The move events among these, and the events that are not motion. */
  function MovesIn(events: seq<InputEvent>): seq<InputEvent> {
    FlatMap(MoveOf, events)
  }

  function PlainIn(events: seq<InputEvent>): seq<InputEvent> {
    FlatMap(PlainOf, events)
  }

  function MoveEvents(sent: seq<Vec>): seq<InputEvent>
    requires AllFit(sent)
  {
    seq(|sent|, i requires 0 <= i < |sent| => MotionEvent(Which.Move, sent[i]))
  }

  lemma {:induction false} MoveEventsSum(sent: seq<Vec>)
    requires AllFit(sent)
    ensures Moved(MoveEvents(sent)) == Sum(sent)
    decreases |sent|
  {
    if |sent| > 0 {
      var n := |sent| - 1;
      MoveEventsSum(sent[..n]);
      assert MoveEvents(sent)[..n] == MoveEvents(sent[..n]);
    }
  }

  /** Only the move events move the cursor. */
  lemma {:induction false} MovedByMoves(events: seq<InputEvent>)
    ensures Moved(events) == Moved(MovesIn(events))
    decreases |events|
  {
    if |events| > 0 {
      var init, e := events[..|events| - 1], events[|events| - 1];
      MovedByMoves(init);
      if IsMotion(e, Which.Move) {
        assert (MovesIn(init) + [e])[..|MovesIn(init)|] == MovesIn(init);
      } else {
        assert MovesIn(events) == MovesIn(init);
      }
    }
  }

  /** Motion holds and releases no key. */
  lemma {:induction false} HeldByPlain(events: seq<InputEvent>)
    ensures HeldCodes(events) == HeldCodes(PlainIn(events))
    decreases |events|
  {
    if |events| > 0 {
      var init, e := events[..|events| - 1], events[|events| - 1];
      HeldByPlain(init);
      if !IsMotion(e, Which.Move) && !IsMotion(e, Which.Scroll) {
        assert (PlainIn(init) + [e])[..|PlainIn(init)|] == PlainIn(init);
      } else {
        assert PlainIn(events) == PlainIn(init);
      }
    }
  }

  /**
   A receiver that gets a set of move packets moves its cursor by their sum, whatever keys,
   clicks and scrolls the same peer sends among them, and whatever others send.
   */
  lemma PacketsMoveCursor(sent: seq<Vec>, s: C.Session, ops: seq<C.Op>, ip: string)
    requires AllFit(sent)
    requires C.ReceivingFrom(s, ip) && !s.ended && |s.injected| == 0
    requires !C.SomeMalformed(C.TextsFrom(ip, ops))
    requires MovesIn(C.Carried(C.TextsFrom(ip, ops))) == MoveEvents(sent)
    ensures !C.Run(s, ops).ended
    ensures Displacement(EmitAll(C.InjectedEvents(C.Run(s, ops).injected))) == Sum(sent)
  {
    var carried := C.Carried(C.TextsFrom(ip, ops));
    C.ReceiverInjects(s, ops, ip);
    assert C.InjectedEvents(s.injected) + carried == carried;
    CursorFollows(carried);
    MovedByMoves(carried);
    MoveEventsSum(sent);
  }

  /**
   Motion is conserved across the network: for any run of the sender and any session of
   the receiver that gets its move packets, amid any other traffic from anyone, everything
   pushed is the way the receiver's cursor went, what a worker has in hand, and what is
   accumulated.
   */
  lemma MotionConserved(acts: seq<Action>, s: C.Session, ops: seq<C.Op>, ip: string)
    requires CanRun(NEW_FLOW, acts)
    requires C.ReceivingFrom(s, ip) && !s.ended && |s.injected| == 0
    requires !C.SomeMalformed(C.TextsFrom(ip, ops))
    requires var l := LaneOf(After(NEW_FLOW, acts), Which.Move);
             AllFit(l.sent) && MovesIn(C.Carried(C.TextsFrom(ip, ops))) == MoveEvents(l.sent)
    ensures var l := LaneOf(After(NEW_FLOW, acts), Which.Move);
            ThreeParts(Sum(AcceptedMotion(NEW_FLOW, acts, Which.Move)), Displacement(EmitAll(C.InjectedEvents(C.Run(s, ops).injected))), InHand(l.pc), l.acc)
  {
    Conservation(acts, Which.Move);
    PacketsMoveCursor(LaneOf(After(NEW_FLOW, acts), Which.Move).sent, s, ops, ip);
  }

  // ---------- Scrolling at the receiver ----------

  function ScrollOf(e: InputEvent): seq<InputEvent> {
    if IsMotion(e, Which.Scroll) then [e] else []
  }

  function ScrollEvents(sent: seq<Vec>): seq<InputEvent>
    requires AllFit(sent)
  {
    seq(|sent|, i requires 0 <= i < |sent| => MotionEvent(Which.Scroll, sent[i]))
  }

  /** Horizontal notches of the packets that have no vertical motion; the others lose theirs at the receiver. */
  function Across(sent: seq<Vec>): int {
    if |sent| == 0 then 0
    else Across(sent[..|sent| - 1]) + if sent[|sent| - 1].y == 0 then sent[|sent| - 1].x else 0
  }

  lemma {:induction false} ScrollEventsSum(sent: seq<Vec>)
    requires AllFit(sent)
    ensures ScrolledUp(ScrollEvents(sent)) == SumY(sent) && ScrolledAcross(ScrollEvents(sent)) == Across(sent)
    decreases |sent|
  {
    if |sent| > 0 {
      var n := |sent| - 1;
      ScrollEventsSum(sent[..n]);
      assert ScrollEvents(sent)[..n] == ScrollEvents(sent[..n]);
    }
  }

  lemma ScrolledAppend(events: seq<InputEvent>, e: InputEvent)
    ensures ScrolledUp(events + [e]) == ScrolledUp(events) + if IsScroll(e) then e.dy else 0
    ensures ScrolledAcross(events + [e]) == ScrolledAcross(events) + if IsScroll(e) && e.dy == 0 then e.dx else 0
  {
    assert (events + [e])[..|events|] == events;
  }

  /** Only the scroll events turn the wheels. */
  lemma {:induction false} ScrolledByScrolls(events: seq<InputEvent>)
    ensures ScrolledUp(events) == ScrolledUp(FlatMap(ScrollOf, events))
    ensures ScrolledAcross(events) == ScrolledAcross(FlatMap(ScrollOf, events))
    decreases |events|
  {
    if |events| > 0 {
      var init, e := events[..|events| - 1], events[|events| - 1];
      ScrolledByScrolls(init);
      if IsMotion(e, Which.Scroll) {
        ScrolledAppend(FlatMap(ScrollOf, init), e);
      } else {
        assert FlatMap(ScrollOf, events) == FlatMap(ScrollOf, init);
      }
    }
  }

  /**
   A receiver that gets these scroll packets, amid any other traffic, turns its vertical wheel
   120 for every notch pushed that is not in a worker's hands or accumulated, and its
   horizontal wheel 120 for every notch of the packets without vertical motion.
   */
  lemma ScrollingConserved(acts: seq<Action>, s: C.Session, ops: seq<C.Op>, ip: string)
    requires CanRun(NEW_FLOW, acts)
    requires C.ReceivingFrom(s, ip) && !s.ended && |s.injected| == 0
    requires !C.SomeMalformed(C.TextsFrom(ip, ops)) && NotchesFit(C.Carried(C.TextsFrom(ip, ops)))
    requires var l := LaneOf(After(NEW_FLOW, acts), Which.Scroll);
             AllFit(l.sent) && FlatMap(ScrollOf, C.Carried(C.TextsFrom(ip, ops))) == ScrollEvents(l.sent)
    ensures var l := LaneOf(After(NEW_FLOW, acts), Which.Scroll);
            Scrolled(EmitAll(C.InjectedEvents(C.Run(s, ops).injected)),
                     AcceptedMotion(NEW_FLOW, acts, Which.Scroll), l.sent, InHand(l.pc), l.acc)
  {
    var l := LaneOf(After(NEW_FLOW, acts), Which.Scroll);
    PacketsTurnWheels(l.sent, s, ops, ip);
    ScrollParts(acts);
    ScrolledByParts(EmitAll(C.InjectedEvents(C.Run(s, ops).injected)),
                    AcceptedMotion(NEW_FLOW, acts, Which.Scroll), l.sent, InHand(l.pc), l.acc);
  }

  /** The wheels have turned by what was pushed, less what is in hand and accumulated; and by the flat packets. */
  predicate Scrolled(log: seq<Injection>, pushed: seq<Vec>, sent: seq<Vec>, hand: seq<Vec>, acc: Vec) {
    VerticalTurn(log) == 120 * (SumY(pushed) - SumY(hand) - acc.y) && HorizontalTurn(log) == 120 * Across(sent)
  }

  lemma ScrollParts(acts: seq<Action>)
    requires CanRun(NEW_FLOW, acts)
    ensures var l := LaneOf(After(NEW_FLOW, acts), Which.Scroll);
            ThreeParts(Sum(AcceptedMotion(NEW_FLOW, acts, Which.Scroll)), Sum(l.sent), InHand(l.pc), l.acc)
  {
    Conservation(acts, Which.Scroll);
  }

  lemma ScrolledByParts(log: seq<Injection>, pushed: seq<Vec>, sent: seq<Vec>, hand: seq<Vec>, acc: Vec)
    requires ThreeParts(Sum(pushed), Sum(sent), hand, acc)
    requires VerticalTurn(log) == 120 * SumY(sent) && HorizontalTurn(log) == 120 * Across(sent)
    ensures Scrolled(log, pushed, sent, hand, acc)
  {
  }

  /** A receiver that gets these scroll packets turns its wheels by their notches. */
  lemma PacketsTurnWheels(sent: seq<Vec>, s: C.Session, ops: seq<C.Op>, ip: string)
    requires AllFit(sent)
    requires C.ReceivingFrom(s, ip) && !s.ended && |s.injected| == 0
    requires !C.SomeMalformed(C.TextsFrom(ip, ops)) && NotchesFit(C.Carried(C.TextsFrom(ip, ops)))
    requires FlatMap(ScrollOf, C.Carried(C.TextsFrom(ip, ops))) == ScrollEvents(sent)
    ensures var log := EmitAll(C.InjectedEvents(C.Run(s, ops).injected));
            VerticalTurn(log) == 120 * SumY(sent) && HorizontalTurn(log) == 120 * Across(sent)
  {
    var carried := C.Carried(C.TextsFrom(ip, ops));
    C.ReceiverInjects(s, ops, ip);
    assert C.InjectedEvents(s.injected) + carried == carried;
    WheelsFollow(carried);
    ScrolledByScrolls(carried);
    ScrollEventsSum(sent);
  }

  // ---------- A whole outbox delivered ----------

  function EventsOf(out: seq<Outgoing>): seq<InputEvent>
    requires AllSendable(out)
  {
    if |out| == 0 then [] else [EventOf(out[0])] + EventsOf(out[1..])
  }

  lemma {:induction false} PlainOfOutbox(out: seq<Outgoing>)
    requires AllSendable(out)
    ensures PlainIn(EventsOf(out)) == ClicksIn(out)
    decreases |out|
  {
    if |out| > 0 {
      PlainOfOutbox(out[1..]);
      FlatMapHead(PlainOf, EventOf(out[0]), EventsOf(out[1..]));
    }
  }

  lemma {:induction false} MovesOfOutbox(out: seq<Outgoing>)
    requires AllSendable(out)
    ensures AllFit(MotionsIn(out, Which.Move))
    ensures MovesIn(EventsOf(out)) == MoveEvents(MotionsIn(out, Which.Move))
    decreases |out|
  {
    if |out| > 0 {
      MovesOfOutbox(out[1..]);
      FlatMapHead(MoveOf, EventOf(out[0]), EventsOf(out[1..]));
    }
  }

  lemma {:induction false} ScrollsOfOutbox(out: seq<Outgoing>)
    requires AllSendable(out)
    ensures AllFit(MotionsIn(out, Which.Scroll))
    ensures FlatMap(ScrollOf, EventsOf(out)) == ScrollEvents(MotionsIn(out, Which.Scroll))
    decreases |out|
  {
    if |out| > 0 {
      ScrollsOfOutbox(out[1..]);
      FlatMapHead(ScrollOf, EventOf(out[0]), EventsOf(out[1..]));
    }
  }

  /** With nothing lost, and notches that fit, the receiver's wheels turn with what was pushed. */
  lemma OutboxScrolls(acts: seq<Action>, s: C.Session, ops: seq<C.Op>, ip: string)
    requires CanRun(NEW_FLOW, acts) && AllSendable(Outbox(NEW_FLOW, acts))
    requires C.ReceivingFrom(s, ip) && !s.ended && |s.injected| == 0
    requires C.AreWires(C.TextsFrom(ip, ops), EventsOf(Outbox(NEW_FLOW, acts)))
    requires NotchesFit(EventsOf(Outbox(NEW_FLOW, acts)))
    ensures var l := LaneOf(After(NEW_FLOW, acts), Which.Scroll);
            Scrolled(EmitAll(C.InjectedEvents(C.Run(s, ops).injected)),
                     AcceptedMotion(NEW_FLOW, acts, Which.Scroll), l.sent, InHand(l.pc), l.acc)
  {
    var out := Outbox(NEW_FLOW, acts);
    WholeInjected(s, ops, ip, EventsOf(out));
    ScrollsOfOutbox(out);
    LaneOfOutbox(acts, Which.Scroll);
    ScrollingConserved(acts, s, ops, ip);
  }

  lemma LaneOfOutbox(acts: seq<Action>, w: Which)
    requires CanRun(NEW_FLOW, acts)
    ensures LaneOf(After(NEW_FLOW, acts), w).sent == MotionsIn(Outbox(NEW_FLOW, acts), w)
  {
    MotionsSent(NEW_FLOW, acts, w);
  }

  /**
   With nothing lost, a flow's whole outbox arrives event by event: the receiver's cursor
   goes where the pushed motion went, less what has not been sent, and the keys it holds
   down are those held in the accepted pushes.
   */
  lemma OutboxArrives(acts: seq<Action>, s: C.Session, ops: seq<C.Op>, ip: string)
    requires CanRun(NEW_FLOW, acts) && AllSendable(Outbox(NEW_FLOW, acts))
    requires C.ReceivingFrom(s, ip) && !s.ended && |s.injected| == 0
    requires C.AreWires(C.TextsFrom(ip, ops), EventsOf(Outbox(NEW_FLOW, acts)))
    ensures var l, t := LaneOf(After(NEW_FLOW, acts), Which.Move), C.Run(s, ops);
            && !t.ended && C.InjectedEvents(t.injected) == EventsOf(Outbox(NEW_FLOW, acts))
            && ThreeParts(Sum(AcceptedMotion(NEW_FLOW, acts, Which.Move)), Displacement(EmitAll(C.InjectedEvents(t.injected))), InHand(l.pc), l.acc)
            && HeldScans(EmitAll(C.InjectedEvents(t.injected))) == Image(HeldCodes(AcceptedClicks(NEW_FLOW, acts)))
  {
    var out := Outbox(NEW_FLOW, acts);
    WholeInjected(s, ops, ip, EventsOf(out));
    OutboxMotion(acts);
    MotionConserved(acts, s, ops, ip);
    HeldByClicks(out);
  }

  lemma WholeInjected(s: C.Session, ops: seq<C.Op>, ip: string, events: seq<InputEvent>)
    requires C.ReceivingFrom(s, ip) && !s.ended && |s.injected| == 0
    requires C.AreWires(C.TextsFrom(ip, ops), events)
    ensures !C.Run(s, ops).ended && C.InjectedEvents(C.Run(s, ops).injected) == events
    ensures C.Carried(C.TextsFrom(ip, ops)) == events && !C.SomeMalformed(C.TextsFrom(ip, ops))
  {
    C.WiresCarry(C.TextsFrom(ip, ops), events);
    C.ReceiverInjects(s, ops, ip);
    assert C.InjectedEvents(s.injected) + events == events;
  }

  lemma HeldByClicks(out: seq<Outgoing>)
    requires AllSendable(out)
    ensures HeldScans(EmitAll(EventsOf(out))) == Image(HeldCodes(ClicksIn(out)))
  {
    HeldKeys(EventsOf(out));
    HeldByPlain(EventsOf(out));
    PlainOfOutbox(out);
  }

  lemma OutboxMotion(acts: seq<Action>)
    requires CanRun(NEW_FLOW, acts) && AllSendable(Outbox(NEW_FLOW, acts))
    ensures var l := LaneOf(After(NEW_FLOW, acts), Which.Move);
            AllFit(l.sent) && MovesIn(EventsOf(Outbox(NEW_FLOW, acts))) == MoveEvents(l.sent)
    ensures ClicksIn(Outbox(NEW_FLOW, acts)) == AcceptedClicks(NEW_FLOW, acts)
  {
    MotionsSent(NEW_FLOW, acts, Which.Move);
    ClicksSent(NEW_FLOW, acts);
    MovesOfOutbox(Outbox(NEW_FLOW, acts));
  }
}
