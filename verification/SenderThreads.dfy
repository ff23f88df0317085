/**
 The sender as objects: two workers, each with its aggregator, and the flow that owns
 them and sends through the communication service. Every method is one atomic action of
 one thread and carries out one step of SenderFlow, so whatever a scheduler picks is a
 run there, and what reaches the service is that run's outbox.
 */
module SenderThreads {
  import opened Prelude
  import opened InputEvents
  import opened MoveAggregators
  import opened SenderFlow
  import C = Communication
  import UC = UdpClient

  /** Surroundings of an action that may send: a clock reading and foreign answers. */
  datatype Env = Env(now: UInt64, luck: UC.Luck)

  /** What the service has sent when these were handed to it. */
  function Addressed(to: Option<string>, out: seq<Outgoing>): seq<C.Sent>
    requires AllSendable(out)
  {
    if to.None? || |out| == 0 then []
    else [C.Sent(to.value, EventToWire(EventOf(out[0])), out[0].Click?)] + Addressed(to, out[1..])
  }

  lemma AddressedAppend(to: Option<string>, first: seq<Outgoing>, rest: seq<Outgoing>)
    requires |first| <= 1 && AllSendable(first + rest)
    ensures AllSendable(first) && AllSendable(rest)
    ensures Addressed(to, first + rest) == Addressed(to, first) + Addressed(to, rest)
  {
    assert forall i :: 0 <= i < |rest| ==> rest[i] == (first + rest)[|first| + i];
    assert forall i :: 0 <= i < |first| ==> first[i] == (first + rest)[i];
    if |first| == 0 {
      assert first + rest == rest;
    } else {
      assert (first + rest)[1..] == rest && first[1..] == [];
    }
  }

  /** From b with `rest` to do, all ends as from a with `acts` to do. */
  ghost predicate OnCourse(to: Option<string>, a: Flow, sentA: seq<C.Sent>, acts: seq<Action>,
                           b: Flow, sentB: seq<C.Sent>, rest: seq<Action>)
  {
    && CanRun(a, acts) && CanRun(b, rest) && After(b, rest) == After(a, acts)
    && AllSendable(Outbox(a, acts)) && AllSendable(Outbox(b, rest))
    && sentB + Addressed(to, Outbox(b, rest)) == sentA + Addressed(to, Outbox(a, acts))
  }

  lemma CourseStep(to: Option<string>, a: Flow, sentA: seq<C.Sent>, acts: seq<Action>,
                   b: Flow, sentB: seq<C.Sent>, rest: seq<Action>)
    requires OnCourse(to, a, sentA, acts, b, sentB, rest) && |rest| > 0
    ensures AllSendable(Handing(b, rest[0]))
    ensures OnCourse(to, a, sentA, acts, Next(b, rest[0]), sentB + Addressed(to, Handing(b, rest[0])), rest[1..])
  {
    var b' := Next(b, rest[0]);
    OutboxSplit(b, rest, b', rest[1..]);
    AddressedAppend(to, Handing(b, rest[0]), Outbox(b', rest[1..]));
  }

  class Worker {
    const agg: MoveAggregator
    var pc: Pc                      // where the thread is, with what it took
    ghost var pushed: seq<Vec>
    ghost var taken: nat
    ghost var sent: seq<Vec>

    ghost function View(): Lane
      reads this, agg
    {
      Lane(agg.running, agg.Value(), pc, pushed, taken, sent)
    }

    constructor ()
      ensures fresh(agg) && View() == NEW_LANE
    {
      agg := new MoveAggregator();
      pc, pushed, taken, sent := NoThread, [], 0, [];
    }

    method Push(dx: Int32, dy: Int32)
      requires Fits(Added(View(), Vec(dx, dy)).acc)
      modifies this`pushed, agg
      ensures View() == Added(old(View()), Vec(dx, dy))
    {
      agg.Add(dx, dy);
      pushed := pushed + [Vec(dx, dy)];
    }

    method SetFlag(flag: bool)
      modifies agg
      ensures View() == old(View()).(flag := flag)
    {
      agg.running := flag;
    }

    method Take() returns (v: Vec)
      modifies this`taken, agg
      ensures v == old(View()).acc && View() == old(View()).(acc := Vec(0, 0), taken := |old(pushed)|)
    {
      var dx, dy := agg.Take();
      v := Vec(dx, dy);
      taken := |pushed|;
    }

    /** The thread's next action in its loop: test the flag, wake up, drain, or send. */
    method Act(service: bool)
      requires Alive(pc)
      modifies this`pc, this`taken, this`sent, agg
      ensures View() == WorkerNext(old(View()), service)
    {
      match pc {
        case AtCheck =>
          pc := if agg.running then AtSleep else Exited;
        case AtSleep =>
          pc := AtTake;
        case AtTake =>
          var v := Take();
          pc := if v.x == 0 && v.y == 0 then AtCheck else AtSend(v);
        case AtSend(v) =>
          if service {
            sent := sent + [v];
          }
          pc := AtCheck;
      }
    }
  }

  class Sender {
    const move: Worker
    const scroll: Worker
    const registry: C.CommunicationService                // what the locator finds
    var communicationService: C.CommunicationService?
    var running: bool
    var main: MainPc
    ghost var clicks: seq<InputEvent>

    ghost predicate Ready()
      reads this, registry, registry.client
    {
      && move != scroll && move.agg != scroll.agg
      && (communicationService != null ==> communicationService == registry)
      && registry.Valid()
    }

    ghost function View(): Flow
      reads this, move, scroll, move.agg, scroll.agg
    {
      Flow(communicationService != null, running, main, move.View(), scroll.View(), clicks)
    }

    constructor (registry: C.CommunicationService)
      requires registry.Valid()
      ensures Ready() && View() == NEW_FLOW && this.registry == registry
      ensures fresh(move) && fresh(scroll) && fresh(move.agg) && fresh(scroll.agg)
    {
      move := new Worker();
      scroll := new Worker();
      this.registry := registry;
      communicationService, running, main, clicks := null, false, Idle, [];
    }

    /** Looks the service up; without it start returns at once. */
    method CallStart(found: bool) returns (ok: bool)
      requires Ready() && Enabled(View(), Action.CallStart(found))
      modifies this
      ensures Ready() && View() == Next(old(View()), Action.CallStart(found)) && ok == found
    {
      communicationService := if found then registry else null;
      if communicationService == null {
        return false;
      }
      main := StartMoveFlag;
      ok := true;
    }

    /** Exchanges the running flag; a second stop returns at once. */
    method CallStop()
      requires Ready() && Enabled(View(), Action.CallStop)
      modifies this
      ensures Ready() && View() == Next(old(View()), Action.CallStop)
    {
      var was := running;
      running := false;
      if was {
        main := StopMoveFlag;
      }
    }

    /** Motion is accumulated, everything else is sent at once. */
    method PushEvent(ev: InputEvent, env: Env)
      requires Ready() && Enabled(View(), Push(ev)) && C.FreshHost(env.luck.creates)
      requires AllSendable(Handing(View(), Push(ev)))
      modifies this`clicks, move, scroll, move.agg, scroll.agg, registry`outbox, registry.client
      ensures Ready() && View() == Next(old(View()), Push(ev))
      ensures running && ev.kind == TYPE_MOUSE && ev.action == ACTION_MOVE ==>
                move.View() == Added(old(move.View()), Vec(ev.dx, ev.dy)) && scroll.View() == old(scroll.View())
      ensures running && ev.kind == TYPE_MOUSE && ev.action == ACTION_SCROLL ==>
                scroll.View() == Added(old(scroll.View()), Vec(ev.dx, ev.dy)) && move.View() == old(move.View())
      ensures registry.outbox == old(registry.outbox) + Addressed(registry.Target(), Handing(old(View()), Push(ev)))
    {
      if !running {
        return;
      }
      if ev.kind == TYPE_MOUSE && ev.action == ACTION_MOVE {
        move.Push(ev.dx, ev.dy);
        return;
      }
      if ev.kind == TYPE_MOUSE && ev.action == ACTION_SCROLL {
        scroll.Push(ev.dx, ev.dy);
        return;
      }
      if communicationService != null {
        SendClick(ev, env);
      }
    }

    method SendClick(ev: InputEvent, env: Env)
      requires Ready() && communicationService != null && C.FreshHost(env.luck.creates) && Sendable(Click(ev))
      modifies this`clicks, registry`outbox, registry.client
      ensures Ready() && clicks == old(clicks) + [ev]
      ensures registry.outbox == old(registry.outbox) + Addressed(registry.Target(), [Click(ev)])
    {
      communicationService.SendPackage(BuildKeyboardInput(ev), true, env.now, env.luck);
      clicks := clicks + [ev];
      assert [Click(ev)][1..] == [];
    }

    method SendMotion(w: Which, v: Vec, env: Env)
      requires Ready() && communicationService != null && C.FreshHost(env.luck.creates) && Fits(v)
      modifies registry`outbox, registry.client
      ensures Ready()
      ensures registry.outbox == old(registry.outbox) + Addressed(registry.Target(), [Motion(w, v)])
    {
      communicationService.SendPackage(BuildKeyboardInput(MotionEvent(w, v)), false, env.now, env.luck);
      assert [Motion(w, v)][1..] == [];
    }

    /** The statements of start after the lookup. */
    method StartStatement()
      requires Ready() && main in {StartMoveFlag, StartScrollFlag, StartRunning, SpawnMove, SpawnScroll}
      modifies this, move, scroll, move.agg, scroll.agg
      ensures Ready() && View() == MainNext(old(View()))
    {
      match main {
        case StartMoveFlag =>
          move.SetFlag(true);
          main := StartScrollFlag;
        case StartScrollFlag =>
          scroll.SetFlag(true);
          main := StartRunning;
        case StartRunning =>
          running, main := true, SpawnMove;
        case SpawnMove =>
          move.pc := AtCheck;
          main := SpawnScroll;
        case SpawnScroll =>
          scroll.pc := AtCheck;
          main := Idle;
      }
    }

    /** The statements of stop after the exchange; a join waits for its thread to have exited. */
    method StopStatement()
      requires Ready() && main in {StopMoveFlag, StopScrollFlag, JoinMove, JoinScroll, DropService}
      modifies this, move, scroll, move.agg, scroll.agg
      ensures Ready() && View() == MainNext(old(View()))
    {
      match main {
        case StopMoveFlag =>
          move.SetFlag(false);
          main := StopScrollFlag;
        case StopScrollFlag =>
          scroll.SetFlag(false);
          main := JoinMove;
        case JoinMove =>
          move.pc := NoThread;
          main := JoinScroll;
        case JoinScroll =>
          scroll.pc := NoThread;
          main := DropService;
        case DropService =>
          communicationService, main := null, Idle;
      }
    }

    method MainAct()
      requires Ready() && main != Idle
      modifies this, move, scroll, move.agg, scroll.agg
      ensures Ready() && View() == MainNext(old(View()))
    {
      if main in {StartMoveFlag, StartScrollFlag, StartRunning, SpawnMove, SpawnScroll} {
        StartStatement();
      } else {
        StopStatement();
      }
    }

    /** A worker's action; at its send it hands over what it took. */
    method WorkerAct(w: Which, env: Env)
      requires Ready() && Enabled(View(), WorkerStep(w)) && C.FreshHost(env.luck.creates)
      requires AllSendable(Handing(View(), WorkerStep(w)))
      modifies move, scroll, move.agg, scroll.agg, registry`outbox, registry.client
      ensures Ready() && View() == Next(old(View()), WorkerStep(w))
      ensures registry.outbox ==
              old(registry.outbox) + Addressed(registry.Target(), Handing(old(View()), WorkerStep(w)))
    {
      HandSend(w, env);
      match w {
        case Move => move.Act(communicationService != null);
        case Scroll => scroll.Act(communicationService != null);
      }
    }

    /** The sending half of that action. */
    method HandSend(w: Which, env: Env)
      requires Ready() && Enabled(View(), WorkerStep(w)) && C.FreshHost(env.luck.creates)
      requires AllSendable(Handing(View(), WorkerStep(w)))
      modifies registry`outbox, registry.client
      ensures Ready()
      ensures registry.outbox ==
              old(registry.outbox) + Addressed(registry.Target(), Handing(old(View()), WorkerStep(w)))
    {
      var pc := match w case Move => move.pc case Scroll => scroll.pc;
      if pc.AtSend? && communicationService != null {
        assert Handing(View(), WorkerStep(w)) == [Motion(w, pc.hand)] && Sendable([Motion(w, pc.hand)][0]);
        SendMotion(w, pc.hand, env);
      }
    }

    /** One action of whichever thread the scheduler picked. */
    method Perform(act: Action, env: Env)
      requires Ready() && Enabled(View(), act) && C.FreshHost(env.luck.creates)
      requires AllSendable(Handing(View(), act))
      modifies this, move, scroll, move.agg, scroll.agg, registry`outbox, registry.client
      ensures Ready() && View() == Next(old(View()), act)
      ensures registry.outbox == old(registry.outbox) + Addressed(registry.Target(), Handing(old(View()), act))
    {
      match act {
        case CallStart(found) =>
          var _ := CallStart(found);
        case CallStop =>
          CallStop();
        case Push(ev) =>
          PushEvent(ev, env);
        case MainStep =>
          MainAct();
        case WorkerStep(w) =>
          WorkerAct(w, env);
      }
    }

    /** Any schedule the system allows takes the objects where SenderFlow says, and the service its outbox. */
    method Schedule(acts: seq<Action>, envs: seq<Env>)
      requires Ready() && CanRun(View(), acts) && AllSendable(Outbox(View(), acts))
      requires |envs| == |acts| && forall i :: 0 <= i < |envs| ==> C.FreshHost(envs[i].luck.creates)
      modifies this, move, scroll, move.agg, scroll.agg, registry`outbox, registry.client
      ensures Ready() && View() == After(old(View()), acts)
      ensures registry.outbox == old(registry.outbox) + Addressed(registry.Target(), Outbox(old(View()), acts))
    {
      ghost var to := registry.Target();
      for i := 0 to |acts|
        invariant Ready() && registry.Target() == to
        invariant OnCourse(to, old(View()), old(registry.outbox), acts, View(), registry.outbox, acts[i..])
      {
        assert acts[i..][0] == acts[i] && acts[i..][1..] == acts[i + 1..];
        CourseStep(to, old(View()), old(registry.outbox), acts, View(), registry.outbox, acts[i..]);
        Perform(acts[i], envs[i]);
      }
    }

    /**
     After any schedule from a new flow: both lanes' packets are sums of consecutive segments
     of their pushes, a running flow has its service, and the service was handed every
     accepted event that is not motion, in order, and each lane's packets.
     */
    method RunFlow(acts: seq<Action>, envs: seq<Env>)
      requires Ready() && View() == NEW_FLOW && CanRun(NEW_FLOW, acts)
      requires |envs| == |acts| && forall i :: 0 <= i < |envs| ==> C.FreshHost(envs[i].luck.creates)
      modifies this, move, scroll, move.agg, scroll.agg, registry`outbox, registry.client
      ensures Ready() && View() == After(NEW_FLOW, acts)
      ensures Coalesced(move.View()) && move.pushed == AcceptedMotion(NEW_FLOW, acts, Which.Move)
      ensures Coalesced(scroll.View()) && scroll.pushed == AcceptedMotion(NEW_FLOW, acts, Which.Scroll)
      ensures running || Alive(move.pc) || Alive(scroll.pc) ==> communicationService != null
      ensures AllSendable(Outbox(NEW_FLOW, acts))
      ensures registry.outbox == old(registry.outbox) + Addressed(registry.Target(), Outbox(NEW_FLOW, acts))
      ensures clicks == ClicksIn(Outbox(NEW_FLOW, acts)) == AcceptedClicks(NEW_FLOW, acts)
      ensures move.sent == MotionsIn(Outbox(NEW_FLOW, acts), Which.Move)
      ensures scroll.sent == MotionsIn(Outbox(NEW_FLOW, acts), Which.Scroll)
    {
      InitInv();
      OutboxIsSendable(NEW_FLOW, acts);
      Schedule(acts, envs);
      WhatARunHands(acts);
    }
  }

  lemma WhatARunHands(acts: seq<Action>)
    requires CanRun(NEW_FLOW, acts)
    ensures var s, out := After(NEW_FLOW, acts), Outbox(NEW_FLOW, acts);
            && Coalesced(s.move) && s.move.pushed == AcceptedMotion(NEW_FLOW, acts, Which.Move)
            && Coalesced(s.scroll) && s.scroll.pushed == AcceptedMotion(NEW_FLOW, acts, Which.Scroll)
            && (s.running || Alive(s.move.pc) || Alive(s.scroll.pc) ==> s.service)
            && s.clicks == ClicksIn(out) == AcceptedClicks(NEW_FLOW, acts)
            && s.move.sent == MotionsIn(out, Which.Move) && s.scroll.sent == MotionsIn(out, Which.Scroll)
  {
    Coalescing(acts, Which.Move);
    Coalescing(acts, Which.Scroll);
    ServiceIsSet(acts);
    ClicksSent(NEW_FLOW, acts);
    ClicksRecorded(NEW_FLOW, acts);
    MotionsSent(NEW_FLOW, acts, Which.Move);
    MotionsSent(NEW_FLOW, acts, Which.Scroll);
  }
}
