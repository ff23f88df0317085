/**
 The sender: one thread that starts, stops and pushes, and two workers that
 drain an accumulator each. Every atomic action of the three threads is one
 step, and any interleaving of steps is a run. Calls to start, stop and push
 come from one thread, and start is called only while stopped.
 */
module SenderFlow {
  import opened Prelude
  import opened InputEvents
  import opened MoveAggregators

  /** Where a worker is in its loop; AtSend holds what it took. */
  datatype Pc = NoThread | AtCheck | AtSleep | AtTake | AtSend(hand: Vec) | Exited

  /**
   One worker with its aggregator: the `running` flag, the accumulator, and the
   histories of accepted pushes (`taken` of them already drained) and of packets.
   */
  datatype Lane = Lane(flag: bool, acc: Vec, pc: Pc, pushed: seq<Vec>, taken: nat, sent: seq<Vec>)

  /** The caller's thread: between calls, or at a statement of start or stop. */
  datatype MainPc =
    | Idle
    | StartMoveFlag | StartScrollFlag | StartRunning | SpawnMove | SpawnScroll
    | StopMoveFlag | StopScrollFlag | JoinMove | JoinScroll | DropService

  datatype Flow = Flow(service: bool, running: bool, main: MainPc, move: Lane, scroll: Lane, clicks: seq<InputEvent>)

  datatype Which = Move | Scroll

  datatype Action =
    | CallStart(found: bool)
    | CallStop
    | Push(ev: InputEvent)
    | MainStep
    | WorkerStep(which: Which)

  const NEW_LANE: Lane := Lane(true, Vec(0, 0), NoThread, [], 0, [])
  const NEW_FLOW: Flow := Flow(false, false, Idle, NEW_LANE, NEW_LANE, [])

  function LaneOf(s: Flow, w: Which): Lane {
    match w case Move => s.move case Scroll => s.scroll
  }

  function WithLane(s: Flow, w: Which, l: Lane): Flow {
    match w case Move => s.(move := l) case Scroll => s.(scroll := l)
  }

  predicate Alive(pc: Pc) {
    pc.AtCheck? || pc.AtSleep? || pc.AtTake? || pc.AtSend?
  }

  predicate IsMotion(ev: InputEvent, w: Which) {
    ev.kind == TYPE_MOUSE && ev.action == match w case Move => ACTION_MOVE case Scroll => ACTION_SCROLL
  }

  /** An accepted push of motion adds to the accumulator, which must not overflow. */
  function Added(l: Lane, v: Vec): Lane {
    l.(acc := Vec(l.acc.x + v.x, l.acc.y + v.y), pushed := l.pushed + [v])
  }

  function MotionOf(ev: InputEvent): Vec {
    Vec(ev.dx, ev.dy)
  }

  /** A worker's next atomic action, given whether the service pointer is set. */
  function WorkerNext(l: Lane, service: bool): Lane
    requires Alive(l.pc)
  {
    match l.pc
    case AtCheck => l.(pc := if l.flag then AtSleep else Exited)
    case AtSleep => l.(pc := AtTake)
    case AtTake =>
      l.(acc := Vec(0, 0), taken := |l.pushed|, pc := if IsZero(l.acc) then AtCheck else AtSend(l.acc))
    case AtSend(v) => l.(pc := AtCheck, sent := if service then l.sent + [v] else l.sent)
  }

  predicate Enabled(s: Flow, act: Action) {
    match act
    case CallStart(_) => s.main == Idle && !s.running
    case CallStop => s.main == Idle
    case Push(ev) =>
      && s.main == Idle
      && (s.running && IsMotion(ev, Move) ==> Fits(Added(s.move, MotionOf(ev)).acc))
      && (s.running && IsMotion(ev, Scroll) ==> Fits(Added(s.scroll, MotionOf(ev)).acc))
    case MainStep =>
      && s.main != Idle
      && (s.main == JoinMove ==> s.move.pc == Exited)
      && (s.main == JoinScroll ==> s.scroll.pc == Exited)
    case WorkerStep(w) => Alive(LaneOf(s, w).pc)
  }

  function MainNext(s: Flow): Flow
    requires s.main != Idle
  {
    match s.main
    case StartMoveFlag => s.(move := s.move.(flag := true), main := StartScrollFlag)
    case StartScrollFlag => s.(scroll := s.scroll.(flag := true), main := StartRunning)
    case StartRunning => s.(running := true, main := SpawnMove)
    case SpawnMove => s.(move := s.move.(pc := AtCheck), main := SpawnScroll)
    case SpawnScroll => s.(scroll := s.scroll.(pc := AtCheck), main := Idle)
    case StopMoveFlag => s.(move := s.move.(flag := false), main := StopScrollFlag)
    case StopScrollFlag => s.(scroll := s.scroll.(flag := false), main := JoinMove)
    case JoinMove => s.(move := s.move.(pc := NoThread), main := JoinScroll)
    case JoinScroll => s.(scroll := s.scroll.(pc := NoThread), main := DropService)
    case DropService => s.(service := false, main := Idle)
  }

  function Next(s: Flow, act: Action): Flow
    requires Enabled(s, act)
  {
    match act
    case CallStart(found) => s.(service := found, main := if found then StartMoveFlag else Idle)
    case CallStop => if s.running then s.(running := false, main := StopMoveFlag) else s
    case Push(ev) =>
      if !s.running then s
      else if IsMotion(ev, Move) then s.(move := Added(s.move, MotionOf(ev)))
      else if IsMotion(ev, Scroll) then s.(scroll := Added(s.scroll, MotionOf(ev)))
      else if s.service then s.(clicks := s.clicks + [ev]) else s
    case MainStep => MainNext(s)
    case WorkerStep(w) => WithLane(s, w, WorkerNext(LaneOf(s, w), s.service))
  }

  predicate CanRun(s: Flow, acts: seq<Action>)
    decreases |acts|
  {
    acts == [] || (Enabled(s, acts[0]) && CanRun(Next(s, acts[0]), acts[1..]))
  }

  function After(s: Flow, acts: seq<Action>): Flow
    requires CanRun(s, acts)
    decreases |acts|
  {
    if acts == [] then s else After(Next(s, acts[0]), acts[1..])
  }

  // ---------- Safety ----------

  /** Which threads exist and which flags are up, for each place of the caller's thread. */
  predicate Phases(s: Flow) {
    match s.main
    case Idle =>
      if s.running then s.service && s.move.flag && s.scroll.flag && Alive(s.move.pc) && Alive(s.scroll.pc)
      else s.move.pc == NoThread && s.scroll.pc == NoThread
    case StartMoveFlag => s.service && !s.running && s.move.pc == NoThread && s.scroll.pc == NoThread
    case StartScrollFlag =>
      s.service && !s.running && s.move.flag && s.move.pc == NoThread && s.scroll.pc == NoThread
    case StartRunning =>
      && s.service && !s.running && s.move.flag && s.scroll.flag
      && s.move.pc == NoThread && s.scroll.pc == NoThread
    case SpawnMove =>
      && s.service && s.running && s.move.flag && s.scroll.flag
      && s.move.pc == NoThread && s.scroll.pc == NoThread
    case SpawnScroll =>
      && s.service && s.running && s.move.flag && s.scroll.flag
      && Alive(s.move.pc) && s.scroll.pc == NoThread
    case StopMoveFlag => s.service && !s.running && s.move.flag && s.scroll.flag && Alive(s.move.pc) && Alive(s.scroll.pc)
    case StopScrollFlag =>
      && s.service && !s.running && !s.move.flag && s.scroll.flag
      && s.move.pc != NoThread && Alive(s.scroll.pc)
    case JoinMove =>
      && s.service && !s.running && !s.move.flag && !s.scroll.flag
      && s.move.pc != NoThread && s.scroll.pc != NoThread
    case JoinScroll =>
      && s.service && !s.running && !s.move.flag && !s.scroll.flag
      && s.move.pc == NoThread && s.scroll.pc != NoThread
    case DropService =>
      && s.service && !s.running && s.move.pc == NoThread && s.scroll.pc == NoThread
  }

  function InHand(pc: Pc): seq<Vec> {
    if pc.AtSend? then [pc.hand] else []
  }

  predicate LeftSinceTake(l: Lane) {
    l.taken <= |l.pushed| && IsSum(l.acc, l.pushed[l.taken..])
  }

  /** The packets are the sums of consecutive segments of what was drained, and the rest is accumulated. */
  ghost predicate Coalesced(l: Lane) {
    && LeftSinceTake(l)
    && Segmented(l.pushed[..l.taken], l.sent + InHand(l.pc))
  }

  predicate AllFit(vs: seq<Vec>) {
    forall i :: 0 <= i < |vs| ==> Fits(vs[i])
  }

  ghost predicate LaneInv(l: Lane) {
    Coalesced(l) && Fits(l.acc) && AllFit(l.sent + InHand(l.pc))
  }

  ghost predicate Inv(s: Flow) {
    Phases(s) && LaneInv(s.move) && LaneInv(s.scroll)
  }

  lemma InitInv()
    ensures Inv(NEW_FLOW)
  {
    NothingSegmented();
  }

  /** Changing the flag or starting or joining the thread touches neither accumulator nor packets. */
  lemma ControlKeepsLane(l: Lane, l': Lane)
    requires LaneInv(l) && InHand(l'.pc) == InHand(l.pc)
    requires l' == l.(flag := l'.flag, pc := l'.pc)
    ensures LaneInv(l')
  {
  }

  lemma LeftGrows(pushed: seq<Vec>, taken: nat, acc: Vec, v: Vec)
    requires taken <= |pushed| && IsSum(acc, pushed[taken..])
    ensures IsSum(Vec(acc.x + v.x, acc.y + v.y), (pushed + [v])[taken..])
    ensures (pushed + [v])[..taken] == pushed[..taken]
  {
    var left := pushed[taken..];
    assert (pushed + [v])[taken..] == left + [v];
    SumAppend(left, v);
  }

  lemma PushKeepsLane(l: Lane, v: Vec)
    requires LaneInv(l) && Fits(Added(l, v).acc)
    ensures LaneInv(Added(l, v))
  {
    LeftGrows(l.pushed, l.taken, l.acc, v);
  }

  lemma TakeKeepsLane(l: Lane)
    requires LaneInv(l) && l.pc.AtTake?
    ensures LaneInv(WorkerNext(l, true))
  {
    var l' := WorkerNext(l, true);
    var done, last := l.pushed[..l.taken], l.pushed[l.taken..];
    SegmentedAppend(done, l.sent + InHand(l.pc), last);
    assert done + last == l'.pushed[..l'.taken];
    assert l.sent + InHand(l.pc) + NonZero(Sum(last)) == l'.sent + InHand(l'.pc);
    assert l'.pushed[l'.taken..] == [];
  }

  lemma WorkerKeepsLane(l: Lane)
    requires LaneInv(l) && Alive(l.pc)
    ensures LaneInv(WorkerNext(l, true))
  {
    if l.pc.AtTake? {
      TakeKeepsLane(l);
    } else {
      var l' := WorkerNext(l, true);
      assert l'.sent + InHand(l'.pc) == l.sent + InHand(l.pc);
    }
  }

  lemma PushKeepsInv(s: Flow, ev: InputEvent)
    requires Inv(s) && Enabled(s, Push(ev))
    ensures Inv(Next(s, Push(ev)))
  {
    if s.running && IsMotion(ev, Move) {
      PushKeepsLane(s.move, MotionOf(ev));
    } else if s.running && IsMotion(ev, Scroll) {
      PushKeepsLane(s.scroll, MotionOf(ev));
    }
  }

  lemma WorkerStepKeepsInv(s: Flow, w: Which)
    requires Inv(s) && Enabled(s, WorkerStep(w))
    ensures Inv(Next(s, WorkerStep(w)))
  {
    WorkerKeepsLane(LaneOf(s, w));
  }

  lemma NextKeepsInv(s: Flow, act: Action)
    requires Inv(s) && Enabled(s, act)
    ensures Inv(Next(s, act))
  {
    match act
    case Push(ev) => PushKeepsInv(s, ev);
    case WorkerStep(w) => WorkerStepKeepsInv(s, w);
    case _ =>
      ControlKeepsPhases(s, act);
      ControlKeepsLane(s.move, Next(s, act).move);
      ControlKeepsLane(s.scroll, Next(s, act).scroll);
  }

  lemma ControlKeepsPhases(s: Flow, act: Action)
    requires Phases(s) && Enabled(s, act) && !act.Push? && !act.WorkerStep?
    ensures Phases(Next(s, act))
    ensures forall w :: var l, l' := LaneOf(s, w), LaneOf(Next(s, act), w);
              l' == l.(flag := l'.flag, pc := l'.pc) && InHand(l'.pc) == InHand(l.pc)
  {
  }

  lemma {:induction false} RunKeepsInv(s: Flow, acts: seq<Action>)
    requires Inv(s) && CanRun(s, acts)
    ensures Inv(After(s, acts))
    decreases |acts|
  {
    if acts != [] {
      NextKeepsInv(s, acts[0]);
      RunKeepsInv(Next(s, acts[0]), acts[1..]);
    }
  }

  /** No reachable state has a live worker, or an accepting caller, without the service. */
  lemma ServiceIsSet(acts: seq<Action>)
    requires CanRun(NEW_FLOW, acts)
    ensures var s := After(NEW_FLOW, acts);
            && (Alive(s.move.pc) || Alive(s.scroll.pc) ==> s.service)
            && (s.running ==> s.service)
  {
    InitInv();
    RunKeepsInv(NEW_FLOW, acts);
  }

  /** The pointer is written only while no worker can read it. */
  lemma ServiceWrittenAlone(acts: seq<Action>, act: Action)
    requires CanRun(NEW_FLOW, acts) && Enabled(After(NEW_FLOW, acts), act)
    ensures var s := After(NEW_FLOW, acts);
            act.CallStart? || (act.MainStep? && s.main == DropService) || Next(s, act).service != s.service ==>
              !Alive(s.move.pc) && !Alive(s.scroll.pc)
  {
    InitInv();
    RunKeepsInv(NEW_FLOW, acts);
  }

  // ---------- Coalescing and conservation ----------

  lemma ReachablePushes(acts: seq<Action>, w: Which)
    requires CanRun(NEW_FLOW, acts)
    ensures LaneOf(After(NEW_FLOW, acts), w).pushed == AcceptedMotion(NEW_FLOW, acts, w)
  {
    PushesRecorded(NEW_FLOW, acts, w);
  }

  lemma ReachableLane(acts: seq<Action>, w: Which)
    requires CanRun(NEW_FLOW, acts)
    ensures LaneInv(LaneOf(After(NEW_FLOW, acts), w))
  {
    InitInv();
    RunKeepsInv(NEW_FLOW, acts);
  }

  /** The total is one part, what is in hand, and another part. */
  predicate ThreeParts(total: Vec, a: Vec, hand: seq<Vec>, c: Vec) {
    total.x == a.x + SumX(hand) + c.x && total.y == a.y + SumY(hand) + c.y
  }

  predicate Conserved(l: Lane) {
    ThreeParts(Sum(l.pushed), Sum(l.sent), InHand(l.pc), l.acc)
  }

  /** What was pushed, in two parts. */
  lemma SplitSums(pushed: seq<Vec>, taken: nat)
    requires taken <= |pushed|
    ensures SumX(pushed) == SumX(pushed[..taken]) + SumX(pushed[taken..])
    ensures SumY(pushed) == SumY(pushed[..taken]) + SumY(pushed[taken..])
    ensures NonZeroCount(pushed[..taken]) <= NonZeroCount(pushed)
  {
    SumConcat(pushed[..taken], pushed[taken..]);
    CountConcat(pushed[..taken], pushed[taken..]);
    assert pushed == pushed[..taken] + pushed[taken..];
  }

  lemma CoalescedSums(l: Lane)
    requires Coalesced(l)
    ensures Conserved(l)
    ensures |l.sent| <= |l.sent + InHand(l.pc)| <= NonZeroCount(l.pushed)
  {
    SegmentedSums(l.pushed[..l.taken], l.sent + InHand(l.pc));
    SumConcat(l.sent, InHand(l.pc));
    SplitSums(l.pushed, l.taken);
  }

  lemma NextKeepsPhases(s: Flow, act: Action)
    requires Phases(s) && Enabled(s, act)
    ensures Phases(Next(s, act))
  {
  }

  // ---------- What was pushed, read off the calls ----------

  /** The motion of one kind in the events pushed while running, in order. */
  function AcceptedMotion(s: Flow, acts: seq<Action>, w: Which): seq<Vec>
    requires CanRun(s, acts)
    decreases |acts|
  {
    if |acts| == 0 then []
    else
      var action := match w case Move => ACTION_MOVE case Scroll => ACTION_SCROLL;
      (if acts[0].Push? && s.running && acts[0].ev.kind == TYPE_MOUSE && acts[0].ev.action == action
       then [Vec(acts[0].ev.dx, acts[0].ev.dy)] else [])
      + AcceptedMotion(Next(s, acts[0]), acts[1..], w)
  }

  /** The events pushed while running that are neither move nor scroll, in order. */
  function AcceptedClicks(s: Flow, acts: seq<Action>): seq<InputEvent>
    requires CanRun(s, acts)
    decreases |acts|
  {
    if |acts| == 0 then []
    else
      (if acts[0].Push? && s.running
          && !(acts[0].ev.kind == TYPE_MOUSE && (acts[0].ev.action == ACTION_MOVE || acts[0].ev.action == ACTION_SCROLL))
       then [acts[0].ev] else [])
      + AcceptedClicks(Next(s, acts[0]), acts[1..])
  }

  lemma PushRecorded(s: Flow, act: Action, w: Which)
    requires Phases(s) && Enabled(s, act)
    ensures LaneOf(Next(s, act), w).pushed == LaneOf(s, w).pushed + AcceptedMotion(s, [act], w)
  {
    assert [act][1..] == [];
  }

  lemma AcceptedSplit(s: Flow, acts: seq<Action>, w: Which)
    requires |acts| > 0 && CanRun(s, acts)
    ensures AcceptedMotion(s, acts, w) ==
            AcceptedMotion(s, [acts[0]], w) + AcceptedMotion(Next(s, acts[0]), acts[1..], w)
  {
    assert [acts[0]][1..] == [];
  }

  /** A lane's record of pushes grows by exactly the motion of its kind that was pushed while running. */
  lemma {:induction false} PushesRecorded(s: Flow, acts: seq<Action>, w: Which)
    requires Phases(s) && CanRun(s, acts)
    ensures LaneOf(After(s, acts), w).pushed == LaneOf(s, w).pushed + AcceptedMotion(s, acts, w)
    decreases |acts|
  {
    if |acts| > 0 {
      NextKeepsPhases(s, acts[0]);
      PushesRecorded(Next(s, acts[0]), acts[1..], w);
      PushRecorded(s, acts[0], w);
      AcceptedSplit(s, acts, w);
    }
  }

  /**
   In every reachable state, for either kind of motion, under any interleaving and any number of
   sessions: what was pushed while running is the lane's record, its packets are the nonzero sums
   of consecutive segments of it, and no more than its nonzero elements.
   */
  lemma Coalescing(acts: seq<Action>, w: Which)
    requires CanRun(NEW_FLOW, acts)
    ensures var l, pushed := LaneOf(After(NEW_FLOW, acts), w), AcceptedMotion(NEW_FLOW, acts, w);
            && l.pushed == pushed && l.taken <= |pushed|
            && Segmented(pushed[..l.taken], l.sent + InHand(l.pc))
            && IsSum(l.acc, pushed[l.taken..])
            && |l.sent| <= NonZeroCount(pushed)
  {
    ReachablePushes(acts, w);
    ReachableLane(acts, w);
    CoalescedSums(LaneOf(After(NEW_FLOW, acts), w));
  }

  /**
   At every step of every run everything pushed while running is sent, in a worker's
   hands, or accumulated; what is accumulated is what was pushed after the last take.
   */
  lemma Conservation(acts: seq<Action>, w: Which)
    requires CanRun(NEW_FLOW, acts)
    ensures var l, pushed := LaneOf(After(NEW_FLOW, acts), w), AcceptedMotion(NEW_FLOW, acts, w);
            && ThreeParts(Sum(pushed), Sum(l.sent), InHand(l.pc), l.acc)
            && l.taken <= |pushed| && IsSum(l.acc, pushed[l.taken..])
  {
    ReachablePushes(acts, w);
    ReachableLane(acts, w);
    CoalescedSums(LaneOf(After(NEW_FLOW, acts), w));
  }

  /** Whenever stop has returned, what was not sent is exactly what was pushed after the last take. */
  lemma ResidueAfterStop(acts: seq<Action>, w: Which)
    requires CanRun(NEW_FLOW, acts)
    requires After(NEW_FLOW, acts).main == Idle && !After(NEW_FLOW, acts).running
    ensures var l, pushed := LaneOf(After(NEW_FLOW, acts), w), AcceptedMotion(NEW_FLOW, acts, w);
            && TwoParts(Sum(pushed), Sum(l.sent), l.acc)
            && l.taken <= |pushed| && IsSum(l.acc, pushed[l.taken..])
  {
    Conservation(acts, w);
    IdleMeansJoined(acts, w);
    var l := LaneOf(After(NEW_FLOW, acts), w);
    NothingInHand(Sum(AcceptedMotion(NEW_FLOW, acts, w)), Sum(l.sent), InHand(l.pc), l.acc);
  }

  predicate TwoParts(total: Vec, a: Vec, c: Vec) {
    total.x == a.x + c.x && total.y == a.y + c.y
  }

  lemma NothingInHand(total: Vec, a: Vec, hand: seq<Vec>, c: Vec)
    requires ThreeParts(total, a, hand, c) && |hand| == 0
    ensures TwoParts(total, a, c)
  {
    SumNone(hand);
  }

  lemma IdleMeansJoined(acts: seq<Action>, w: Which)
    requires CanRun(NEW_FLOW, acts)
    requires After(NEW_FLOW, acts).main == Idle && !After(NEW_FLOW, acts).running
    ensures LaneOf(After(NEW_FLOW, acts), w).pc == NoThread
  {
    InitInv();
    RunKeepsInv(NEW_FLOW, acts);
  }

  // ---------- What is handed to the service ----------

  /** One call of the service: an event sent at once and reliably, or motion a worker took, sent unreliably. */
  datatype Outgoing = Click(ev: InputEvent) | Motion(which: Which, v: Vec)

  /** A push that is accepted and is not motion. */
  predicate AcceptsClick(s: Flow, act: Action) {
    act.Push? && s.running && !IsMotion(act.ev, Move) && !IsMotion(act.ev, Scroll)
  }

  function Handing(s: Flow, act: Action): seq<Outgoing>
    requires Enabled(s, act)
  {
    if !s.service then []
    else if AcceptsClick(s, act) then [Click(act.ev)]
    else if act.WorkerStep? && LaneOf(s, act.which).pc.AtSend? then [Motion(act.which, LaneOf(s, act.which).pc.hand)]
    else []
  }

  /** Everything handed to the service along a run, in the order it happens. */
  function Outbox(s: Flow, acts: seq<Action>): seq<Outgoing>
    requires CanRun(s, acts)
    decreases |acts|
  {
    if |acts| == 0 then [] else Handing(s, acts[0]) + Outbox(Next(s, acts[0]), acts[1..])
  }

  function ClicksIn(out: seq<Outgoing>): seq<InputEvent> {
    if |out| == 0 then [] else (if out[0].Click? then [out[0].ev] else []) + ClicksIn(out[1..])
  }

  function MotionsIn(out: seq<Outgoing>, w: Which): seq<Vec> {
    if |out| == 0 then []
    else (if out[0].Motion? && out[0].which == w then [out[0].v] else []) + MotionsIn(out[1..], w)
  }

  lemma PartsOf(first: seq<Outgoing>, rest: seq<Outgoing>, w: Which)
    requires |first| <= 1
    ensures ClicksIn(first + rest) == ClicksIn(first) + ClicksIn(rest)
    ensures MotionsIn(first + rest, w) == MotionsIn(first, w) + MotionsIn(rest, w)
  {
    if |first| == 0 {
      assert first + rest == rest;
    } else {
      assert (first + rest)[1..] == rest && first[1..] == [];
    }
  }

  lemma ClickHanded(s: Flow, act: Action)
    requires Phases(s) && Enabled(s, act)
    ensures ClicksIn(Handing(s, act)) == if AcceptsClick(s, act) then [act.ev] else []
    ensures Next(s, act).clicks == s.clicks + ClicksIn(Handing(s, act))
  {
  }

  lemma MotionHanded(s: Flow, act: Action, w: Which)
    requires Phases(s) && Enabled(s, act)
    ensures LaneOf(Next(s, act), w).sent == LaneOf(s, w).sent + MotionsIn(Handing(s, act), w)
  {
    if act == WorkerStep(w) && LaneOf(s, w).pc.AtSend? {
      assert s.service;
    }
  }

  lemma OutboxSplit(s: Flow, acts: seq<Action>, s': Flow, rest: seq<Action>)
    requires |acts| > 0 && rest == acts[1..] && CanRun(s, acts) && s' == Next(s, acts[0])
    ensures CanRun(s', rest) && After(s, acts) == After(s', rest)
    ensures Outbox(s, acts) == Handing(s, acts[0]) + Outbox(s', rest)
    ensures AcceptedClicks(s, acts) ==
            (if AcceptsClick(s, acts[0]) then [acts[0].ev] else []) + AcceptedClicks(s', rest)
    ensures |Handing(s, acts[0])| <= 1
  {
  }

  /** Every event accepted that is not motion is handed to the service at once, none lost or reordered. */
  lemma {:induction false} ClicksSent(s: Flow, acts: seq<Action>)
    requires Phases(s) && CanRun(s, acts)
    ensures ClicksIn(Outbox(s, acts)) == AcceptedClicks(s, acts)
    decreases |acts|
  {
    if |acts| > 0 {
      var s', rest := Next(s, acts[0]), acts[1..];
      OutboxSplit(s, acts, s', rest);
      NextKeepsPhases(s, acts[0]);
      ClicksSent(s', rest);
      ClickHanded(s, acts[0]);
      PartsOf(Handing(s, acts[0]), Outbox(s', rest), Move);
    }
  }

  /** And they are what the flow records as sent at once. */
  lemma {:induction false} ClicksRecorded(s: Flow, acts: seq<Action>)
    requires Phases(s) && CanRun(s, acts)
    ensures After(s, acts).clicks == s.clicks + AcceptedClicks(s, acts)
    decreases |acts|
  {
    if |acts| > 0 {
      var s', rest := Next(s, acts[0]), acts[1..];
      OutboxSplit(s, acts, s', rest);
      NextKeepsPhases(s, acts[0]);
      ClicksRecorded(s', rest);
      ClickHanded(s, acts[0]);
    }
  }

  /** The motion handed to the service is that of each lane's packets, in order. */
  lemma {:induction false} MotionsSent(s: Flow, acts: seq<Action>, w: Which)
    requires Phases(s) && CanRun(s, acts)
    ensures LaneOf(After(s, acts), w).sent == LaneOf(s, w).sent + MotionsIn(Outbox(s, acts), w)
    decreases |acts|
  {
    if |acts| > 0 {
      var s', rest := Next(s, acts[0]), acts[1..];
      OutboxSplit(s, acts, s', rest);
      NextKeepsPhases(s, acts[0]);
      MotionsSent(s', rest, w);
      MotionHanded(s, acts[0], w);
      PartsOf(Handing(s, acts[0]), Outbox(s', rest), w);
    }
  }

  /** Motion fits an event, and what is sent at once is not motion. */
  predicate Sendable(o: Outgoing) {
    match o
    case Click(ev) => !IsMotion(ev, Move) && !IsMotion(ev, Scroll)
    case Motion(_, v) => Fits(v)
  }

  predicate AllSendable(out: seq<Outgoing>) {
    forall i :: 0 <= i < |out| ==> Sendable(out[i])
  }

  lemma HandingIsSendable(s: Flow, act: Action)
    requires Inv(s) && Enabled(s, act)
    ensures AllSendable(Handing(s, act))
  {
    if act.WorkerStep? && LaneOf(s, act.which).pc.AtSend? {
      HandFits(LaneOf(s, act.which));
    }
  }

  lemma HandFits(l: Lane)
    requires LaneInv(l) && l.pc.AtSend?
    ensures Fits(l.pc.hand)
  {
    assert (l.sent + InHand(l.pc))[|l.sent|] == l.pc.hand;
  }

  lemma {:induction false} OutboxIsSendable(s: Flow, acts: seq<Action>)
    requires Inv(s) && CanRun(s, acts)
    ensures AllSendable(Outbox(s, acts))
    decreases |acts|
  {
    if |acts| > 0 {
      HandingIsSendable(s, acts[0]);
      NextKeepsInv(s, acts[0]);
      OutboxIsSendable(Next(s, acts[0]), acts[1..]);
    }
  }

  // ---------- On the wire ----------

  /** The event the service is given. */
  function EventOf(o: Outgoing): InputEvent
    requires Sendable(o)
  {
    match o
    case Click(ev) => ev
    case Motion(w, v) => MotionEvent(w, v)
  }

  /** The event a worker builds from what it took. */
  function MotionEvent(w: Which, v: Vec): InputEvent
    requires Fits(v)
  {
    InputEvent(TYPE_MOUSE, match w case Move => ACTION_MOVE case Scroll => ACTION_SCROLL, 0, v.x, v.y)
  }

  function PacketTexts(w: Which, sent: seq<Vec>): seq<string>
    requires AllFit(sent)
  {
    seq(|sent|, i requires 0 <= i < |sent| => EventToWire(MotionEvent(w, sent[i])))
  }

  /** What a receiver that gets these texts is told to move, in total. */
  function MotionReceived(w: Which, texts: seq<string>): Vec {
    if texts == [] then Vec(0, 0)
    else
      var e := EventFromWire(texts[|texts| - 1]);
      var rest := MotionReceived(w, texts[..|texts| - 1]);
      if e.Some? && IsMotion(e.value, w) then Vec(rest.x + e.value.dx, rest.y + e.value.dy) else rest
  }

  lemma {:induction false} ReceivedIsSum(w: Which, sent: seq<Vec>)
    requires AllFit(sent)
    ensures MotionReceived(w, PacketTexts(w, sent)) == Sum(sent)
  {
    if sent != [] {
      var n := |sent| - 1;
      ReceivedIsSum(w, sent[..n]);
      assert PacketTexts(w, sent)[..n] == PacketTexts(w, sent[..n]);
      NestedRoundTrip(MotionEvent(w, sent[n]));
    }
  }

  /** Decoded at the other end, the packets of any run account for all motion but what is still here. */
  lemma MotionArrives(acts: seq<Action>, w: Which)
    requires CanRun(NEW_FLOW, acts)
    ensures var l := LaneOf(After(NEW_FLOW, acts), w);
            && AllFit(l.sent)
            && ThreeParts(Sum(AcceptedMotion(NEW_FLOW, acts, w)), MotionReceived(w, PacketTexts(w, l.sent)), InHand(l.pc), l.acc)
  {
    ReachableLane(acts, w);
    ReachablePushes(acts, w);
    LaneArrives(LaneOf(After(NEW_FLOW, acts), w), w);
  }

  lemma LaneArrives(l: Lane, w: Which)
    requires LaneInv(l)
    ensures AllFit(l.sent)
    ensures ThreeParts(Sum(l.pushed), MotionReceived(w, PacketTexts(w, l.sent)), InHand(l.pc), l.acc)
  {
    assert forall i :: 0 <= i < |l.sent| ==> l.sent[i] == (l.sent + InHand(l.pc))[i];
    CoalescedSums(l);
    ReceivedIsSum(w, l.sent);
  }

  // ---------- Shutdown ----------

  predicate Stopping(m: MainPc) {
    m.JoinMove? || m.JoinScroll? || m.DropService?
  }

  /** How many actions a worker whose flag is down has left, and whether a take or a send is among them. */
  function Remaining(pc: Pc): nat {
    match pc
    case AtSleep => 4
    case AtTake => 3
    case AtSend(_) => 2
    case AtCheck => 1
    case _ => 0
  }

  function TakesLeft(pc: Pc): nat {
    if pc.AtSleep? || pc.AtTake? then 1 else 0
  }

  function SendsLeft(pc: Pc): nat {
    if pc.AtSleep? || pc.AtTake? || pc.AtSend? then 1 else 0
  }

  /** Worker w's takes and sends along a run. */
  function Takes(s: Flow, acts: seq<Action>, w: Which): nat
    requires CanRun(s, acts)
    decreases |acts|
  {
    if acts == [] then 0
    else
      (if acts[0] == WorkerStep(w) && LaneOf(s, w).pc.AtTake? then 1 else 0) + Takes(Next(s, acts[0]), acts[1..], w)
  }

  function Sends(s: Flow, acts: seq<Action>, w: Which): nat
    requires CanRun(s, acts)
    decreases |acts|
  {
    if acts == [] then 0
    else
      (if acts[0] == WorkerStep(w) && LaneOf(s, w).pc.AtSend? then 1 else 0) + Sends(Next(s, acts[0]), acts[1..], w)
  }

  predicate NoStart(acts: seq<Action>) {
    forall i :: 0 <= i < |acts| ==> !acts[i].CallStart?
  }

  predicate NoLaneStart(m: MainPc) {
    m.Idle? || m.StopMoveFlag? || m.StopScrollFlag? || Stopping(m)
  }

  /** One step while a worker's flag is down: only its own actions move it, and towards its exit. */
  lemma WindDownStep(s: Flow, act: Action, w: Which)
    requires Enabled(s, act) && !act.CallStart? && NoLaneStart(s.main) && !LaneOf(s, w).flag
    ensures var l, l' := LaneOf(s, w), LaneOf(Next(s, act), w);
            && !l'.flag && NoLaneStart(Next(s, act).main)
            && (act == WorkerStep(w) ==> Remaining(l'.pc) < Remaining(l.pc))
            && (act != WorkerStep(w) && l.pc != Exited ==> l'.pc == l.pc || l'.pc == NoThread)
            && TakesLeft(l'.pc) + (if act == WorkerStep(w) && l.pc.AtTake? then 1 else 0) <= TakesLeft(l.pc)
            && SendsLeft(l'.pc) + (if act == WorkerStep(w) && l.pc.AtSend? then 1 else 0) <= SendsLeft(l.pc)
  {
  }

  /** After its flag is cleared, a worker takes at most once more and sends at most once more. */
  lemma {:induction false} AtMostOneMore(s: Flow, acts: seq<Action>, w: Which)
    requires CanRun(s, acts) && NoStart(acts) && NoLaneStart(s.main) && !LaneOf(s, w).flag
    ensures Takes(s, acts, w) <= TakesLeft(LaneOf(s, w).pc) <= 1
    ensures Sends(s, acts, w) <= SendsLeft(LaneOf(s, w).pc) <= 1
    decreases |acts|
  {
    if acts != [] {
      WindDownStep(s, acts[0], w);
      AtMostOneMore(Next(s, acts[0]), acts[1..], w);
    }
  }

  function MainRemaining(m: MainPc): nat {
    match m
    case JoinMove => 3
    case JoinScroll => 2
    case DropService => 1
    case _ => 0
  }

  /** Steps that can still happen before stop returns, once both flags are down. */
  function StopRemaining(s: Flow): nat {
    MainRemaining(s.main) + Remaining(s.move.pc) + Remaining(s.scroll.pc)
  }

  /** While stop waits, something can always happen. */
  lemma StopIsNeverStuck(s: Flow)
    requires Phases(s) && Stopping(s.main)
    ensures Enabled(s, MainStep) || Enabled(s, WorkerStep(Move)) || Enabled(s, WorkerStep(Scroll))
  {
  }

  /** And whatever happens brings its return nearer. */
  lemma StopProgress(s: Flow, act: Action)
    requires Phases(s) && Stopping(s.main) && Enabled(s, act)
    ensures StopRemaining(Next(s, act)) < StopRemaining(s)
    ensures Stopping(Next(s, act).main) || Next(s, act).main == Idle
  {
  }

  /** s is where stop has returned: workers joined, service dropped. */
  predicate Stopped(s: Flow) {
    s.main == Idle && !s.service && !s.running && s.move.pc == NoThread && s.scroll.pc == NoThread
  }

  /** A run to a stopped state, one action earlier. */
  lemma StoppedAfter(s: Flow, acts: seq<Action>, k: nat)
    requires |acts| > 0 && CanRun(s, acts) && k <= |acts| - 1
    requires CanRun(Next(s, acts[0]), acts[1..][..k]) && Stopped(After(Next(s, acts[0]), acts[1..][..k]))
    ensures CanRun(s, acts[..k + 1]) && Stopped(After(s, acts[..k + 1]))
  {
    assert acts[..k + 1][1..] == acts[1..][..k];
  }

  /**
   From any reachable state in which both flags have been cleared, every run of at
   least StopRemaining steps passes a state where stop has returned, with both
   workers joined and the service dropped.
   */
  lemma {:induction false} StopReturns(s: Flow, acts: seq<Action>) returns (k: nat)
    requires Phases(s) && Stopping(s.main) && CanRun(s, acts) && StopRemaining(s) <= |acts|
    ensures k <= StopRemaining(s) <= 11 && CanRun(s, acts[..k]) && Stopped(After(s, acts[..k]))
    decreases |acts|
  {
    StopProgress(s, acts[0]);
    NextKeepsPhases(s, acts[0]);
    var s', rest := Next(s, acts[0]), acts[1..];
    k := 0;
    if s'.main != Idle {
      k := StopReturns(s', rest);
    }
    StoppedAfter(s, acts, k);
    k := k + 1;
  }

  /** The two statements before the joins never wait. */
  lemma FlagsAreCleared(s: Flow)
    requires s.main == StopMoveFlag || s.main == StopScrollFlag
    ensures Enabled(s, MainStep)
    ensures s.main == StopScrollFlag ==> Stopping(Next(s, MainStep).main)
    ensures s.main == StopMoveFlag ==> Next(s, MainStep).main == StopScrollFlag
  {
  }

  /** How often the caller's thread is scheduled. */
  function MainSteps(acts: seq<Action>): nat {
    if |acts| == 0 then 0 else (if acts[0].MainStep? then 1 else 0) + MainSteps(acts[1..])
  }

  /** Statements of stop before the first join. */
  function FlagsLeft(m: MainPc): nat {
    match m
    case StopMoveFlag => 2
    case StopScrollFlag => 1
    case _ => 0
  }

  /**
   From the moment stop has been called: as soon as the caller's thread has been scheduled
   twice, whatever the workers did meanwhile, at most 11 more steps pass before stop has
   returned. A run in which the thread is never scheduled again is the only way around it.
   */
  lemma {:induction false} StopCallReturns(s: Flow, acts: seq<Action>, n: nat) returns (k: nat)
    requires Phases(s) && FlagsLeft(s.main) > 0 && CanRun(s, acts)
    requires n + 11 <= |acts| && FlagsLeft(s.main) <= MainSteps(acts[..n])
    ensures k <= n + 11 && CanRun(s, acts[..k]) && Stopped(After(s, acts[..k]))
    decreases |acts|
  {
    var s', rest := Next(s, acts[0]), acts[1..];
    assert n > 0 && acts[..n][1..] == rest[..n - 1];
    NextKeepsPhases(s, acts[0]);
    if acts[0].MainStep? {
      FlagsAreCleared(s);
    }
    if Stopping(s'.main) {
      k := StopReturns(s', rest);
    } else {
      k := StopCallReturns(s', rest, n - 1);
    }
    StoppedAfter(s, acts, k);
    k := k + 1;
  }
}
