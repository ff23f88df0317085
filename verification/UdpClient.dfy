/**
 The connection machine of the sending client. ENet is a host with one peer slot
 whose answers are scripted by an adversary: any event, any return code and any
 state of an occupied slot may come back from a service call. The only thing
 taken from ENet is that servicing does not occupy a free slot.
 */
module UdpClient {
  import opened Prelude

  const RECONNECT_INTERVAL: int := 1000
  const CONNECT_TIMEOUT: int := 500
  const SERVICE_SLICE: int := 50
  const FLUSH_BUDGET: nat := 16

  // ---------- The host ----------

  datatype SlotState = Free | Connecting | Connected | Closing

  datatype EnetEvent = NoEvent | ConnectEvent | DisconnectEvent | ReceiveEvent

  /** One scripted answer: return code, event, and what becomes of an occupied slot. */
  datatype Reply = Reply(rc: int, ev: EnetEvent, slot: SlotState)

  datatype Host = Host(slot: SlotState, script: seq<Reply>, calls: nat)

  datatype Serviced = Serviced(host: Host, rc: int, ev: EnetEvent)

  function Service(h: Host): (r: Serviced)
    ensures r.host.calls == h.calls + 1
    ensures h.slot == Free ==> r.host.slot == Free
    ensures r.rc > 0 ==> |r.host.script| < |h.script|
  {
    if h.script == [] then Serviced(h.(calls := h.calls + 1), 0, NoEvent)
    else
      var reply := h.script[0];
      var slot := if h.slot == Free then Free else reply.slot;
      Serviced(Host(slot, h.script[1..], h.calls + 1), reply.rc, reply.ev)
  }

  /**
   What one bounded wait for a connection comes to: a connect event ends it well,
   a disconnect event or the last slice ends it badly.
   */
  function AwaitConnect(h: Host, slices: nat): (r: (Host, bool))
    ensures h.calls <= r.0.calls <= h.calls + slices
    ensures !r.1 ==> r.0.slot == Free
    decreases slices
  {
    if slices == 0 then (h.(slot := Free), false)
    else
      var r := Service(h);
      if r.rc > 0 && r.ev == ConnectEvent then (r.host, true)
      else if r.rc > 0 && r.ev == DisconnectEvent then (r.host.(slot := Free), false)
      else AwaitConnect(r.host, slices - 1)
  }

  /** One connection attempt on a free slot: what becomes of the host, and whether it is connected. */
  function Attempt(h: Host, reachable: bool): (r: (Host, bool))
    ensures r.1 ==> r.0.slot == Connected
    ensures !r.1 && h.slot == Free ==> r.0.slot == Free
    ensures h.calls <= r.0.calls <= h.calls + 10
  {
    if !reachable then (h, false)
    else
      var r := AwaitConnect(h.(slot := Connecting), Slices(CONNECT_TIMEOUT));
      if r.1 && r.0.slot == Connected then r else (r.0.(slot := Free), false)
  }

  /** What polling within a budget of service calls comes to: the host, and whether the peer is still there. */
  function PollEvents(h: Host, peer: bool, budget: nat): (r: (Host, bool))
    ensures r.0.calls <= h.calls + budget
    ensures r.1 ==> peer
    ensures (!peer ==> h.slot == Free) ==> (!r.1 ==> r.0.slot == Free)
    decreases budget
  {
    if budget == 0 then (h, peer)
    else
      var r := Service(h);
      if r.rc <= 0 then (r.host, peer)
      else if r.ev == DisconnectEvent && peer then PollEvents(r.host.(slot := Free), false, budget - 1)
      else PollEvents(r.host, peer, budget - 1)
  }

  /** Slices of 50 ms that fit a timeout, the last one possibly cut. */
  function Slices(timeout: int): nat {
    if timeout <= 0 then 0 else (timeout + SERVICE_SLICE - 1) / SERVICE_SLICE
  }

  /** Foreign answers during one send: name resolution, allocation, packet creation, acceptance. */
  datatype Luck = Luck(creates: Option<Host>, resolves: bool, allocates: bool, packs: bool, accepts: bool)

  // ---------- What the script decides ----------

  /** The script lets a wait of n service calls succeed at its i-th answer: a connect event, no verdict before it. */
  predicate ConnectsAt(script: seq<Reply>, n: nat, i: nat) {
    && i < n && i < |script|
    && script[i].rc > 0 && script[i].ev == ConnectEvent
    && forall j :: 0 <= j < i ==>
         !(script[j].rc > 0 && (script[j].ev == ConnectEvent || script[j].ev == DisconnectEvent))
  }

  /** Besides, the slot is connected then, and was never freed on the way. */
  predicate LinksAt(script: seq<Reply>, n: nat, i: nat) {
    ConnectsAt(script, n, i) && script[i].slot == Connected && forall j :: 0 <= j < i ==> script[j].slot != Free
  }

  predicate Verdict(r: Reply) {
    r.rc > 0 && (r.ev == ConnectEvent || r.ev == DisconnectEvent)
  }

  lemma ConnectsLater(script: seq<Reply>, n: nat, i: nat)
    requires |script| > 0 && n > 0 && !Verdict(script[0])
    ensures ConnectsAt(script[1..], n - 1, i) <==> ConnectsAt(script, n, i + 1)
  {
    var rest := script[1..];
    assert forall j :: 0 < j < |script| ==> script[j] == rest[j - 1];
    assert forall j :: 0 <= j < |rest| ==> rest[j] == script[j + 1];
  }

  lemma ConnectsPastFirst(script: seq<Reply>, n: nat, m: nat)
    requires |script| > 0 && n == m + 1 && !Verdict(script[0])
    ensures (exists i: nat :: ConnectsAt(script[1..], m, i)) <==> exists i: nat :: ConnectsAt(script, n, i)
  {
    if i: nat :| ConnectsAt(script[1..], m, i) {
      ConnectsLater(script, n, i);
    }
    if i: nat :| ConnectsAt(script, n, i) {
      ConnectsLater(script, n, i - 1);
    }
  }

  lemma VerdictFirst(script: seq<Reply>, n: nat)
    requires |script| > 0 && n > 0 && Verdict(script[0])
    ensures (exists i: nat :: ConnectsAt(script, n, i)) <==> ConnectsAt(script, n, 0)
    ensures (exists i: nat :: LinksAt(script, n, i)) <==> LinksAt(script, n, 0)
  {
  }

  /** A wait succeeds exactly when the script has a connect event within reach, with no verdict before it. */
  lemma {:induction false} AwaitConnectIff(h: Host, n: nat)
    ensures AwaitConnect(h, n).1 <==> exists i: nat :: ConnectsAt(h.script, n, i)
    decreases n
  {
    if n > 0 && |h.script| > 0 {
      if Verdict(h.script[0]) {
        VerdictFirst(h.script, n);
      } else {
        AwaitConnectIff(Service(h).host, n - 1);
        ConnectsPastFirst(h.script, n, n - 1);
      }
    } else if n > 0 {
      AwaitConnectIff(Service(h).host, n - 1);
    }
  }

  /** An attempt on a free slot connects exactly when the peer is reachable and the script links the two in ten calls. */
  lemma AttemptIff(h: Host, reachable: bool)
    ensures Attempt(h, reachable).1 <==> reachable && exists i: nat :: LinksAt(h.script, 10, i)
  {
    if reachable {
      LinkIff(h.(slot := Connecting), 10);
    }
  }

  /** The same with the slot: connected at that event, and never freed before. */
  lemma {:induction false} LinkIff(h: Host, n: nat)
    requires h.slot != Free
    ensures AwaitConnect(h, n).1 && AwaitConnect(h, n).0.slot == Connected <==> exists i: nat :: LinksAt(h.script, n, i)
    decreases n
  {
    if n > 0 && |h.script| > 0 {
      if Verdict(h.script[0]) {
        VerdictFirst(h.script, n);
      } else if h.script[0].slot == Free {
        FreeStaysFree(Service(h).host, n - 1);
        assert forall i: nat :: LinksAt(h.script, n, i) ==> h.script[0].slot != Free;
      } else {
        LinkIff(Service(h).host, n - 1);
        LinksPastFirst(h.script, n, n - 1);
      }
    } else if n > 0 {
      LinkIff(Service(h).host, n - 1);
    }
  }

  lemma LinksLater(script: seq<Reply>, n: nat, i: nat)
    requires |script| > 0 && n > 0 && !Verdict(script[0]) && script[0].slot != Free
    ensures LinksAt(script[1..], n - 1, i) <==> LinksAt(script, n, i + 1)
  {
    ConnectsLater(script, n, i);
    var rest := script[1..];
    assert forall j :: 0 < j < |script| ==> script[j] == rest[j - 1];
    assert forall j :: 0 <= j < |rest| ==> rest[j] == script[j + 1];
  }

  lemma LinksPastFirst(script: seq<Reply>, n: nat, m: nat)
    requires |script| > 0 && n == m + 1 && !Verdict(script[0]) && script[0].slot != Free
    ensures (exists i: nat :: LinksAt(script[1..], m, i)) <==> exists i: nat :: LinksAt(script, n, i)
  {
    if i: nat :| LinksAt(script[1..], m, i) {
      LinksLater(script, n, i);
    }
    if i: nat :| LinksAt(script, n, i) {
      LinksLater(script, n, i - 1);
    }
  }

  lemma {:induction false} FreeStaysFree(h: Host, n: nat)
    requires h.slot == Free
    ensures AwaitConnect(h, n).0.slot == Free
    decreases n
  {
    if n > 0 {
      FreeStaysFree(Service(h).host, n - 1);
    }
  }

  /** Answers are polled as long as they bring events; the i-th is polled within a budget. */
  predicate PolledAt(script: seq<Reply>, budget: nat, i: nat) {
    i < budget && i < |script| && forall j :: 0 <= j <= i ==> script[j].rc > 0
  }

  lemma PolledLater(script: seq<Reply>, budget: nat, i: nat)
    requires |script| > 0 && budget > 0 && script[0].rc > 0
    ensures PolledAt(script[1..], budget - 1, i) <==> PolledAt(script, budget, i + 1)
  {
    var rest := script[1..];
    assert forall j :: 0 < j < |script| ==> script[j] == rest[j - 1];
    assert forall j :: 0 <= j < |rest| ==> rest[j] == script[j + 1];
  }

  /** One of the polled answers is a disconnect. */
  ghost predicate DisconnectPolled(script: seq<Reply>, budget: nat) {
    exists i: nat :: PolledAt(script, budget, i) && script[i].ev == DisconnectEvent
  }

  lemma DisconnectPastFirst(script: seq<Reply>, budget: nat)
    requires |script| > 0 && budget > 0 && script[0].rc > 0
    ensures DisconnectPolled(script, budget) <==>
            script[0].ev == DisconnectEvent || DisconnectPolled(script[1..], budget - 1)
  {
    assert PolledAt(script, budget, 0);
    if i: nat :| PolledAt(script[1..], budget - 1, i) && script[1..][i].ev == DisconnectEvent {
      PolledLater(script, budget, i);
      assert script[i + 1] == script[1..][i];
    }
    if i: nat :| PolledAt(script, budget, i) && script[i].ev == DisconnectEvent {
      if i > 0 {
        PolledLater(script, budget, i - 1);
        assert script[1..][i - 1] == script[i];
      }
    }
  }

  /** Polling keeps the peer exactly when no polled answer is a disconnect. */
  lemma {:induction false} PeerKeptIff(h: Host, peer: bool, budget: nat)
    ensures PollEvents(h, peer, budget).1 <==> peer && !DisconnectPolled(h.script, budget)
    decreases budget
  {
    if budget > 0 && |h.script| > 0 && h.script[0].rc > 0 {
      var r := Service(h);
      var drops := r.ev == DisconnectEvent && peer;
      PeerKeptIff(if drops then r.host.(slot := Free) else r.host, peer && !drops, budget - 1);
      DisconnectPastFirst(h.script, budget);
    }
  }

  // ---------- Packets ----------

  datatype Packet = Packet(reliable: bool, payload: string)

  /** a is what remains of b after leaving some elements out. */
  predicate Subsequence<T(==)>(a: seq<T>, b: seq<T>) {
    if |a| == 0 then true
    else if |b| == 0 then false
    else
      || (a[|a| - 1] == b[|b| - 1] && Subsequence(a[..|a| - 1], b[..|b| - 1]))
      || Subsequence(a, b[..|b| - 1])
  }

  lemma SubsequenceGrows<T>(a: seq<T>, b: seq<T>, x: T)
    requires Subsequence(a, b)
    ensures Subsequence(a, b + [x]) && Subsequence(a + [x], b + [x])
  {
    assert (b + [x])[..|b|] == b && (a + [x])[..|a|] == a;
  }

  function Reliable(ps: seq<Packet>): seq<Packet> {
    if |ps| == 0 then []
    else Reliable(ps[..|ps| - 1]) + if ps[|ps| - 1].reliable then [ps[|ps| - 1]] else []
  }

  lemma {:induction false} ReliableSubsequence(a: seq<Packet>, b: seq<Packet>)
    requires Subsequence(a, b)
    ensures Subsequence(Reliable(a), Reliable(b))
    decreases |b|
  {
    if |a| > 0 {
      var last, init := b[|b| - 1], b[..|b| - 1];
      var taken := a[|a| - 1] == last && Subsequence(a[..|a| - 1], init);
      var before := if taken then a[..|a| - 1] else a;
      ReliableSubsequence(before, init);
      SubsequenceGrows(Reliable(before), Reliable(init), last);
      assert Reliable(b) == if last.reliable then Reliable(init) + [last] else Reliable(init);
      assert Reliable(a) == if taken && last.reliable then Reliable(before) + [last] else Reliable(before);
    }
  }

  // ---------- Retry times ----------

  /** The signed reading of an unsigned 64-bit difference. */
  function Signed64(x: UInt64): int {
    if x < TWO_TO_THE_63 then x else x - TWO_TO_THE_64
  }

  predicate TooSoon(last: UInt64, now: UInt64) {
    last != 0 && Signed64(Sub64(now, last)) < RECONNECT_INTERVAL
  }

  predicate Spaced(attempts: seq<UInt64>) {
    forall i :: 0 <= i < |attempts| - 1 ==> attempts[i] + RECONNECT_INTERVAL <= attempts[i + 1]
  }

  lemma {:induction false} SpacedSpan(attempts: seq<UInt64>)
    requires Spaced(attempts) && |attempts| > 0
    ensures attempts[|attempts| - 1] - attempts[0] >= 1000 * (|attempts| - 1)
  {
    if |attempts| > 1 {
      var n := |attempts| - 2;
      assert attempts[n] + RECONNECT_INTERVAL <= attempts[n + 1];
      SpacedSpan(attempts[..n + 1]);
    }
  }

  /** The readings of the clock at which an attempt is made, for a client that last tried at `last`. */
  function Attempted(last: UInt64, asked: seq<UInt64>): seq<UInt64>
    decreases |asked|
  {
    if |asked| == 0 then []
    else if TooSoon(last, asked[0]) then Attempted(last, asked[1..])
    else [asked[0]] + Attempted(asked[0], asked[1..])
  }

  /** The retry limit one reading later. */
  lemma {:induction false} AttemptedAppend(last: UInt64, asked: seq<UInt64>, now: UInt64)
    ensures var out := Attempted(last, asked);
            Attempted(last, asked + [now]) == out + if TooSoon(LastOf(last, out), now) then [] else [now]
    decreases |asked|
  {
    var longer := asked + [now];
    if |asked| == 0 {
      assert longer == [now];
    } else {
      assert longer[0] == asked[0] && longer[1..] == asked[1..] + [now];
      AttemptedAppend(if TooSoon(last, asked[0]) then last else asked[0], asked[1..], now);
    }
  }

  /** On a positive clock that never goes back, attempts are at least 1000 ms apart. */
  lemma {:induction false} AttemptsAreSpaced(asked: seq<UInt64>)
    requires PositiveClock(asked)
    ensures Spaced(Attempted(0, asked))
    ensures var out := Attempted(0, asked); |asked| > 0 ==> |out| > 0 && 0 < out[|out| - 1] <= asked[|asked| - 1]
    ensures |asked| > 0 ==> Attempted(0, asked)[0] == asked[0]
    decreases |asked|
  {
    if |asked| > 0 {
      var n := |asked| - 1;
      AttemptsAreSpaced(asked[..n]);
      AttemptedAppend(0, asked[..n], asked[n]);
      assert asked == asked[..n] + [asked[n]];
      if n > 0 {
        assert asked[n - 1] <= asked[n];
      }
    }
  }

  /** Some attempt was made less than 1000 ms before, or just then. */
  ghost predicate Served(attempts: seq<UInt64>, t: UInt64) {
    exists k :: 0 <= k < |attempts| && attempts[k] <= t && t - attempts[k] < 1000
  }

  lemma ServedLonger(attempts: seq<UInt64>, t: UInt64, more: seq<UInt64>)
    requires Served(attempts, t)
    ensures Served(attempts + more, t)
  {
    var k :| 0 <= k < |attempts| && attempts[k] <= t && t - attempts[k] < 1000;
    assert (attempts + more)[k] == attempts[k];
  }

  /** A reading no earlier than the last attempt is served once the limit has ruled on it. */
  lemma RulingServes(out: seq<UInt64>, now: UInt64)
    requires LastOf(0, out) <= now < TWO_TO_THE_63
    requires |out| > 0 ==> 0 < out[|out| - 1]
    ensures Served(out + if TooSoon(LastOf(0, out), now) then [] else [now], now)
  {
    if TooSoon(LastOf(0, out), now) {
      assert out + [] == out;
      assert out[|out| - 1] <= now && now - out[|out| - 1] < 1000;
    } else {
      assert (out + [now])[|out|] == now;
    }
  }

  /** The limit refuses no more than it must: every reading falls within 1000 ms of an attempt. */
  lemma {:induction false} NoneRefusedLonger(asked: seq<UInt64>, i: nat)
    requires PositiveClock(asked) && i < |asked| && asked[|asked| - 1] < TWO_TO_THE_63
    ensures Served(Attempted(0, asked), asked[i])
    decreases |asked|
  {
    var n := |asked| - 1;
    var init, now := asked[..n], asked[n];
    assert asked == init + [now];
    AttemptedAppend(0, init, now);
    AttemptsAreSpaced(init);
    assert n > 0 ==> asked[n - 1] <= asked[n];
    if i < n {
      assert init[n - 1] == asked[n - 1] && init[i] == asked[i];
      NoneRefusedLonger(init, i);
      ServedLonger(Attempted(0, init), asked[i], if TooSoon(LastOf(0, Attempted(0, init)), now) then [] else [now]);
    } else {
      RulingServes(Attempted(0, init), now);
    }
  }

  /**
   A first attempt at time 0 is not remembered. For a clock that never goes back, attempts
   are 1000 ms apart exactly when a first reading of 0 is not followed within 1000 ms.
   */
  lemma RateLimitHoldsIff(asked: seq<UInt64>)
    requires NonDecreasing(asked)
    ensures Spaced(Attempted(0, asked)) <==> (|asked| >= 2 && asked[0] == 0 ==> 1000 <= asked[1])
  {
    if |asked| > 0 && asked[0] == 0 {
      var rest := asked[1..];
      var out := Attempted(0, asked);
      assert out == [0] + Attempted(0, rest);
      if |rest| > 0 {
        assert Attempted(0, rest)[0] == rest[0] == out[1];
        if rest[0] > 0 {
          AttemptsAreSpaced(rest);
          SpacedFrom(0, Attempted(0, rest));
        } else {
          assert !(out[0] + RECONNECT_INTERVAL <= out[0 + 1]);
        }
      }
    } else {
      AttemptsAreSpaced(asked);
    }
  }

  lemma SpacedFrom(first: UInt64, times: seq<UInt64>)
    requires Spaced(times) && |times| > 0
    ensures Spaced([first] + times) <==> first + RECONNECT_INTERVAL <= times[0]
  {
    var all := [first] + times;
    forall i | 0 <= i < |all| - 1 ensures 0 < i ==> all[i] + RECONNECT_INTERVAL <= all[i + 1] {
      if 0 < i {
        var k := i - 1;
        assert times[k] + RECONNECT_INTERVAL <= times[k + 1];
      }
    }
    assert Spaced(all) ==> all[0] + RECONNECT_INTERVAL <= all[0 + 1];
  }

  /** Readings taken at some of these times are as ordered as the times. */
  predicate TakenAt(asked: seq<UInt64>, times: seq<UInt64>) {
    PositiveClock(times) ==>
      && PositiveClock(asked)
      && (|asked| > 0 ==> |times| > 0 && asked[|asked| - 1] <= times[|times| - 1])
  }

  lemma TakenAtStep(asked: seq<UInt64>, times: seq<UInt64>, now: UInt64)
    requires TakenAt(asked, times)
    ensures TakenAt(asked, times + [now]) && TakenAt(asked + [now], times + [now])
  {
    var longer := times + [now];
    if PositiveClock(longer) {
      assert forall i :: 0 <= i < |times| ==> longer[i] == times[i];
      assert longer[|times|] == now;
    }
  }

  /** A host made ready to send, or freed: kept if connected, left alone if it is too soon, else attempted. */
  function Ensured(h: Host, peer: bool, last: UInt64, now: UInt64, reachable: bool): (r: (Host, bool))
    ensures r.1 ==> r.0.slot == Connected
    ensures !r.1 ==> r.0.slot == Free
    ensures r.0.calls <= h.calls + 10
    ensures !(peer && h.slot == Connected) && TooSoon(last, now) ==> !r.1 && r.0.calls == h.calls
  {
    if peer && h.slot == Connected then (h, true)
    else if TooSoon(last, now) then (h.(slot := Free), false)
    else Attempt(h.(slot := Free), reachable)
  }

  /** The host a send works on, polled: nothing for an empty payload or without any host. */
  function Polled(payload: string, host: Option<Host>, peer: bool, luck: Luck): Option<(Host, bool)> {
    var h := if host.Some? then host else luck.creates;
    if payload == "" || h.None? then None else Some(PollEvents(h.value, peer, |h.value.script| + 1))
  }

  /** Whether a send finds no connection, and so asks the retry limit. */
  predicate Asks(polled: Option<(Host, bool)>) {
    polled.Some? && !(polled.value.1 && polled.value.0.slot == Connected)
  }

  /** Whether a send finds or makes a connection. */
  predicate Connects(polled: Option<(Host, bool)>, last: UInt64, now: UInt64, reachable: bool) {
    polled.Some? && Ensured(polled.value.0, polled.value.1, last, now, reachable).1
  }

  /**
   What lets a send through, by the script: a connection left by polling, or else a retry that
   is not too soon, to a peer that is reachable, with a link within ten answers.
   */
  ghost predicate LetThrough(polled: Option<(Host, bool)>, last: UInt64, now: UInt64, reachable: bool) {
    && polled.Some?
    && ((polled.value.1 && polled.value.0.slot == Connected)
        || (!TooSoon(last, now) && reachable && exists i: nat :: LinksAt(polled.value.0.script, 10, i)))
  }

  lemma ConnectsIff(polled: Option<(Host, bool)>, last: UInt64, now: UInt64, reachable: bool)
    ensures Connects(polled, last, now, reachable) <==> LetThrough(polled, last, now, reachable)
  {
    if polled.Some? {
      AttemptIff(polled.value.0.(slot := Free), reachable);
    }
  }

  // ---------- The client ----------

  class UdpClient {
    const ip: string
    const port: int
    var host: Option<Host>
    var hasPeer: bool           // the peer pointer, which can only point to the host's one slot
    var lastAttempt: UInt64

    ghost var attempts: seq<UInt64>    // times of all connection attempts
    ghost var requested: seq<Packet>   // everything asked to be sent
    ghost var handed: seq<Packet>      // everything ENet accepted
    ghost var asked: seq<UInt64>       // clock readings of all sends that found no connection

    /** Without a peer pointer the host's only slot is free. */
    predicate SlotInvariant()
      reads this
    {
      (host.None? ==> !hasPeer) && (host.Some? && !hasPeer ==> host.value.slot == Free)
    }

    predicate IsConnected()
      reads this
    {
      host.Some? && hasPeer && host.value.slot == Connected
    }

    /** The address is usable, resolves, and the library finds a peer for it. */
    predicate Reachable(luck: Luck) {
      ip != "" && 0 < port && luck.resolves && luck.allocates
    }

    /** Attempts were made when the retry limit allowed. */
    ghost predicate RetriesLimited()
      reads this
    {
      attempts == Attempted(0, asked) && lastAttempt == LastOf(0, attempts)
    }

    ghost predicate Valid()
      reads this
    {
      SlotInvariant() && RetriesLimited() && Subsequence(handed, requested)
    }

    constructor (ip: string, port: int, created: Option<Host>)
      requires created.Some? ==> created.value.slot == Free
      ensures Valid() && this.ip == ip && this.port == port && attempts == [] && handed == [] && requested == []
      ensures host == created && asked == []
    {
      this.ip, this.port, host, hasPeer, lastAttempt := ip, port, created, false, 0;
      attempts, requested, handed, asked := [], [], [], [];
    }

    /** Forgets a peer and frees its slot. */
    method ResetPeer()
      requires host.Some?
      modifies this`host, this`hasPeer
      ensures host == Some(old(host).value.(slot := Free)) && !hasPeer
    {
      host, hasPeer := Some(host.value.(slot := Free)), false;
    }

    /**
     One bounded attempt. It needs the slot free, and services the host at most
     timeout/50 times, rounded up, with the outcome AwaitConnect describes.
     */
    method ConnectPeer(timeout: int, luck: Luck) returns (ok: bool)
      requires host.Some? && !hasPeer && host.value.slot == Free
      modifies this`host
      ensures !Reachable(luck) ==> !ok && host == old(host)
      ensures Reachable(luck) ==>
                && host.Some?
                && (host.value, ok) == AwaitConnect(old(host).value.(slot := Connecting), Slices(timeout))
      ensures ok <==> ip != "" && 0 < port && luck.resolves && luck.allocates
                      && exists i: nat :: ConnectsAt(old(host).value.script, Slices(timeout), i)
    {
      AwaitConnectIff(host.value.(slot := Connecting), Slices(timeout));
      if ip == "" || port <= 0 {
        return false;
      }
      if !luck.resolves || !luck.allocates {
        return false;
      }
      host := Some(host.value.(slot := Connecting));
      ghost var expected := AwaitConnect(host.value, Slices(timeout));
      ghost var k := 0;
      var elapsed := 0;
      while elapsed < timeout
        invariant elapsed == k * SERVICE_SLICE && 0 <= k <= Slices(timeout)
        invariant host.Some? && AwaitConnect(host.value, Slices(timeout) - k) == expected
      {
        var r := Service(host.value);
        host := Some(r.host);
        elapsed := elapsed + SERVICE_SLICE;
        k := k + 1;
        if r.rc > 0 && r.ev == ConnectEvent {
          return true;
        }
        if r.rc > 0 && r.ev == DisconnectEvent {
          break;
        }
      }
      host := Some(host.value.(slot := Free));
      ok := false;
    }

    /** An attempt that was not refused by the retry limit. */
    method AttemptConnection(luck: Luck) returns (ok: bool)
      requires host.Some? && !hasPeer && host.value.slot == Free
      modifies this`host, this`hasPeer
      ensures host.Some? && (host.value, ok) == Attempt(old(host).value, Reachable(luck))
      ensures hasPeer == ok
    {
      if ip == "" || port <= 0 {
        return false;
      }
      hasPeer := ConnectPeer(CONNECT_TIMEOUT, luck);
      if !hasPeer || host.value.slot != Connected {
        if hasPeer && host.value.slot != Connected {
          ResetPeer();
        }
        return false;
      }
      ok := true;
    }

    /** The limit on retries; past it, the time is noted and an attempt made. */
    method Retry(now: UInt64, luck: Luck) returns (ok: bool)
      requires host.Some? && !hasPeer && host.value.slot == Free && RetriesLimited()
      modifies this`host, this`hasPeer, this`lastAttempt, this`attempts, this`asked
      ensures host.Some? && RetriesLimited() && hasPeer == ok
      ensures (host.value, ok) ==
              if TooSoon(old(lastAttempt), now) then (old(host).value, false) else Attempt(old(host).value, Reachable(luck))
      ensures attempts == old(attempts) + if TooSoon(old(lastAttempt), now) then [] else [now]
      ensures asked == old(asked) + [now]
    {
      AttemptedAppend(0, asked, now);
      asked := asked + [now];
      if TooSoon(lastAttempt, now) {
        return false;
      }
      lastAttempt, attempts := now, attempts + [now];
      ok := AttemptConnection(luck);
    }

    /**
     Returns true exactly when connected; otherwise there is no peer and the slot is free.
     An attempt is made exactly when not connected and not too soon, on the freed slot.
     */
    method EnsureConnected(now: UInt64, luck: Luck) returns (ok: bool)
      requires host.Some? && SlotInvariant() && RetriesLimited()
      modifies this`host, this`hasPeer, this`lastAttempt, this`attempts, this`asked
      ensures host.Some? && SlotInvariant() && RetriesLimited()
      ensures ok <==> IsConnected()
      ensures !ok ==> !hasPeer && host.value.slot == Free
      ensures (host.value, ok) == Ensured(old(host).value, old(hasPeer), old(lastAttempt), now, Reachable(luck))
      ensures attempts == old(attempts) + if old(IsConnected()) || TooSoon(old(lastAttempt), now) then [] else [now]
      ensures asked == old(asked) + if old(IsConnected()) then [] else [now]
    {
      if hasPeer && host.value.slot == Connected {
        return true;
      }
      if hasPeer && host.value.slot != Connected {
        ResetPeer();
      }
      ok := Retry(now, luck);
    }

    /** Polls without blocking until no event is left; a disconnect drops the peer. */
    method PollDisconnects()
      requires host.Some? && SlotInvariant()
      modifies this`host, this`hasPeer
      ensures host.Some? && SlotInvariant()
      ensures (host.value, hasPeer) == PollEvents(old(host).value, old(hasPeer), |old(host).value.script| + 1)
    {
      ghost var budget := |host.value.script| + 1;
      var r := Service(host.value);
      while r.rc > 0
        invariant host.Some? && SlotInvariant() && r == Service(host.value)
        invariant budget > |host.value.script|
        invariant PollEvents(host.value, hasPeer, budget)
               == PollEvents(old(host).value, old(hasPeer), |old(host).value.script| + 1)
        decreases |host.value.script|
      {
        host := Some(r.host);
        if r.ev == DisconnectEvent && hasPeer {
          ResetPeer();
        }
        budget := budget - 1;
        r := Service(host.value);
      }
      host := Some(r.host);
    }

    /** From the payload check to ENet's acceptance of the packet; says whether it was accepted. */
    method Transmit(payload: string, now: UInt64, luck: Luck) returns (accepted: bool)
      requires SlotInvariant() && RetriesLimited() && (luck.creates.Some? ==> luck.creates.value.slot == Free)
      modifies this`host, this`hasPeer, this`lastAttempt, this`attempts, this`asked
      ensures SlotInvariant() && RetriesLimited()
      ensures var polled := Polled(payload, old(host), old(hasPeer), luck);
              && (accepted <==> Connects(polled, old(lastAttempt), now, Reachable(luck)) && luck.packs && luck.accepts)
              && attempts == old(attempts) + (if Asks(polled) && !TooSoon(old(lastAttempt), now) then [now] else [])
              && asked == old(asked) + if Asks(polled) then [now] else []
      ensures accepted ==> IsConnected()
    {
      if payload == "" {
        return false;
      }
      if host.None? {
        host := luck.creates;
        if host.None? {
          return false;
        }
      }
      PollDisconnects();
      var connected := EnsureConnected(now, luck);
      if !connected {
        return false;
      }
      accepted := luck.packs && luck.accepts;
    }

    /** Hands at most this one packet to ENet, and only while connected. */
    method SendImpl(payload: string, reliable: bool, now: UInt64, luck: Luck)
      requires Valid() && (luck.creates.Some? ==> luck.creates.value.slot == Free)
      modifies this
      ensures Valid() && requested == old(requested) + [Packet(reliable, payload)]
      ensures var polled := Polled(payload, old(host), old(hasPeer), luck);
              && (handed == old(handed) +
                    if LetThrough(polled, old(lastAttempt), now, ip != "" && 0 < port && luck.resolves && luck.allocates)
                       && luck.packs && luck.accepts
                    then [Packet(reliable, payload)] else [])
              && attempts == old(attempts) + (if Asks(polled) && !TooSoon(old(lastAttempt), now) then [now] else [])
              && asked == old(asked) + if Asks(polled) then [now] else []
      ensures |handed| > |old(handed)| ==> IsConnected()
      ensures payload == "" || (old(host).None? && luck.creates.None?) ==>
                handed == old(handed) && attempts == old(attempts) && asked == old(asked)
      ensures payload != "" && old(hasPeer) && DisconnectPolled(old(host).value.script, |old(host).value.script| + 1) ==>
                asked == old(asked) + [now]
    {
      ConnectsIff(Polled(payload, host, hasPeer, luck), lastAttempt, now, Reachable(luck));
      if host.Some? {
        PeerKeptIff(host.value, hasPeer, |host.value.script| + 1);
      }
      var accepted := Transmit(payload, now, luck);
      SubsequenceGrows(handed, requested, Packet(reliable, payload));
      requested, handed :=
        requested + [Packet(reliable, payload)],
        if accepted then handed + [Packet(reliable, payload)] else handed;
    }

    /** Services at most `limit` events; a disconnect drops the peer, other events are ignored. */
    method ServiceEvents(limit: nat)
      requires host.Some? && SlotInvariant()
      modifies this`host, this`hasPeer
      ensures host.Some? && SlotInvariant()
      ensures (host.value, hasPeer) == PollEvents(old(host).value, old(hasPeer), limit)
    {
      var budget := limit;
      while budget > 0
        invariant 0 <= budget && host.Some? && SlotInvariant()
        invariant PollEvents(host.value, hasPeer, budget) == PollEvents(old(host).value, old(hasPeer), limit)
      {
        budget := budget - 1;
        var r := Service(host.value);
        host := Some(r.host);
        if r.rc <= 0 {
          break;
        }
        if r.ev == DisconnectEvent && hasPeer {
          ResetPeer();
        }
      }
    }

    method FlushServiceEvents()
      requires host.Some? && SlotInvariant()
      modifies this`host, this`hasPeer
      ensures host.Some? && SlotInvariant()
      ensures (host.value, hasPeer) == PollEvents(old(host).value, old(hasPeer), FLUSH_BUDGET)
      ensures hasPeer <==> old(hasPeer) && !DisconnectPolled(old(host).value.script, 16)
    {
      PeerKeptIff(host.value, hasPeer, FLUSH_BUDGET);
      ServiceEvents(FLUSH_BUDGET);
    }

    /** The periodic flush: no sends, no attempts. */
    method FlushPendingMessages()
      requires Valid()
      modifies this`host, this`hasPeer
      ensures Valid()
      ensures old(host).None? ==> host.None?
      ensures old(host).Some? ==>
                host.Some? && (host.value, hasPeer) == PollEvents(old(host).value, old(hasPeer), FLUSH_BUDGET)
    {
      if host.Some? {
        FlushServiceEvents();
      }
    }

    /** k attempts span at least 1000 (k - 1) ms, if the retry limit read an ordered clock. */
    lemma AttemptsSpan()
      requires Valid() && PositiveClock(asked) && |attempts| > 0
      ensures attempts[|attempts| - 1] - attempts[0] >= 1000 * (|attempts| - 1)
    {
      AttemptsAreSpaced(asked);
      SpacedSpan(attempts);
    }

    /** Reliable packets reach ENet in the order of the requests, none twice and none invented. */
    lemma ReliableInOrder()
      requires Valid()
      ensures Subsequence(Reliable(handed), Reliable(requested))
    {
      ReliableSubsequence(handed, requested);
    }

    /** One call; `times` are those of the sends before it. */
    method PerformCall(c: Call, ghost times: seq<UInt64>)
      requires Valid() && TakenAt(asked, times)
      requires c.Send? && c.luck.creates.Some? ==> c.luck.creates.value.slot == Free
      modifies this
      ensures Valid() && requested == old(requested) + RequestOf(c) && TakenAt(asked, times + TimeOf(c))
    {
      match c {
        case Send(payload, reliable, now, luck) =>
          TakenAtStep(asked, times, now);
          SendImpl(payload, reliable, now, luck);
        case Flush =>
          assert times + TimeOf(c) == times;
          FlushPendingMessages();
      }
    }

    /**
     The life of a client: any sequence of sends and flushes on a new client. If the times
     of the sends are positive and never decrease, k attempts span at least 1000 (k - 1) ms.
     */
    method RunCalls(calls: seq<Call>)
      requires Valid() && asked == [] && requested == []
      requires forall i :: 0 <= i < |calls| && calls[i].Send? && calls[i].luck.creates.Some? ==>
                 calls[i].luck.creates.value.slot == Free
      modifies this
      ensures Valid() && requested == Requests(calls)
      ensures PositiveClock(SendTimes(calls)) ==> Spaced(attempts)
      ensures PositiveClock(SendTimes(calls)) && |attempts| > 0 ==>
                attempts[|attempts| - 1] - attempts[0] >= 1000 * (|attempts| - 1)
    {
      for i := 0 to |calls|
        invariant Valid() && requested == Requests(calls[..i]) && TakenAt(asked, SendTimes(calls[..i]))
      {
        assert calls[..i + 1][..i] == calls[..i];
        PerformCall(calls[i], SendTimes(calls[..i]));
      }
      assert calls[..|calls|] == calls;
      if PositiveClock(SendTimes(calls)) {
        AttemptsAreSpaced(asked);
        if |attempts| > 0 {
          AttemptsSpan();
        }
      }
    }
  }

  datatype Call = Send(payload: string, reliable: bool, now: UInt64, luck: Luck) | Flush

  function TimeOf(c: Call): seq<UInt64> {
    if c.Send? then [c.now] else []
  }

  function RequestOf(c: Call): seq<Packet> {
    if c.Send? then [Packet(c.reliable, c.payload)] else []
  }

  function SendTimes(calls: seq<Call>): seq<UInt64> {
    if |calls| == 0 then [] else SendTimes(calls[..|calls| - 1]) + TimeOf(calls[|calls| - 1])
  }

  function Requests(calls: seq<Call>): seq<Packet> {
    if |calls| == 0 then [] else Requests(calls[..|calls| - 1]) + RequestOf(calls[|calls| - 1])
  }
}
