/**
 The pinned connection: the filter of the communication service, the two handlers of
 the home scene, and the store they keep in step. Addresses stand for peers.
 */
module Communication {
  import opened Prelude
  import opened Json
  import opened InputEvents
  import opened DiscoveryService
  import opened WindowsEmitter
  import UC = UdpClient

  const BECOME_RECEIVER: string := "become_receiver"

  datatype Scene = Home | Sending | Receiving

  datatype Sent = Sent(to: string, text: string, reliable: bool)

  /** Pin and client of the service, connected and available devices of the store, scenes posted to the UI. */
  datatype Link = Link(
    pin: Option<string>, client: Option<string>, connected: Option<Candidate>,
    available: seq<Candidate>, posted: seq<Scene>, outbox: seq<Sent>)

  const UNLINKED: Link := Link(None, None, None, [], [], [])

  function BecomeReceiver(selfId: string): TypedPackage {
    TypedPackage(BECOME_RECEIVER, Dump(Obj([Member("device_id", Str(selfId))])))
  }

  predicate IsBecomeReceiver(p: TypedPackage) {
    p.typename == BECOME_RECEIVER
  }

  predicate Admits(pin: Option<string>, from: string) {
    pin.None? || from == pin.value
  }

  predicate Lists(devices: seq<Candidate>, ip: string) {
    exists c :: c in devices && c.ip == ip
  }

  function FirstAt(devices: seq<Candidate>, ip: string): (r: Option<Candidate>)
    ensures r.Some? <==> Lists(devices, ip)
    ensures r.Some? ==> r.value.ip == ip && exists i :: 0 <= i < |devices| && IsFirstAt(devices, ip, i) && devices[i] == r.value
  {
    if |devices| == 0 then None
    else if devices[0].ip == ip then
      assert IsFirstAt(devices, ip, 0);
      Some(devices[0])
    else
      var r := FirstAt(devices[1..], ip);
      assert forall c :: c in devices <==> c == devices[0] || c in devices[1..];
      assert r.Some? ==> exists i :: 0 <= i < |devices| && IsFirstAt(devices, ip, i) && devices[i] == r.value by {
        if r.Some? {
          var k :| 0 <= k < |devices[1..]| && IsFirstAt(devices[1..], ip, k) && devices[1..][k] == r.value;
          FirstLater(devices, ip, k);
        }
      }
      r
  }

  /** The device at i has the address, and none before it does. */
  predicate IsFirstAt(devices: seq<Candidate>, ip: string, i: nat) {
    i < |devices| && devices[i].ip == ip && forall j :: 0 <= j < i ==> devices[j].ip != ip
  }

  lemma FirstLater(devices: seq<Candidate>, ip: string, k: nat)
    requires |devices| > 0 && devices[0].ip != ip && IsFirstAt(devices[1..], ip, k)
    ensures IsFirstAt(devices, ip, k + 1) && devices[k + 1] == devices[1..][k]
  {
    assert forall j :: 0 < j < |devices| ==> devices[j] == devices[1..][j - 1];
  }

  // ---------- The handlers, on values ----------

  /** A become_receiver request is matched by the sender's address; the id it carries is only logged. */
  function Requested(l: Link, from: string, p: TypedPackage): Link {
    var device := FirstAt(l.available, from);
    if !IsBecomeReceiver(p) || device.None? then l
    else
      var ip := Some(device.value.ip);
      l.(connected := device, pin := ip, client := ip, posted := l.posted + [Receiving])
  }

  function SentBy(l: Link, p: TypedPackage, reliable: bool): Link {
    if l.client.None? || l.pin.None? then l
    else l.(outbox := l.outbox + [Sent(l.pin.value, EncodePackage(p), reliable)])
  }

  function Clicked(l: Link, selfId: string, c: Candidate): Link {
    var pinned := SentBy(l.(connected := Some(c), pin := Some(c.ip), client := Some(c.ip)),
                         BecomeReceiver(selfId), true);
    pinned.(posted := l.posted + [Sending])
  }

  // ---------- The classes ----------

  const COMMUNICATION_PORT: int := 8801

  /** The requests a client gets when these are sent through it. */
  function Packets(sent: seq<Sent>): seq<UC.Packet> {
    if |sent| == 0 then []
    else Packets(sent[..|sent| - 1]) + [UC.Packet(sent[|sent| - 1].reliable, sent[|sent| - 1].text)]
  }

  lemma PacketsAppend(sent: seq<Sent>, s: Sent)
    ensures Packets(sent + [s]) == Packets(sent) + [UC.Packet(s.reliable, s.text)]
  {
    assert (sent + [s])[..|sent|] == sent;
  }

  /** Foreign answers: a host is created with its only slot free. */
  predicate FreshHost(created: Option<UC.Host>) {
    created.Some? ==> created.value.slot == UC.Free
  }

  class CommunicationService {
    var pinnedPeer: Option<string>
    var client: UC.UdpClient?
    ghost var outbox: seq<Sent>
    ghost var pinnedAt: nat         // what was in the outbox when the client was made

    /** A client is that of the pinned peer, and was asked to send exactly what was sent since. */
    ghost predicate Valid()
      reads this, client
    {
      client != null ==>
        && client.Valid() && pinnedPeer == Some(client.ip) && pinnedAt <= |outbox|
        && client.requested == Packets(outbox[pinnedAt..])
    }

    /** Where a package goes, if anywhere. */
    function Target(): Option<string>
      reads this
    {
      if client == null then None else pinnedPeer
    }

    constructor ()
      ensures Valid() && pinnedPeer == None && client == null && outbox == []
    {
      pinnedPeer, client, outbox, pinnedAt := None, null, [], 0;
    }

    /** The message callback: the package emitted, if the filter lets the message through. */
    method OnMessage(from: string, text: string) returns (emitted: Option<TypedPackage>)
      ensures emitted.Some? <==> Admits(pinnedPeer, from)
      ensures emitted.Some? ==> emitted.value == DecodePackage(text)
    {
      if pinnedPeer.Some? && from != pinnedPeer.value {
        return None;
      }
      return Some(DecodePackage(text));
    }

    /** A new client for the new peer; nothing was ever asked of it. */
    method PinConnection(target: string, created: Option<UC.Host>)
      requires FreshHost(created)
      modifies this
      ensures Valid() && pinnedPeer == Some(target) && outbox == old(outbox)
      ensures client != null && fresh(client) && client.ip == target && client.port == 8801
      ensures client.asked == [] && client.requested == []
      ensures pinnedAt == |outbox|
    {
      pinnedPeer, pinnedAt := Some(target), |outbox|;
      client := new UC.UdpClient(target, COMMUNICATION_PORT, created);
    }

    method UnpinConnection()
      modifies this
      ensures Valid() && pinnedPeer == None && client == null && outbox == old(outbox)
    {
      pinnedPeer := None;
      if client != null {
        client := null;
      }
    }

    /** Reliable or not, the text goes to the client of the pinned peer, or nowhere. */
    method SendPackage(p: TypedPackage, reliable: bool, now: UInt64, luck: UC.Luck)
      requires Valid() && FreshHost(luck.creates)
      modifies this`outbox, client
      ensures Valid()
      ensures outbox == old(outbox) +
                        if Target().Some? then [Sent(Target().value, EncodePackage(p), reliable)] else []
    {
      if client == null || pinnedPeer.None? {
        return;
      }
      var sent := Sent(pinnedPeer.value, EncodePackage(p), reliable);
      PacketsAppend(outbox[pinnedAt..], sent);
      assert (outbox + [sent])[pinnedAt..] == outbox[pinnedAt..] + [sent];
      client.SendImpl(sent.text, reliable, now, luck);
      outbox := outbox + [sent];
    }
  }

  class HomeScene {
    const service: CommunicationService
    const selfId: string
    var connectedDevice: Option<Candidate>
    var availableDevices: seq<Candidate>
    var posted: seq<Scene>

    ghost function View(): Link
      reads this, service
    {
      var client := if service.client == null then None else Some(service.client.ip);
      Link(service.pinnedPeer, client, connectedDevice, availableDevices, posted, service.outbox)
    }

    constructor (selfId: string)
      ensures View() == UNLINKED && service.Valid() && fresh(service) && this.selfId == selfId
    {
      service := new CommunicationService();
      this.selfId := selfId;
      connectedDevice, availableDevices, posted := None, [], [];
    }

    method FindDevice(ip: string) returns (device: Option<Candidate>)
      ensures device == FirstAt(availableDevices, ip)
    {
      var i := 0;
      while i < |availableDevices|
        invariant 0 <= i <= |availableDevices|
        invariant FirstAt(availableDevices, ip) == FirstAt(availableDevices[i..], ip)
      {
        if availableDevices[i].ip == ip {
          return Some(availableDevices[i]);
        }
        assert availableDevices[i..][1..] == availableDevices[i + 1..];
        i := i + 1;
      }
      device := None;
    }

    /** The subscriber: accept a request from a listed device. */
    method OnPackage(from: string, p: TypedPackage, created: Option<UC.Host>)
      requires service.Valid() && FreshHost(created)
      modifies this, service
      ensures service.Valid() && View() == Requested(old(View()), from, p)
    {
      if !IsBecomeReceiver(p) {
        return;
      }
      var candidate := FindDevice(from);
      if candidate.None? {
        return;
      }
      connectedDevice := candidate;
      service.PinConnection(candidate.value.ip, created);
      posted := posted + [Receiving];
    }

    /** A message through the filter and, if it passes, the subscriber. */
    method Receive(from: string, text: string, created: Option<UC.Host>)
      requires service.Valid() && FreshHost(created)
      modifies this, service
      ensures service.Valid() && View() == if Admits(old(service.pinnedPeer), from)
                        then Requested(old(View()), from, DecodePackage(text)) else old(View())
    {
      var emitted := service.OnMessage(from, text);
      if emitted.Some? {
        OnPackage(from, emitted.value, created);
      }
    }

    /** The Connect button beside a listed device. */
    method OnConnectClick(d: Candidate, created: Option<UC.Host>, now: UInt64, luck: UC.Luck)
      requires service.Valid() && FreshHost(created) && FreshHost(luck.creates)
      modifies this, service
      ensures service.Valid() && View() == Clicked(old(View()), selfId, d)
      ensures service.client != null && fresh(service.client)
      ensures service.outbox[service.pinnedAt..] == [Sent(d.ip, EncodePackage(BecomeReceiver(selfId)), true)]
    {
      connectedDevice := Some(d);
      service.PinConnection(d.ip, created);
      service.SendPackage(BecomeReceiver(selfId), true, now, luck);
      posted := posted + [Sending];
    }
  }

  // ---------- Sessions ----------

  datatype Emission = Emission(from: string, pin: Option<string>, package: TypedPackage)

  /** An injected event, its origin, and the device shown as connected at that moment. */
  datatype Injected = Injected(from: string, shown: Option<Candidate>, event: InputEvent)

  datatype Session = Session(
    selfId: string, link: Link, scene: Scene, emitted: seq<Emission>, injected: seq<Injected>, ended: bool)

  datatype Op =
    | Arrive(from: string, text: string)
    | Devices(available: seq<Candidate>)
    | Click(index: nat)
    | Send(package: TypedPackage, reliable: bool)
    | Draw

  function Begin(selfId: string): Session {
    Session(selfId, UNLINKED, Home, [], [], false)
  }

  /** The subscriber of the mounted scene; an event that does not decode ends the program. */
  function Handled(s: Session, from: string, p: TypedPackage): Session {
    match s.scene
    case Home => s.(link := Requested(s.link, from, p))
    case Sending => s
    case Receiving =>
      if !IsKeyboardInput(p) then s
      else
        match DecodeEvent(p.payload)
        case Success(e) => s.(injected := s.injected + [Injected(from, s.link.connected, e)])
        case Failure(_) => s.(ended := true)
  }

  function Step(s: Session, op: Op): Session {
    if s.ended then s
    else
      match op
      case Arrive(from, text) =>
        if !Admits(s.link.pin, from) then s
        else
          var p := DecodePackage(text);
          Handled(s.(emitted := s.emitted + [Emission(from, s.link.pin, p)]), from, p)
      case Devices(available) => s.(link := s.link.(available := available))
      case Click(i) =>
        if s.scene == Home && i < |s.link.available| && !s.link.available[i].busy
        then s.(link := Clicked(s.link, s.selfId, s.link.available[i])) else s
      case Send(p, reliable) => s.(link := SentBy(s.link, p, reliable))
      case Draw =>
        if |s.link.posted| == 0 then s
        else s.(scene := s.link.posted[0], link := s.link.(posted := s.link.posted[1..]))
  }

  function Run(s: Session, ops: seq<Op>): Session {
    if |ops| == 0 then s else Step(Run(s, ops[..|ops| - 1]), ops[|ops| - 1])
  }

  // ---------- What every session keeps ----------

  predicate Agree(l: Link) {
    && l.client == l.pin
    && l.pin == if l.connected.Some? then Some(l.connected.value.ip) else None
  }

  predicate Isolated(s: Session) {
    && (forall e :: e in s.emitted && e.pin.Some? ==> e.pin == Some(e.from))
    && (forall x :: x in s.injected ==> x.shown.Some? && x.shown.value.ip == x.from)
  }

  /** A scene other than home is mounted, or waiting to be, only once a peer is pinned. */
  predicate Inv(s: Session) {
    && Agree(s.link)
    && Isolated(s)
    && (s.link.pin.None? ==> s.scene == Home && |s.link.posted| == 0 && !s.ended)
    && Home !in s.link.posted
  }

  lemma ArriveKeepsInv(s: Session, from: string, text: string)
    requires Inv(s)
    ensures Inv(Step(s, Arrive(from, text)))
  {
    if !s.ended && Admits(s.link.pin, from) {
      var p := DecodePackage(text);
      var t := s.(emitted := s.emitted + [Emission(from, s.link.pin, p)]);
      assert Inv(t);
      assert Inv(Handled(t, from, p));
    }
  }

  lemma StepKeepsInv(s: Session, op: Op)
    requires Inv(s)
    ensures Inv(Step(s, op))
  {
    if op.Arrive? {
      ArriveKeepsInv(s, op.from, op.text);
    }
  }

  lemma {:induction false} RunKeepsInv(s: Session, ops: seq<Op>)
    requires Inv(s)
    ensures Inv(Run(s, ops))
    decreases |ops|
  {
    if |ops| > 0 {
      RunKeepsInv(s, ops[..|ops| - 1]);
      StepKeepsInv(Run(s, ops[..|ops| - 1]), ops[|ops| - 1]);
    }
  }

  /**
   In every session: pin, client and connected device name one address; while pinned,
   only that peer's packages are emitted; and no event is injected unless it came from
   the device shown as connected.
   */
  lemma PinIsolation(selfId: string, ops: seq<Op>)
    ensures var s := Run(Begin(selfId), ops);
            && s.link.client == s.link.pin
            && s.link.pin == (if s.link.connected.Some? then Some(s.link.connected.value.ip) else None)
            && (forall e :: e in s.emitted && e.pin.Some? ==> e.pin == Some(e.from))
            && (forall x :: x in s.injected ==> x.shown.Some? && x.shown.value.ip == x.from)
            && (s.link.pin.None? ==> s.injected == [] && s.link.outbox == [])
  {
    RunKeepsInv(Begin(selfId), ops);
    UnpinnedIsSilent(Begin(selfId), ops);
  }

  /** Nothing leaves or is injected before a peer is pinned. */
  lemma {:induction false} UnpinnedIsSilent(s: Session, ops: seq<Op>)
    requires Inv(s) && (s.link.pin.None? ==> s.injected == [] && s.link.outbox == [])
    ensures var t := Run(s, ops); t.link.pin.None? ==> t.injected == [] && t.link.outbox == []
    decreases |ops|
  {
    if |ops| > 0 {
      var init := ops[..|ops| - 1];
      RunKeepsInv(s, init);
      UnpinnedIsSilent(s, init);
    }
  }

  // ---------- A pin against remote messages ----------

  predicate NoClicks(ops: seq<Op>) {
    forall i :: 0 <= i < |ops| ==> !ops[i].Click?
  }

  /** The texts that arrived from one address, in order. */
  function TextsFrom(ip: string, ops: seq<Op>): seq<string> {
    if |ops| == 0 then []
    else
      var op := ops[|ops| - 1];
      TextsFrom(ip, ops[..|ops| - 1]) + if op.Arrive? && op.from == ip then [op.text] else []
  }

  function SentTo(ip: string, ops: seq<Op>): seq<Sent> {
    if |ops| == 0 then []
    else
      var op := ops[|ops| - 1];
      SentTo(ip, ops[..|ops| - 1]) + if op.Send? then [Sent(ip, EncodePackage(op.package), op.reliable)] else []
  }

  function Emissions(ip: string, texts: seq<string>): seq<Emission> {
    if |texts| == 0 then []
    else
      Emissions(ip, texts[..|texts| - 1]) + [Emission(ip, Some(ip), DecodePackage(texts[|texts| - 1]))]
  }

  lemma EmissionsAppend(ip: string, texts: seq<string>, text: string)
    ensures Emissions(ip, texts + [text]) == Emissions(ip, texts) + [Emission(ip, Some(ip), DecodePackage(text))]
  {
    assert (texts + [text])[..|texts|] == texts;
  }

  lemma {:induction false} PinStays(s: Session, ops: seq<Op>, ip: string)
    requires Inv(s) && s.link.pin == Some(ip) && NoClicks(ops)
    ensures Inv(Run(s, ops)) && Run(s, ops).link.pin == Some(ip)
    decreases |ops|
  {
    if |ops| > 0 {
      var init, op := ops[..|ops| - 1], ops[|ops| - 1];
      PinStays(s, init, ip);
      StepKeepsInv(Run(s, init), op);
      if !Run(s, init).ended {
        PinnedStep(Run(s, init), op, ip);
      }
    }
  }

  lemma {:induction false} PinnedEmits(s: Session, ops: seq<Op>, ip: string)
    requires Inv(s) && s.link.pin == Some(ip) && NoClicks(ops) && !Run(s, ops).ended
    ensures Run(s, ops).emitted == s.emitted + Emissions(ip, TextsFrom(ip, ops))
    decreases |ops|
  {
    if |ops| > 0 {
      var init, op := ops[..|ops| - 1], ops[|ops| - 1];
      PinStays(s, init, ip);
      PinnedEmits(s, init, ip);
      PinnedStep(Run(s, init), op, ip);
      if op.Arrive? && op.from == ip {
        EmissionsAppend(ip, TextsFrom(ip, init), op.text);
      } else {
        assert TextsFrom(ip, ops) == TextsFrom(ip, init);
      }
    }
  }

  lemma {:induction false} PinnedSends(s: Session, ops: seq<Op>, ip: string)
    requires Inv(s) && s.link.pin == Some(ip) && NoClicks(ops) && !Run(s, ops).ended
    ensures Run(s, ops).link.outbox == s.link.outbox + SentTo(ip, ops)
    decreases |ops|
  {
    if |ops| > 0 {
      var init, op := ops[..|ops| - 1], ops[|ops| - 1];
      PinStays(s, init, ip);
      PinnedSends(s, init, ip);
      PinnedStep(Run(s, init), op, ip);
    }
  }

  /**
   Once pinned, whatever arrives and from wherever, the pin stays, the connected device
   keeps that address, what is emitted is exactly what the pinned peer sent, and what is
   sent goes to it.
   */
  lemma PinHolds(s: Session, ops: seq<Op>, ip: string)
    requires Inv(s) && s.link.pin == Some(ip) && NoClicks(ops)
    ensures var t := Run(s, ops);
            && t.link.pin == Some(ip) && t.link.client == Some(ip)
            && t.link.connected.Some? && t.link.connected.value.ip == ip
            && (!t.ended ==> t.emitted == s.emitted + Emissions(ip, TextsFrom(ip, ops)))
            && (!t.ended ==> t.link.outbox == s.link.outbox + SentTo(ip, ops))
  {
    PinStays(s, ops, ip);
    if !Run(s, ops).ended {
      PinnedEmits(s, ops, ip);
      PinnedSends(s, ops, ip);
    }
  }

  lemma PinnedStep(s: Session, op: Op, ip: string)
    requires Inv(s) && s.link.pin == Some(ip) && !s.ended && !op.Click?
    ensures var t := Step(s, op);
            && t.link.pin == Some(ip)
            && t.emitted == s.emitted + (if op.Arrive? && op.from == ip
                                         then [Emission(ip, Some(ip), DecodePackage(op.text))] else [])
            && t.link.outbox == s.link.outbox + (if op.Send? then [Sent(ip, EncodePackage(op.package), op.reliable)] else [])
  {
  }

  // ---------- Who gets pinned ----------

  function Known(ops: seq<Op>): seq<Candidate> {
    if |ops| == 0 then []
    else if ops[|ops| - 1].Devices? then ops[|ops| - 1].available
    else Known(ops[..|ops| - 1])
  }

  /** The first address to ask while listed, read off the history alone. */
  function FirstRequest(ops: seq<Op>): Option<string> {
    if |ops| == 0 then None
    else
      var init, op := ops[..|ops| - 1], ops[|ops| - 1];
      var earlier := FirstRequest(init);
      if earlier.Some? then earlier
      else if op.Arrive? && IsBecomeReceiver(DecodePackage(op.text)) && Lists(Known(init), op.from) then Some(op.from)
      else None
  }

  /** Left to remote messages, a node pins the first listed device that asks, and no other ever. */
  lemma {:induction false} PinIsFirstRequest(selfId: string, ops: seq<Op>)
    requires NoClicks(ops)
    ensures var s := Run(Begin(selfId), ops);
            s.link.pin == FirstRequest(ops) && (!s.ended ==> s.link.available == Known(ops))
    decreases |ops|
  {
    if |ops| > 0 {
      var init, op := ops[..|ops| - 1], ops[|ops| - 1];
      var m := Run(Begin(selfId), init);
      RunKeepsInv(Begin(selfId), init);
      PinIsFirstRequest(selfId, init);
      if m.link.pin.Some? && !m.ended {
        PinnedStep(m, op, m.link.pin.value);
      }
    }
  }

  // ---------- The receiving side ----------

  function InjectedEvents(injected: seq<Injected>): seq<InputEvent> {
    if |injected| == 0 then []
    else InjectedEvents(injected[..|injected| - 1]) + [injected[|injected| - 1].event]
  }

  lemma InjectedAppend(injected: seq<Injected>, x: Injected)
    ensures InjectedEvents(injected + [x]) == InjectedEvents(injected) + [x.event]
  {
    assert (injected + [x])[..|injected|] == injected;
  }

  /** A keyboard_input package whose payload raises an exception when decoded. */
  predicate Malformed(text: string) {
    var p := DecodePackage(text);
    IsKeyboardInput(p) && DecodeEvent(p.payload).Failure?
  }

  predicate SomeMalformed(texts: seq<string>) {
    exists i :: 0 <= i < |texts| && Malformed(texts[i])
  }

  /** The events a list of texts carries; texts of other packages carry none. */
  function Carried(texts: seq<string>): seq<InputEvent> {
    if |texts| == 0 then []
    else
      var e := EventFromWire(texts[|texts| - 1]);
      Carried(texts[..|texts| - 1]) + if e.Some? then [e.value] else []
  }

  lemma CarriedAppend(texts: seq<string>, text: string)
    ensures Carried(texts + [text]) ==
            Carried(texts) + if EventFromWire(text).Some? then [EventFromWire(text).value] else []
    ensures SomeMalformed(texts + [text]) <==> SomeMalformed(texts) || Malformed(text)
  {
    assert (texts + [text])[..|texts|] == texts;
    assert (texts + [text])[|texts|] == text;
    forall i | 0 <= i < |texts| ensures (texts + [text])[i] == texts[i] {
    }
  }

  /** Mounted and pinned as a receiver, with nothing but its own scene waiting. */
  predicate ReceivingFrom(s: Session, ip: string) {
    && Agree(s.link) && s.link.pin == Some(ip) && s.scene == Receiving
    && forall i :: 0 <= i < |s.link.posted| ==> s.link.posted[i] == Receiving
  }

  lemma ReceivingStep(s: Session, op: Op, ip: string)
    requires ReceivingFrom(s, ip) && !s.ended
    ensures var t := Step(s, op);
            && ReceivingFrom(t, ip)
            && (t.ended <==> op.Arrive? && op.from == ip && Malformed(op.text))
            && InjectedEvents(t.injected) == InjectedEvents(s.injected) +
               if op.Arrive? && op.from == ip && EventFromWire(op.text).Some?
               then [EventFromWire(op.text).value] else []
  {
    if op.Arrive? && op.from == ip && EventFromWire(op.text).Some? {
      InjectedAppend(s.injected, Injected(ip, s.link.connected, EventFromWire(op.text).value));
    }
  }

  /**
   A receiver injects exactly the events its peer sent, in order, whatever else arrives,
   is clicked or is drawn; and it ends exactly when the peer sends a malformed event.
   */
  lemma {:induction false} ReceiverInjects(s: Session, ops: seq<Op>, ip: string)
    requires ReceivingFrom(s, ip) && !s.ended
    ensures var t := Run(s, ops);
            && ReceivingFrom(t, ip)
            && (t.ended <==> SomeMalformed(TextsFrom(ip, ops)))
            && (!t.ended ==> InjectedEvents(t.injected) == InjectedEvents(s.injected) + Carried(TextsFrom(ip, ops)))
    decreases |ops|
  {
    if |ops| > 0 {
      var init, op := ops[..|ops| - 1], ops[|ops| - 1];
      ReceiverInjects(s, init, ip);
      var m, texts := Run(s, init), TextsFrom(ip, init);
      if !m.ended {
        ReceivingStep(m, op, ip);
      }
      if op.Arrive? && op.from == ip {
        CarriedAppend(texts, op.text);
      } else {
        assert TextsFrom(ip, ops) == texts;
      }
    }
  }

  // ---------- Two nodes ----------

  /** The texts are the wire forms of the events, one for one. */
  predicate AreWires(texts: seq<string>, events: seq<InputEvent>) {
    |texts| == |events| && forall i :: 0 <= i < |texts| ==> texts[i] == EventToWire(events[i])
  }

  /** Each text reads back as the event at its place. */
  predicate ReadAs(texts: seq<string>, events: seq<InputEvent>) {
    && |texts| == |events|
    && forall i :: 0 <= i < |texts| ==> EventFromWire(texts[i]) == Some(events[i]) && !Malformed(texts[i])
  }

  lemma ReadAsInit(texts: seq<string>, events: seq<InputEvent>, n: nat)
    requires ReadAs(texts, events) && |texts| == n + 1
    ensures ReadAs(texts[..n], events[..n])
    ensures EventFromWire(texts[n]) == Some(events[n]) && !Malformed(texts[n])
    ensures texts == texts[..n] + [texts[n]] && events == events[..n] + [events[n]]
  {
  }

  lemma {:induction false} ReadAsCarry(texts: seq<string>, events: seq<InputEvent>)
    requires ReadAs(texts, events)
    ensures Carried(texts) == events && !SomeMalformed(texts)
    decreases |texts|
  {
    if |texts| > 0 {
      var n := |texts| - 1;
      ReadAsInit(texts, events, n);
      ReadAsCarry(texts[..n], events[..n]);
      CarriedAppend(texts[..n], texts[n]);
    }
  }

  lemma WiresCarry(texts: seq<string>, events: seq<InputEvent>)
    requires AreWires(texts, events)
    ensures Carried(texts) == events && !SomeMalformed(texts)
  {
    forall i | 0 <= i < |texts| ensures EventFromWire(texts[i]) == Some(events[i]) && !Malformed(texts[i]) {
      NestedRoundTrip(events[i]);
    }
    ReadAsCarry(texts, events);
  }

  /** The node that clicked sends one request; its peer, free and listing it, pins it back and mounts the receiver. */
  lemma Handshake(a: Session, i: nat, b: Session, at: string)
    requires Inv(a) && !a.ended && a.scene == Home && i < |a.link.available| && !a.link.available[i].busy
    requires Inv(b) && !b.ended && b.link.pin.None? && Lists(b.link.available, at)
    ensures var a' := Step(a, Click(i));
            && a'.link.pin == Some(a.link.available[i].ip)
            && |a'.link.outbox| == |a.link.outbox| + 1
            && a'.link.outbox[|a.link.outbox|].to == a.link.available[i].ip
            && a'.link.outbox[|a.link.outbox|].reliable
            && a'.link.connected == Some(a.link.available[i])
            && (|a.link.posted| == 0 ==> Step(a', Draw).scene == Sending)
            && var b' := Step(Step(b, Arrive(at, a'.link.outbox[|a.link.outbox|].text)), Draw);
            ReceivingFrom(b', at) && !b'.ended && b'.injected == b.injected
  {
    PackageRoundTrip(BecomeReceiver(a.selfId));
  }

  /**
   What a message that passes the filter does depends on the mounted scene alone: home answers
   requests and injects nothing, the sender scene does neither, and the receiver scene injects
   and leaves pin, device and scenes alone.
   */
  lemma SceneDecides(s: Session, from: string, text: string)
    ensures var t := Step(s, Arrive(from, text));
            && t.scene == s.scene
            && (s.ended || (s.link.pin.Some? && s.link.pin != Some(from)) ==> t == s)
            && (s.scene == Home ==> t.injected == s.injected && t.ended == s.ended)
            && (s.scene == Sending ==> t.link == s.link && t.injected == s.injected && t.ended == s.ended)
            && (s.scene == Receiving ==> t.link == s.link)
  {
  }

  /** The id a request names, as a receiver would read it. */
  function RequestedBy(p: TypedPackage): string {
    match Parse(p.payload)
    case Some(Obj(members)) => StringOrEmpty(members, "device_id")
    case _ => ""
  }

  /** The request on the wire is of type "become_receiver" and names the node that clicked. */
  lemma RequestNamesSender(selfId: string)
    ensures var p := DecodePackage(EncodePackage(BecomeReceiver(selfId)));
            p.typename == "become_receiver" && RequestedBy(p) == selfId
  {
    PackageRoundTrip(BecomeReceiver(selfId));
    var m := Member("device_id", Str(selfId));
    ParseDump(Obj([m]));
    LookupPrefix([], m, "device_id");
    assert [] + [m] == [m];
  }

  /** Only the home scene has the button, and it is disabled beside a busy device. */
  lemma ClickNeedsFreeDevice(s: Session, i: nat)
    ensures Step(s, Click(i)) != s ==>
              !s.ended && s.scene == Home && i < |s.link.available| && !s.link.available[i].busy
    ensures !s.ended && s.scene == Home && i < |s.link.available| && !s.link.available[i].busy ==>
              Step(s, Click(i)).link.posted == s.link.posted + [Sending]
  {
  }

  function Draws(k: nat): seq<Op> {
    if k == 0 then [] else Draws(k - 1) + [Draw]
  }

  lemma DrawLast(s: Session, before: seq<Op>, ops: seq<Op>)
    requires ops == before + [Draw] && !Run(s, before).ended && |Run(s, before).link.posted| > 0
    ensures var m, t := Run(s, before), Run(s, ops);
            !t.ended && t.scene == m.link.posted[0] && t.link.posted == m.link.posted[1..]
  {
    assert ops[..|ops| - 1] == before;
  }

  /** Posted scenes are mounted one a draw, in the order they were posted. */
  lemma {:induction false} DrawsInOrder(s: Session, k: nat)
    requires !s.ended && k <= |s.link.posted|
    ensures var t := Run(s, Draws(k));
            && !t.ended && t.link.posted == s.link.posted[k..]
            && t.scene == if k == 0 then s.scene else s.link.posted[k - 1]
  {
    if k > 0 {
      DrawsInOrder(s, k - 1);
      DrawLast(s, Draws(k - 1), Draws(k));
      assert s.link.posted[k - 1..][1..] == s.link.posted[k..];
    }
  }

  /**
   End to end: after the handshake, whichever of the clicking node's events are delivered,
   the receiver injects exactly those, in order, with any other traffic in between; and
   the scancodes then held down are those of the codes held in that sequence.
   */
  lemma EndToEnd(a: Session, i: nat, b: Session, at: string, ops: seq<Op>, delivered: seq<InputEvent>)
    requires Inv(a) && !a.ended && a.scene == Home && i < |a.link.available| && !a.link.available[i].busy
    requires Inv(b) && !b.ended && b.link.pin.None? && b.injected == [] && Lists(b.link.available, at)
    requires AreWires(TextsFrom(at, ops), delivered)
    ensures var a' := Step(a, Click(i));
            && |a'.link.outbox| == |a.link.outbox| + 1
            && var request := Arrive(at, a'.link.outbox[|a.link.outbox|].text);
            var t := Run(Step(Step(b, request), Draw), ops);
            && !t.ended && InjectedEvents(t.injected) == delivered
            && HeldScans(EmitAll(InjectedEvents(t.injected))) == Image(HeldCodes(delivered))
  {
    Handshake(a, i, b, at);
    var request := Arrive(at, Step(a, Click(i)).link.outbox[|a.link.outbox|].text);
    var b' := Step(Step(b, request), Draw);
    ReceiverInjects(b', ops, at);
    WiresCarry(TextsFrom(at, ops), delivered);
    HeldKeys(delivered);
    assert InjectedEvents(b'.injected) == [];
  }
}
