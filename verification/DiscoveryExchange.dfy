/** What one node broadcasts, arriving at another: greetings list the sender, farewells unlist it. */
module DiscoveryExchange {
  import opened Prelude
  import opened InputEvents
  import opened DiscoveryPeers
  import opened DiscoveryTable
  import opened DiscoveryService
  import C = Communication

  /** The text of the last broadcast. */
  ghost predicate LastText(sent: seq<Broadcast>, text: string) {
    |sent| > 0 && sent[|sent| - 1].text == text
  }

  /**
   A farewell: what a node's cleanup broadcasts makes any other node that gets it drop the
   sender at once, and nobody else.
   */
  method Farewell(sender: DiscoveryService, receiver: DiscoveryService, from: string, now: UInt64,
                  text: string, seen: UInt64, sweep: UInt64, reply: UInt64)
    returns (r: Result<(), DecodeError>)
    requires sender != receiver && sender.Valid() && sender.hasClient && receiver.Valid() && receiver.hasServer
    requires from != SELF_IP && sender.selfPeer.deviceId != receiver.selfPeer.deviceId
    requires text == EncodePeer(sender.selfPeer.(state := Gone))
    modifies sender, receiver
    ensures LastText(sender.sent, text) && r.Success? && receiver.Valid()
    ensures !Lists(receiver.entries, old(sender.selfPeer.deviceId))
    ensures forall id :: id != old(sender.selfPeer.deviceId) ==>
              Find(receiver.entries, id) == Find(old(receiver.entries), id)
  {
    sender.Cleanup(now);
    PeerRoundTrip(sender.selfPeer);
    r := receiver.OnMessage(Datagram(from, text, seen, sweep, reply));
  }

  /** A peer listed in the table is offered in the published list, under its name and as busy as it says. */
  lemma Offered(d: DiscoveryService, id: string) returns (i: nat)
    requires d.Valid() && d.available == Candidates(d.discoveredPeers) && Lists(d.entries, id)
    ensures i < |d.available|
    ensures var peer := Find(d.entries, id).value.peer;
            && d.available[i].ip == peer.ip && d.available[i].name == peer.deviceName
            && (d.available[i].busy <==> peer.state == Busy)
  {
    d.TableMeaning();
    i := IndexOf(d.entries, id);
  }

  /**
   A greeting: a node that hears another's broadcast from an address, within 15000 ms of
   stamping it, offers that address, not busy exactly as announced; and broadcasts at once
   if the id was not listed.
   */
  method Hear(receiver: DiscoveryService, ghost announced: Peer, from: string, text: string,
              seen: UInt64, sweep: UInt64, reply: UInt64)
    returns (ghost i: nat)
    requires receiver.Valid() && receiver.hasServer
    requires from != SELF_IP && announced.deviceId != receiver.selfPeer.deviceId && announced.state != Gone
    requires text == EncodePeer(announced) && seen <= sweep <= seen + 15000
    modifies receiver
    ensures receiver.Valid() && receiver.hasServer && receiver.hasClient && receiver.selfPeer == old(receiver.selfPeer)
    ensures i < |receiver.available| && receiver.available[i].ip == from
    ensures receiver.available[i].name == announced.deviceName
    ensures receiver.available[i].busy <==> announced.state == Busy
    ensures receiver.sent == old(receiver.sent) +
              if Lists(old(receiver.entries), announced.deviceId) then []
              else [Broadcast(reply, EncodePeer(receiver.selfPeer))]
  {
    PeerRoundTrip(announced);
    var r := receiver.OnMessage(Datagram(from, text, seen, sweep, reply));
    i := Offered(receiver, announced.deviceId);
  }

  /** Clock readings of a node that hears one announcement. */
  datatype Readings = Readings(seen: UInt64, sweep: UInt64, reply: UInt64)

  /**
   Two nodes meet. One has just broadcast; the other hears it and, not having listed it,
   answers at once; the answer is heard. Each then offers the other.
   */
  method Acquaint(a: DiscoveryService, b: DiscoveryService, atA: string, atB: string, textA: string, textB: string,
                  atHear: Readings, atAnswer: Readings)
    returns (ghost i: nat)
    requires a != b && a.Valid() && a.hasServer && b.Valid() && b.hasServer
    requires LastText(a.sent, textA) && textA == EncodePeer(a.selfPeer) && textB == EncodePeer(b.selfPeer)
    requires a.selfPeer.state == Idle && b.selfPeer.state == Idle
    requires a.selfPeer.deviceId != b.selfPeer.deviceId && atA != SELF_IP && atB != SELF_IP
    requires !Lists(b.entries, a.selfPeer.deviceId)
    requires atHear.seen <= atHear.sweep <= atHear.seen + 15000
    requires atAnswer.seen <= atAnswer.sweep <= atAnswer.seen + 15000
    modifies a, b
    ensures LastText(b.sent, textB)
    ensures i < |a.available| && a.available[i].ip == atB && !a.available[i].busy && C.Lists(b.available, atA)
  {
    var j := Hear(b, a.selfPeer, atA, textA, atHear.seen, atHear.sweep, atHear.reply);
    assert b.available[j] in b.available;
    i := Hear(a, b.selfPeer, atB, textB, atAnswer.seen, atAnswer.sweep, atAnswer.reply);
  }

  /**
   After that, from any session of each node that has these lists, a click of the first on
   what it is offered makes the second its receiver.
   */
  method Meet(a: DiscoveryService, b: DiscoveryService, atA: string, atB: string, textA: string, textB: string,
              atHear: Readings, atAnswer: Readings, ghost sa: C.Session, ghost sb: C.Session)
    returns (ghost i: nat)
    requires a != b && a.Valid() && a.hasServer && b.Valid() && b.hasServer
    requires LastText(a.sent, textA) && textA == EncodePeer(a.selfPeer) && textB == EncodePeer(b.selfPeer)
    requires a.selfPeer.state == Idle && b.selfPeer.state == Idle
    requires a.selfPeer.deviceId != b.selfPeer.deviceId && atA != SELF_IP && atB != SELF_IP
    requires !Lists(b.entries, a.selfPeer.deviceId)
    requires atHear.seen <= atHear.sweep <= atHear.seen + 15000
    requires atAnswer.seen <= atAnswer.sweep <= atAnswer.seen + 15000
    requires C.Inv(sa) && !sa.ended && sa.scene == C.Home
    requires C.Inv(sb) && !sb.ended && sb.link.pin.None?
    modifies a, b
    ensures LastText(b.sent, textB) && i < |a.available|
    ensures var s, t := C.Step(sa, C.Devices(a.available)), C.Step(sb, C.Devices(b.available));
            var s' := C.Step(s, C.Click(i));
            && s'.link.pin == Some(atB) && |s'.link.outbox| > 0
            && var t' := C.Step(C.Step(t, C.Arrive(atA, s'.link.outbox[|s'.link.outbox| - 1].text)), C.Draw);
            C.ReceivingFrom(t', atA) && !t'.ended
  {
    i := Acquaint(a, b, atA, atB, textA, textB, atHear, atAnswer);
    Connect(sa, sb, a.available, b.available, i, atA);
  }

  lemma Connect(sa: C.Session, sb: C.Session, listA: seq<Candidate>, listB: seq<Candidate>, i: nat, at: string)
    requires C.Inv(sa) && !sa.ended && sa.scene == C.Home && C.Inv(sb) && !sb.ended && sb.link.pin.None?
    requires i < |listA| && !listA[i].busy && C.Lists(listB, at)
    ensures var s, t := C.Step(sa, C.Devices(listA)), C.Step(sb, C.Devices(listB));
            var s' := C.Step(s, C.Click(i));
            && s'.link.pin == Some(listA[i].ip) && |s'.link.outbox| > 0
            && var t' := C.Step(C.Step(t, C.Arrive(at, s'.link.outbox[|s'.link.outbox| - 1].text)), C.Draw);
            C.ReceivingFrom(t', at) && !t'.ended
  {
    C.StepKeepsInv(sa, C.Devices(listA));
    C.StepKeepsInv(sb, C.Devices(listB));
    C.Handshake(C.Step(sa, C.Devices(listA)), i, C.Step(sb, C.Devices(listB)), at);
  }
}
