/** The announcement a node broadcasts about itself, and its JSON text. */
module DiscoveryPeers {
  import opened Prelude
  import opened Json
  import opened InputEvents

  datatype PeerState = Idle | Busy | Gone

  datatype Peer = Peer(deviceId: string, deviceName: string, ip: string, platform: string, state: PeerState)

  function StateNumber(s: PeerState): int {
    match s case Idle => 0 case Busy => 1 case Gone => 2
  }

  function PeerMembers(p: Peer): seq<Member> {
    [ Member("device_id", Str(p.deviceId)), Member("device_name", Str(p.deviceName)),
      Member("ip_address", Str(p.ip)), Member("platform", Str(p.platform)),
      Member("state", Int(StateNumber(p.state))) ]
  }

  function EncodePeer(p: Peer): string {
    Dump(Obj(PeerMembers(p)))
  }

  /** Only an integer of 64 bits is accepted as a state, and an unknown one counts as idle. */
  function StateOf(members: seq<Member>): PeerState {
    match Lookup(members, "state")
    case Some(Int(n)) =>
      if !(-TWO_TO_THE_63 <= n < TWO_TO_THE_64) then Idle
      else
        var sv := Narrow32(n);
        if sv == 1 then Busy else if sv == 2 then Gone else Idle
    case _ => Idle
  }

  function DecodePeer(s: string): Result<Peer, DecodeError> {
    match Parse(s)
    case Some(Obj(members)) =>
      var deviceId :- StringField(members, "device_id");
      var deviceName :- StringField(members, "device_name");
      var ip :- StringField(members, "ip_address");
      var platform :- StringField(members, "platform");
      Success(Peer(deviceId, deviceName, ip, platform, StateOf(members)))
    case _ => Success(Peer("", "", "", "", Idle))
  }

  /** Every announcement is decoded to exactly what was announced. */
  lemma PeerRoundTrip(p: Peer)
    ensures DecodePeer(EncodePeer(p)) == Success(p)
  {
    var ms := PeerMembers(p);
    ParseDump(Obj(ms));
    var m0: seq<Member> := [];
    var m1, m2, m3, m4 := m0 + [ms[0]], m0 + [ms[0]] + [ms[1]], ms[..3], ms[..4];
    assert m3 == m2 + [ms[2]] && m4 == m3 + [ms[3]] && ms == m4 + [ms[4]];
    forall key: string
      ensures Lookup(ms, key) ==
              if key == "state" then Some(ms[4].value) else if key == "platform" then Some(ms[3].value)
              else if key == "ip_address" then Some(ms[2].value) else if key == "device_name" then Some(ms[1].value)
              else if key == "device_id" then Some(ms[0].value) else None
    {
      LookupPrefix(m0, ms[0], key);
      LookupPrefix(m1, ms[1], key);
      LookupPrefix(m2, ms[2], key);
      LookupPrefix(m3, ms[3], key);
      LookupPrefix(m4, ms[4], key);
    }
    assert |"device_id"| == 9 && |"device_name"| == 11 && |"ip_address"| == 10 && |"platform"| == 8;
  }

  /** A 64-bit integer is read modulo 2^32, so exactly those congruent to 2 announce a departure; no other value does. */
  lemma StateSanitised(members: seq<Member>)
    ensures StateOf(members) != Idle <==>
            && Lookup(members, "state").Some? && Lookup(members, "state").value.Int?
            && var n := Lookup(members, "state").value.n;
               -TWO_TO_THE_63 <= n < TWO_TO_THE_64 && n % TWO_TO_THE_32 in {1, 2}
    ensures StateOf(members) == Gone ==> Lookup(members, "state").value.n % TWO_TO_THE_32 == 2
    ensures StateOf(members) == Busy ==> Lookup(members, "state").value.n % TWO_TO_THE_32 == 1
  {
  }

  /** Every field of an announcement is found under its name. */
  lemma PeerFields(p: Peer)
    ensures var ms := PeerMembers(p);
            && Lookup(ms, "device_id") == Some(Str(p.deviceId)) && Lookup(ms, "device_name") == Some(Str(p.deviceName))
            && Lookup(ms, "ip_address") == Some(Str(p.ip)) && Lookup(ms, "platform") == Some(Str(p.platform))
            && Lookup(ms, "state") == Some(Int(if p.state == Idle then 0 else if p.state == Busy then 1 else 2))
  {
    var ms := PeerMembers(p);
    var m0: seq<Member> := [];
    var m1, m2, m3, m4 := m0 + [ms[0]], m0 + [ms[0]] + [ms[1]], ms[..3], ms[..4];
    assert m3 == m2 + [ms[2]] && m4 == m3 + [ms[3]] && ms == m4 + [ms[4]];
    assert |"device_id"| == 9 && |"device_name"| == 11 && |"ip_address"| == 10 && |"platform"| == 8 && |"state"| == 5;
    forall key: string | |key| > 4
      ensures Lookup(ms, key) ==
              if key == "state" then Some(ms[4].value) else if key == "platform" then Some(ms[3].value)
              else if key == "ip_address" then Some(ms[2].value) else if key == "device_name" then Some(ms[1].value)
              else if key == "device_id" then Some(ms[0].value) else None
    {
      LookupPrefix(m0, ms[0], key);
      LookupPrefix(m1, ms[1], key);
      LookupPrefix(m2, ms[2], key);
      LookupPrefix(m3, ms[3], key);
      LookupPrefix(m4, ms[4], key);
    }
  }

  /** A text that is not an object decodes to a nameless idle peer. */
  lemma NotAPeer(text: string)
    requires Parse(text).None? || !Parse(text).value.Obj?
    ensures DecodePeer(text) == Success(Peer("", "", "", "", Idle))
  {
  }

  predicate ReadableText(members: seq<Member>, key: string) {
    var v := Lookup(members, key);
    v.None? || v.value.Str?
  }

  /** An object decodes exactly when its four texts are texts or absent, absent ones as empty. */
  lemma DecodedPeer(text: string, members: seq<Member>)
    requires Parse(text) == Some(Obj(members))
    ensures DecodePeer(text).Success? <==>
            && ReadableText(members, "device_id") && ReadableText(members, "device_name")
            && ReadableText(members, "ip_address") && ReadableText(members, "platform")
    ensures DecodePeer(text).Success? ==>
              DecodePeer(text).value ==
              Peer(StringOrEmpty(members, "device_id"), StringOrEmpty(members, "device_name"),
                   StringOrEmpty(members, "ip_address"), StringOrEmpty(members, "platform"), StateOf(members))
  {
  }
}
