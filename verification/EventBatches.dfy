/** A batch of events as a JSON list, with the rule for the legacy `delta` field. */
module EventBatches {
  import opened Prelude
  import opened Json
  import opened InputEvents

  // ---------- Specification ----------

  function EventValue(e: InputEvent): Value {
    Obj(EventMembers(e))
  }

  function EventValues(events: seq<InputEvent>): seq<Value> {
    seq(|events|, i requires 0 <= i < |events| => EventValue(events[i]))
  }

  function BatchValue(events: seq<InputEvent>): Value {
    Obj([Member("events", Arr(EventValues(events)))])
  }

  /** An entry's event; a scroll without vertical motion takes it from `delta`. */
  function EntryEvent(members: seq<Member>): Result<InputEvent, DecodeError> {
    var e :- EventOfMembers(members);
    if e.action == ACTION_SCROLL && e.dy == 0 then
      var dy :- IntField(members, "delta");
      Success(e.(dy := dy))
    else Success(e)
  }

  /** The events of a list of entries: what is not an object is skipped. */
  function EntryEvents(items: seq<Value>): Result<seq<InputEvent>, DecodeError> {
    if items == [] then Success([])
    else
      var last := items[|items| - 1];
      var init :- EntryEvents(items[..|items| - 1]);
      if !last.Obj? then Success(init)
      else
        var e :- EntryEvent(last.members);
        Success(init + [e])
  }

  function DecodedBatch(s: string): Result<seq<InputEvent>, DecodeError> {
    match Parse(s)
    case Some(Obj(members)) => (
      match Lookup(members, "events")
      case Some(Arr(items)) => EntryEvents(items)
      case _ => Success([])
    )
    case _ => Success([])
  }

  // ---------- The two operations ----------

  method Encode(events: seq<InputEvent>) returns (text: string)
    ensures text == Dump(BatchValue(events))
  {
    var items: seq<Value> := [];
    for i := 0 to |events|
      invariant items == EventValues(events)[..i]
    {
      items := items + [EventValue(events[i])];
    }
    assert items == EventValues(events);
    text := Dump(Obj([Member("events", Arr(items))]));
  }

  /** Fails at the first entry whose fields have the wrong type, as the library throws there. */
  method Decode(text: string) returns (r: Result<seq<InputEvent>, DecodeError>)
    ensures r == DecodedBatch(text)
  {
    var j := Parse(text);
    if j.None? || !j.value.Obj? {
      return Success([]);
    }
    var it := Lookup(j.value.members, "events");
    if it.None? || !it.value.Arr? {
      return Success([]);
    }
    var items := it.value.items;
    var events: seq<InputEvent> := [];
    for i := 0 to |items|
      invariant EntryEvents(items[..i]) == Success(events)
    {
      assert items[..i + 1][..i] == items[..i];
      if items[i].Obj? {
        var members := items[i].members;
        var entry := EventOfMembers(members);
        if entry.Failure? {
          EntryFailureSpreads(items, i + 1);
          return Failure(entry.error);
        }
        var e := entry.value;
        if e.action == ACTION_SCROLL && e.dy == 0 {
          var delta := IntField(members, "delta");
          if delta.Failure? {
            EntryFailureSpreads(items, i + 1);
            return Failure(delta.error);
          }
          e := e.(dy := delta.value);
        }
        events := events + [e];
      }
    }
    assert items[..|items|] == items;
    r := Success(events);
  }

  lemma {:induction false} EntryFailureSpreads(items: seq<Value>, i: nat)
    requires i <= |items| && EntryEvents(items[..i]).Failure?
    ensures EntryEvents(items) == Failure(EntryEvents(items[..i]).error)
    decreases |items|
  {
    if i == |items| {
      assert items[..i] == items;
    } else {
      var init := items[..|items| - 1];
      assert init[..i] == items[..i];
      EntryFailureSpreads(init, i);
    }
  }

  // ---------- Round trip and normalisation ----------

  lemma EntryRoundTrip(e: InputEvent)
    ensures EntryEvent(EventMembers(e)) == Success(e)
  {
    EventOfEventMembers(e);
    EventFields(e);
  }

  lemma {:induction false} EntriesRoundTrip(events: seq<InputEvent>)
    ensures EntryEvents(EventValues(events)) == Success(events)
  {
    if events != [] {
      var n := |events| - 1;
      EntriesRoundTrip(events[..n]);
      EntryRoundTrip(events[n]);
      assert EventValues(events)[..n] == EventValues(events[..n]);
      assert events == events[..n] + [events[n]];
    }
  }

  /** Batches of any length survive encoding, horizontal-only scrolls included. */
  lemma BatchRoundTrip(events: seq<InputEvent>)
    ensures DecodedBatch(Dump(BatchValue(events))) == Success(events)
  {
    ParseDump(BatchValue(events));
    LookupPrefix([], Member("events", Arr(EventValues(events))), "events");
    assert [] + [Member("events", Arr(EventValues(events)))] == [Member("events", Arr(EventValues(events)))];
    EntriesRoundTrip(events);
  }

  /** The legacy rule and integer narrowing act once: what was decoded is stable from then on. */
  lemma DecodeNormalises(text: string)
    requires DecodedBatch(text).Success?
    ensures DecodedBatch(Dump(BatchValue(DecodedBatch(text).value))) == DecodedBatch(text)
  {
    BatchRoundTrip(DecodedBatch(text).value);
  }

  /** When `delta` matters: exactly for a scroll whose `dy`, after narrowing, is zero. */
  lemma LegacyDelta(members: seq<Member>)
    requires EventOfMembers(members).Success? && IntField(members, "delta").Success?
    ensures EntryEvent(members).Success?
    ensures EntryEvent(members).value != EventOfMembers(members).value <==>
            && IntField(members, "action").value % TWO_TO_THE_8 == ACTION_SCROLL
            && IntField(members, "dy").value == 0
            && IntField(members, "delta").value != 0
    ensures EntryEvent(members).value != EventOfMembers(members).value ==>
              EntryEvent(members).value == EventOfMembers(members).value.(dy := IntField(members, "delta").value)
  {
    var e := EventOfMembers(members).value;
    assert e.action == IntField(members, "action").value % TWO_TO_THE_8 && e.dy == IntField(members, "dy").value;
  }

  /** The entries that are objects, in order. */
  function Objects(items: seq<Value>): seq<Value> {
    if |items| == 0 then []
    else Objects(items[..|items| - 1]) + if items[|items| - 1].Obj? then [items[|items| - 1]] else []
  }

  /** Entries that are not objects make no difference. */
  lemma {:induction false} NonObjectsSkipped(items: seq<Value>)
    ensures EntryEvents(items) == EntryEvents(Objects(items))
    decreases |items|
  {
    if |items| > 0 {
      var init, last := items[..|items| - 1], items[|items| - 1];
      NonObjectsSkipped(init);
      if last.Obj? {
        assert (Objects(init) + [last])[..|Objects(init)|] == Objects(init);
      } else {
        assert Objects(items) == Objects(init);
      }
    }
  }

  /** Without an object that has a list under "events" the batch is empty. */
  lemma NoListNoEvents(text: string)
    ensures (Parse(text).Some? && Parse(text).value.Obj?
             && Lookup(Parse(text).value.members, "events").Some?
             && Lookup(Parse(text).value.members, "events").value.Arr?) ||
            DecodedBatch(text) == Success([])
  {
  }
}
