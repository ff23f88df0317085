/**
 The publish/subscribe utility. Callbacks are known by a label; an empty function
 object is None. What a callback does to the emitter while it runs is an argument.
 */
module EventEmitter {
  import opened Prelude

  type Callback = Option<nat>

  datatype Entry = Entry(id: nat, callback: Callback)

  datatype Call = Subscribe(callback: Callback) | Unsubscribe(id: nat) | Clear

  datatype Registry = Registry(entries: seq<Entry>, nextId: nat)

  /** Drops the first entry with an id. */
  function Without(entries: seq<Entry>, id: nat): seq<Entry> {
    if |entries| == 0 then []
    else if entries[0].id == id then entries[1..]
    else [entries[0]] + Without(entries[1..], id)
  }

  function Apply(r: Registry, c: Call): Registry {
    match c
    case Subscribe(callback) => Registry(r.entries + [Entry(r.nextId + 1, callback)], r.nextId + 1)
    case Unsubscribe(id) => Registry(Without(r.entries, id), r.nextId)
    case Clear => Registry([], r.nextId)
  }

  function Replay(r: Registry, calls: seq<Call>): Registry {
    if |calls| == 0 then r else Apply(Replay(r, calls[..|calls| - 1]), calls[|calls| - 1])
  }

  lemma ReplayAppend(r: Registry, calls: seq<Call>, c: Call)
    ensures Replay(r, calls + [c]) == Apply(Replay(r, calls), c)
  {
    assert (calls + [c])[..|calls|] == calls;
  }

  // ---------- Who is subscribed, read off the history ----------

  function IdAfter(calls: seq<Call>): nat {
    if |calls| == 0 then 0
    else IdAfter(calls[..|calls| - 1]) + if calls[|calls| - 1].Subscribe? then 1 else 0
  }

  predicate Drops(c: Call, id: nat) {
    c == Clear || c == Unsubscribe(id)
  }

  /** The subscription made by the k-th call has not been cancelled since. */
  predicate StillSubscribed(calls: seq<Call>, k: nat)
    requires k < |calls|
  {
    && calls[k].Subscribe?
    && forall j :: k < j < |calls| ==> !Drops(calls[j], IdAfter(calls[..k + 1]))
  }

  /** The live subscriptions among the first n calls of a history, in the order they were made. */
  function Live(calls: seq<Call>, n: nat): seq<Entry>
    requires n <= |calls|
  {
    if n == 0 then []
    else
      Live(calls, n - 1) + LastLive(calls, n)
  }

  /** The n-th call's subscription, if it is live. */
  function LastLive(calls: seq<Call>, n: nat): seq<Entry>
    requires 0 < n <= |calls|
  {
    if StillSubscribed(calls, n - 1) then [Entry(IdAfter(calls[..n]), calls[n - 1].callback)] else []
  }

  function Kept(entries: seq<Entry>, c: Call): seq<Entry> {
    if |entries| == 0 then []
    else (if Drops(c, entries[0].id) then [] else [entries[0]]) + Kept(entries[1..], c)
  }

  lemma {:induction false} KeptAppend(entries: seq<Entry>, e: Entry, c: Call)
    ensures Kept(entries + [e], c) == Kept(entries, c) + if Drops(c, e.id) then [] else [e]
    decreases |entries|
  {
    var longer := entries + [e];
    if |entries| == 0 {
      assert longer == [e] && longer[1..] == [];
    } else {
      KeptAppend(entries[1..], e, c);
      assert longer[0] == entries[0] && longer[1..] == entries[1..] + [e];
    }
  }

  lemma StillGrows(calls: seq<Call>, k: nat, c: Call)
    requires k < |calls|
    ensures StillSubscribed(calls + [c], k) <==>
            StillSubscribed(calls, k) && !Drops(c, IdAfter(calls[..k + 1]))
  {
    var longer := calls + [c];
    assert longer[..k + 1] == calls[..k + 1] && longer[|calls|] == c;
    assert forall j :: 0 <= j < |calls| ==> longer[j] == calls[j];
  }

  lemma KeptMaybe(entries: seq<Entry>, added: seq<Entry>, c: Call)
    requires |added| <= 1
    ensures Kept(entries + added, c) ==
            Kept(entries, c) + if |added| == 1 && !Drops(c, added[0].id) then added else []
  {
    if |added| == 1 {
      assert added == [added[0]];
      KeptAppend(entries, added[0], c);
    } else {
      assert entries + added == entries;
    }
  }

  lemma LastLiveLonger(calls: seq<Call>, n: nat, c: Call)
    requires 0 < n <= |calls|
    ensures LastLive(calls + [c], n) ==
            if |LastLive(calls, n)| == 1 && !Drops(c, LastLive(calls, n)[0].id) then LastLive(calls, n) else []
  {
    assert (calls + [c])[..n] == calls[..n] && (calls + [c])[n - 1] == calls[n - 1];
    StillGrows(calls, n - 1, c);
  }

  /** One more call keeps the live subscriptions it does not cancel. */
  lemma {:induction false} LiveGrows(calls: seq<Call>, n: nat, c: Call)
    requires n <= |calls|
    ensures Live(calls + [c], n) == Kept(Live(calls, n), c)
  {
    if n > 0 {
      LiveGrows(calls, n - 1, c);
      LastLiveLonger(calls, n, c);
      KeptMaybe(Live(calls, n - 1), LastLive(calls, n), c);
    }
  }

  /** Ids above `low`, increasing, none beyond `top`. */
  predicate Increasing(entries: seq<Entry>, low: nat, top: nat)
    decreases |entries|
  {
    |entries| == 0 || (low < entries[0].id <= top && Increasing(entries[1..], entries[0].id, top))
  }

  lemma {:induction false} IncreasingAppend(entries: seq<Entry>, low: nat, top: nat, e: Entry)
    requires Increasing(entries, low, top) && low <= top && e.id == top + 1
    ensures Increasing(entries + [e], low, top + 1)
    decreases |entries|
  {
    var longer := entries + [e];
    if |entries| == 0 {
      assert longer[1..] == [];
    } else {
      IncreasingAppend(entries[1..], entries[0].id, top, e);
      assert longer[1..] == entries[1..] + [e];
    }
  }

  lemma {:induction false} IncreasingFromLower(entries: seq<Entry>, low: nat, lower: nat, top: nat)
    requires Increasing(entries, low, top) && lower <= low
    ensures Increasing(entries, lower, top)
  {
  }

  /** Increasing ids are distinct. */
  lemma {:induction false} IncreasingIsDistinct(entries: seq<Entry>, low: nat, top: nat, i: nat, j: nat)
    requires Increasing(entries, low, top) && i < j < |entries|
    ensures low < entries[i].id < entries[j].id <= top
    decreases |entries|
  {
    var tail, first := entries[1..], entries[0].id;
    assert entries[j] == tail[j - 1];
    if i == 0 {
      IncreasingBound(tail, first, top, j - 1);
    } else {
      assert entries[i] == tail[i - 1];
      IncreasingIsDistinct(tail, first, top, i - 1, j - 1);
    }
  }

  lemma {:induction false} IncreasingBound(entries: seq<Entry>, low: nat, top: nat, i: nat)
    requires Increasing(entries, low, top) && i < |entries|
    ensures low < entries[i].id <= top
    decreases |entries|
  {
    if i > 0 {
      IncreasingBound(entries[1..], entries[0].id, top, i - 1);
    }
  }

  /** A subscription cancels nothing, clearing everything, and a cancelled id that is not there nothing. */
  lemma {:induction false} KeptBySubscribe(entries: seq<Entry>, c: Call)
    requires c.Subscribe?
    ensures Kept(entries, c) == entries
    decreases |entries|
  {
    if |entries| > 0 {
      KeptBySubscribe(entries[1..], c);
    }
  }

  lemma {:induction false} KeptByClear(entries: seq<Entry>)
    ensures Kept(entries, Clear) == []
    decreases |entries|
  {
    if |entries| > 0 {
      KeptByClear(entries[1..]);
    }
  }

  lemma {:induction false} KeptAbove(entries: seq<Entry>, low: nat, top: nat, id: nat)
    requires Increasing(entries, low, top) && id <= low
    ensures Kept(entries, Unsubscribe(id)) == entries
    decreases |entries|
  {
    if |entries| > 0 {
      KeptAbove(entries[1..], entries[0].id, top, id);
    }
  }

  /** With distinct ids, dropping the first match drops all matches. */
  lemma {:induction false} WithoutIsKept(entries: seq<Entry>, low: nat, top: nat, id: nat)
    requires Increasing(entries, low, top)
    ensures Without(entries, id) == Kept(entries, Unsubscribe(id))
    decreases |entries|
  {
    if |entries| > 0 {
      if entries[0].id == id {
        KeptAbove(entries[1..], entries[0].id, top, id);
      } else {
        WithoutIsKept(entries[1..], entries[0].id, top, id);
      }
    }
  }

  lemma {:induction false} WithoutIncreasing(entries: seq<Entry>, low: nat, top: nat, id: nat)
    requires Increasing(entries, low, top)
    ensures Increasing(Without(entries, id), low, top)
    decreases |entries|
  {
    if |entries| > 0 {
      if entries[0].id == id {
        IncreasingFromLower(entries[1..], id, low, top);
      } else {
        WithoutIncreasing(entries[1..], entries[0].id, top, id);
        assert Without(entries, id)[1..] == Without(entries[1..], id);
      }
    }
  }

  predicate Registered(r: Registry) {
    Increasing(r.entries, 0, r.nextId)
  }

  lemma ApplyKeepsRegistered(r: Registry, c: Call)
    requires Registered(r)
    ensures Registered(Apply(r, c))
  {
    match c
    case Subscribe(callback) => IncreasingAppend(r.entries, 0, r.nextId, Entry(r.nextId + 1, callback));
    case Unsubscribe(id) => WithoutIncreasing(r.entries, 0, r.nextId, id);
    case Clear =>
  }

  /** One call, on distinct ids: keep what it does not cancel, add what it subscribes. */
  lemma ApplyIsKept(r: Registry, c: Call)
    requires Registered(r)
    ensures Apply(r, c).entries ==
            Kept(r.entries, c) + Added(r.nextId, c)
  {
    match c
    case Subscribe(_) => KeptBySubscribe(r.entries, c);
    case Unsubscribe(id) => WithoutIsKept(r.entries, 0, r.nextId, id);
    case Clear => KeptByClear(r.entries);
  }

  function Added(lastId: nat, c: Call): seq<Entry> {
    if c.Subscribe? then [Entry(lastId + 1, c.callback)] else []
  }

  lemma LastCallLive(calls: seq<Call>, c: Call, longer: seq<Call>)
    requires longer == calls + [c]
    ensures LastLive(longer, |longer|) == Added(IdAfter(calls), c)
  {
    assert longer[..|longer|] == longer && longer[..|longer| - 1] == calls && longer[|calls|] == c;
  }

  lemma LiveStep(calls: seq<Call>, c: Call, longer: seq<Call>)
    requires longer == calls + [c]
    ensures Live(longer, |longer|) == Kept(Live(calls, |calls|), c) + Added(IdAfter(calls), c)
  {
    LiveGrows(calls, |calls|, c);
    LastCallLive(calls, c, longer);
  }

  lemma {:induction false} IdsIncrease(start: Registry, calls: seq<Call>)
    requires |start.entries| == 0 && start.nextId == 0
    ensures var r := Replay(start, calls); r.nextId == IdAfter(calls) && Registered(r)
    decreases |calls|
  {
    if |calls| > 0 {
      IdsIncrease(start, calls[..|calls| - 1]);
      ApplyKeepsRegistered(Replay(start, calls[..|calls| - 1]), calls[|calls| - 1]);
    }
  }

  lemma LiveNext(r: Registry, live: seq<Entry>, init: seq<Call>, c: Call, calls: seq<Call>)
    requires calls == init + [c] && live == Live(init, |init|)
    requires r.entries == live && r.nextId == IdAfter(init) && Registered(r)
    ensures Apply(r, c).entries == Live(calls, |calls|)
  {
    ApplyIsKept(r, c);
    LiveStep(init, c, calls);
  }

  lemma {:induction false} EntriesAreLive(start: Registry, calls: seq<Call>)
    requires |start.entries| == 0 && start.nextId == 0
    ensures Replay(start, calls).entries == Live(calls, |calls|)
    decreases |calls|
  {
    if |calls| > 0 {
      var init, c := calls[..|calls| - 1], calls[|calls| - 1];
      EntriesAreLive(start, init);
      IdsIncrease(start, init);
      assert calls == init + [c];
      LiveNext(Replay(start, init), Live(init, |init|), init, c, calls);
    }
  }

  /**
   After any calls, the subscribers are exactly the subscriptions not cancelled since,
   in the order they were made, and their ids are distinct and increasing.
   */
  lemma SubscribersAreLive(start: Registry, calls: seq<Call>)
    requires |start.entries| == 0 && start.nextId == 0
    ensures var r := Replay(start, calls);
            r.entries == Live(calls, |calls|) && Registered(r)
  {
    EntriesAreLive(start, calls);
    IdsIncrease(start, calls);
  }

  ghost predicate Gone(entries: seq<Entry>, id: nat) {
    forall e :: e in entries ==> e.id != id
  }

  lemma {:induction false} WithoutSubset(entries: seq<Entry>, id: nat)
    ensures forall e :: e in Without(entries, id) ==> e in entries
    decreases |entries|
  {
    if |entries| > 0 && entries[0].id != id {
      WithoutSubset(entries[1..], id);
    }
  }

  lemma {:induction false} WithoutGone(entries: seq<Entry>, low: nat, top: nat, id: nat)
    requires Increasing(entries, low, top)
    ensures Gone(Without(entries, id), id)
    decreases |entries|
  {
    if |entries| > 0 {
      if entries[0].id == id {
        forall k | 0 <= k < |entries[1..]| ensures entries[1..][k].id > id {
          IncreasingBound(entries[1..], id, top, k);
        }
      } else {
        WithoutGone(entries[1..], entries[0].id, top, id);
      }
    }
  }

  /** Nothing brings an id back that was handed out before. */
  lemma ApplyKeepsGone(r: Registry, c: Call, id: nat)
    requires Gone(r.entries, id) && id <= r.nextId
    ensures Gone(Apply(r, c).entries, id)
  {
    if c.Unsubscribe? {
      WithoutSubset(r.entries, c.id);
    }
  }

  /** An id once cancelled stays cancelled: it is never handed out again. */
  lemma {:induction false} CancelledForGood(start: Registry, before: seq<Call>, id: nat, after: seq<Call>)
    requires |start.entries| == 0 && start.nextId == 0
    requires id <= IdAfter(before)
    ensures Gone(Replay(start, before + [Unsubscribe(id)] + after).entries, id)
    decreases |after|
  {
    var first := before + [Unsubscribe(id)];
    if |after| == 0 {
      assert first + after == first;
      ReplayAppend(start, before, Unsubscribe(id));
      IdsIncrease(start, before);
      WithoutGone(Replay(start, before).entries, 0, Replay(start, before).nextId, id);
    } else {
      var init, c := after[..|after| - 1], after[|after| - 1];
      CancelledForGood(start, before, id, init);
      assert first + after == (first + init) + [c];
      ReplayAppend(start, first + init, c);
      IdsIncrease(start, first + init);
      IdsGrow(before, [Unsubscribe(id)] + init);
      assert before + ([Unsubscribe(id)] + init) == first + init;
      ApplyKeepsGone(Replay(start, first + init), c, id);
    }
  }

  lemma {:induction false} IdsGrow(a: seq<Call>, b: seq<Call>)
    ensures IdAfter(a) <= IdAfter(a + b)
    decreases |b|
  {
    if |b| == 0 {
      assert a + b == a;
    } else {
      IdsGrow(a, b[..|b| - 1]);
      assert (a + b)[..|a + b| - 1] == a + b[..|b| - 1];
    }
  }

  // ---------- The emitter ----------

  /** The callbacks an emission invokes: those of a snapshot that are not empty, in order. */
  function Invoked(entries: seq<Entry>): seq<nat> {
    if |entries| == 0 then []
    else
      var last := entries[|entries| - 1].callback;
      Invoked(entries[..|entries| - 1]) + if last.Some? then [last.value] else []
  }

  class Emitter {
    var subscribers: seq<Entry>
    var nextId: nat

    ghost function View(): Registry
      reads this
    {
      Registry(subscribers, nextId)
    }

    constructor ()
      ensures subscribers == [] && nextId == 0
    {
      subscribers, nextId := [], 0;
    }

    method Subscribe(callback: Callback) returns (id: nat)
      modifies this
      ensures View() == Apply(old(View()), Call.Subscribe(callback)) && id == nextId
    {
      nextId := nextId + 1;
      id := nextId;
      subscribers := subscribers + [Entry(id, callback)];
    }

    method Unsubscribe(id: nat)
      modifies this
      ensures View() == Apply(old(View()), Call.Unsubscribe(id))
    {
      var i := 0;
      while i < |subscribers|
        invariant 0 <= i <= |subscribers| && subscribers == old(subscribers) && nextId == old(nextId)
        invariant Without(subscribers, id) == subscribers[..i] + Without(subscribers[i..], id)
      {
        assert subscribers[i..][0] == subscribers[i] && subscribers[i..][1..] == subscribers[i + 1..];
        if subscribers[i].id == id {
          subscribers := subscribers[..i] + subscribers[i + 1..];
          return;
        }
        i := i + 1;
      }
    }

    method ClearSubscribers()
      modifies this
      ensures View() == Apply(old(View()), Clear)
    {
      subscribers := [];
    }

    /** What one callback does to the emitter while it runs. */
    method Perform(calls: seq<Call>)
      modifies this
      ensures View() == Replay(old(View()), calls)
    {
      for i := 0 to |calls|
        invariant View() == Replay(old(View()), calls[..i])
      {
        match calls[i] {
          case Subscribe(callback) => var _ := Subscribe(callback);
          case Unsubscribe(id) => Unsubscribe(id);
          case Clear => ClearSubscribers();
        }
        assert calls[..i + 1] == calls[..i] + [calls[i]];
        ReplayAppend(old(View()), calls[..i], calls[i]);
      }
      assert calls[..|calls|] == calls;
    }

    /**
     Invokes the snapshot. The effects are those of the k-th callback invoked; whatever
     they subscribe or cancel, this emission calls exactly who was subscribed when it began.
     */
    method Emit(effects: seq<seq<Call>>) returns (invoked: seq<nat>)
      requires |effects| == |Invoked(subscribers)|
      modifies this
      ensures invoked == Invoked(old(subscribers))
      ensures View() == ReplayAll(old(View()), effects)
    {
      invoked := [];
      var snapshot := [];
      for i := 0 to |subscribers|
        invariant |snapshot| == i
        invariant forall k :: 0 <= k < i ==> snapshot[k] == subscribers[k].callback
      {
        snapshot := snapshot + [subscribers[i].callback];
      }
      ghost var entries := subscribers;
      assert entries[..|entries|] == entries;
      for i := 0 to |snapshot|
        invariant |snapshot| == |entries| && forall k :: 0 <= k < i ==> snapshot[k] == entries[k].callback
        invariant invoked == Invoked(entries[..i]) && |invoked| <= |effects|
        invariant View() == ReplayAll(old(View()), effects[..|invoked|])
      {
        InvokedPrefix(entries, i);
        if snapshot[i].Some? {
          assert effects[..|invoked| + 1][..|invoked|] == effects[..|invoked|];
          Perform(effects[|invoked|]);
          invoked := invoked + [snapshot[i].value];
        }
      }
      assert effects[..|effects|] == effects;
    }
  }

  function ReplayAll(r: Registry, effects: seq<seq<Call>>): Registry {
    if |effects| == 0 then r else Replay(ReplayAll(r, effects[..|effects| - 1]), effects[|effects| - 1])
  }

  lemma InvokedPrefix(entries: seq<Entry>, i: nat)
    requires i < |entries|
    ensures Invoked(entries[..i + 1]) ==
            Invoked(entries[..i]) + if entries[i].callback.Some? then [entries[i].callback.value] else []
    ensures |Invoked(entries[..i + 1])| <= |Invoked(entries)|
  {
    assert entries[..i + 1][..i] == entries[..i];
    InvokedShorter(entries, i + 1);
  }

  lemma {:induction false} InvokedShorter(entries: seq<Entry>, i: nat)
    requires i <= |entries|
    ensures |Invoked(entries[..i])| <= |Invoked(entries)|
    decreases |entries| - i
  {
    if i == |entries| {
      assert entries[..i] == entries;
    } else {
      assert entries[..i + 1][..i] == entries[..i];
      InvokedShorter(entries, i + 1);
    }
  }

  /** An emission goes through the subscribers one by one, and skips the empty ones. */
  lemma InvokedOneByOne(entries: seq<Entry>, e: Entry)
    ensures Invoked([]) == []
    ensures Invoked(entries + [e]) == Invoked(entries) + if e.callback == None then [] else [e.callback.value]
  {
    assert (entries + [e])[..|entries|] == entries;
  }
}
