/** Coalescing of mouse motion: vectors, their sums, and the accumulator two threads share. */
module MoveAggregators {
  import opened Prelude

  datatype Vec = Vec(x: int, y: int)

  /** Both components are representable; a signed overflow would have no defined meaning. */
  predicate Fits(v: Vec) {
    FitsInt32(v.x) && FitsInt32(v.y)
  }

  predicate IsZero(v: Vec) {
    v.x == 0 && v.y == 0
  }

  function SumX(vs: seq<Vec>): int {
    if vs == [] then 0 else SumX(vs[..|vs| - 1]) + vs[|vs| - 1].x
  }

  function SumY(vs: seq<Vec>): int {
    if vs == [] then 0 else SumY(vs[..|vs| - 1]) + vs[|vs| - 1].y
  }

  /** v is the sum of vs. */
  predicate IsSum(v: Vec, vs: seq<Vec>) {
    v.x == SumX(vs) && v.y == SumY(vs)
  }

  function Sum(vs: seq<Vec>): (v: Vec)
    ensures IsSum(v, vs)
  {
    Vec(SumX(vs), SumY(vs))
  }

  lemma SumNone(vs: seq<Vec>)
    requires |vs| == 0
    ensures SumX(vs) == 0 == SumY(vs)
  {
  }

  lemma SumAppend(vs: seq<Vec>, v: Vec)
    ensures SumX(vs + [v]) == SumX(vs) + v.x && SumY(vs + [v]) == SumY(vs) + v.y
  {
    assert (vs + [v])[..|vs|] == vs;
  }

  lemma {:induction false} SumConcat(a: seq<Vec>, b: seq<Vec>)
    ensures SumX(a + b) == SumX(a) + SumX(b) && SumY(a + b) == SumY(a) + SumY(b)
  {
    if b == [] {
      assert a + b == a;
    } else {
      var init, last := b[..|b| - 1], b[|b| - 1];
      SumConcat(a, init);
      SumAppend(a + init, last);
      assert a + b == a + init + [last];
    }
  }

  // ---------- Segments ----------

  function Flatten(segments: seq<seq<Vec>>): seq<Vec> {
    if segments == [] then [] else Flatten(segments[..|segments| - 1]) + segments[|segments| - 1]
  }

  function NonZero(v: Vec): seq<Vec> {
    if IsZero(v) then [] else [v]
  }

  /** The sums of the segments in order, without those that cancel out. */
  function NonZeroSums(segments: seq<seq<Vec>>): seq<Vec> {
    if segments == [] then []
    else NonZeroSums(segments[..|segments| - 1]) + NonZero(Sum(segments[|segments| - 1]))
  }

  function NonZeroCount(vs: seq<Vec>): nat {
    if vs == [] then 0 else NonZeroCount(vs[..|vs| - 1]) + |NonZero(vs[|vs| - 1])|
  }

  lemma SegmentAppend(segments: seq<seq<Vec>>, last: seq<Vec>)
    ensures Flatten(segments + [last]) == Flatten(segments) + last
    ensures NonZeroSums(segments + [last]) == NonZeroSums(segments) + NonZero(Sum(last))
  {
    assert (segments + [last])[..|segments|] == segments;
  }

  lemma {:induction false} SegmentSums(segments: seq<seq<Vec>>)
    ensures IsSum(Sum(Flatten(segments)), NonZeroSums(segments))
  {
    if segments != [] {
      var init, last := segments[..|segments| - 1], segments[|segments| - 1];
      SegmentSums(init);
      SumConcat(Flatten(init), last);
      assert segments == init + [last];
      SegmentAppend(init, last);
      if IsZero(Sum(last)) {
        assert NonZeroSums(segments) == NonZeroSums(init);
      } else {
        SumAppend(NonZeroSums(init), Sum(last));
      }
    }
  }

  lemma {:induction false} CountConcat(a: seq<Vec>, b: seq<Vec>)
    ensures NonZeroCount(a + b) == NonZeroCount(a) + NonZeroCount(b)
  {
    if b == [] {
      assert a + b == a;
    } else {
      CountConcat(a, b[..|b| - 1]);
      assert (a + b)[..|a + b| - 1] == a + b[..|b| - 1];
    }
  }

  lemma {:induction false} ZeroPushesSumToZero(vs: seq<Vec>)
    requires NonZeroCount(vs) == 0
    ensures SumX(vs) == 0 == SumY(vs)
  {
    if vs != [] {
      var n := |vs| - 1;
      ZeroPushesSumToZero(vs[..n]);
      assert IsZero(vs[n]);
    }
  }

  lemma {:induction false} FewerSumsThanPushes(segments: seq<seq<Vec>>)
    ensures |NonZeroSums(segments)| <= NonZeroCount(Flatten(segments))
  {
    if segments != [] {
      var init, last := segments[..|segments| - 1], segments[|segments| - 1];
      FewerSumsThanPushes(init);
      CountConcat(Flatten(init), last);
      if NonZeroCount(last) == 0 {
        ZeroPushesSumToZero(last);
      }
    }
  }

  /** `out` lists the nonzero sums of some division of `done` into consecutive segments. */
  ghost predicate Segmented(done: seq<Vec>, out: seq<Vec>) {
    exists segments :: Flatten(segments) == done && NonZeroSums(segments) == out
  }

  lemma NothingSegmented()
    ensures Segmented([], [])
  {
    var none: seq<seq<Vec>> := [];
    assert Flatten(none) == [] && NonZeroSums(none) == [];
  }

  lemma SegmentedAppend(done: seq<Vec>, out: seq<Vec>, last: seq<Vec>)
    requires Segmented(done, out)
    ensures Segmented(done + last, out + NonZero(Sum(last)))
  {
    var segments :| Flatten(segments) == done && NonZeroSums(segments) == out;
    SegmentAppend(segments, last);
    assert Flatten(segments + [last]) == done + last;
  }

  lemma SegmentedSums(done: seq<Vec>, out: seq<Vec>)
    requires Segmented(done, out)
    ensures SumX(out) == SumX(done) && SumY(out) == SumY(done)
    ensures |out| <= NonZeroCount(done)
  {
    var segments :| Flatten(segments) == done && NonZeroSums(segments) == out;
    SegmentSums(segments);
    FewerSumsThanPushes(segments);
  }

  // ---------- The accumulator ----------

  /** Each method runs under the aggregator's lock, so it is one atomic step of its caller. */
  class MoveAggregator {
    var running: bool
    var aggDx: int
    var aggDy: int

    constructor ()
      ensures running && IsZero(Value())
    {
      running, aggDx, aggDy := true, 0, 0;
    }

    function Value(): Vec
      reads this
    {
      Vec(aggDx, aggDy)
    }

    method Add(dx: Int32, dy: Int32)
      requires Fits(Vec(aggDx + dx, aggDy + dy))
      modifies this`aggDx, this`aggDy
      ensures aggDx == old(aggDx) + dx && aggDy == old(aggDy) + dy
    {
      if dx == 0 && dy == 0 {
        return;
      }
      aggDx := aggDx + dx;
      aggDy := aggDy + dy;
    }

    method Take() returns (dx: int, dy: int)
      modifies this`aggDx, this`aggDy
      ensures Vec(dx, dy) == old(Value()) && IsZero(Value())
    {
      dx, dy := aggDx, aggDy;
      aggDx, aggDy := 0, 0;
    }
  }
}
