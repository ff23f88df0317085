/**
 The UI task queue: first in, first out, at most eight tasks a frame. A task may
 post more tasks while it runs, and so may other threads; those posts are arguments.
 */
module UiDispatch {
  import opened Prelude

  const MAX_PER_FRAME: nat := 8

  /** A task is known by a label; an empty function object is None. */
  type Task = nat
  type Post = Option<Task>

  function Tasks(posts: seq<Post>): seq<Task> {
    if |posts| == 0 then []
    else
      var last := posts[|posts| - 1];
      Tasks(posts[..|posts| - 1]) + if last.Some? then [last.value] else []
  }

  lemma TasksAppend(posts: seq<Post>, p: Post)
    ensures Tasks(posts + [p]) == Tasks(posts) + if p.Some? then [p.value] else []
  {
    assert (posts + [p])[..|posts|] == posts;
  }

  // ---------- Frames ----------

  datatype Progress = Progress(executed: seq<Task>, queue: seq<Task>)

  /** What one frame saw: posts made before it, and during each of its turns. */
  datatype Frame = Frame(before: seq<Post>, during: seq<seq<Post>>)

  /** Each turn runs the oldest task and queues what was posted meanwhile; an empty queue ends the frame. */
  function Turns(p: Progress, during: seq<seq<Post>>): Progress
    decreases |during|
  {
    if |during| == 0 || |p.queue| == 0 then p
    else Turns(Progress(p.executed + [p.queue[0]], p.queue[1..] + Tasks(during[0])), during[1..])
  }

  function OneFrame(p: Progress, f: Frame): Progress {
    Turns(Progress(p.executed, p.queue + Tasks(f.before)), f.during)
  }

  function Frames(p: Progress, fs: seq<Frame>): Progress {
    if |fs| == 0 then p else OneFrame(Frames(p, fs[..|fs| - 1]), fs[|fs| - 1])
  }

  predicate WellFormed(fs: seq<Frame>) {
    forall i :: 0 <= i < |fs| ==> |fs[i].during| == MAX_PER_FRAME
  }

  function Line(p: Progress): seq<Task> {
    p.executed + p.queue
  }

  /** q comes from p by running at most `most` and, while tasks last, at least `least` of them, in line order. */
  predicate Advances(p: Progress, q: Progress, least: nat, most: nat) {
    && Line(p) <= Line(q)
    && |q.executed| <= |p.executed| + most
    && (|q.executed| >= |p.executed| + least || |q.executed| >= |Line(p)|)
  }

  lemma {:induction false} TurnsAdvance(p: Progress, during: seq<seq<Post>>)
    ensures Advances(p, Turns(p, during), |during|, |during|)
    decreases |during|
  {
    if |during| > 0 && |p.queue| > 0 {
      var next := Progress(p.executed + [p.queue[0]], p.queue[1..] + Tasks(during[0]));
      assert Line(next) == Line(p) + Tasks(during[0]);
      TurnsAdvance(next, during[1..]);
    }
  }

  lemma {:induction false} FramesAdvance(p: Progress, fs: seq<Frame>)
    requires WellFormed(fs)
    ensures Advances(p, Frames(p, fs), MAX_PER_FRAME * |fs|, MAX_PER_FRAME * |fs|)
    decreases |fs|
  {
    if |fs| > 0 {
      var f, mid := fs[|fs| - 1], Frames(p, fs[..|fs| - 1]);
      FramesAdvance(p, fs[..|fs| - 1]);
      var start := Progress(mid.executed, mid.queue + Tasks(f.before));
      assert Line(start) == Line(mid) + Tasks(f.before);
      TurnsAdvance(start, f.during);
    }
  }

  /**
   Fairness. A task at position pos when a frame starts runs in exactly the
   (pos / 8 + 1)-th frame from then on, in its turn, whatever is posted later.
   */
  lemma RunsOnTime(p: Progress, fs: seq<Frame>, pos: nat)
    requires WellFormed(fs) && pos < |p.queue|
    ensures var turn := |p.executed| + pos;
            && (turn < |Frames(p, fs).executed| <==> pos / 8 + 1 <= |fs|)
            && (turn < |Frames(p, fs).executed| ==> Frames(p, fs).executed[turn] == p.queue[pos])
  {
    FramesAdvance(p, fs);
    var q := Frames(p, fs);
    assert Line(p)[|p.executed| + pos] == p.queue[pos];
    if |p.executed| + pos < |q.executed| {
      assert Line(q)[|p.executed| + pos] == q.executed[|p.executed| + pos];
    }
  }

  /** A chain of tasks that keep posting cannot hold up a frame. */
  lemma FrameIsBounded(p: Progress, f: Frame)
    requires |f.during| == 8
    ensures |OneFrame(p, f).executed| <= |p.executed| + 8
    ensures |p.queue| >= 8 ==> |OneFrame(p, f).executed| == |p.executed| + 8
  {
    TurnsAdvance(Progress(p.executed, p.queue + Tasks(f.before)), f.during);
  }

  // ---------- The queue ----------

  class UiQueue {
    var q: seq<Task>
    /** Everything ever accepted, and everything ever run. */
    ghost var posted: seq<Task>
    ghost var executed: seq<Task>

    ghost predicate Valid()
      reads this
    {
      executed + q == posted
    }

    ghost function View(): Progress
      reads this
    {
      Progress(executed, q)
    }

    constructor ()
      ensures Valid() && View() == Progress([], [])
    {
      q, posted, executed := [], [], [];
    }

    method PostToUi(fn: Post)
      requires Valid()
      modifies this
      ensures Valid() && executed == old(executed)
      ensures q == old(q) + Tasks([fn]) && posted == old(posted) + Tasks([fn])
    {
      TasksAppend([], fn);
      assert [] + [fn] == [fn];
      if fn.None? {
        return;
      }
      q, posted := q + [fn.value], posted + [fn.value];
    }

    /** The posts that reach the queue while one task runs, its own and other threads'. */
    method RunTask(posts: seq<Post>)
      requires Valid()
      modifies this
      ensures Valid() && executed == old(executed)
      ensures q == old(q) + Tasks(posts) && posted == old(posted) + Tasks(posts)
    {
      for i := 0 to |posts|
        invariant Valid() && executed == old(executed)
        invariant q == old(q) + Tasks(posts[..i]) && posted == old(posted) + Tasks(posts[..i])
      {
        PostToUi(posts[i]);
        TasksAppend([], posts[i]);
        TasksAppend(posts[..i], posts[i]);
        assert [] + [posts[i]] == [posts[i]] && posts[..i + 1] == posts[..i] + [posts[i]];
      }
      assert posts[..|posts|] == posts;
    }

    /** One frame; during[i] is what gets posted while its i-th task runs. */
    method ProcessUiTasks(during: seq<seq<Post>>)
      requires Valid() && |during| == MAX_PER_FRAME
      modifies this
      ensures Valid() && View() == Turns(old(View()), during)
      ensures old(posted) <= posted
    {
      var i := 0;
      while i < MAX_PER_FRAME
        invariant 0 <= i <= MAX_PER_FRAME
        invariant Valid() && old(posted) <= posted
        invariant Turns(View(), during[i..]) == Turns(old(View()), during)
      {
        if |q| == 0 {
          break;
        }
        ghost var before := View();
        q, executed := q[1..], executed + [q[0]];
        RunTask(during[i]);
        assert View() == Progress(before.executed + [before.queue[0]], before.queue[1..] + Tasks(during[i]));
        assert during[i..][1..] == during[i + 1..];
        i := i + 1;
      }
    }
  }
}
