/** The scheduler's ready queue as a value: how work is accepted and which entry
    a worker takes next. */
module ReadyQueue {
  import opened Tasks
  import opened Tally

  /** Pinned to some other thread. */
  predicate Elsewhere(e: Entry, me: int)
  {
    e.thread != -1 && e.thread != me
  }

  /** A worker may take an entry that is not pinned elsewhere and not a fiber
      that is executing right now. */
  predicate Eligible(e: Entry, me: int, executing: set<FiberId>)
  {
    !Elsewhere(e, me) && !(e.task.FiberTask? && e.task.fiber in executing)
  }

  /** Position of the first entry a worker may take. */
  function FirstEligible(q: seq<Entry>, me: int, executing: set<FiberId>): (i: Option<nat>)
    ensures i.Some? ==> i.value < |q| && Eligible(q[i.value], me, executing)
    ensures forall k :: 0 <= k < (if i.Some? then i.value else |q|) ==> !Eligible(q[k], me, executing)
  {
    if q == [] then None
    else if Eligible(q[0], me, executing) then Some(0)
    else match FirstEligible(q[1..], me, executing)
      case Some(i) => Some(i + 1)
      case None => None
  }

  /** What one dispatch scan takes, leaves, and whether it asks for a tickle. */
  datatype Pick = Pick(taken: Option<Entry>, rest: seq<Entry>, tickle: bool)

  predicate AnyElsewhere(q: seq<Entry>, me: int)
  {
    exists i :: 0 <= i < |q| && Elsewhere(q[i], me)
  }

  function Take(q: seq<Entry>, me: int, executing: set<FiberId>): Pick
  {
    match FirstEligible(q, me, executing)
    case Some(i) => Pick(Some(q[i]), q[..i] + q[i + 1..], AnyElsewhere(q[..i], me) || i + 1 < |q|)
    case None => Pick(None, q, AnyElsewhere(q, me))
  }

  /** The scan never takes an executing fiber or another thread's task, takes
      something whenever it may, and leaves the others in their order; when
      several workers scan, each entry is taken at most once. */
  lemma TakeExact(q: seq<Entry>, me: int, executing: set<FiberId>)
    ensures var p := Take(q, me, executing);
            && (p.taken.None? <==> forall e :: e in q ==> !Eligible(e, me, executing))
            && (p.taken.Some? ==> Eligible(p.taken.value, me, executing))
            && multiset(q) == multiset(p.rest) + (if p.taken.Some? then multiset{p.taken.value} else multiset{})
  {
    var f := FirstEligible(q, me, executing);
    match f
    case Some(i) =>
      assert q == q[..i] + [q[i]] + q[i + 1..];
    case None =>
  }

  /** The first entry that is unpinned or pinned to this thread, and not an
      executing fiber: there i is |q| if there is none. */
  ghost predicate FirstToTake(q: seq<Entry>, me: int, executing: set<FiberId>, i: nat)
  {
    && i <= |q|
    && (forall k :: 0 <= k < i ==>
          (q[k].thread != -1 && q[k].thread != me) || (q[k].task.FiberTask? && q[k].task.fiber in executing))
    && (i < |q| ==>
          (q[i].thread == -1 || q[i].thread == me) && !(q[i].task.FiberTask? && q[i].task.fiber in executing))
  }

  /** Whether anything before position i is pinned to another thread. */
  ghost predicate SkippedPin(q: seq<Entry>, me: int, i: nat)
  {
    exists k :: 0 <= k < i && k < |q| && q[k].thread != -1 && q[k].thread != me
  }

  /** The scan, position by position: it takes that first entry, leaves the others as
      they are, and asks for a tickle exactly if it skipped a task pinned to another
      thread or left anything behind the entry it took. */
  lemma TakeByPosition(q: seq<Entry>, me: int, executing: set<FiberId>, i: nat)
    requires FirstToTake(q, me, executing, i)
    ensures var p := Take(q, me, executing);
            && p.taken == (if i < |q| then Some(q[i]) else None)
            && p.rest == (if i < |q| then q[..i] + q[i + 1..] else q)
            && (p.tickle <==> SkippedPin(q, me, i) || i + 1 < |q|)
  {
    var f := FirstEligible(q, me, executing);
    if i < |q| {
      assert Eligible(q[i], me, executing);
      assert f == Some(i);
    }
    var n := if i < |q| then i else |q|;
    assert forall k :: 0 <= k < n ==> q[..n][k] == q[k];
    assert AnyElsewhere(q[..n], me) <==> SkippedPin(q, me, i);
    assert q[..|q|] == q;
  }

  lemma {:induction false} SomeFirst(q: seq<Entry>, me: int, executing: set<FiberId>) returns (i: nat)
    ensures FirstToTake(q, me, executing, i)
  {
    var f := FirstEligible(q, me, executing);
    i := if f.Some? then f.value else |q|;
    forall k | 0 <= k < i
      ensures (q[k].thread != -1 && q[k].thread != me) || (q[k].task.FiberTask? && q[k].task.fiber in executing)
    {
      assert !Eligible(q[k], me, executing);
    }
  }

  /** Without pins and without executing fibers the queue is first in, first out. */
  lemma TakeIsFifo(q: seq<Entry>, me: int, executing: set<FiberId>)
    requires q != [] && Eligible(q[0], me, executing)
    ensures Take(q, me, executing).taken == Some(q[0]) && Take(q, me, executing).rest == q[1..]
    ensures Take(q, me, executing).tickle <==> |q| > 1
  {
    assert q[..0] + q[1..] == q[1..];
  }

  function Unpinned(ts: seq<Task>): seq<Entry>
  {
    if ts == [] then [] else [Entry(ts[0], -1)] + Unpinned(ts[1..])
  }

  lemma {:induction false} UnpinnedAt(ts: seq<Task>, i: nat)
    requires i < |ts|
    ensures |Unpinned(ts)| == |ts| && Unpinned(ts)[i] == Entry(ts[i], -1)
  {
    if |ts| > 1 {
      UnpinnedAt(ts[1..], if i > 0 then i - 1 else 0);
    }
  }

  /** Weight of queued work. */
  function EntryWeight(w: Task -> nat): Entry -> nat
  {
    (e: Entry) => w(e.task)
  }

  function Queued(q: seq<Entry>, w: Task -> nat): nat
  {
    Sum(q, EntryWeight(w))
  }

  lemma {:induction false} QueuedUnpinned(q: seq<Entry>, ts: seq<Task>, w: Task -> nat)
    ensures Queued(q + Unpinned(ts), w) == Queued(q, w) + Sum(ts, w)
    decreases |ts|
  {
    if ts == [] {
      assert q + Unpinned(ts) == q;
    } else {
      assert q + Unpinned(ts) == (q + [Entry(ts[0], -1)]) + Unpinned(ts[1..]);
      QueuedUnpinned(q + [Entry(ts[0], -1)], ts[1..], w);
      SumPush(q, Entry(ts[0], -1), EntryWeight(w));
    }
  }

  lemma QueuedTake(q: seq<Entry>, me: int, executing: set<FiberId>, w: Task -> nat)
    ensures var p := Take(q, me, executing);
            Queued(q, w) == Queued(p.rest, w) + if p.taken.Some? then w(p.taken.value.task) else 0
  {
    var f := FirstEligible(q, me, executing);
    if f.Some? {
      SumRemove(q, f.value, EntryWeight(w));
    }
  }
}
