/** Fibers, the ready queue and the worker loop as the objects they are, proved
    against the queue value of `ReadyQueue`. */
module Schedulers {
  import opened Tasks
  import Q = ReadyQueue

  /** How a fiber that was switched in comes back: its function returns or
      throws, it yields, or (the idle fiber) it just switches out. */
  datatype Behaviour = Returns | Throws | YieldsReady | YieldsHold | SwitchesOut

  function StateAfter(b: Behaviour): FiberState
  {
    match b
    case Returns => TERM
    case Throws => EXCPT
    case YieldsReady => READY
    case YieldsHold => HOLD
    case SwitchesOut => EXEC
  }

  predicate Ended(s: FiberState) { s.TERM? || s.EXCPT? }

  class Fiber {
    const id: FiberId
    var state: FiberState
    var cb: Option<Callback>
    /** How often it was switched in, and the callbacks it has begun to run. */
    var resumed: nat
    var started: seq<Callback>

    constructor (id: FiberId, cb: Option<Callback>)
      ensures this.id == id && state == INIT && this.cb == cb && resumed == 0 && started == []
    {
      this.id, state, this.cb, resumed, started := id, INIT, cb, 0, [];
    }

    /** The precondition that reset asserts. */
    predicate Resettable()
      reads this
    {
      state.INIT? || Ended(state)
    }

    method Reset(cb: Option<Callback>)
      requires Resettable()
      modifies this`state, this`cb
      ensures state == INIT && this.cb == cb
    {
      this.cb, state := cb, INIT;
    }

    /** What a new fiber begins when it is switched in. */
    function ToBegin(): seq<Callback>
      reads this
    {
      if state.INIT? && cb.Some? then [cb.value] else []
    }

    /** The precondition is the assertion of swapIn; a new fiber begins its callback. */
    method SwapIn()
      requires !state.EXEC?
      modifies this`state, this`resumed, this`started
      ensures state == EXEC && resumed == old(resumed) + 1
      ensures started == old(started) + old(ToBegin())
    {
      started := started + ToBegin();
      state, resumed := EXEC, resumed + 1;
    }

    /** The fiber runs until it is switched out again. */
    method RunUntilSwitch(b: Behaviour)
      requires state.EXEC?
      modifies this`state, this`cb
      ensures state == StateAfter(b)
      ensures (b.Returns? ==> state == TERM) && (b.Throws? ==> state == EXCPT)
      ensures (b.YieldsReady? ==> state == READY) && (b.YieldsHold? ==> state == HOLD) && (b.SwitchesOut? ==> state == EXEC)
      ensures cb == if b.Returns? then None else old(cb)
    {
      match b
      case Returns =>
        cb := None;
        state := TERM;
      case Throws => state := EXCPT;
      case YieldsReady => state := READY;
      case YieldsHold => state := HOLD;
      case SwitchesOut =>
    }
  }

  class Scheduler {
    var fibers: seq<Entry>
    var pool: map<FiberId, Fiber>   // every fiber there is, by id
    var nextId: FiberId
    var active: int
    var idle: int
    var unread: nat                 // tickle bytes written

    predicate PoolOk()
      reads this
    {
      forall f :: f in pool ==> pool[f].id == f && f < nextId
    }

    function Executing(): set<FiberId>
      reads this, pool.Values
    {
      set f | f in pool && pool[f].state.EXEC?
    }

    predicate QueueKnown()
      reads this
    {
      forall e :: e in fibers && e.task.FiberTask? ==> e.task.fiber in pool
    }

    predicate Valid()
      reads this
    {
      PoolOk() && QueueKnown()
    }

    constructor ()
      ensures Valid() && fibers == [] && pool == map[] && active == 0 && idle == 0 && unread == 0
    {
      fibers, pool, nextId, active, idle, unread := [], map[], 0, 0, 0, 0;
    }

    method Tickle()
      modifies this`unread
      ensures unread == old(unread) + if idle > 0 then 1 else 0
    {
      if idle > 0 {
        unread := unread + 1;
      }
    }

    /** schedule_no_lock: whether the queue was empty. */
    method ScheduleNoLock(e: Entry) returns (needTickle: bool)
      modifies this`fibers
      ensures fibers == old(fibers) + [e]
      ensures needTickle <==> old(fibers) == []
    {
      needTickle := fibers == [];
      fibers := fibers + [e];
    }

    method Schedule(e: Entry)
      modifies this`fibers, this`unread
      ensures fibers == old(fibers) + [e]
      ensures unread == old(unread) + if old(fibers) == [] && idle > 0 then 1 else 0
    {
      var needTickle := ScheduleNoLock(e);
      if needTickle {
        Tickle();
      }
    }

    /** Whatever else is scheduled meanwhile. */
    method Arrive(es: seq<Entry>)
      modifies this`fibers, this`unread
      ensures fibers == old(fibers) + es
      ensures unread == old(unread) + if old(fibers) == [] && es != [] && idle > 0 then 1 else 0
    {
      var i := 0;
      while i < |es|
        invariant i <= |es| && fibers == old(fibers) + es[..i]
        invariant unread == old(unread) + if old(fibers) == [] && i > 0 && idle > 0 then 1 else 0
      {
        Schedule(es[i]);
        i := i + 1;
      }
      assert es[..i] == es;
    }

    /** schedule of a range of callbacks. The pointer constructor of the queue
        entry swaps each of them out of the caller's vector. */
    method ScheduleBatch(cbs: array<Option<Callback>>)
      requires forall i :: 0 <= i < cbs.Length ==> cbs[i].Some?
      modifies this`fibers, this`unread, cbs
      ensures fibers == old(fibers) + Q.Unpinned(Unwrapped(old(cbs[..])))
      ensures forall i :: 0 <= i < cbs.Length ==> cbs[i].None?
      ensures unread == old(unread) + if old(fibers) == [] && idle > 0 && cbs.Length > 0 then 1 else 0
    {
      var needTickle := false;
      var i := 0;
      ghost var was := cbs[..];
      while i < cbs.Length
        invariant i <= cbs.Length && unread == old(unread) && idle == old(idle)
        invariant fibers == old(fibers) + Q.Unpinned(Unwrapped(was[..i]))
        invariant needTickle <==> old(fibers) == [] && i > 0
        invariant forall k :: 0 <= k < cbs.Length ==> cbs[k] == if k < i then None else was[k]
      {
        var swapped := cbs[i];
        cbs[i] := None;
        assert was[..i + 1][..i] == was[..i];
        UnpinnedMore(Unwrapped(was[..i]), CbTask(swapped.value));
        var wasEmpty := ScheduleNoLock(Entry(CbTask(swapped.value), -1));
        needTickle := wasEmpty || needTickle;
        i := i + 1;
      }
      assert was[..i] == was;
      if needTickle {
        Tickle();
      }
    }

    /** The scan of the run loop: takes the first entry this thread may run and
        says whether to tickle, exactly as `ReadyQueue.Take` has it. */
    method TakeNext(thread: int) returns (taken: Option<Entry>)
      requires Valid()
      modifies this`fibers, this`unread
      ensures var p := Q.Take(old(fibers), thread, old(Executing()));
              && taken == p.taken && fibers == p.rest
              && unread == old(unread) + if p.tickle && idle > 0 then 1 else 0
      // position by position
      ensures forall i: nat :: Q.FirstToTake(old(fibers), thread, old(Executing()), i) ==>
                               && taken == (if i < |old(fibers)| then Some(old(fibers)[i]) else None)
                               && fibers == (if i < |old(fibers)| then old(fibers)[..i] + old(fibers)[i + 1..] else old(fibers))
                               && unread == old(unread) +
                                            if (Q.SkippedPin(old(fibers), thread, i) || i + 1 < |old(fibers)|) && idle > 0 then 1 else 0
      ensures Valid()
      ensures taken.Some? && taken.value.task.FiberTask? ==>
                taken.value.task.fiber in pool && !pool[taken.value.task.fiber].state.EXEC?
      ensures taken.Some? ==> taken.value in old(fibers)
      ensures forall e :: e in fibers ==> e in old(fibers)
    {
      taken := None;
      var tickleMe := false;
      var i := 0;
      ghost var q := fibers;
      ghost var executing := Executing();
      while i < |fibers|
        invariant i <= |fibers| && fibers == q && taken.None? && unread == old(unread)
        invariant forall k :: 0 <= k < i ==> !Q.Eligible(q[k], thread, executing)
        invariant tickleMe <==> Q.AnyElsewhere(q[..i], thread)
      {
        if fibers[i].thread != -1 && fibers[i].thread != thread {
          ElsewhereMore(q, i, thread);
          i := i + 1;
          tickleMe := true;
          continue;
        }
        if fibers[i].task.FiberTask? && pool[fibers[i].task.fiber].state.EXEC? {
          ElsewhereMore(q, i, thread);
          i := i + 1;
          continue;
        }
        taken := Some(fibers[i]);
        fibers := fibers[..i] + fibers[i + 1..];
        break;
      }
      FirstAt(q, i, thread, executing);
      assert q[..|q|] == q;
      tickleMe := tickleMe || i < |fibers|;
      if tickleMe {
        Tickle();
      }
      forall k: nat | Q.FirstToTake(q, thread, executing, k)
        ensures var p := Q.Take(q, thread, executing);
                && p.taken == (if k < |q| then Some(q[k]) else None)
                && p.rest == (if k < |q| then q[..k] + q[k + 1..] else q)
                && (p.tickle <==> Q.SkippedPin(q, thread, k) || k + 1 < |q|)
      {
        Q.TakeByPosition(q, thread, executing, k);
      }
    }
  }

  /** How one round of the run loop ends: go on, leave the loop, or a failed
      assertion, which ends the process. */
  datatype End = Continued | Exited | Aborted

  /** The state run leaves a fiber in after it came back. */
  function Settled(b: Behaviour): FiberState
  {
    match b
    case Returns => TERM
    case Throws => EXCPT
    case YieldsReady => READY
    case YieldsHold => HOLD
    case SwitchesOut => HOLD
  }

  /** Who may be scheduled: callbacks, and known fibers but not the one a worker
      keeps for callbacks. */
  predicate Admissible(e: Entry, known: set<FiberId>, slot: Option<FiberId>)
  {
    e.task.FiberTask? ==> e.task.fiber in known && slot != Some(e.task.fiber)
  }

  function Admitted(es: seq<Entry>, known: set<FiberId>, slot: Option<FiberId>): (r: seq<Entry>)
    ensures forall e :: e in r <==> e in es && Admissible(e, known, slot)
  {
    if es == [] then []
    else (if Admissible(es[0], known, slot) then [es[0]] else []) + Admitted(es[1..], known, slot)
  }

  /** What a round makes of a queued fiber. */
  predicate FiberRound(before: FiberState, b: Behaviour, after: FiberState, end: End)
  {
    match before
    case EXCPT => end.Aborted? && after.EXCPT?   // it would go on behind its end
    case TERM => end.Continued? && after.TERM?
    case EXEC => false
    case _ =>
      && end.Continued?
      && (b.Returns? <==> after.TERM?) && (b.Throws? <==> after.EXCPT?) && (b.YieldsReady? <==> after.READY?)
      && (b.YieldsHold? || b.SwitchesOut? <==> after.HOLD?)
  }

  /** What a round makes of the fiber a callback ran in. */
  predicate CallbackRound(cb: Callback, b: Behaviour, after: FiberState, left: Option<Callback>)
  {
    if b.Returns? || b.Throws? then after.INIT? && left.None?
    else after == (if b.YieldsReady? then READY else HOLD) && left == Some(cb)
  }

  /** What a round with nothing to do makes of the idle fiber. */
  predicate IdleRound(before: FiberState, b: Behaviour, after: FiberState, end: End)
  {
    match before
    case TERM => end.Exited? && after.TERM?
    case EXCPT => end.Aborted? && after.EXCPT?
    case EXEC => end.Aborted? && after.EXEC?
    case _ => end.Continued? && after == if b.Returns? then TERM else if b.Throws? then EXCPT else HOLD
  }

  /** What the world does in one round: how the fiber switched in comes back, and
      what is scheduled meanwhile. */
  datatype Turn = Turn(behaviour: Behaviour, arrivals: seq<Entry>)

  /** One round as it was: the queue and the executing fibers it found, who could be
      scheduled, whether the kept fiber was free, what it took, the fiber it
      switched in, the callback that fiber began, and how the round ended. */
  datatype Past = Past(queue: seq<Entry>, executing: set<FiberId>, known: set<FiberId>, slot: Option<FiberId>,
                       free: bool, taken: Option<Entry>, ran: Fiber?, begun: seq<Callback>, end: End)

  /** The queue that a round leaves: a fiber that came back ready is in it again. */
  function QueueAfter(p: Past, turn: Turn, thread: int): seq<Entry>
  {
    var rest := Q.Take(p.queue, thread, p.executing).rest;
    if !p.end.Continued? then rest
    else
      rest + Admitted(turn.arrivals, p.known, p.slot) +
      if p.taken.Some? && p.ran != null && turn.behaviour.YieldsReady? then [Entry(FiberTask(p.ran.id), -1)] else []
  }

  /** A round took what the scan takes and switched in what that asks for: the
      queued fiber, unless it has ended; a fiber that begins the queued callback; or
      with nothing to take the idle fiber. */
  predicate RoundOk(p: Past, turn: Turn, thread: int, idle: Fiber)
  {
    && p.taken == Q.Take(p.queue, thread, p.executing).taken
    && (p.end.Exited? ==> p.taken.None?)
    && (p.end.Continued? && p.taken.None? ==> p.ran == idle)
    && (p.end.Continued? && p.taken.Some? ==>
          p.ran != idle &&
          match p.taken.value.task
          case FiberTask(f) => p.ran != null ==> p.ran.id == f
          case CbTask(cb) => p.ran != null && p.begun == [cb])
    && (!p.end.Continued? ==> p.ran == null)
  }

  /** In how many of the rounds the fiber was switched in. */
  function TimesRun(history: seq<Past>, f: Fiber): nat
  {
    if history == [] then 0
    else TimesRun(history[..|history| - 1], f) + if history[|history| - 1].ran == f then 1 else 0
  }

  /** The callbacks the fiber began in the rounds. */
  function CallbacksBegun(history: seq<Past>, f: Fiber): seq<Callback>
  {
    if history == [] then []
    else
      var p := history[|history| - 1];
      CallbacksBegun(history[..|history| - 1], f) + if p.ran == f then p.begun else []
  }

  /** What a fiber has done so far. */
  datatype Record = Record(resumed: nat, started: seq<Callback>)

  function RecordOf(seen: map<Fiber, Record>, f: Fiber): Record
  {
    if f in seen then seen[f] else Record(0, [])
  }

  /** Between two moments nothing was switched in but `ran`, once, and that began
      what it begun. */
  predicate OneRan(before: map<Fiber, Record>, after: map<Fiber, Record>, ran: Fiber?, begun: seq<Callback>)
  {
    && after.Keys == before.Keys + (if ran != null then {ran} else {})
    && forall f :: f in after ==>
         after[f] == Record(RecordOf(before, f).resumed + (if f == ran then 1 else 0),
                            RecordOf(before, f).started + if f == ran then begun else [])
  }

  /** Every fiber was switched in, and began callbacks, as the rounds say. */
  ghost predicate Agrees(history: seq<Past>, before: map<Fiber, Record>, after: map<Fiber, Record>)
  {
    && before.Keys <= after.Keys
    && (forall i :: 0 <= i < |history| && history[i].ran != null ==> history[i].ran in after)
    && forall f :: f in after ==>
         after[f] == Record(RecordOf(before, f).resumed + TimesRun(history, f),
                            RecordOf(before, f).started + CallbacksBegun(history, f))
  }

  /** The rounds lead from the first queue to the last: each starts with the queue
      the one before left, and only the last may end the loop. */
  ghost predicate Follows(history: seq<Past>, script: seq<Turn>, thread: int, idle: Fiber, first: seq<Entry>,
                          last: seq<Entry>, end: End)
    decreases |history|
  {
    if history == [] then last == first && end.Continued?
    else
      var n := |history| - 1;
      var p := history[n];
      && n < |script| && RoundOk(p, script[n], thread, idle)
      && Follows(history[..n], script, thread, idle, first, p.queue, Continued)
      && end == p.end && (!end.Aborted? ==> last == QueueAfter(p, script[n], thread))
  }

  /** A callback that came back ready. */
  predicate ReadyCallback(p: Past, turn: Turn)
  {
    p.taken.Some? && p.taken.value.task.CbTask? && turn.behaviour.YieldsReady?
  }

  /** No round before the i-th ran a callback that came back ready. */
  ghost predicate NoneReadyBefore(history: seq<Past>, script: seq<Turn>, i: nat)
    requires i <= |history| <= |script|
  {
    forall k :: 0 <= k < i ==> !ReadyCallback(history[k], script[k])
  }

  /** One thread in the run loop, with its idle fiber and the fiber it reuses for
      callbacks. */
  class Worker {
    const scheduler: Scheduler
    const thread: int
    const idleFiber: Fiber
    var cbFiber: Fiber?

    constructor (scheduler: Scheduler, thread: int)
      requires scheduler.Valid()
      ensures Valid() && CbFiberFree() && this.scheduler == scheduler && this.thread == thread && fresh(idleFiber)
    {
      this.scheduler, this.thread, cbFiber := scheduler, thread, null;
      idleFiber := new Fiber(0, None);
    }

    predicate Valid()
      reads this, scheduler
    {
      && scheduler.Valid()
      && idleFiber !in scheduler.pool.Values
      && (cbFiber != null ==> cbFiber.id in scheduler.pool && scheduler.pool[cbFiber.id] == cbFiber)
    }

    /** The callback fiber is absent, or new again, without a callback and not
        queued. */
    predicate CbFiberFree()
      reads this, cbFiber, scheduler
    {
      cbFiber == null ||
      (cbFiber.state.INIT? && cbFiber.cb.None? && forall e :: e in scheduler.fibers ==> e.task != FiberTask(cbFiber.id))
    }

    /** What was taken trips an assertion. */
    predicate Stuck(taken: Option<Entry>)
      reads this, scheduler, scheduler.pool.Values, idleFiber, cbFiber
    {
      match taken
      case None => idleFiber.state.EXCPT? || idleFiber.state.EXEC?
      case Some(Entry(FiberTask(f), _)) => f in scheduler.pool && scheduler.pool[f].state.EXCPT?
      case Some(Entry(CbTask(_), _)) => cbFiber != null && !cbFiber.Resettable()
    }

    /** What every fiber there is has done so far. */
    function Records(): map<Fiber, Record>
      reads scheduler`pool, scheduler.pool.Values, idleFiber
    {
      map f | f in scheduler.pool.Values + {idleFiber} :: Record(f.resumed, f.started)
    }

    twostate lemma RanOne(new ran: Fiber?, begun: seq<Callback>)
      requires scheduler.pool.Values + {idleFiber} == old(scheduler.pool.Values) + {idleFiber} + if ran != null then {ran} else {}
      requires forall f :: f in old(scheduler.pool.Values) + {idleFiber} && f != ran ==>
                             f.resumed == old(f.resumed) && f.started == old(f.started)
      requires ran != null && ran in old(scheduler.pool.Values) + {idleFiber} ==>
                 ran.resumed == old(ran.resumed) + 1 && ran.started == old(ran.started) + begun
      requires ran != null && ran !in old(scheduler.pool.Values) + {idleFiber} ==> ran.resumed == 1 && ran.started == begun
      ensures OneRan(old(Records()), Records(), ran, begun)
    {
    }

    function SlotId(): Option<FiberId>
      reads this
    {
      if cbFiber != null then Some(cbFiber.id) else None
    }

    /** A fiber that came back ready is queued again. */
    function Requeued(ran: Fiber?): seq<Entry>
      reads this, ran
    {
      if ran != null && ran != idleFiber && ran.state.READY? then [Entry(FiberTask(ran.id), -1)] else []
    }

    /** One round: b is how the fiber that is switched in comes back, and arrivals
        what others, or that fiber itself, schedule meanwhile. `ran` is the fiber
        that was switched in, `begun` the callback it began.

        A queued fiber is switched in once, unless it has ended; a callback runs in
        the kept fiber or a new one, which is kept again empty if it ended, kept as
        it is if it yielded ready, and given away on hold otherwise. The round trips
        an assertion exactly when it resumes a fiber that threw, or resets a kept
        fiber that is neither new nor ended; it leaves the loop exactly when there is
        nothing to take and the idle fiber has ended. */
    method Round(b: Behaviour, arrivals: seq<Entry>) returns (taken: Option<Entry>, ran: Fiber?, begun: seq<Callback>, end: End)
      requires Valid()
      modifies this, scheduler, scheduler.pool.Values, idleFiber
      ensures Valid()
      ensures scheduler.active == old(scheduler.active) && scheduler.idle == old(scheduler.idle)
      ensures taken == Q.Take(old(scheduler.fibers), thread, old(scheduler.Executing())).taken
      ensures end.Continued? ==>
                scheduler.fibers == Q.Take(old(scheduler.fibers), thread, old(scheduler.Executing())).rest +
                                    Admitted(arrivals, old(scheduler.pool.Keys), old(SlotId())) + Requeued(ran)
      ensures end.Exited? ==> scheduler.fibers == Q.Take(old(scheduler.fibers), thread, old(scheduler.Executing())).rest
      // nothing but `ran` was switched in
      ensures OneRan(old(Records()), Records(), ran, begun) && fresh(scheduler.pool.Values - old(scheduler.pool.Values))
      // a queued fiber
      ensures taken.Some? && taken.value.task.FiberTask? ==>
                var f := taken.value.task.fiber;
                && f in old(scheduler.pool) && scheduler.pool == old(scheduler.pool) && cbFiber == old(cbFiber)
                && FiberRound(old(scheduler.pool[f].state), b, scheduler.pool[f].state, end)
                && ran == (if end.Continued? && !old(scheduler.pool[f].state).TERM? then old(scheduler.pool[f]) else null)
      // a callback
      ensures taken.Some? && taken.value.task.CbTask? ==>
                && end == (if old(cbFiber == null || cbFiber.Resettable()) then Continued else Aborted)
                && (if end.Continued? then ran != null && (if old(cbFiber) != null then ran == old(cbFiber) else fresh(ran))
                    else ran == null)
                && (end.Continued? ==>
                      && ran != idleFiber && begun == [taken.value.task.cb]
                      && CallbackRound(taken.value.task.cb, b, ran.state, ran.cb)
                      && cbFiber == if b.YieldsHold? || b.SwitchesOut? then null else ran)
      // nothing to take
      ensures taken.None? ==>
                && IdleRound(old(idleFiber.state), b, idleFiber.state, end) && cbFiber == old(cbFiber)
                && ran == (if end.Continued? then idleFiber else null) && scheduler.Executing() == old(scheduler.Executing())
      ensures end.Aborted? ==> Stuck(taken)
      // the kept fiber is free again exactly unless its callback yielded ready
      ensures old(CbFiberFree()) && !end.Aborted? ==>
                (CbFiberFree() <==> !(taken.Some? && taken.value.task.CbTask? && b.YieldsReady?))
    {
      hide Q.Take, OneRan, Records, CallbackRound, Admitted, Settled, StateAfter;
      var coming := Admitted(arrivals, scheduler.pool.Keys, SlotId());
      taken := scheduler.TakeNext(thread);
      begun := [];
      if taken.Some? && taken.value.task.FiberTask? {
        assert scheduler.pool[taken.value.task.fiber].id == taken.value.task.fiber;
        ghost var f := scheduler.pool[taken.value.task.fiber];
        assert old(CbFiberFree()) && cbFiber != null ==> f != cbFiber && f.id != cbFiber.id;
        ran, begun, end := RunFiber(scheduler.pool[taken.value.task.fiber], b, coming);
      } else if taken.Some? {
        assert cbFiber != null ==> scheduler.pool[cbFiber.id] in scheduler.pool.Values;
        ran, end := RunCallback(taken.value.task.cb, b, coming);
        begun := [taken.value.task.cb];
      } else {
        assert cbFiber != null ==> scheduler.pool[cbFiber.id] in scheduler.pool.Values;
        ran, begun, end := Idle(b, coming);
      }
    }

    /** The run loop of one thread, for any behaviour of the fibers and any arrivals.
        Fibers are switched in and begin callbacks as the rounds say, and not
        otherwise. The kept fiber is free before every round up to the first callback
        that comes back ready, and until then no callback trips the assertion of
        reset. The loop ends only with nothing to take and the idle fiber ended, and
        trips an assertion only over what it took last. */
    method Run(script: seq<Turn>) returns (end: End, history: seq<Past>)
      requires Valid() && CbFiberFree()
      modifies this, scheduler, scheduler.pool.Values, idleFiber
      ensures Valid() && scheduler.active == old(scheduler.active) && scheduler.idle == old(scheduler.idle)
      ensures Follows(history, script, thread, idleFiber, old(scheduler.fibers), scheduler.fibers, end)
      ensures Agrees(history, old(Records()), Records())
      ensures end.Continued? ==> |history| == |script|
      ensures end.Exited? ==> idleFiber.state.TERM? && NothingToTake()
      ensures end.Aborted? ==> history != [] && Stuck(history[|history| - 1].taken)
      ensures forall i :: 0 <= i < |history| && NoneReadyBefore(history, script, i) ==>
                && history[i].free
                && (history[i].end.Aborted? ==> !(history[i].taken.Some? && history[i].taken.value.task.CbTask?))
      ensures NoneReadyBefore(history, script, |history|) && !end.Aborted? ==> CbFiberFree()
    {
      hide Q.Take, Admitted, Follows, RoundOk, QueueAfter, ReadyCallback, NoneReadyBefore, OneRan, Agrees, Records, NothingToTake,
           Stuck;
      NoRounds(Records());
      history, end := [], Continued;
      NothingRun(script, thread, idleFiber, scheduler.fibers);
      while |history| < |script| && end.Continued?
        invariant Valid() && scheduler.active == old(scheduler.active) && scheduler.idle == old(scheduler.idle)
        invariant fresh(scheduler.pool.Values - old(scheduler.pool.Values))
        invariant |history| <= |script|
        invariant Follows(history, script, thread, idleFiber, old(scheduler.fibers), scheduler.fibers, end)
        invariant Agrees(history, old(Records()), Records())
        invariant end.Exited? ==> idleFiber.state.TERM? && NothingToTake()
        invariant end.Aborted? ==> history != [] && Stuck(history[|history| - 1].taken)
        invariant forall i :: 0 <= i < |history| && NoneReadyBefore(history, script, i) ==>
                    && history[i].free
                    && (history[i].end.Aborted? ==> !(history[i].taken.Some? && history[i].taken.value.task.CbTask?))
        invariant NoneReadyBefore(history, script, |history|) && !end.Aborted? ==> CbFiberFree()
        decreases |script| - |history|
      {
        ghost var before := Records();
        var p;
        end, p := RunOnce(script[|history|]);
        OneMoreRound(history, script, thread, idleFiber, old(scheduler.fibers), p, scheduler.fibers);
        OneMoreReady(history, script, p);
        OneMoreAgrees(history, old(Records()), before, Records(), p);
        history := history + [p];
      }
    }

    /** The scan would find nothing for this thread. */
    ghost predicate NothingToTake()
      reads this, scheduler, scheduler.pool.Values
    {
      Q.Take(scheduler.fibers, thread, scheduler.Executing()).taken.None?
    }

    /** One round, noted down. */
    method RunOnce(turn: Turn) returns (end: End, p: Past)
      requires Valid()
      modifies this, scheduler, scheduler.pool.Values, idleFiber
      ensures Valid() && scheduler.active == old(scheduler.active) && scheduler.idle == old(scheduler.idle)
      ensures p.queue == old(scheduler.fibers) && p.end == end && RoundOk(p, turn, thread, idleFiber)
      ensures !end.Aborted? ==> scheduler.fibers == QueueAfter(p, turn, thread)
      ensures OneRan(old(Records()), Records(), p.ran, p.begun) && fresh(scheduler.pool.Values - old(scheduler.pool.Values))
      ensures end.Exited? ==> idleFiber.state.TERM? && NothingToTake()
      ensures end.Aborted? ==> Stuck(p.taken)
      ensures p.free == old(CbFiberFree())
      ensures p.free && end.Aborted? ==> !(p.taken.Some? && p.taken.value.task.CbTask?)
      ensures p.free && !end.Aborted? && !ReadyCallback(p, turn) ==> CbFiberFree()
    {
      hide Q.Take, Admitted, OneRan, Records;
      var queue, executing, known, slot := scheduler.fibers, scheduler.Executing(), scheduler.pool.Keys, SlotId();
      var free := CbFiberFree();
      NothingTaken(queue, thread, executing);
      var taken, ran, begun;
      taken, ran, begun, end := Round(turn.behaviour, turn.arrivals);
      p := Past(queue, executing, known, slot, free, taken, ran, begun, end);
    }

    /** A callback that yields ready while another is queued behind it: whatever
        happens meanwhile, the next round resets a callback fiber that is still in
        use, and trips the assertion. */
    method ReadyCallbackTrips(first: Callback, second: Callback, arrivals: seq<Entry>, turn: Turn) returns (end: End)
      requires Valid() && CbFiberFree()
      requires scheduler.fibers == [Entry(CbTask(first), -1), Entry(CbTask(second), -1)]
      modifies this, scheduler, scheduler.pool.Values, idleFiber
      ensures end.Aborted?
    {
      hide Q.Take, Admitted, OneRan, Records;
      Q.TakeIsFifo(scheduler.fibers, thread, scheduler.Executing());
      var taken, ran, begun;
      taken, ran, begun, end := Round(YieldsReady, arrivals);
      assert scheduler.fibers[0] == Entry(CbTask(second), -1);
      Q.TakeIsFifo(scheduler.fibers, thread, scheduler.Executing());
      taken, ran, begun, end := Round(turn.behaviour, turn.arrivals);
    }

    method RunFiber(f: Fiber, b: Behaviour, coming: seq<Entry>) returns (ran: Fiber?, begun: seq<Callback>, end: End)
      requires Valid() && f.id in scheduler.pool && scheduler.pool[f.id] == f && !f.state.EXEC?
      requires forall e :: e in coming ==> Admissible(e, scheduler.pool.Keys, SlotId())
      modifies scheduler`fibers, scheduler`unread, scheduler`active, f
      ensures Valid() && scheduler.active == old(scheduler.active)
      ensures FiberRound(old(f.state), b, f.state, end)
      ensures ran == if end.Continued? && !old(f.state).TERM? then f else null
      ensures OneRan(old(Records()), Records(), ran, begun)
      ensures end.Continued? ==> scheduler.fibers == old(scheduler.fibers) + coming + Requeued(ran)
    {
      hide OneRan, Records;
      ran, begun := null, [];
      if f.state.EXCPT? {
        end := Aborted;
      } else if f.state.TERM? {
        scheduler.Arrive(coming);
        end := Continued;
      } else {
        ran, begun := f, f.ToBegin();
        RunQueued(f, b, coming);
        end := Continued;
      }
      assert scheduler.pool[f.id] in scheduler.pool.Values;
      RanOne(ran, begun);
    }

    /** A queued fiber that has not ended, from switching it in to what becomes of it. */
    method RunQueued(f: Fiber, b: Behaviour, coming: seq<Entry>)
      requires Valid() && f.id in scheduler.pool && scheduler.pool[f.id] == f && !f.state.EXEC?
      requires forall e :: e in coming ==> Admissible(e, scheduler.pool.Keys, SlotId())
      modifies scheduler`fibers, scheduler`unread, scheduler`active, f
      ensures Valid() && scheduler.active == old(scheduler.active)
      ensures f.state == Settled(b) && f.resumed == old(f.resumed) + 1 && f.started == old(f.started) + old(f.ToBegin())
      ensures scheduler.fibers == old(scheduler.fibers) + coming + if f.state.READY? then [Entry(FiberTask(f.id), -1)] else []
    {
      scheduler.active := scheduler.active + 1;
      f.SwapIn();
      scheduler.Arrive(coming);
      f.RunUntilSwitch(b);
      scheduler.active := scheduler.active - 1;
      if f.state.READY? {
        scheduler.Schedule(Entry(FiberTask(f.id), -1));
      } else if !Ended(f.state) {
        f.state := HOLD;
      }
    }

    /** The callback goes into the fiber kept for that, or a new one. */
    method TakeCallback(cb: Callback) returns (ok: bool)
      requires Valid()
      modifies this`cbFiber, scheduler`pool, scheduler`nextId, cbFiber
      ensures Valid()
      ensures ok <==> old(cbFiber == null || cbFiber.Resettable())
      ensures ok ==> cbFiber != null && cbFiber.state.INIT? && cbFiber.cb == Some(cb)
      ensures old(cbFiber) != null ==> cbFiber == old(cbFiber)
      ensures old(cbFiber) == null ==> fresh(cbFiber) && cbFiber.id !in old(scheduler.pool)
      ensures ok ==> cbFiber.started == if old(cbFiber) != null then old(cbFiber.started) else []
      ensures ok ==> cbFiber.resumed == if old(cbFiber) != null then old(cbFiber.resumed) else 0
      ensures !ok ==> !cbFiber.Resettable() && cbFiber.started == old(cbFiber.started) && cbFiber.resumed == old(cbFiber.resumed)
      ensures scheduler.pool.Values == old(scheduler.pool.Values) + if ok then {cbFiber} else {}
      ensures old(scheduler.pool.Keys) <= scheduler.pool.Keys
      ensures ok && old(CbFiberFree()) ==> forall e :: e in scheduler.fibers ==> e.task != FiberTask(cbFiber.id)
      ensures fresh(scheduler.pool.Values - old(scheduler.pool.Values))
    {
      if cbFiber != null {
        if !cbFiber.Resettable() {
          return false;
        }
        cbFiber.Reset(Some(cb));
      } else {
        var id := scheduler.nextId;
        cbFiber := new Fiber(id, Some(cb));
        scheduler.nextId := id + 1;
        AddedValue(scheduler.pool, id, cbFiber);
        scheduler.pool := scheduler.pool[id := cbFiber];
      }
      assert scheduler.pool[cbFiber.id] in scheduler.pool.Values;
      ok := true;
    }

    method RunCallback(cb: Callback, b: Behaviour, coming: seq<Entry>) returns (ran: Fiber?, end: End)
      requires Valid() && forall e :: e in coming ==> Admissible(e, scheduler.pool.Keys, SlotId())
      modifies this`cbFiber, scheduler, cbFiber
      ensures Valid() && scheduler.active == old(scheduler.active) && scheduler.idle == old(scheduler.idle)
      ensures fresh(scheduler.pool.Values - old(scheduler.pool.Values))
      ensures end == if old(cbFiber == null || cbFiber.Resettable()) then Continued else Aborted
      ensures ran == null <==> end.Aborted?
      ensures end.Aborted? ==> cbFiber != null && !cbFiber.Resettable()
      ensures OneRan(old(Records()), Records(), ran, [cb])
      ensures end.Continued? ==>
                && ran != null && ran.id in scheduler.pool && scheduler.pool[ran.id] == ran && ran != idleFiber
                && (if old(cbFiber) != null then ran == old(cbFiber) else fresh(ran))
                && CallbackRound(cb, b, ran.state, ran.cb)
                && cbFiber == (if b.YieldsHold? || b.SwitchesOut? then null else ran)
                && scheduler.fibers == old(scheduler.fibers) + coming + Requeued(ran)
      ensures end.Continued? && old(CbFiberFree()) ==> (CbFiberFree() <==> !b.YieldsReady?)
    {
      hide OneRan, Records;
      assert cbFiber != null ==> scheduler.pool[cbFiber.id] in scheduler.pool.Values;
      var ok := TakeCallback(cb);
      if !ok {
        RanOne(null, [cb]);
        return null, Aborted;
      }
      ran := cbFiber;
      assert ran in scheduler.pool.Values by {
        assert scheduler.pool[ran.id] == ran;
      }
      RunKept(ran, cb, b, coming);
      RanOne(ran, [cb]);
      end := Continued;
    }

    /** The kept fiber with its callback, from switching it in to letting go of it. */
    method RunKept(f: Fiber, cb: Callback, b: Behaviour, coming: seq<Entry>)
      requires Valid() && cbFiber == f && f.state.INIT? && f.cb == Some(cb)
      requires forall e :: e in coming ==> Admissible(e, scheduler.pool.Keys, SlotId())
      modifies this`cbFiber, scheduler`fibers, scheduler`unread, scheduler`active, f
      ensures Valid() && scheduler.active == old(scheduler.active)
      ensures f.started == old(f.started) + [cb] && f.resumed == old(f.resumed) + 1 && CallbackRound(cb, b, f.state, f.cb)
      ensures cbFiber == if b.YieldsHold? || b.SwitchesOut? then null else f
      ensures scheduler.fibers == old(scheduler.fibers) + coming + if f.state.READY? then [Entry(FiberTask(f.id), -1)] else []
    {
      scheduler.active := scheduler.active + 1;
      f.SwapIn();
      scheduler.Arrive(coming);
      f.RunUntilSwitch(b);
      scheduler.active := scheduler.active - 1;
      if f.state.READY? {
        scheduler.Schedule(Entry(FiberTask(f.id), -1));
      } else if Ended(f.state) {
        f.Reset(None);
      } else {
        f.state := HOLD;
        cbFiber := null;
      }
    }

    method Idle(b: Behaviour, coming: seq<Entry>) returns (ran: Fiber?, begun: seq<Callback>, end: End)
      requires Valid() && forall e :: e in coming ==> Admissible(e, scheduler.pool.Keys, SlotId())
      modifies scheduler`idle, scheduler`fibers, scheduler`unread, idleFiber
      ensures Valid() && scheduler.idle == old(scheduler.idle)
      ensures IdleRound(old(idleFiber.state), b, idleFiber.state, end)
      ensures ran == if end.Continued? then idleFiber else null
      ensures OneRan(old(Records()), Records(), ran, begun)
      ensures scheduler.fibers == old(scheduler.fibers) + if end.Continued? then coming else []
      ensures scheduler.unread == old(scheduler.unread) +
                                  if end.Continued? && old(scheduler.fibers) == [] && coming != [] && scheduler.idle >= 0 then 1 else 0
    {
      hide OneRan, Records;
      ran, begun := null, [];
      if idleFiber.state.TERM? {
        end := Exited;
      } else if idleFiber.state.EXCPT? || idleFiber.state.EXEC? {
        end := Aborted;
      } else {
        ran, begun := idleFiber, idleFiber.ToBegin();
        RunIdle(b, coming);
        end := Continued;
      }
      RanOne(ran, begun);
    }

    /** The idle fiber, from switching it in to what becomes of it. */
    method RunIdle(b: Behaviour, coming: seq<Entry>)
      requires Valid() && forall e :: e in coming ==> Admissible(e, scheduler.pool.Keys, SlotId())
      requires !Ended(idleFiber.state) && !idleFiber.state.EXEC?
      modifies scheduler`idle, scheduler`fibers, scheduler`unread, idleFiber
      ensures Valid() && scheduler.idle == old(scheduler.idle)
      ensures idleFiber.state == if b.Returns? then TERM else if b.Throws? then EXCPT else HOLD
      ensures idleFiber.resumed == old(idleFiber.resumed) + 1
      ensures idleFiber.started == old(idleFiber.started) + old(idleFiber.ToBegin())
      ensures scheduler.fibers == old(scheduler.fibers) + coming
      ensures scheduler.unread == old(scheduler.unread) +
                                  if old(scheduler.fibers) == [] && coming != [] && scheduler.idle >= 0 then 1 else 0
    {
      scheduler.idle := scheduler.idle + 1;
      idleFiber.SwapIn();
      scheduler.Arrive(coming);
      idleFiber.RunUntilSwitch(b);
      scheduler.idle := scheduler.idle - 1;
      if !Ended(idleFiber.state) {
        idleFiber.state := HOLD;
      }
    }
  }

  lemma AddedValue<K, V>(m: map<K, V>, k: K, v: V)
    requires k !in m
    ensures m[k := v].Values == m.Values + {v}
  {
    var r := m[k := v];
    assert r[k] in r.Values;
    forall u | u in m.Values
      ensures u in r.Values
    {
      var j :| j in m && m[j] == u;
      assert r[j] == u;
    }
  }

  lemma NothingTaken(q: seq<Entry>, me: int, executing: set<FiberId>)
    ensures Q.Take(q, me, executing).taken.None? ==> Q.Take(q, me, executing).rest == q
  {
  }

  lemma OneMoreRound(history: seq<Past>, script: seq<Turn>, thread: int, idle: Fiber, first: seq<Entry>, p: Past,
                     last: seq<Entry>)
    requires |history| < |script| && Follows(history, script, thread, idle, first, p.queue, Continued)
    requires RoundOk(p, script[|history|], thread, idle)
    requires !p.end.Aborted? ==> last == QueueAfter(p, script[|history|], thread)
    ensures Follows(history + [p], script, thread, idle, first, last, p.end)
  {
    hide RoundOk, QueueAfter;
    assert (history + [p])[..|history|] == history;
  }

  lemma NothingRun(script: seq<Turn>, thread: int, idle: Fiber, first: seq<Entry>)
    ensures Follows([], script, thread, idle, first, first, Continued)
  {
  }

  lemma NoRounds(now: map<Fiber, Record>)
    ensures Agrees([], now, now)
  {
  }

  lemma OneMoreRun(history: seq<Past>, p: Past, f: Fiber)
    ensures TimesRun(history + [p], f) == TimesRun(history, f) + if p.ran == f then 1 else 0
    ensures CallbacksBegun(history + [p], f) == CallbacksBegun(history, f) + if p.ran == f then p.begun else []
  {
    assert (history + [p])[..|history|] == history;
  }

  lemma OneMoreAgrees(history: seq<Past>, first: map<Fiber, Record>, before: map<Fiber, Record>, after: map<Fiber, Record>,
                      p: Past)
    requires Agrees(history, first, before) && OneRan(before, after, p.ran, p.begun)
    ensures Agrees(history + [p], first, after)
  {
    hide TimesRun, CallbacksBegun;
    assert forall i :: 0 <= i < |history| ==> (history + [p])[i] == history[i];
    forall f | f in after
      ensures after[f] == Record(RecordOf(first, f).resumed + TimesRun(history + [p], f),
                                 RecordOf(first, f).started + CallbacksBegun(history + [p], f))
    {
      OneMoreRun(history, p, f);
      if f !in before {
        NeverRan(history, f);
      }
    }
  }

  lemma {:induction false} NeverRan(history: seq<Past>, f: Fiber)
    requires forall i :: 0 <= i < |history| ==> history[i].ran != f
    ensures TimesRun(history, f) == 0 && CallbacksBegun(history, f) == []
  {
    if history != [] {
      NeverRan(history[..|history| - 1], f);
    }
  }

  lemma OneMoreReady(history: seq<Past>, script: seq<Turn>, p: Past)
    requires |history| < |script|
    ensures forall i :: 0 <= i <= |history| ==>
              (NoneReadyBefore(history + [p], script, i) <==> NoneReadyBefore(history, script, i))
    ensures NoneReadyBefore(history + [p], script, |history| + 1) <==>
            NoneReadyBefore(history, script, |history|) && !ReadyCallback(p, script[|history|])
  {
    hide ReadyCallback;
    assert forall k :: 0 <= k < |history| ==> (history + [p])[k] == history[k];
    assert (history + [p])[|history|] == p;
  }

  /** The tasks of a vector of callbacks. */
  function Unwrapped(cbs: seq<Option<Callback>>): seq<Task>
    requires forall i :: 0 <= i < |cbs| ==> cbs[i].Some?
  {
    if cbs == [] then [] else Unwrapped(cbs[..|cbs| - 1]) + [CbTask(cbs[|cbs| - 1].value)]
  }

  lemma {:induction false} UnpinnedMore(ts: seq<Task>, t: Task)
    ensures Q.Unpinned(ts + [t]) == Q.Unpinned(ts) + [Entry(t, -1)]
  {
    if ts == [] {
      assert [t][1..] == [];
    } else {
      assert (ts + [t])[1..] == ts[1..] + [t];
      UnpinnedMore(ts[1..], t);
    }
  }

  lemma ElsewhereMore(q: seq<Entry>, i: nat, thread: int)
    requires i < |q|
    ensures Q.AnyElsewhere(q[..i + 1], thread) <==> Q.AnyElsewhere(q[..i], thread) || Q.Elsewhere(q[i], thread)
  {
    assert q[..i + 1] == q[..i] + [q[i]];
    if Q.Elsewhere(q[i], thread) {
      assert q[..i + 1][i] == q[i];
    }
    if Q.AnyElsewhere(q[..i], thread) {
      var k :| 0 <= k < i && Q.Elsewhere(q[..i][k], thread);
      assert q[..i + 1][k] == q[k];
    }
  }

  /** Where the scan stopped is the first eligible entry, if there is one. */
  lemma FirstAt(q: seq<Entry>, i: nat, thread: int, executing: set<FiberId>)
    requires i <= |q| && forall k :: 0 <= k < i ==> !Q.Eligible(q[k], thread, executing)
    requires i < |q| ==> Q.Eligible(q[i], thread, executing)
    ensures Q.FirstEligible(q, thread, executing) == if i < |q| then Some(i) else None
  {
  }
}
