/** Wake tokens: every fiber that has to be switched in again is referred to
    from exactly one place, whatever the other workers, timers, events and
    threads do. */
module RuntimeTokens {
  import opened Tasks
  import opened Tally
  import opened Runtime
  import T = TimerSet
  import E = EventTable
  import Q = ReadyQueue

  // ----- where tokens can be -----

  /** A task that will switch fiber f in, directly or by scheduling it. */
  function TokenOf(f: FiberId): Task -> nat
  {
    (t: Task) => if t == FiberTask(f) || t == CbTask(WakeCb(f)) then 1 else 0
  }

  function WeightOfTimer(t: UserTimer, w: Task -> nat): nat
  {
    if t.cb.Some? then w(CbTask(t.cb.value)) else 0
  }

  function TimerWeight(w: Task -> nat): UserTimer -> nat
  {
    (t: UserTimer) => WeightOfTimer(t, w)
  }

  function CallbackWeight(w: Task -> nat): Callback -> nat
  {
    (cb: Callback) => w(CbTask(cb))
  }

  /** Callbacks a worker has taken out of the queue or out of the timers. */
  function WeightInHand(p: Place, w: Task -> nat): nat
  {
    match p
    case InCallback(cb) => w(CbTask(cb))
    case IdleHand(cbs, _) => Sum(cbs, CallbackWeight(w))
    case _ => 0
  }

  function HandWeight(w: Task -> nat): Worker -> nat
  {
    (wk: Worker) => WeightInHand(wk.place, w)
  }

  /** Weight of everything that is queued, parked in the event table, set on a
      timer, or in some worker's hand. */
  function Total(s: State, w: Task -> nat): nat
  {
    Q.Queued(s.queue, w) + E.Parked(s.table, w) + Sum(s.timers, TimerWeight(w)) + Sum(s.workers, HandWeight(w))
  }

  // ----- how the pieces of a step move weight -----

  lemma PushTotal(s: State, e: Entry, w: Task -> nat)
    ensures Total(Push(s, e), w) == Total(s, w) + w(e.task)
  {
    SumPush(s.queue, e, Q.EntryWeight(w));
  }

  lemma PushAllTotal(s: State, ts: seq<Task>, w: Task -> nat)
    ensures Total(PushAll(s, ts), w) == Total(s, w) + Sum(ts, w)
  {
    Q.QueuedUnpinned(s.queue, ts, w);
  }

  lemma PushBatchTotal(s: State, ts: seq<Task>, w: Task -> nat)
    ensures Total(PushBatch(s, ts), w) == Total(s, w) + Sum(ts, w)
  {
    Q.QueuedUnpinned(s.queue, ts, w);
  }

  lemma PlaceTotal(s: State, i: nat, p: Place, w: Task -> nat)
    requires i < |s.workers|
    ensures Total(SetPlace(s, i, p), w) + WeightInHand(s.workers[i].place, w) == Total(s, w) + WeightInHand(p, w)
  {
    SumUpdate(s.workers, i, s.workers[i].(place := p), HandWeight(w));
  }

  lemma InsertTimerTotal(s: State, t: UserTimer, w: Task -> nat)
    ensures Total(InsertTimer(s, t), w) == Total(s, w) + WeightOfTimer(t, w)
  {
    T.SumOfInsert(s.timers, t, TimerWeight(w));
  }

  lemma DropTimerTotal(s: State, i: nat, w: Task -> nat)
    requires i < |s.timers|
    ensures Total(s.(timers := T.Drop(s.timers, i)), w) + WeightOfTimer(s.timers[i], w) == Total(s, w)
  {
    SumRemove(s.timers, i, TimerWeight(w));
  }

  lemma RekeyTotal(s: State, i: nat, t: UserTimer, w: Task -> nat)
    requires i < |s.timers| && t.cb == s.timers[i].cb
    ensures Total(RekeyTimer(s, i, t), w) == Total(s, w)
  {
    DropTimerTotal(s, i, w);
    InsertTimerTotal(s.(timers := T.Drop(s.timers, i)), t, w);
  }

  lemma {:induction false} CallbacksWeight(ts: seq<UserTimer>, w: Task -> nat)
    ensures Sum(CallbacksOf(ts), CallbackWeight(w)) == Sum(ts, TimerWeight(w))
  {
    if ts != [] {
      CallbacksWeight(ts[1..], w);
      if ts[0].cb.Some? {
        SumConcat([ts[0].cb.value], CallbacksOf(ts[1..]), CallbackWeight(w));
        SumOne(ts[0].cb.value, CallbackWeight(w));
      } else {
        assert [] + CallbacksOf(ts[1..]) == CallbacksOf(ts[1..]);
      }
    }
  }

  lemma {:induction false} CbTasksWeight(cbs: seq<Callback>, w: Task -> nat)
    ensures Sum(CbTasks(cbs), w) == Sum(cbs, CallbackWeight(w))
  {
    if cbs != [] {
      CbTasksWeight(cbs[1..], w);
      assert CbTasks(cbs)[1..] == CbTasks(cbs[1..]);
    }
  }

  // ----- what each step produces and consumes -----

  /** The task the next scan of worker w takes. */
  function NextTaken(s: State, w: nat): Option<Task>
  {
    var p := Q.Take(s.queue, w, Executing(s));
    if p.taken.Some? then Some(p.taken.value.task) else None
  }

  /** Tokens for fiber f that a step creates. */
  function Created(s: State, step: Step, f: FiberId): nat
  {
    match step
    case Act(_, PostFiber(_)) => if f == |s.fibers| then 1 else 0
    case Sleep(w, _, _) => if f == Current(s, w) then 1 else 0
    case RegisterWait(w, ctl) => if f == Current(s, w) && ctl then 1 else 0
    case YieldReady(w) => if f == Current(s, w) then 1 else 0
    case _ => 0
  }

  /** Tokens for fiber f that a step uses up. */
  function Consumed(s: State, step: Step, f: FiberId): nat
  {
    match step
    case Dispatch(w) => if NextTaken(s, w) == Some(FiberTask(f)) then 1 else 0
    case _ => 0
  }

  /** What the tables have to satisfy for their operations to move tokens well. */
  ghost predicate TablesInv(s: State)
  {
    && T.Inv(s.timers)
    && E.Inv(s.table)
    && (forall t :: t in s.timers && t.recurring ==> IsUserTimer(t))
  }

  lemma ActionTotal(s: State, inside: bool, a: Action, f: FiberId)
    requires TablesInv(s) && ActionEnabled(s, inside, a)
    ensures Total(DoAction(s, inside, a), TokenOf(f)) ==
            Total(s, TokenOf(f)) + if a.PostFiber? && f == |s.fibers| then 1 else 0
  {
    hide Sum, T.Insert, T.UpperBound, E.Parked, Q.Queued, E.AddEvent, E.DelEvent, E.CancelEvent, E.CancelAll;
    var w := TokenOf(f);
    match a
    case PostFiber(thread) =>
      var r := s.(fibers := s.fibers + [Fiber(INIT, User, None, 0, 0)]);
      assert Total(r, w) == Total(s, w);
      PushTotal(r, Entry(FiberTask(|s.fibers|), thread), w);
    case PostCallback(id, thread) => PushTotal(s, Entry(CbTask(UserCb(id)), thread), w);
    case AddTimer(addr, ms, recurring, id) =>
      InsertTimerTotal(s, T.Timer(addr, T.Add64(s.now, ms), ms, recurring, Some(UserCb(id))), w);
    case CancelTimer(addr) => DropTimerTotal(s, T.Find(s.timers, addr).value, w);
    case RefreshTimer(addr) =>
      var i := T.Find(s.timers, addr).value;
      RekeyTotal(s, i, T.Refreshed(s.timers[i], s.now), w);
    case ResetTimer(addr, ms, fromNow) =>
      var i := T.Find(s.timers, addr).value;
      RekeyTotal(s, i, T.ResetTo(s.timers[i], ms, fromNow, s.now), w);
    case _ => EventActionTotal(s, inside, a, f);
  }

  lemma EventActionTotal(s: State, inside: bool, a: Action, f: FiberId)
    requires TablesInv(s) && ActionEnabled(s, inside, a)
    requires a.AddCallbackEvent? || a.DelCallbackEvent? || a.CancelFdEvent? || a.CancelFd?
    ensures Total(DoAction(s, inside, a), TokenOf(f)) == Total(s, TokenOf(f))
  {
    hide Sum, E.Parked, Q.Queued, E.AddEvent, E.DelEvent, E.Leave, E.Scheduled, E.Inv, T.Inv;
    var w := TokenOf(f);
    match a
    case AddCallbackEvent(fd, e, id, ctl) => E.AddEventParks(s.table, fd, e, CbTask(UserCb(id)), ctl, w);
    case DelCallbackEvent(fd, e, ctl) => DelTotal(s, fd, e, ctl, f);
    case CancelFdEvent(fd, e, ctl) =>
      E.CancelsConserve(s.table, fd, e, ctl, w);
      var r := E.CancelEvent(s.table, fd, e, ctl);
      PushAllTotal(s.(table := r.table), r.woken, w);
    case CancelFd(fd, ctl) =>
      E.CancelsConserve(s.table, fd, READ, ctl, w);
      var r := E.CancelAll(s.table, fd, ctl);
      PushAllTotal(s.(table := r.table), r.woken, w);
  }

  lemma DelTotal(s: State, fd: nat, e: Event, ctl: bool, f: FiberId)
    requires TablesInv(s) && ActionEnabled(s, true, DelCallbackEvent(fd, e, ctl))
    ensures Total(s.(table := E.DelEvent(s.table, fd, e, ctl).table), TokenOf(f)) == Total(s, TokenOf(f))
  {
    E.DelEventDrops(s.table, fd, e, ctl, TokenOf(f));
  }

  lemma ReleaseTotal(s: State, i: nat, w: Task -> nat)
    requires i < |s.workers|
    ensures Total(Release(s, i), w) + WeightInHand(s.workers[i].place, w) == Total(s, w)
  {
    PlaceTotal(s, i, AtTop, w);
  }

  lemma ScannedTotal(s: State, w: nat, k: Task -> nat)
    ensures Total(Scanned(s, w), k) + (if NextTaken(s, w).Some? then k(NextTaken(s, w).value) else 0) == Total(s, k)
  {
    Q.QueuedTake(s.queue, w, Executing(s), k);
  }

  lemma ScannedFrame(s: State, w: nat)
    ensures var r := Scanned(s, w);
            r == s.(queue := r.queue, taken := r.taken, unread := r.unread) && r.unread >= s.unread
  {
  }

  lemma DispatchTotal(s: State, w: nat, f: FiberId)
    requires w < |s.workers| && s.workers[w].place.AtTop?
    ensures Total(DoDispatch(s, w), TokenOf(f)) + Consumed(s, Dispatch(w), f) == Total(s, TokenOf(f))
  {
    hide Sum, E.Parked, Q.Queued, Scanned, SwapIn, Executing, Q.Take;
    var k := TokenOf(f);
    var r := Scanned(s, w);
    ScannedFrame(s, w);
    ScannedTotal(s, w, k);
    match NextTaken(s, w)
    case None => PlaceTotal(r, w, if s.workers[w].idleDone then Exited else IdleEnter, k);
    case Some(FiberTask(g)) =>
      if FiberAt(s, g).state != TERM {
        SwapInTotal(r, w, g, k);
      }
    case Some(CbTask(cb)) => PlaceTotal(r, w, if cb.UserCb? then InFiber(|s.fibers|) else InCallback(cb), k);
  }

  lemma SwapInTotal(s: State, w: nat, g: FiberId, k: Task -> nat)
    requires w < |s.workers| && s.workers[w].place.AtTop?
    ensures Total(SwapIn(s, w, g), k) == Total(s, k)
  {
    hide Sum, T.Insert, T.UpperBound, E.Parked, Q.Queued;
    PlaceTotal(s, w, InFiber(g), k);
  }

  lemma ExpireTotal(s: State, w: nat, probe: nat, f: FiberId)
    requires TablesInv(s) && w < |s.workers| && s.workers[w].place.IdleExpire?
    ensures Total(DoExpire(s, w, probe), TokenOf(f)) == Total(s, TokenOf(f))
  {
    hide Sum, T.Insert, T.UpperBound, E.Parked, Q.Queued;
    var k := TokenOf(f);
    var fired := T.Fired(s.timers, s.now, probe);
    T.SumOfExpire(s.timers, s.now, probe, TimerWeight(k));
    CallbacksWeight(fired, k);
    var r := s.(timers := T.Expire(s.timers, s.now, probe));
    PlaceTotal(r, w, IdleHand(CallbacksOf(fired), s.workers[w].place.reports), k);
  }

  lemma PostExpiredTotal(s: State, w: nat, f: FiberId)
    requires w < |s.workers| && s.workers[w].place.IdleHand?
    ensures Total(DoPostExpired(s, w), TokenOf(f)) == Total(s, TokenOf(f))
  {
    hide Sum, T.Insert, T.UpperBound, E.Parked, Q.Queued;
    var k := TokenOf(f);
    var p := s.workers[w].place;
    PushBatchTotal(s, CbTasks(p.cbs), k);
    CbTasksWeight(p.cbs, k);
    PlaceTotal(PushBatch(s, CbTasks(p.cbs)), w, IdleReports(p.reports), k);
  }

  lemma ReportTotal(s: State, w: nat, ctl: bool, f: FiberId)
    requires TablesInv(s) && w < |s.workers| && s.workers[w].place.IdleReports? && ReportEnabled(s, w, ctl)
    ensures Total(DoReport(s, w, ctl), TokenOf(f)) == Total(s, TokenOf(f))
  {
    hide Sum, T.Insert, T.UpperBound, E.Parked, Q.Queued;
    var k := TokenOf(f);
    var rs := s.workers[w].place.reports;
    if rs == [] {
      PlaceTotal(s, w, AtTop, k);
    } else if rs[0].Tickle? {
      PlaceTotal(s, w, IdleReports(rs[1..]), k);
    } else {
      var r := E.ProcessReady(s.table, rs[0].fd, rs[0].ready, ctl);
      E.ReadyConserves(s.table, rs[0].fd, rs[0].ready, ctl, k);
      PushAllTotal(s.(table := r.table), r.woken, k);
      PlaceTotal(PushAll(s.(table := r.table), r.woken), w, IdleReports(rs[1..]), k);
    }
  }

  lemma CallbackTotal(s: State, w: nat, f: FiberId)
    requires w < |s.workers| && s.workers[w].place.InCallback?
    ensures Total(DoCallback(s, w), TokenOf(f)) == Total(s, TokenOf(f))
  {
    hide Sum, T.Insert, T.UpperBound, E.Parked, Q.Queued;
    var k := TokenOf(f);
    match s.workers[w].place.cb
    case UserCb(_) => ReleaseTotal(s, w, k);
    case WakeCb(g) =>
      PushTotal(s, Entry(FiberTask(g), -1), k);
      ReleaseTotal(Push(s, Entry(FiberTask(g), -1)), w, k);
    case TimeoutCb(c, fd, e) =>
      ReleaseTotal(s, w, k);
      var r := SetCall(s, c, CallAt(s, c).(cancelled := true));
      PlaceTotal(r, w, InCancel(c, fd, e), k);
  }

  lemma CancelTotal(s: State, w: nat, ctl: bool, f: FiberId)
    requires TablesInv(s) && w < |s.workers| && s.workers[w].place.InCancel?
    ensures Total(DoCancel(s, w, ctl), TokenOf(f)) == Total(s, TokenOf(f))
  {
    hide Sum, T.Insert, T.UpperBound, E.Parked, Q.Queued;
    var k := TokenOf(f);
    var p := s.workers[w].place;
    var r := E.CancelEvent(s.table, p.fd, p.event, ctl);
    E.CancelsConserve(s.table, p.fd, p.event, ctl, k);
    PushAllTotal(s.(table := r.table), r.woken, k);
    ReleaseTotal(PushAll(s.(table := r.table), r.woken), w, k);
  }

  /** The timer a call holds on to is its own, so dropping it drops no token. */
  ghost predicate HandlesInv(s: State)
  {
    forall c, t :: 0 <= c < |s.calls| && t in s.timers && s.calls[c].handle == Some(t.addr) ==>
      t.cb.Some? && t.cb.value.TimeoutCb?
  }

  lemma DropHandleTotal(s: State, c: CallId, f: FiberId)
    requires HandlesInv(s)
    ensures Total(DropHandle(s, c), TokenOf(f)) == Total(s, TokenOf(f))
  {
    if c < |s.calls| && s.calls[c].handle.Some? {
      var i := T.Find(s.timers, s.calls[c].handle.value);
      if i.Some? {
        assert s.timers[i.value] in s.timers;
        DropTimerTotal(s, i.value, TokenOf(f));
      }
    }
  }

  lemma RegisterTotal(s: State, w: nat, ctl: bool, f: FiberId)
    requires TablesInv(s) && HandlesInv(s) && CurrentPc(s, w).Armed? && |s.table.contexts| >= 2
    requires var call := CallAt(s, CurrentPc(s, w).call);
             E.AddEvent(s.table, call.fd, EventOf(call), FiberTask(Current(s, w)), ctl).Effect?
    ensures Total(DoRegister(s, w, ctl), TokenOf(f)) ==
            Total(s, TokenOf(f)) + if f == Current(s, w) && ctl then 1 else 0
  {
    hide Sum, E.Parked, Q.Queued, E.AddEvent, DropHandle, E.Inv;
    var c := CurrentPc(s, w).call;
    var call := CallAt(s, c);
    E.AddEventParks(s.table, call.fd, EventOf(call), FiberTask(Current(s, w)), ctl, TokenOf(f));
    var r := s.(table := E.AddEvent(s.table, call.fd, EventOf(call), FiberTask(Current(s, w)), ctl).table);
    assert Total(r, TokenOf(f)) == Total(s, TokenOf(f)) + if f == Current(s, w) && ctl then 1 else 0;
    DropHandleTotal(r, c, f);
    assert DoRegister(s, w, ctl).timers == (if ctl then r else DropHandle(r, c)).timers;
  }

  lemma SameTotal(s: State, r: State, k: Task -> nat)
    requires r.queue == s.queue && r.table == s.table && r.timers == s.timers && r.workers == s.workers
    ensures Total(r, k) == Total(s, k)
  {
  }

  lemma ActTotal(s: State, who: Option<nat>, a: Action, f: FiberId)
    requires TablesInv(s) && Enabled(s, Act(who, a))
    ensures Total(Apply(s, Act(who, a)), TokenOf(f)) == Total(s, TokenOf(f)) + Created(s, Act(who, a), f)
  {
    hide Total, DoAction, T.Find, E.AddEvent;
    var m := s.(late := s.late || (who.None? && s.stopped));
    SameTotal(s, m, TokenOf(f));
    ActionTotal(m, who.Some?, a, f);
  }

  lemma IdleCheckTotal(s: State, w: nat, k: Task -> nat)
    requires w < |s.workers| && s.workers[w].place.IdleEnter?
    ensures Total(DoIdleCheck(s, w), k) == Total(s, k)
  {
    hide Sum, E.Parked, Q.Queued, Stopping;
    SumUpdate(s.workers, w, Worker(AtTop, true), HandWeight(k));
    PlaceTotal(s, w, IdleWait(s.now, s.now + WaitTime(s)), k);
  }

  /** Tokens move but do not multiply: a step changes the number of tokens for a
      fiber only by what it visibly creates or consumes. */
  lemma StepTotal(s: State, step: Step, f: FiberId)
    requires TablesInv(s) && HandlesInv(s) && Enabled(s, step)
    ensures Total(Apply(s, step), TokenOf(f)) + Consumed(s, step, f) == Total(s, TokenOf(f)) + Created(s, step, f)
  {
    hide Total, ActionEnabled, DoAction, DoDispatch, DoIdleCheck, DoExpire, DoPostExpired, DoReport, DoCallback, DoCancel,
         ReportsOk, ReportEnabled, FreeAddress, E.AddEvent;
    var k := TokenOf(f);
    match step
    case Advance(_) => SameTotal(s, Apply(s, step), k);
    case Stop => SameTotal(s, Apply(s, step), k);
    case Act(who, a) => ActTotal(s, who, a, f);
    case Dispatch(w) => DispatchTotal(s, w, f);
    case IdleCheck(w) => IdleCheckTotal(s, w, k);
    case WaitReturns(w, reports) => PlaceTotal(s, w, IdleExpire(reports), k);
    case ExpireTimers(w, probe) => ExpireTotal(s, w, probe, f);
    case PostExpired(w) => PostExpiredTotal(s, w, f);
    case HandleReport(w, ctl) => ReportTotal(s, w, ctl, f);
    case RunCallback(w) => CallbackTotal(s, w, f);
    case RunCancel(w, ctl) => CancelTotal(s, w, ctl, f);
    case _ => FiberStepTotal(s, step, f);
  }

  lemma FiberStepTotal(s: State, step: Step, f: FiberId)
    requires TablesInv(s) && HandlesInv(s) && Enabled(s, step)
    requires step.Sleep? || step.Begin? || step.RawCall? || step.RegisterWait? || step.Suspend? ||
             step.YieldReady? || step.AfterWait? || step.CheckSocket? || step.Finish?
    ensures Total(Apply(s, step), TokenOf(f)) == Total(s, TokenOf(f)) + Created(s, step, f)
  {
    hide Total, FreeAddress, E.AddEvent, DoSleep, DoBegin, DoRawCall, DoRegister, DoSuspend, DoYieldReady, DoAfterWait,
         DoCheckSocket, DoFinish;
    match step
    case Sleep(w, ms, addr) => SleepTotal(s, w, ms, addr, f);
    case Begin(w, kind, fd, timeout) => SameTotal(s, Apply(s, step), TokenOf(f));
    case RawCall(w, raw, addr) => RawCallTotal(s, w, raw, addr, f);
    case RegisterWait(w, ctl) => RegisterTotal(s, w, ctl, f);
    case AfterWait(w) => AfterWaitTotal(s, w, f);
    case CheckSocket(w, errno) => SameTotal(s, Apply(s, step), TokenOf(f));
    case _ => SwapStepTotal(s, step, f);
  }

  lemma SwapStepTotal(s: State, step: Step, f: FiberId)
    requires Enabled(s, step) && (step.Suspend? || step.YieldReady? || step.Finish?)
    ensures Total(Apply(s, step), TokenOf(f)) == Total(s, TokenOf(f)) + Created(s, step, f)
  {
    hide Total, DoSuspend, DoYieldReady, DoFinish;
    match step
    case Suspend(w) => SuspendTotal(s, w, TokenOf(f));
    case YieldReady(w) => YieldReadyTotal(s, w, f);
    case Finish(w, throws) => FinishTotal(s, w, throws, TokenOf(f));
  }

  lemma SleepTotal(s: State, w: nat, ms: nat, addr: nat, f: FiberId)
    ensures Total(DoSleep(s, w, ms, addr), TokenOf(f)) == Total(s, TokenOf(f)) + if f == Current(s, w) then 1 else 0
  {
    hide Sum, T.Insert, T.UpperBound, E.Parked, Q.Queued;
    var t := T.Timer(addr, T.Add64(s.now, ms), ms, false, Some(WakeCb(Current(s, w))));
    InsertTimerTotal(WithPc(s, w, Asleep(s.now + ms)), t, TokenOf(f));
  }

  lemma SwapOutTotal(s: State, w: nat, fb: Fiber, k: Task -> nat)
    requires Runs(s, w)
    ensures Total(Release(SetFiber(s, Current(s, w), fb), w), k) == Total(s, k)
  {
    hide Sum, T.Insert, T.UpperBound, E.Parked, Q.Queued;
    ReleaseTotal(SetFiber(s, Current(s, w), fb), w, k);
  }

  lemma SuspendTotal(s: State, w: nat, k: Task -> nat)
    requires Runs(s, w)
    ensures Total(DoSuspend(s, w), k) == Total(s, k)
  {
    var fb := FiberAt(s, Current(s, w));
    SwapOutTotal(s, w, fb.(state := HOLD, yielded := fb.yielded + 1), k);
  }

  lemma FinishTotal(s: State, w: nat, throws: bool, k: Task -> nat)
    requires Runs(s, w)
    ensures Total(DoFinish(s, w, throws), k) == Total(s, k)
  {
    SwapOutTotal(s, w, FiberAt(s, Current(s, w)).(state := if throws then EXCPT else TERM), k);
  }

  lemma YieldReadyTotal(s: State, w: nat, f: FiberId)
    requires Runs(s, w)
    ensures Total(DoYieldReady(s, w), TokenOf(f)) == Total(s, TokenOf(f)) + if f == Current(s, w) then 1 else 0
  {
    hide Sum, T.Insert, T.UpperBound, E.Parked, Q.Queued;
    var g := Current(s, w);
    var fb := FiberAt(s, g).(state := READY, yielded := FiberAt(s, g).yielded + 1);
    SwapOutTotal(s, w, fb, TokenOf(f));
    PushTotal(Release(SetFiber(s, g, fb), w), Entry(FiberTask(g), -1), TokenOf(f));
  }

  lemma AfterWaitTotal(s: State, w: nat, f: FiberId)
    requires HandlesInv(s) && CurrentPc(s, w).Woken?
    ensures Total(DoAfterWait(s, w), TokenOf(f)) == Total(s, TokenOf(f))
  {
    hide Sum, T.Insert, T.UpperBound, E.Parked, Q.Queued;
    DropHandleTotal(s, CurrentPc(s, w).call, f);
  }

  lemma RawCallTotal(s: State, w: nat, raw: Raw, addr: nat, f: FiberId)
    requires CurrentPc(s, w).Trying?
    ensures Total(DoRawCall(s, w, raw, addr), TokenOf(f)) == Total(s, TokenOf(f))
  {
    hide Sum, E.Parked, Q.Queued, InsertTimer, AfterRaw;
    var c := CurrentPc(s, w).call;
    var call := CallAt(s, c);
    var armed := WithPc(SetCall(s, c, AfterRaw(call, raw, s.now, addr)), w, Armed(c));
    if call.timeout.Some? {
      InsertTimerTotal(armed, TimerOf(call, c, s.now, addr), TokenOf(f));
    }
  }

  // ----- workers and fibers -----

  /** The worker a step moves; actions move none. */
  function WorkerOf(step: Step): Option<nat>
  {
    match step
    case Advance(_) => None
    case Stop => None
    case Act(_, _) => None
    case Dispatch(w) => Some(w)
    case IdleCheck(w) => Some(w)
    case WaitReturns(w, _) => Some(w)
    case ExpireTimers(w, _) => Some(w)
    case PostExpired(w) => Some(w)
    case HandleReport(w, _) => Some(w)
    case RunCallback(w) => Some(w)
    case RunCancel(w, _) => Some(w)
    case Sleep(w, _, _) => Some(w)
    case Begin(w, _, _, _) => Some(w)
    case RawCall(w, _, _) => Some(w)
    case RegisterWait(w, _) => Some(w)
    case Suspend(w) => Some(w)
    case YieldReady(w) => Some(w)
    case AfterWait(w) => Some(w)
    case CheckSocket(w, _) => Some(w)
    case Finish(w, _) => Some(w)
  }

  function RunsFiber(wk: Worker, f: FiberId): nat
  {
    if wk.place == InFiber(f) then 1 else 0
  }

  function BusyWeight(): Worker -> nat { (wk: Worker) => Busy(wk) }

  function IdlingWeight(): Worker -> nat { (wk: Worker) => Idling(wk) }

  function RunsWeight(f: FiberId): Worker -> nat { (wk: Worker) => RunsFiber(wk, f) }

  /** The counters say how many workers are inside a task and how many idle. */
  ghost predicate CountersInv(s: State)
  {
    && s.active == Sum(s.workers, BusyWeight())
    && s.idle == Sum(s.workers, IdlingWeight())
  }

  function ExecutingAt(s: State, f: FiberId): nat
  {
    if f < |s.fibers| && s.fibers[f].state == EXEC then 1 else 0
  }

  /** A fiber is executing exactly when one worker runs it, and never on two. */
  ghost predicate RunsInv(s: State)
  {
    forall f: FiberId :: Sum(s.workers, RunsWeight(f)) == ExecutingAt(s, f)
  }

  /** A step moves at most one worker and keeps the counters in step with it. */
  lemma StepMovesWorker(s: State, step: Step)
    requires Enabled(s, step)
    ensures var r := Apply(s, step);
            if WorkerOf(step).Some? then Moved(s, r, WorkerOf(step).value)
            else r.workers == s.workers && r.active == s.active && r.idle == s.idle
  {
    hide DoAction, DoDispatch, DoIdleCheck, DoExpire, DoPostExpired, DoReport, DoCallback, DoCancel, DoSleep, DoBegin,
         DoRawCall, DoRegister, DoSuspend, DoYieldReady, DoAfterWait, DoCheckSocket, DoFinish, ReportsOk, ReportEnabled,
         ActionEnabled, FreeAddress;
  }

  lemma StepKeepsCounters(s: State, step: Step)
    requires CountersInv(s) && Enabled(s, step)
    ensures CountersInv(Apply(s, step))
  {
    hide Sum, Enabled, Apply;
    StepMovesWorker(s, step);
    var r := Apply(s, step);
    if WorkerOf(step).Some? {
      var w := WorkerOf(step).value;
      SumUpdate(s.workers, w, r.workers[w], BusyWeight());
      SumUpdate(s.workers, w, r.workers[w], IdlingWeight());
    }
  }

  // ----- fibers -----

  /** What a fiber's state says about where it is in its program, and about its
      switches: every resumption pairs with one earlier start or suspension. */
  predicate FiberOk(fb: Fiber)
  {
    match fb.state
    case INIT => fb.pc.User? && fb.resumed == fb.yielded == 0
    case READY => fb.pc.User? && fb.resumed == fb.yielded
    case HOLD => (fb.pc.Registered? || fb.pc.Asleep?) && fb.resumed == fb.yielded
    case EXEC => fb.resumed == fb.yielded + 1
    case TERM => fb.pc.User? && fb.resumed == fb.yielded + 1
    case EXCPT => fb.pc.User? && fb.resumed == fb.yielded + 1
  }

  ghost predicate FibersInv(s: State)
  {
    forall f :: 0 <= f < |s.fibers| ==> FiberOk(s.fibers[f])
  }

  /** Whether somebody must still switch the fiber in: it is ready or suspended,
      or has handed out its continuation and not stopped running yet. */
  predicate Owing(fb: Fiber)
  {
    match fb.state
    case INIT => true
    case READY => true
    case HOLD => true
    case EXEC => fb.pc.Registered? || fb.pc.Asleep?
    case TERM => false
    case EXCPT => false
  }

  function Owed(s: State, f: FiberId): nat
  {
    if f < |s.fibers| && Owing(s.fibers[f]) then 1 else 0
  }

  /** Linearity: exactly one token for each fiber that must run again, none for
      any other. */
  ghost predicate Linear(s: State)
  {
    forall f: FiberId :: Total(s, TokenOf(f)) == Owed(s, f)
  }

  ghost predicate TokenInv(s: State)
  {
    TablesInv(s) && HandlesInv(s) && CountersInv(s) && RunsInv(s) && FibersInv(s) && Linear(s)
  }

  /** A queued task for a fiber counts in full. */
  lemma QueuedToken(s: State, e: Entry, f: FiberId)
    requires e in s.queue
    ensures TokenOf(f)(e.task) <= Total(s, TokenOf(f))
  {
    var i :| 0 <= i < |s.queue| && s.queue[i] == e;
    SumMember(s.queue, i, Q.EntryWeight(TokenOf(f)));
  }

  /** What the next scan takes can be switched in: it is a known fiber that is
      ready or suspended, neither executing nor finished. */
  lemma TakenIsRunnable(s: State, w: nat, f: FiberId)
    requires Linear(s) && NextTaken(s, w) == Some(FiberTask(f))
    ensures f < |s.fibers| && s.fibers[f].state != EXEC && Owing(s.fibers[f])
  {
    hide Sum, E.Parked;
    Q.TakeExact(s.queue, w, Executing(s));
    var e := Q.Take(s.queue, w, Executing(s)).taken.value;
    assert e in s.queue by {
      assert e in multiset(s.queue);
    }
    QueuedToken(s, e, f);
    assert Owed(s, f) == 1;
  }

  /** The fiber a worker runs is executing. */
  lemma RunningExecutes(s: State, w: nat)
    requires RunsInv(s) && w < |s.workers| && s.workers[w].place.InFiber?
    ensures var f := s.workers[w].place.fiber; f < |s.fibers| && s.fibers[f].state == EXEC
  {
    SumMember(s.workers, w, RunsWeight(s.workers[w].place.fiber));
  }

  /** How a step may change the fibers, seen from one of them. */
  ghost predicate FiberStep(s: State, r: State, step: Step, f: FiberId)
  {
    && (f < |r.fibers| ==> FiberOk(r.fibers[f]))
    && Owed(r, f) + Consumed(s, step, f) == Owed(s, f) + Created(s, step, f)
    && match WorkerOf(step)
       case None => ExecutingAt(r, f) == ExecutingAt(s, f)
       case Some(w) =>
         w < |s.workers| == |r.workers| &&
         ExecutingAt(r, f) + RunsFiber(s.workers[w], f) == ExecutingAt(s, f) + RunsFiber(r.workers[w], f)
  }

  lemma DispatchFiberStep(s: State, w: nat, f: FiberId)
    requires FibersInv(s) && Linear(s) && w < |s.workers| && s.workers[w].place.AtTop?
    ensures FiberStep(s, DoDispatch(s, w), Dispatch(w), f)
  {
    hide Linear, FiberStep, DoDispatch, NextTaken;
    if NextTaken(s, w).Some? && NextTaken(s, w).value.FiberTask? {
      TakenIsRunnable(s, w, NextTaken(s, w).value.fiber);
      SwapInFiberStep(s, w, NextTaken(s, w).value.fiber, f);
    } else {
      NoSwapInFiberStep(s, w, f);
    }
  }

  lemma SwapInFiberStep(s: State, w: nat, g: FiberId, f: FiberId)
    requires FibersInv(s) && w < |s.workers| && s.workers[w].place.AtTop? && NextTaken(s, w) == Some(FiberTask(g))
    requires g < |s.fibers| && s.fibers[g].state != EXEC && Owing(s.fibers[g])
    ensures FiberStep(s, DoDispatch(s, w), Dispatch(w), f)
  {
    hide Executing, Scanned, Q.Take;
    assert FiberOk(s.fibers[g]);
  }

  lemma NoSwapInFiberStep(s: State, w: nat, f: FiberId)
    requires FibersInv(s) && w < |s.workers| && s.workers[w].place.AtTop?
    requires NextTaken(s, w).None? || NextTaken(s, w).value.CbTask?
    ensures FiberStep(s, DoDispatch(s, w), Dispatch(w), f)
  {
    hide Executing, Scanned, Q.Take, SwapIn;
  }

  lemma ActionFiberStep(s: State, who: Option<nat>, a: Action, f: FiberId)
    requires FibersInv(s) && Enabled(s, Act(who, a))
    ensures FiberStep(s, Apply(s, Act(who, a)), Act(who, a), f)
  {
    hide ActionEnabled, T.Insert, T.Cancel, T.Find, E.AddEvent, E.DelEvent, E.CancelEvent, E.CancelAll;
    assert !a.PostFiber? ==> Apply(s, Act(who, a)).fibers == s.fibers;
  }

  /** A running fiber that goes on running. */
  lemma RunningFiberStep(s: State, r: State, step: Step, w: nat, f: FiberId)
    requires FibersInv(s) && RunsInv(s) && Runs(s, w) && WorkerOf(step) == Some(w)
    requires PcMoved(s, r, w) && r.workers == s.workers && !step.Dispatch?
    requires !CurrentPc(s, w).Registered? && !CurrentPc(s, w).Asleep?
    requires Created(s, step, f) ==
             if f == Current(s, w) && (CurrentPc(r, w).Registered? || CurrentPc(r, w).Asleep?) then 1 else 0
    ensures FiberStep(s, r, step, f)
  {
    hide Sum, RunsInv, Created;
    RunningExecutes(s, w);
  }

  /** A running fiber that stops. */
  lemma StoppingFiberStep(s: State, r: State, step: Step, w: nat, state: FiberState, yielded: nat, f: FiberId)
    requires FibersInv(s) && RunsInv(s) && Runs(s, w) && WorkerOf(step) == Some(w)
    requires SwappedOut(s, r, w, state, yielded) && !step.Dispatch?
    requires FiberOk(FiberAt(s, Current(s, w)).(state := state, yielded := yielded))
    requires Created(s, step, f) ==
             if f == Current(s, w) && !CurrentPc(s, w).Registered? && !CurrentPc(s, w).Asleep? && state == READY then 1 else 0
    requires state == READY || state == HOLD || state == TERM || state == EXCPT
    ensures FiberStep(s, r, step, f)
  {
    hide Sum, RunsInv, Created;
    RunningExecutes(s, w);
  }

  /** Every other step leaves the fibers alone. */
  lemma QuietFiberStep(s: State, step: Step, f: FiberId)
    requires FibersInv(s) && Enabled(s, step)
    requires step.Advance? || step.Stop? || step.RunCallback? || step.RunCancel?
    ensures FiberStep(s, Apply(s, step), step, f)
  {
    hide E.CancelEvent;
  }

  lemma IdleFiberStep(s: State, step: Step, f: FiberId)
    requires FibersInv(s) && Enabled(s, step)
    requires step.IdleCheck? || step.WaitReturns? || step.ExpireTimers? || step.PostExpired? || step.HandleReport?
    ensures FiberStep(s, Apply(s, step), step, f)
  {
    hide ReportsOk, ReportEnabled, FreeAddress, T.Expire, T.Fired, E.ProcessReady, Stopping;
  }

  lemma SwapOutFiberStep(s: State, step: Step, f: FiberId)
    requires FibersInv(s) && RunsInv(s) && Enabled(s, step)
    requires step.Suspend? || step.YieldReady? || step.Finish?
    ensures FiberStep(s, Apply(s, step), step, f)
  {
    hide Sum, FiberStep, DoSuspend, DoYieldReady, DoFinish, RunsInv;
    var y := FiberAt(s, Current(s, step.w)).yielded;
    RunningExecutes(s, step.w);
    if step.Suspend? {
      StoppingFiberStep(s, Apply(s, step), step, step.w, HOLD, y + 1, f);
    } else if step.YieldReady? {
      StoppingFiberStep(s, Apply(s, step), step, step.w, READY, y + 1, f);
    } else {
      StoppingFiberStep(s, Apply(s, step), step, step.w, if step.throws then EXCPT else TERM, y, f);
    }
  }

  lemma StepMovesFibers(s: State, step: Step, f: FiberId)
    requires TokenInv(s) && Enabled(s, step)
    ensures FiberStep(s, Apply(s, step), step, f)
  {
    hide Sum, TablesInv, HandlesInv, CountersInv, FiberStep, FreeAddress, E.AddEvent, ActionEnabled, ReportsOk,
         ReportEnabled,
         DoAction, DoDispatch, DoIdleCheck, DoExpire, DoPostExpired, DoReport, DoCallback, DoCancel,
         DoSleep, DoBegin, DoRawCall, DoRegister, DoSuspend, DoYieldReady, DoAfterWait, DoCheckSocket, DoFinish;
    if step.Act? {
      ActionFiberStep(s, step.worker, step.action, f);
    } else if step.Dispatch? {
      DispatchFiberStep(s, step.w, f);
    } else if step.Suspend? || step.YieldReady? || step.Finish? {
      SwapOutFiberStep(s, step, f);
    } else if step.Sleep? || step.Begin? || step.RawCall? || step.RegisterWait? || step.AfterWait? || step.CheckSocket? {
      RunningFiberStep(s, Apply(s, step), step, step.w, f);
    } else if step.Advance? || step.Stop? || step.RunCallback? || step.RunCancel? {
      QuietFiberStep(s, step, f);
    } else {
      IdleFiberStep(s, step, f);
    }
  }

  lemma StepKeepsRuns(s: State, step: Step)
    requires TokenInv(s) && Enabled(s, step)
    ensures RunsInv(Apply(s, step))
  {
    hide Sum, Enabled, Apply, TablesInv, HandlesInv, CountersInv, FibersInv, Linear;
    var r := Apply(s, step);
    StepMovesWorker(s, step);
    forall f: FiberId
      ensures Sum(r.workers, RunsWeight(f)) == ExecutingAt(r, f)
    {
      StepMovesFibers(s, step, f);
      if WorkerOf(step).Some? {
        SumUpdate(s.workers, WorkerOf(step).value, r.workers[WorkerOf(step).value], RunsWeight(f));
      }
    }
  }

  /** Wake-token linearity is kept by every step of every worker. */
  lemma StepKeepsLinear(s: State, step: Step)
    requires TokenInv(s) && Enabled(s, step)
    ensures Linear(Apply(s, step)) && FibersInv(Apply(s, step))
  {
    hide Enabled, Apply, Sum, TablesInv, HandlesInv, CountersInv, RunsInv, Total;
    var r := Apply(s, step);
    forall f: FiberId
      ensures Total(r, TokenOf(f)) == Owed(r, f) && (f < |r.fibers| ==> FiberOk(r.fibers[f]))
    {
      StepMovesFibers(s, step, f);
      StepTotal(s, step, f);
    }
  }
}
