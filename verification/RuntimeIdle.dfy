/** Idling, stopping and accounting: no worker sleeps past a timer, the workers
    leave nothing behind when they exit, and no task is lost or run twice. */
module RuntimeIdle {
  import opened Tasks
  import opened Tally
  import opened Runtime
  import opened RuntimeTokens
  import T = TimerSet
  import E = EventTable
  import Q = ReadyQueue

  // ----- stopping -----

  /** An idle fiber that has ended is never switched in again, and it ended
      after stop was called; only such a worker exits. */
  predicate DoneOk(s: State, wk: Worker)
  {
    && (wk.idleDone ==> s.stopped && Idling(wk) == 0)
    && (wk.place.Exited? ==> wk.idleDone)
  }

  ghost predicate DoneInv(s: State)
  {
    forall w :: 0 <= w < |s.workers| ==> DoneOk(s, s.workers[w])
  }

  predicate AllDone(s: State)
  {
    |s.workers| > 0 && forall w :: 0 <= w < |s.workers| ==> s.workers[w].idleDone
  }

  /** Nothing is queued, timed or pending, and no worker is inside a task. */
  ghost predicate Quiet(s: State)
  {
    && s.queue == [] && s.timers == [] && s.table.pending == 0
    && forall w :: 0 <= w < |s.workers| ==> s.workers[w].place.AtTop? || s.workers[w].place.Exited?
  }

  /** Once every idle fiber has ended all is quiet, unless somebody outside acted
      after stop. */
  ghost predicate ExitInv(s: State)
  {
    AllDone(s) && !s.late ==> Quiet(s)
  }

  // ----- sleeping -----

  /** Deadlines are at most 5000 ms away from when they were computed. */
  ghost predicate WaitsInv(s: State)
  {
    forall w :: 0 <= w < |s.workers| && s.workers[w].place.IdleWait? ==>
      var p := s.workers[w].place; p.since <= s.now && p.since <= p.deadline <= p.since + MAX_TIMEOUT
  }

  /** Wakes no later than every timer, or does not sleep at all. */
  ghost predicate InTime(since: nat, deadline: nat, ts: seq<UserTimer>)
  {
    forall t :: t in ts ==> deadline <= since || deadline <= t.next
  }

  /** A worker that will look after the timers: awake, or to wake in time. */
  ghost predicate Watches(s: State, wk: Worker)
  {
    !wk.idleDone &&
    match wk.place
    case IdleWait(since, deadline) => InTime(since, deadline, s.timers)
    case _ => true
  }

  /** No oversleep: while an idle fiber is alive, a tickle byte is unread or some
      worker watches the timers. */
  ghost predicate WatchInv(s: State)
  {
    AllDone(s) || |s.workers| == 0 || s.unread > 0 || exists w :: 0 <= w < |s.workers| && Watches(s, s.workers[w])
  }

  ghost predicate IdleInv(s: State)
  {
    DoneInv(s) && ExitInv(s) && WaitsInv(s) && WatchInv(s)
  }

  // ----- which steps are the idle fiber's -----

  predicate IdleStep(step: Step)
  {
    step.IdleCheck? || step.WaitReturns? || step.ExpireTimers? || step.PostExpired? || step.HandleReport?
  }

  /** Steps outside the idle fibers read no tickle byte and start no wait. */
  ghost predicate Outside(s: State, r: State)
  {
    && r.unread >= s.unread && |r.workers| == |s.workers| && r.now >= s.now
    && (s.stopped ==> r.stopped)
    && forall w :: 0 <= w < |s.workers| ==>
         r.workers[w] == s.workers[w] ||
         (r.workers[w].idleDone == s.workers[w].idleDone &&
          !s.workers[w].place.IdleWait? && !r.workers[w].place.IdleWait? &&
          (Idling(r.workers[w]) == 1 || r.workers[w].place.Exited? ==>
             r.workers[w].place == if s.workers[w].idleDone then Exited else IdleEnter))
  }

  lemma ActsOutside(s: State, who: Option<nat>, a: Action)
    requires Enabled(s, Act(who, a))
    ensures Outside(s, Apply(s, Act(who, a)))
  {
    hide ActionEnabled, T.Find, T.Insert, T.Cancel, E.AddEvent, E.DelEvent, E.CancelEvent, E.CancelAll;
  }

  lemma StaysOutside(s: State, step: Step)
    requires Enabled(s, step) && !IdleStep(step)
    ensures Outside(s, Apply(s, step))
  {
    hide FreeAddress, Outside, ActionEnabled, DoDispatch, DoCallback, DoCancel, DoSleep, DoBegin, DoRawCall,
         DoRegister, DoSuspend, DoYieldReady,
         DoAfterWait, DoCheckSocket, DoFinish, E.AddEvent;
    match step
    case Act(who, a) => ActsOutside(s, who, a);
    case Dispatch(w) => DispatchesOutside(s, w);
    case _ => WorksOutside(s, step);
  }

  lemma DispatchesOutside(s: State, w: nat)
    requires w < |s.workers| && s.workers[w].place.AtTop?
    ensures Outside(s, DoDispatch(s, w))
  {
    hide Q.Take, Executing, Scanned;
  }

  lemma WorksOutside(s: State, step: Step)
    requires Enabled(s, step) && !IdleStep(step) && !step.Act? && !step.Dispatch?
    ensures Outside(s, Apply(s, step))
  {
    hide FreeAddress, E.AddEvent, Outside, DoCallback, DoCancel, DoSleep, DoRawCall, DoRegister, DoSuspend,
         DoYieldReady, DoFinish;
    if step.RunCallback? {
      CallbackOutside(s, step.w);
    } else if step.RunCancel? {
      CancelOutside(s, step.w, step.ctl);
    } else if step.Suspend? || step.YieldReady? || step.Finish? {
      SwapsOutside(s, step);
    } else {
      StaysInFiber(s, step);
    }
  }

  lemma CallbackOutside(s: State, w: nat)
    requires w < |s.workers| && s.workers[w].place.InCallback?
    ensures Outside(s, DoCallback(s, w))
  {
    hide Push;
  }

  lemma CancelOutside(s: State, w: nat, ctl: bool)
    requires w < |s.workers| && s.workers[w].place.InCancel?
    ensures Outside(s, DoCancel(s, w, ctl))
  {
    hide E.CancelEvent, PushAll;
  }

  lemma SwapsOutside(s: State, step: Step)
    requires Enabled(s, step) && (step.Suspend? || step.YieldReady? || step.Finish?)
    ensures Outside(s, Apply(s, step))
  {
    hide DoSuspend, DoYieldReady, DoFinish;
  }

  lemma StaysInFiber(s: State, step: Step)
    requires Enabled(s, step)
    requires step.Advance? || step.Stop? || step.Sleep? || step.Begin? || step.RawCall? || step.RegisterWait? ||
             step.AfterWait? || step.CheckSocket?
    ensures Outside(s, Apply(s, step))
  {
    hide FreeAddress, E.AddEvent, T.Insert, DropHandle, AfterRaw;
  }

  // ----- timers under a waiting worker -----

  /** Every timer of us is no earlier than some timer of ts. */
  ghost predicate NoEarlier(ts: seq<UserTimer>, us: seq<UserTimer>)
  {
    forall u :: u in us ==> exists t :: t in ts && t.next <= u.next
  }

  lemma InTimeStays(since: nat, deadline: nat, ts: seq<UserTimer>, us: seq<UserTimer>)
    requires InTime(since, deadline, ts) && NoEarlier(ts, us)
    ensures InTime(since, deadline, us)
  {
  }

  /** A timer that does not come first is no earlier than the one that does. */
  lemma InsertNoEarlier(ts: seq<UserTimer>, t: UserTimer)
    requires !T.AtFront(ts, t)
    ensures NoEarlier(ts, T.Insert(ts, t))
  {
    T.InsertMembers(ts, t);
    assert ts[0] in ts && ts[0].next <= t.next;
  }

  lemma InsertWatched(s: State, t: UserTimer)
    requires s.idle > 0
    ensures InsertTimer(s, t).unread > 0 || NoEarlier(s.timers, InsertTimer(s, t).timers)
  {
    hide T.Insert, T.AtFront;
    if !T.AtFront(s.timers, t) {
      InsertNoEarlier(s.timers, t);
    }
  }

  lemma DropNoEarlier(ts: seq<UserTimer>, i: nat)
    requires i < |ts|
    ensures NoEarlier(ts, T.Drop(ts, i))
  {
    forall u | u in T.Drop(ts, i)
      ensures u in ts
    {
      assert u in ts[..i] || u in ts[i + 1..];
    }
  }

  lemma RekeyWatched(s: State, i: nat, t: UserTimer)
    requires s.idle > 0 && i < |s.timers|
    ensures RekeyTimer(s, i, t).unread > 0 || NoEarlier(s.timers, RekeyTimer(s, i, t).timers)
  {
    hide InsertTimer, T.Drop, T.Rekey;
    DropNoEarlier(s.timers, i);
    InsertWatched(s.(timers := T.Drop(s.timers, i)), t);
  }

  lemma CancelNoEarlier(ts: seq<UserTimer>, addr: nat)
    ensures NoEarlier(ts, T.Cancel(ts, addr))
  {
    hide T.Drop;
    if T.Find(ts, addr).Some? {
      DropNoEarlier(ts, T.Find(ts, addr).value);
    }
  }

  lemma ActWatched(s: State, inside: bool, a: Action)
    requires s.idle > 0 && ActionEnabled(s, inside, a)
    ensures DoAction(s, inside, a).unread > 0 || NoEarlier(s.timers, DoAction(s, inside, a).timers)
  {
    hide NoEarlier, T.Insert, T.Cancel, T.Find, RekeyTimer, InsertTimer, Push, PushAll, E.AddEvent, E.DelEvent,
         E.CancelEvent, E.CancelAll, FreeAddress;
    SameNoEarlier(s.timers);
    match a
    case AddTimer(addr, ms, recurring, id) =>
      InsertWatched(s, T.Timer(addr, T.Add64(s.now, ms), ms, recurring, Some(UserCb(id))));
    case CancelTimer(addr) => CancelNoEarlier(s.timers, addr);
    case RefreshTimer(addr) =>
      var i := T.Find(s.timers, addr).value;
      RekeyWatched(s, i, T.Refreshed(s.timers[i], s.now));
    case ResetTimer(addr, ms, fromNow) =>
      var i := T.Find(s.timers, addr).value;
      RekeyWatched(s, i, T.ResetTo(s.timers[i], ms, fromNow, s.now));
    case _ =>
  }

  lemma SameNoEarlier(ts: seq<UserTimer>)
    ensures NoEarlier(ts, ts)
  {
  }

  lemma DropHandleNoEarlier(s: State, c: CallId)
    ensures NoEarlier(s.timers, DropHandle(s, c).timers)
  {
    hide NoEarlier, T.Cancel;
    SameNoEarlier(s.timers);
    if CallAt(s, c).handle.Some? {
      CancelNoEarlier(s.timers, CallAt(s, c).handle.value);
    }
  }

  /** A new or re-keyed timer that would come first wakes the idle workers: every
      way timers change leaves a byte unread or no earlier timer. */
  lemma StepWatched(s: State, step: Step)
    requires Enabled(s, step) && !IdleStep(step) && s.idle > 0
    ensures Apply(s, step).unread > 0 || NoEarlier(s.timers, Apply(s, step).timers)
  {
    hide NoEarlier, InsertTimer, E.AddEvent, FreeAddress, DoAction, DoDispatch, DoCallback, DoCancel, DoBegin,
         DoRegister, DoSuspend,
         DoYieldReady, DoCheckSocket, DoFinish, DoSleep, DoRawCall, DoAfterWait;
    SameNoEarlier(s.timers);
    match step
    case Act(who, a) => LateActWatched(s, who, a);
    case Sleep(w, ms, addr) => SleepWatched(s, w, ms, addr);
    case RawCall(w, raw, addr) => RawWatched(s, w, raw, addr);
    case RegisterWait(w, ctl) => RegisterWatched(s, w, ctl);
    case AfterWait(w) => AfterWaitWatched(s, w);
    case _ =>
  }

  lemma LateActWatched(s: State, who: Option<nat>, a: Action)
    requires Enabled(s, Act(who, a)) && s.idle > 0
    ensures var r := Apply(s, Act(who, a)); r.unread > 0 || NoEarlier(s.timers, r.timers)
  {
    hide NoEarlier, DoAction, T.Find, E.AddEvent;
    ActWatched(s.(late := s.late || (who.None? && s.stopped)), who.Some?, a);
  }

  lemma SleepWatched(s: State, w: nat, ms: nat, addr: nat)
    requires s.idle > 0
    ensures var r := DoSleep(s, w, ms, addr); r.unread > 0 || NoEarlier(s.timers, r.timers)
  {
    hide NoEarlier, InsertTimer;
    InsertWatched(WithPc(s, w, Asleep(s.now + ms)),
                  T.Timer(addr, T.Add64(s.now, ms), ms, false, Some(WakeCb(Current(s, w)))));
  }

  lemma AfterWaitWatched(s: State, w: nat)
    requires CurrentPc(s, w).Woken?
    ensures NoEarlier(s.timers, DoAfterWait(s, w).timers)
  {
    hide NoEarlier, DropHandle;
    DropHandleNoEarlier(s, CurrentPc(s, w).call);
  }

  lemma RawWatched(s: State, w: nat, raw: Raw, addr: nat)
    requires CurrentPc(s, w).Trying? && s.idle > 0
    ensures var r := DoRawCall(s, w, raw, addr); r.unread > 0 || NoEarlier(s.timers, r.timers)
  {
    hide NoEarlier, InsertTimer, AfterRaw;
    SameNoEarlier(s.timers);
    var c := CurrentPc(s, w).call;
    var call := CallAt(s, c);
    if Judge(call.kind, raw).Wait? && call.timeout.Some? {
      InsertWatched(WithPc(SetCall(s, c, AfterRaw(call, raw, s.now, addr)), w, Armed(c)), TimerOf(call, c, s.now, addr));
    }
  }

  lemma RegisterWatched(s: State, w: nat, ctl: bool)
    requires Enabled(s, RegisterWait(w, ctl))
    ensures NoEarlier(s.timers, DoRegister(s, w, ctl).timers)
  {
    hide NoEarlier, E.AddEvent, DropHandle;
    SameNoEarlier(s.timers);
    var c := CurrentPc(s, w).call;
    var call := CallAt(s, c);
    DropHandleNoEarlier(s.(table := E.AddEvent(s.table, call.fd, EventOf(call), FiberTask(Current(s, w)), ctl).table), c);
  }

  // ----- the invariant -----

  lemma IdlingCounts(s: State, w: nat)
    requires CountersInv(s) && w < |s.workers| && Idling(s.workers[w]) == 1
    ensures s.idle > 0
  {
    SumMember(s.workers, w, IdlingWeight());
  }

  lemma ActiveCounts(s: State, w: nat)
    requires CountersInv(s) && w < |s.workers| && Busy(s.workers[w]) == 1
    ensures s.active > 0
  {
    SumMember(s.workers, w, BusyWeight());
  }

  /** How the idle fiber's own steps move its worker: it stays awake, or starts a
      wait that is in time, or ends because the scheduler is stopping. */
  ghost predicate Awake(s: State, r: State, w: nat)
  {
    && w < |s.workers| == |r.workers| && r.workers == s.workers[w := r.workers[w]]
    && r.now == s.now && r.stopped == s.stopped && r.late == s.late
    && Idling(s.workers[w]) == 1
    && match r.workers[w].place
       case IdleWait(since, deadline) =>
         !r.workers[w].idleDone == !s.workers[w].idleDone && since == s.now && since <= deadline <= since + MAX_TIMEOUT &&
         InTime(since, deadline, r.timers)
       case AtTop => r.workers[w].idleDone != s.workers[w].idleDone ==> Stopping(s) && r == s.(workers := r.workers, idle := r.idle)
       case Exited => false
       case _ => Idling(r.workers[w]) == 1 && r.workers[w].idleDone == s.workers[w].idleDone
  }

  /** The wait that idle computes: until the earliest timer is due, not at all if
      it is due already, and 5000 ms if there is none or it is later than that. */
  lemma WaitInTime(s: State)
    requires T.Inv(s.timers)
    ensures WaitTime(s) <= MAX_TIMEOUT && InTime(s.now, s.now + WaitTime(s), s.timers)
    ensures WaitTime(s) < MAX_TIMEOUT ==>
              exists t :: t in s.timers && (t.next == s.now + WaitTime(s) || (t.next <= s.now && WaitTime(s) == 0))
  {
    forall t | t in s.timers
      ensures s.now + WaitTime(s) <= s.now || s.now + WaitTime(s) <= t.next
    {
      var i :| 0 <= i < |s.timers| && s.timers[i] == t;
      assert i == 0 || T.Less(s.timers[0], s.timers[i]);
    }
    if WaitTime(s) < MAX_TIMEOUT {
      assert s.timers[0] in s.timers;
    }
  }

  lemma IdleStaysAwake(s: State, step: Step)
    requires T.Inv(s.timers) && Enabled(s, step) && IdleStep(step)
    ensures WorkerOf(step).Some? && Awake(s, Apply(s, step), WorkerOf(step).value)
  {
    hide T.Inv, InTime, ReportsOk, ReportEnabled, FreeAddress, T.Expire, T.Fired, E.ProcessReady, DoIdleCheck;
    if step.IdleCheck? {
      IdleCheckAwake(s, step.w);
    }
  }

  lemma IdleCheckAwake(s: State, w: nat)
    requires T.Inv(s.timers) && w < |s.workers| && s.workers[w].place.IdleEnter?
    ensures Awake(s, DoIdleCheck(s, w), w)
  {
    hide T.Inv, InTime, WaitTime;
    WaitInTime(s);
  }

  /** Time passes for everybody alike, and idle fibers do not end or start waits on their own. */
  lemma StepKeepsDone(s: State, step: Step)
    requires DoneInv(s) && T.Inv(s.timers) && Enabled(s, step)
    ensures DoneInv(Apply(s, step))
  {
    hide Enabled, Apply, T.Inv, InTime;
    if IdleStep(step) {
      IdleStaysAwake(s, step);
    } else {
      StaysOutside(s, step);
    }
  }

  /** Waits stay within 5000 ms of the moment they were computed. */
  lemma StepKeepsWaits(s: State, step: Step)
    requires WaitsInv(s) && T.Inv(s.timers) && Enabled(s, step)
    ensures WaitsInv(Apply(s, step))
  {
    hide Enabled, Apply, T.Inv, InTime;
    if IdleStep(step) {
      IdleStaysAwake(s, step);
    } else {
      StaysOutside(s, step);
    }
  }

  /** The last idle fiber to end saw an empty queue, no timer, no pending event
      and no active worker. */
  lemma StoppingIsQuiet(s: State, r: State, w: nat)
    requires DoneInv(s) && CountersInv(s) && Awake(s, r, w) && Stopping(s) && AllDone(r) && r.workers[w].place.AtTop?
    requires r == s.(workers := r.workers, idle := r.idle)
    ensures Quiet(r)
  {
    hide Sum;
    forall v | 0 <= v < |r.workers|
      ensures r.workers[v].place.AtTop? || r.workers[v].place.Exited?
    {
      if v != w {
        assert s.workers[v] == r.workers[v] && r.workers[v].idleDone && DoneOk(s, s.workers[v]);
        if Busy(s.workers[v]) == 1 {
          ActiveCounts(s, v);
          assert false;
        }
      }
    }
  }

  lemma QuietDispatch(s: State, w: nat)
    requires Quiet(s) && w < |s.workers| && s.workers[w].place.AtTop? && s.workers[w].idleDone
    ensures Quiet(DoDispatch(s, w))
  {
    hide Executing;
    assert Q.Take(s.queue, w, Executing(s)).taken.None?;
  }

  /** When all is quiet and every idle fiber has ended, workers can only exit. */
  lemma QuietStays(s: State, step: Step)
    requires DoneInv(s) && AllDone(s) && Quiet(s) && Enabled(s, step) && !Apply(s, step).late
    ensures Quiet(Apply(s, step))
  {
    hide FreeAddress, ActionEnabled, DoDispatch, DoAction, ReportsOk, ReportEnabled, E.AddEvent;
    assert DoneOk(s, s.workers[0]);
    if step.Dispatch? {
      QuietDispatch(s, step.w);
    }
  }

  /** The idle fibers' ends keep the exit guarantee. */
  lemma StepKeepsExit(s: State, step: Step)
    requires DoneInv(s) && ExitInv(s) && CountersInv(s) && T.Inv(s.timers) && Enabled(s, step)
    ensures ExitInv(Apply(s, step))
  {
    hide Enabled, Apply, T.Inv, InTime, Quiet, CountersInv, Stopping;
    var r := Apply(s, step);
    if AllDone(r) && !r.late {
      if IdleStep(step) {
        IdleStaysAwake(s, step);
        var w := WorkerOf(step).value;
        assert DoneOk(s, s.workers[w]) && r.workers[w].idleDone;
        StoppingIsQuiet(s, r, w);
      } else {
        StaysOutside(s, step);
        LateStays(s, step);
        QuietStays(s, step);
      }
    }
  }

  lemma LateStays(s: State, step: Step)
    requires Enabled(s, step)
    ensures s.late ==> Apply(s, step).late
  {
    hide FreeAddress, ActionEnabled, DoDispatch, DoAction, DoIdleCheck, DoExpire, DoPostExpired, DoReport, DoCallback,
         DoCancel, DoSleep,
         DoBegin, DoRawCall, DoRegister, DoSuspend, DoYieldReady, DoAfterWait, DoCheckSocket, DoFinish, ReportsOk,
         ReportEnabled, E.AddEvent;
  }

  /** Somebody watches the timers after every step. */
  lemma StepKeepsWatch(s: State, step: Step)
    requires DoneInv(s) && WatchInv(s) && CountersInv(s) && T.Inv(s.timers) && Enabled(s, step)
    ensures WatchInv(Apply(s, step))
  {
    hide Enabled, Apply, T.Inv, InTime, CountersInv, Stopping, AllDone;
    if IdleStep(step) {
      IdleStepWatches(s, step);
    } else if !AllDone(s) && |s.workers| > 0 && s.unread == 0 {
      var w :| 0 <= w < |s.workers| && Watches(s, s.workers[w]);
      OutsideWatches(s, step, w);
    } else {
      StaysOutside(s, step);
      DoneStays(s, step);
    }
  }

  lemma DoneStays(s: State, step: Step)
    requires Enabled(s, step) && !IdleStep(step)
    ensures AllDone(Apply(s, step)) == AllDone(s)
  {
    hide Enabled, Apply, Idling;
    StaysOutside(s, step);
    var r := Apply(s, step);
    assert forall w :: 0 <= w < |s.workers| ==> r.workers[w].idleDone == s.workers[w].idleDone;
  }

  lemma OutsideWatches(s: State, step: Step, w: nat)
    requires DoneInv(s) && CountersInv(s) && Enabled(s, step) && !IdleStep(step)
    requires w < |s.workers| && Watches(s, s.workers[w])
    ensures WatchInv(Apply(s, step))
  {
    hide Enabled, Apply, InTime, CountersInv, NoEarlier, AllDone;
    var r := Apply(s, step);
    StaysOutside(s, step);
    assert DoneOk(s, s.workers[w]);
    if s.workers[w].place.IdleWait? {
      IdlingCounts(s, w);
      StepWatched(s, step);
      if r.unread == 0 {
        InTimeStays(s.workers[w].place.since, s.workers[w].place.deadline, s.timers, r.timers);
      }
    }
    assert r.unread > 0 || Watches(r, r.workers[w]);
  }

  lemma IdleStepWatches(s: State, step: Step)
    requires DoneInv(s) && CountersInv(s) && T.Inv(s.timers) && Enabled(s, step) && IdleStep(step)
    ensures WatchInv(Apply(s, step))
  {
    hide Enabled, Apply, T.Inv, CountersInv, MAX_TIMEOUT;
    IdleStaysAwake(s, step);
    var r := Apply(s, step);
    var w := WorkerOf(step).value;
    assert DoneOk(s, s.workers[w]);
    if r.workers[w].idleDone {
      if !AllDone(r) {
        var v :| 0 <= v < |r.workers| && !r.workers[v].idleDone;
        assert r.workers[v] == s.workers[v] && DoneOk(s, s.workers[v]);
        assert r.timers == [];
        assert Watches(r, r.workers[v]);
      }
    } else {
      assert Watches(r, r.workers[w]);
    }
  }

  lemma StepKeepsIdle(s: State, step: Step)
    requires IdleInv(s) && CountersInv(s) && T.Inv(s.timers) && Enabled(s, step)
    ensures IdleInv(Apply(s, step))
  {
    hide Enabled, Apply, T.Inv, CountersInv, DoneInv, ExitInv, WaitsInv, WatchInv;
    StepKeepsDone(s, step);
    StepKeepsExit(s, step);
    StepKeepsWaits(s, step);
    StepKeepsWatch(s, step);
  }

  // ----- accounting -----

  /** Whatever is counted, everything ever accepted is queued still or was taken. */
  ghost predicate Accounted(s: State, w: Task -> nat)
  {
    Sum(s.accepted, w) == Q.Queued(s.queue, w) + Sum(s.taken, w)
  }

  lemma PushAccounted(s: State, e: Entry, w: Task -> nat)
    requires Accounted(s, w)
    ensures Accounted(Push(s, e), w)
  {
    SumPush(s.accepted, e.task, w);
    SumPush(s.queue, e, Q.EntryWeight(w));
  }

  lemma PushManyAccounted(s: State, ts: seq<Task>, w: Task -> nat)
    requires Accounted(s, w)
    ensures Accounted(PushAll(s, ts), w) && Accounted(PushBatch(s, ts), w)
  {
    SumConcat(s.accepted, ts, w);
    Q.QueuedUnpinned(s.queue, ts, w);
  }

  lemma ScannedAccounted(s: State, me: nat, w: Task -> nat)
    requires Accounted(s, w)
    ensures Accounted(Scanned(s, me), w)
  {
    hide Q.Take, Executing, Sum, Q.Queued;
    Q.QueuedTake(s.queue, me, Executing(s), w);
    var p := Q.Take(s.queue, me, Executing(s));
    if p.taken.Some? {
      SumPush(s.taken, p.taken.value.task, w);
    } else {
      assert s.taken + [] == s.taken;
    }
  }

  /** Every step that accepts or takes work accounts for it. */
  lemma StepAccounts(s: State, step: Step, w: Task -> nat)
    requires Accounted(s, w) && Enabled(s, step)
    ensures Accounted(Apply(s, step), w)
  {
    hide Sum, Q.Queued, FreeAddress, ReportsOk, ReportEnabled, ActionEnabled, Scanned, SwapIn, Executing, Q.Take, Push,
         PushAll, PushBatch,
         DoAction, DoIdleCheck, DoExpire, DoSleep, DoReport, DoCallback, DoCancel, DoYieldReady,
         DoBegin, DoRawCall, DoRegister, DoSuspend, DoAfterWait, DoCheckSocket, DoFinish, E.AddEvent, E.ProcessReady,
         E.CancelEvent;
    match step
    case Act(who, a) => ActionAccounts(s, who, a, w);
    case Dispatch(me) => ScannedAccounted(s, me, w);
    case PostExpired(me) => PushManyAccounted(s, CbTasks(s.workers[me].place.cbs), w);
    case HandleReport(me, ctl) => ReportAccounts(s, me, ctl, w);
    case RunCallback(me) => CallbackAccounts(s, me, w);
    case RunCancel(me, ctl) => CancelAccounts(s, me, ctl, w);
    case YieldReady(me) => YieldAccounts(s, me, w);
    case _ =>
  }

  lemma CallbackAccounts(s: State, me: nat, w: Task -> nat)
    requires Accounted(s, w) && me < |s.workers| && s.workers[me].place.InCallback?
    ensures Accounted(DoCallback(s, me), w)
  {
    hide Sum, Q.Queued, Push;
    if s.workers[me].place.cb.WakeCb? {
      PushAccounted(s, Entry(FiberTask(s.workers[me].place.cb.sleeper), -1), w);
    }
  }

  lemma CancelAccounts(s: State, me: nat, ctl: bool, w: Task -> nat)
    requires Accounted(s, w) && me < |s.workers| && s.workers[me].place.InCancel?
    ensures Accounted(DoCancel(s, me, ctl), w)
  {
    hide Sum, Q.Queued, PushAll, E.Leave, E.Scheduled;
    var r := E.CancelEvent(s.table, s.workers[me].place.fd, s.workers[me].place.event, ctl);
    PushManyAccounted(s.(table := r.table), r.woken, w);
  }

  lemma YieldAccounts(s: State, me: nat, w: Task -> nat)
    requires Accounted(s, w) && me < |s.workers|
    ensures Accounted(DoYieldReady(s, me), w)
  {
    hide Sum, Q.Queued, Push;
    var f := Current(s, me);
    var fb := FiberAt(s, f);
    PushAccounted(Release(SetFiber(s, f, fb.(state := READY, yielded := fb.yielded + 1)), me), Entry(FiberTask(f), -1), w);
  }

  lemma ReportAccounts(s: State, me: nat, ctl: bool, w: Task -> nat)
    requires Accounted(s, w) && Enabled(s, HandleReport(me, ctl))
    ensures Accounted(DoReport(s, me, ctl), w)
  {
    hide Sum, Q.Queued, PushAll, E.ProcessReady;
    var rs := s.workers[me].place.reports;
    if rs != [] && rs[0].FdReady? {
      var r := E.ProcessReady(s.table, rs[0].fd, rs[0].ready, ctl);
      PushManyAccounted(s.(table := r.table), r.woken, w);
    }
  }

  lemma ActionAccounts(s: State, who: Option<nat>, a: Action, w: Task -> nat)
    requires Accounted(s, w) && Enabled(s, Act(who, a))
    ensures Accounted(Apply(s, Act(who, a)), w)
  {
    hide Sum, Q.Queued, FreeAddress, Push, PushAll, T.Find, T.Cancel, InsertTimer, RekeyTimer, E.AddEvent, E.DelEvent,
         E.Leave, E.Scheduled;
    var m := s.(late := s.late || (who.None? && s.stopped));
    match a
    case PostFiber(thread) =>
      PushAccounted(m.(fibers := m.fibers + [Fiber(INIT, User, None, 0, 0)]), Entry(FiberTask(|m.fibers|), thread), w);
    case PostCallback(id, thread) => PushAccounted(m, Entry(CbTask(UserCb(id)), thread), w);
    case CancelFdEvent(_, _, _) => EventActionAccounts(m, who.Some?, a, w);
    case CancelFd(_, _) => EventActionAccounts(m, who.Some?, a, w);
    case _ =>
  }

  lemma EventActionAccounts(s: State, inside: bool, a: Action, w: Task -> nat)
    requires Accounted(s, w) && (a.CancelFdEvent? || a.CancelFd?)
    ensures Accounted(DoAction(s, inside, a), w)
  {
    hide Sum, Q.Queued, PushAll, E.Leave, E.Scheduled;
    var r := if a.CancelFd? then E.CancelAll(s.table, a.fd, a.ctl) else E.CancelEvent(s.table, a.fd, a.event, a.ctl);
    PushManyAccounted(s.(table := r.table), r.woken, w);
  }
}
