/** Whether a timeout, once set, is delivered: with one worker always, with
    several not. */
module RuntimeTimeouts {
  import opened Tasks
  import opened Runtime
  import opened RuntimeTokens
  import opened RuntimeCalls
  import opened RuntimeCallSteps
  import opened RuntimePlaces
  import opened RuntimeInvariant
  import T = TimerSet
  import E = EventTable
  import Q = ReadyQueue

  // ----- callbacks on their way -----

  predicate IsTimeoutOf(cb: Callback, c: CallId) { cb.TimeoutCb? && cb.call == c }

  predicate TimerHas(t: UserTimer, c: CallId) { t.cb.Some? && IsTimeoutOf(t.cb.value, c) }

  predicate EntryHas(e: Entry, c: CallId) { e.task.CbTask? && IsTimeoutOf(e.task.cb, c) }

  ghost predicate HandHas(p: Place, c: CallId)
  {
    match p
    case InCallback(cb) => IsTimeoutOf(cb, c)
    case IdleHand(cbs, _) => exists cb :: cb in cbs && IsTimeoutOf(cb, c)
    case _ => false
  }

  /** A timeout callback of the call is set on a timer, in a worker's hand, or queued. */
  ghost predicate Circulates(s: State, c: CallId)
  {
    || (exists t :: t in s.timers && TimerHas(t, c))
    || (exists e :: e in s.queue && EntryHas(e, c))
    || (exists w :: 0 <= w < |s.workers| && HandHas(s.workers[w].place, c))
  }

  /** A call that has set its timer and neither cancelled it nor been flagged. */
  predicate Awaits(s: State, c: CallId)
  {
    && c < |s.calls| && s.calls[c].outcome == Running && s.calls[c].timeout.Some? && !s.calls[c].cancelled
    && HoldsTimer(FiberAt(s, s.calls[c].owner).pc)
  }

  ghost predicate CirculatesInv(s: State)
  {
    forall c: CallId :: Awaits(s, c) ==> Circulates(s, c)
  }

  /** Callbacks of the call stay where they are. */
  ghost predicate Keeps(s: State, r: State, c: CallId)
  {
    && (forall t :: t in s.timers && TimerHas(t, c) ==> t in r.timers)
    && (forall e :: e in s.queue && EntryHas(e, c) ==> e in r.queue)
    && |r.workers| == |s.workers|
    && (forall w :: 0 <= w < |s.workers| && HandHas(s.workers[w].place, c) ==> HandHas(r.workers[w].place, c))
  }

  lemma KeptCirculates(s: State, r: State, c: CallId)
    requires Circulates(s, c) && Keeps(s, r, c)
    ensures Circulates(r, c)
  {
  }

  lemma InsertKeepsTimers(ts: seq<UserTimer>, t: UserTimer)
    ensures t in T.Insert(ts, t) && forall u :: u in ts ==> u in T.Insert(ts, t)
  {
    T.InsertMembers(ts, t);
  }

  /** Application actions touch only timers of their own. */
  lemma ActionKeeps(s: State, inside: bool, a: Action, c: CallId)
    requires T.Inv(s.timers) && ActionEnabled(s, inside, a)
    ensures Keeps(s, DoAction(s, inside, a), c)
  {
    hide T.Inv, T.Insert, T.Rekey, T.Cancel, E.AddEvent, E.DelEvent, E.CancelEvent, E.CancelAll, FreeAddress, HandHas;
    match a
    case AddTimer(addr, ms, recurring, id) =>
      InsertKeepsTimers(s.timers, T.Timer(addr, T.Add64(s.now, ms), ms, recurring, Some(UserCb(id))));
    case CancelTimer(addr) =>
      T.CancelKeeps(s.timers, addr);
      UserAddress(s.timers, addr, c);
    case RefreshTimer(addr) =>
      var i := T.Find(s.timers, addr).value;
      T.RekeyKeeps(s.timers, i, T.Refreshed(s.timers[i], s.now));
      UserAddress(s.timers, addr, c);
    case ResetTimer(addr, ms, fromNow) =>
      var i := T.Find(s.timers, addr).value;
      T.RekeyKeeps(s.timers, i, T.ResetTo(s.timers[i], ms, fromNow, s.now));
      UserAddress(s.timers, addr, c);
    case _ =>
  }

  lemma UserAddress(ts: seq<UserTimer>, addr: nat, c: CallId)
    requires T.Inv(ts) && T.Find(ts, addr).Some? && IsUserTimer(ts[T.Find(ts, addr).value])
    ensures forall t :: t in ts && TimerHas(t, c) ==> t.addr != addr
  {
  }

  lemma DispatchMoves(s: State, w: nat, c: CallId)
    requires w < |s.workers| && s.workers[w].place.AtTop? && Circulates(s, c)
    ensures Circulates(DoDispatch(s, w), c)
  {
    hide Executing, Scanned, Q.Take, HandHas;
    ScannedFrame(s, w);
    var r := DoDispatch(s, w);
    var p := Q.Take(s.queue, w, Executing(s));
    Q.TakeExact(s.queue, w, Executing(s));
    TakenOrLeft(s, w);
    if p.taken.Some? && EntryHas(p.taken.value, c) {
      assert r.workers[w].place == InCallback(p.taken.value.task.cb);
      assert HandHas(r.workers[w].place, c) by { CallbackInHand(p.taken.value.task.cb, c); }
    } else {
      assert !HandHas(s.workers[w].place, c) by { NothingAtTop(c); }
      KeptCirculates(s, r, c);
    }
  }

  lemma CallbackInHand(cb: Callback, c: CallId)
    ensures HandHas(InCallback(cb), c) == IsTimeoutOf(cb, c)
  {
  }

  lemma NothingAtTop(c: CallId)
    ensures !HandHas(AtTop, c)
  {
  }

  lemma TakenOrLeft(s: State, w: nat)
    ensures var p := Q.Take(s.queue, w, Executing(s));
            && Scanned(s, w).queue == p.rest
            && forall e :: e in s.queue ==> e in p.rest || p.taken == Some(e)
  {
    hide Executing, Q.Take;
    var p := Q.Take(s.queue, w, Executing(s));
    Q.TakeExact(s.queue, w, Executing(s));
    forall e | e in s.queue
      ensures e in p.rest || p.taken == Some(e)
    {
      assert e in multiset(s.queue);
    }
  }

  lemma {:induction false} CallbacksInto(ts: seq<UserTimer>, t: UserTimer)
    requires t in ts && t.cb.Some?
    ensures t.cb.value in CallbacksOf(ts)
  {
    if ts[0] != t {
      CallbacksInto(ts[1..], t);
    }
  }

  lemma ExpireMoves(s: State, w: nat, probe: nat, c: CallId)
    requires T.Inv(s.timers) && !T.Has(s.timers, probe) && w < |s.workers| && s.workers[w].place.IdleExpire? && Circulates(s, c)
    ensures Circulates(DoExpire(s, w, probe), c)
  {
    hide T.Inv, T.Has, T.Expire, T.Fired, CallbacksOf, FrontInserts, TimeoutsIn;
    var r := DoExpire(s, w, probe);
    var fired := T.Fired(s.timers, s.now, probe);
    T.ExpireExact(s.timers, s.now, probe);
    if t :| t in fired && TimerHas(t, c) {
      CallbacksInto(fired, t);
      assert HandHas(r.workers[w].place, c);
    } else {
      KeptCirculates(s, r, c);
    }
  }

  lemma {:induction false} TasksInto(cbs: seq<Callback>, cb: Callback)
    requires cb in cbs
    ensures Entry(CbTask(cb), -1) in Q.Unpinned(CbTasks(cbs))
  {
    assert CbTasks(cbs)[1..] == CbTasks(cbs[1..]);
    if cbs[0] != cb {
      TasksInto(cbs[1..], cb);
    }
  }

  lemma PostMoves(s: State, w: nat, c: CallId)
    requires w < |s.workers| && s.workers[w].place.IdleHand? && Circulates(s, c)
    ensures Circulates(DoPostExpired(s, w), c)
  {
    hide PushBatch, CbTasks;
    var r := DoPostExpired(s, w);
    var cbs := s.workers[w].place.cbs;
    if cb :| cb in cbs && IsTimeoutOf(cb, c) {
      TasksInto(cbs, cb);
      assert EntryHas(Entry(CbTask(cb), -1), c);
      assert Entry(CbTask(cb), -1) in r.queue;
    } else {
      KeptCirculates(s, r, c);
    }
  }

  // ----- steps -----

  /** Outside the call steps, who awaits now awaited before. */
  lemma AwaitedBefore(s: State, r: State, c: CallId)
    requires CallsOk(s) && r.calls == s.calls && |s.fibers| <= |r.fibers|
    requires forall f :: 0 <= f < |s.fibers| ==> SameStage(s.fibers[f].pc, r.fibers[f].pc)
    requires Awaits(r, c)
    ensures Awaits(s, c)
  {
    assert CallOk(s, s.calls[c], c);
  }

  /** Steps that leave the calls, and every callback, where they are. */
  lemma QuietCirculates(s: State, r: State)
    requires CallsOk(s) && CirculatesInv(s) && r.calls == s.calls && |s.fibers| <= |r.fibers|
    requires forall f :: 0 <= f < |s.fibers| ==> SameStage(s.fibers[f].pc, r.fibers[f].pc)
    requires forall c: CallId :: Circulates(s, c) ==> Circulates(r, c)
    ensures CirculatesInv(r)
  {
    hide CallsOk, Circulates, Awaits, SameStage;
    forall c: CallId | Awaits(r, c)
      ensures Circulates(r, c)
    {
      AwaitedBefore(s, r, c);
    }
  }

  lemma ActCirculates(s: State, who: Option<nat>, a: Action)
    requires T.Inv(s.timers) && CallsOk(s) && CirculatesInv(s) && Enabled(s, Act(who, a))
    ensures CirculatesInv(Apply(s, Act(who, a)))
  {
    hide T.Inv, CallsOk, CirculatesInv, Circulates, Keeps, DoAction, ActionEnabled;
    var late := s.late || (who.None? && s.stopped);
    var m := s.(late := late);
    var r := Apply(s, Act(who, a));
    LateEnables(s, late, who.Some?, a);
    ActionFibers(m, who.Some?, a);
    forall c: CallId | Circulates(s, c)
      ensures Circulates(r, c)
    {
      LateCirculates(s, late, c);
      ActionKeeps(m, who.Some?, a, c);
      KeptCirculates(m, r, c);
    }
    QuietCirculates(s, r);
  }

  lemma LateCirculates(s: State, late: bool, c: CallId)
    requires Circulates(s, c)
    ensures Circulates(s.(late := late), c)
  {
  }

  lemma ActionFibers(s: State, inside: bool, a: Action)
    requires ActionEnabled(s, inside, a)
    ensures var r := DoAction(s, inside, a);
            |s.fibers| <= |r.fibers| && forall f :: 0 <= f < |s.fibers| ==> r.fibers[f] == s.fibers[f]
  {
    hide ActionEnabled, T.Find, T.Insert, T.Cancel, E.AddEvent, E.DelEvent, E.CancelEvent, E.CancelAll;
  }

  lemma DispatchCirculates(s: State, w: nat)
    requires CallsOk(s) && CirculatesInv(s) && w < |s.workers| && s.workers[w].place.AtTop?
    ensures CirculatesInv(DoDispatch(s, w))
  {
    hide CallsOk, CirculatesInv, Circulates, Executing, Q.Take, Scanned;
    forall c: CallId | Circulates(s, c)
      ensures Circulates(DoDispatch(s, w), c)
    {
      DispatchMoves(s, w, c);
    }
    QuietCirculates(s, DoDispatch(s, w));
  }

  lemma IdleCirculates(s: State, step: Step)
    requires T.Inv(s.timers) && CallsOk(s) && CirculatesInv(s) && Enabled(s, step)
    requires step.ExpireTimers? || step.PostExpired?
    ensures CirculatesInv(Apply(s, step))
  {
    hide T.Inv, CallsOk, CirculatesInv, Circulates, DoExpire, DoPostExpired;
    forall c: CallId | Circulates(s, c)
      ensures Circulates(Apply(s, step), c)
    {
      if step.ExpireTimers? {
        FreeIsFree(s, step.probe);
        ExpireMoves(s, step.w, step.probe, c);
      } else {
        PostMoves(s, step.w, c);
      }
    }
    QuietCirculates(s, Apply(s, step));
  }

  /** The callback that flags the call has done its work; other calls' callbacks
      are elsewhere. */
  lemma CallbackCirculates(s: State, w: nat)
    requires CallsOk(s) && CirculatesInv(s) && w < |s.workers| && s.workers[w].place.InCallback?
    ensures CirculatesInv(DoCallback(s, w))
  {
    hide Push, CallsOk, Circulates, Keeps;
    var r := DoCallback(s, w);
    forall c: CallId | Awaits(r, c)
      ensures Circulates(r, c)
    {
      assert Awaits(s, c);
      assert !IsTimeoutOf(s.workers[w].place.cb, c);
      CallbackKeeps(s, w, c);
      KeptCirculates(s, r, c);
    }
  }

  lemma CallbackKeeps(s: State, w: nat, c: CallId)
    requires w < |s.workers| && s.workers[w].place.InCallback? && !IsTimeoutOf(s.workers[w].place.cb, c)
    ensures Keeps(s, DoCallback(s, w), c)
  {
    hide Push;
  }

  /** A step of the running fiber inside its call c0, which stops awaiting or has
      its callback set; the other calls keep theirs. */
  lemma CallCirculates(s: State, r: State, f: FiberId, c0: CallId)
    requires CallsOk(s) && CirculatesInv(s) && f < |s.fibers| && c0 < |s.calls| && CallOf(s.fibers[f].pc) == Some(c0)
    requires |r.fibers| == |s.fibers| && r.fibers == s.fibers[f := r.fibers[f]]
    requires |r.calls| == |s.calls| && r.calls == s.calls[c0 := r.calls[c0]]
    requires Awaits(r, c0) ==> Circulates(r, c0)
    requires forall c: CallId :: c != c0 ==> Keeps(s, r, c)
    ensures CirculatesInv(r)
  {
    hide Circulates, Keeps;
    forall c: CallId | Awaits(r, c)
      ensures Circulates(r, c)
    {
      if c != c0 {
        assert CallOk(s, s.calls[c], c);
        KeptCirculates(s, r, c);
      }
    }
  }

  lemma RawCirculates(s: State, w: nat, raw: Raw, addr: nat)
    requires CallsOk(s) && CirculatesInv(s) && Runs(s, w) && CurrentPc(s, w).Trying?
    ensures CirculatesInv(DoRawCall(s, w, raw, addr))
  {
    hide CallsOk, CirculatesInv, HandHas, OutcomeOk, T.Insert;
    var r := DoRawCall(s, w, raw, addr);
    var c := CurrentPc(s, w).call;
    CurrentCall(s, w);
    var call := s.calls[c];
    if Judge(call.kind, raw).Wait? && call.timeout.Some? {
      InsertKeepsTimers(s.timers, TimerOf(call, c, s.now, addr));
      assert TimerHas(TimerOf(call, c, s.now, addr), c);
    }
    assert forall d: CallId :: Keeps(s, r, d);
    CallCirculates(s, r, Current(s, w), c);
  }

  /** Only a call's own timer is at the address it holds on to. */
  lemma DroppedKeeps(s: State, c0: CallId, c: CallId)
    requires T.Inv(s.timers) && OwnHandles(s) && c0 < |s.calls| && c != c0
    ensures forall t :: t in s.timers && TimerHas(t, c) ==> t in DropHandle(s, c0).timers
  {
    hide T.Inv, T.Cancel;
    if s.calls[c0].handle.Some? {
      T.CancelKeeps(s.timers, s.calls[c0].handle.value);
    }
  }

  lemma RegisteredCirculates(s: State, w: nat)
    requires CallsOk(s) && CirculatesInv(s) && Enabled(s, RegisterWait(w, true))
    ensures CirculatesInv(DoRegister(s, w, true))
  {
    hide CallsOk, HandHas, OutcomeOk, E.AddEvent;
    var r := DoRegister(s, w, true);
    var c := CurrentPc(s, w).call;
    CurrentCall(s, w);
    forall d: CallId
      ensures Keeps(s, r, d)
    {
    }
    if Awaits(r, c) {
      assert Awaits(s, c);
      KeptCirculates(s, r, c);
    }
    CallCirculates(s, r, Current(s, w), c);
  }

  lemma UnregisteredCirculates(s: State, w: nat)
    requires T.Inv(s.timers) && OwnHandles(s) && CallsOk(s) && CirculatesInv(s) && Enabled(s, RegisterWait(w, false))
    ensures CirculatesInv(DoRegister(s, w, false))
  {
    hide T.Inv, CallsOk, CirculatesInv, Keeps, OutcomeOk, OwnHandles, DoRegister, E.AddEvent;
    CurrentCall(s, w);
    UnregisteredRest(s, w);
    var r := DoRegister(s, w, false);
    var c := CurrentPc(s, w).call;
    forall d: CallId | d != c
      ensures Keeps(s, r, d)
    {
      DroppedKeeps(s, c, d);
      FewerTimersKeep(s, r, d);
    }
    CallCirculates(s, r, Current(s, w), c);
  }

  lemma FewerTimersKeep(s: State, r: State, c: CallId)
    requires r.queue == s.queue && r.workers == s.workers
    requires forall t :: t in s.timers && TimerHas(t, c) ==> t in r.timers
    ensures Keeps(s, r, c)
  {
  }

  lemma AfterWaitCirculates(s: State, w: nat)
    requires T.Inv(s.timers) && OwnHandles(s) && CallsOk(s) && CirculatesInv(s) && Runs(s, w) && CurrentPc(s, w).Woken?
    ensures CirculatesInv(DoAfterWait(s, w))
  {
    hide T.Inv, CallsOk, CirculatesInv, HandHas, OutcomeOk, OwnHandles, DropHandle;
    var r := DoAfterWait(s, w);
    var c := CurrentPc(s, w).call;
    CurrentCall(s, w);
    forall d: CallId | d != c
      ensures Keeps(s, r, d)
    {
      DroppedKeeps(s, c, d);
    }
    CallCirculates(s, r, Current(s, w), c);
  }

  lemma CheckCirculates(s: State, w: nat, errno: int)
    requires CallsOk(s) && CirculatesInv(s) && Runs(s, w) && CurrentPc(s, w).Checking?
    ensures CirculatesInv(DoCheckSocket(s, w, errno))
  {
    hide CallsOk, CirculatesInv, HandHas, OutcomeOk;
    var r := DoCheckSocket(s, w, errno);
    var c := CurrentPc(s, w).call;
    CurrentCall(s, w);
    assert forall d: CallId :: Keeps(s, r, d);
    CallCirculates(s, r, Current(s, w), c);
  }

  lemma BeginCirculates(s: State, w: nat, kind: Kind, fd: nat, timeout: Option<nat>)
    requires CirculatesInv(s) && Runs(s, w)
    ensures CirculatesInv(DoBegin(s, w, kind, fd, timeout))
  {
    hide HandHas;
    var r := DoBegin(s, w, kind, fd, timeout);
    forall c: CallId | Awaits(r, c)
      ensures Circulates(r, c)
    {
      assert Awaits(s, c);
      assert Keeps(s, r, c);
      KeptCirculates(s, r, c);
    }
  }

  /** The remaining steps move no callback of a hooked call. */
  lemma OtherCirculates(s: State, step: Step)
    requires CallsOk(s) && CirculatesInv(s) && Enabled(s, step)
    requires step.Advance? || step.Stop? || step.IdleCheck? || step.WaitReturns? || step.HandleReport? || step.RunCancel? ||
             step.Sleep? || step.Suspend? || step.YieldReady? || step.Finish?
    ensures CirculatesInv(Apply(s, step))
  {
    hide CallsOk, CirculatesInv, Circulates, Keeps, FreeAddress, ReportsOk, ReportEnabled, DoIdleCheck, DoReport, DoCancel,
         DoSleep, DoSuspend, DoYieldReady, DoFinish, SameStage;
    var r := Apply(s, step);
    forall c: CallId | Circulates(s, c)
      ensures Circulates(r, c)
    {
      OtherKeeps(s, step, c);
      KeptCirculates(s, r, c);
    }
    OtherStages(s, step);
    QuietCirculates(s, r);
  }

  lemma OtherStages(s: State, step: Step)
    requires Enabled(s, step)
    requires step.Advance? || step.Stop? || step.IdleCheck? || step.WaitReturns? || step.HandleReport? || step.RunCancel? ||
             step.Sleep? || step.Suspend? || step.YieldReady? || step.Finish?
    ensures var r := Apply(s, step);
            |r.fibers| == |s.fibers| && forall f :: 0 <= f < |s.fibers| ==> SameStage(s.fibers[f].pc, r.fibers[f].pc)
  {
    hide FreeAddress, ReportsOk, ReportEnabled, PcMoved, SwappedOut, DoIdleCheck, DoReport, DoCancel, DoSleep, DoSuspend,
         DoYieldReady, DoFinish;
    if step.Sleep? {
      SleepStages(s, step.w, step.ms, step.addr);
    } else if step.Suspend? || step.YieldReady? || step.Finish? {
      SwappedStages(s, Apply(s, step), step.w);
    }
  }

  lemma SleepStages(s: State, w: nat, ms: nat, addr: nat)
    requires Runs(s, w) && CurrentPc(s, w).User?
    ensures var r := DoSleep(s, w, ms, addr);
            |r.fibers| == |s.fibers| && forall f :: 0 <= f < |s.fibers| ==> SameStage(s.fibers[f].pc, r.fibers[f].pc)
  {
    hide DoSleep;
  }

  lemma SwappedStages(s: State, r: State, w: nat)
    requires Runs(s, w) && exists state, yielded :: SwappedOut(s, r, w, state, yielded)
    ensures |r.fibers| == |s.fibers| && forall f :: 0 <= f < |s.fibers| ==> SameStage(s.fibers[f].pc, r.fibers[f].pc)
  {
  }

  lemma OtherKeeps(s: State, step: Step, c: CallId)
    requires Enabled(s, step)
    requires step.Advance? || step.Stop? || step.IdleCheck? || step.WaitReturns? || step.HandleReport? || step.RunCancel? ||
             step.Sleep? || step.Suspend? || step.YieldReady? || step.Finish?
    ensures Keeps(s, Apply(s, step), c)
  {
    hide FreeAddress, ReportsOk, ReportEnabled, E.ProcessReady, Keeps, DoIdleCheck, DoReport, DoCancel, DoSleep, DoSuspend,
         DoYieldReady, DoFinish;
    if step.Sleep? {
      SleepKeeps(s, step.w, step.ms, step.addr, c);
    } else if step.IdleCheck? || step.HandleReport? || step.RunCancel? || step.WaitReturns? {
      LoopKeeps(s, step, c);
    } else {
      SwapsKeep(s, step, c);
    }
  }

  lemma LoopKeeps(s: State, step: Step, c: CallId)
    requires Enabled(s, step)
    requires step.IdleCheck? || step.HandleReport? || step.RunCancel? || step.WaitReturns?
    ensures Keeps(s, Apply(s, step), c)
  {
    hide ReportsOk, ReportEnabled, E.ProcessReady, E.CancelEvent, PushAll, Stopping;
  }

  lemma SwapsKeep(s: State, step: Step, c: CallId)
    requires Enabled(s, step)
    requires step.Advance? || step.Stop? || step.Suspend? || step.YieldReady? || step.Finish?
    ensures Keeps(s, Apply(s, step), c)
  {
    hide HandHas, DoSuspend, DoFinish, Push;
    if step.Suspend? || step.YieldReady? || step.Finish? {
      NothingRunning(s.workers[step.w].place, c);
    }
  }

  lemma NothingRunning(p: Place, c: CallId)
    requires p.InFiber?
    ensures !HandHas(p, c)
  {
  }

  lemma SleepKeeps(s: State, w: nat, ms: nat, addr: nat, c: CallId)
    ensures Keeps(s, DoSleep(s, w, ms, addr), c)
  {
    hide HandHas;
    InsertKeepsTimers(s.timers, T.Timer(addr, T.Add64(s.now, ms), ms, false, Some(WakeCb(Current(s, w)))));
  }

  /** A timeout that has been set and not yet flagged its call is on its way, in
      every reachable state. */
  lemma StepKeepsCirculates(s: State, step: Step)
    requires Inv(s) && CirculatesInv(s) && Enabled(s, step)
    ensures CirculatesInv(Apply(s, step))
  {
    hide CallsOk, CirculatesInv, HandlesInv, CountersInv, RunsInv, FibersInv, Linear, T.Inv, E.Inv, FreeAddress,
         ReportsOk, ReportEnabled, E.AddEvent,
         TimersOk, OwnHandles, QueueOk, HandsOk, SlotsOk,
         DoAction, DoDispatch, DoIdleCheck, DoExpire, DoPostExpired, DoReport, DoCallback, DoCancel, DoSleep, DoBegin,
         DoRawCall, DoRegister, DoSuspend, DoYieldReady, DoAfterWait, DoCheckSocket, DoFinish;
    match step
    case Act(who, a) => ActCirculates(s, who, a);
    case Dispatch(w) => DispatchCirculates(s, w);
    case ExpireTimers(_, _) => IdleCirculates(s, step);
    case PostExpired(_) => IdleCirculates(s, step);
    case RunCallback(w) => CallbackCirculates(s, w);
    case Begin(w, kind, fd, timeout) => BeginCirculates(s, w, kind, fd, timeout);
    case RawCall(w, raw, addr) => RawCirculates(s, w, raw, addr);
    case RegisterWait(w, ctl) =>
      if ctl {
        RegisteredCirculates(s, w);
      } else {
        UnregisteredCirculates(s, w);
      }
    case AfterWait(w) => AfterWaitCirculates(s, w);
    case CheckSocket(w, errno) => CheckCirculates(s, w, errno);
    case _ => OtherCirculates(s, step);
  }

  lemma {:induction false} RunKeepsCirculates(s: State, steps: seq<Step>)
    requires Inv(s) && CirculatesInv(s) && ValidRun(s, steps)
    ensures CirculatesInv(Run(s, steps))
    decreases |steps|
  {
    hide Inv, CirculatesInv, Enabled, Apply;
    if steps != [] {
      StepKeepsInv(s, steps[0]);
      StepKeepsCirculates(s, steps[0]);
      RunKeepsCirculates(Apply(s, steps[0]), steps[1..]);
    }
  }

  /** In every state any number of workers reach, a call that has set its timer
      and has neither cancelled it nor been flagged has its callback on the way:
      on a timer, in a worker's hand, or queued. */
  lemma TimeoutsAreOnTheirWay(n: nat, steps: seq<Step>, c: CallId)
    requires ValidRun(Start(n), steps) && Awaits(Run(Start(n), steps), c)
    ensures Circulates(Run(Start(n), steps), c)
  {
    hide Inv, Circulates, Awaits, ValidRun, Run;
    StartKeeps(n);
    assert forall d: CallId :: !Awaits(Start(n), d) by { NobodyAwaits(n); }
    RunKeepsCirculates(Start(n), steps);
  }

  lemma NobodyAwaits(n: nat)
    ensures forall d: CallId :: !Awaits(Start(n), d)
  {
  }
}
