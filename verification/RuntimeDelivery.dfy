/** With one worker, and no epoll_ctl failing inside a timeout callback, a call
    that has been flagged as timed out is woken up to see it. */
module RuntimeDelivery {
  import opened Tasks
  import opened Tally
  import opened Runtime
  import opened RuntimeTokens
  import opened RuntimeCalls
  import opened RuntimeCallSteps
  import opened RuntimeInvariant
  import E = EventTable
  import T = TimerSet
  import Q = ReadyQueue

  predicate Flagged(s: State, c: CallId)
  {
    c < |s.calls| && s.calls[c].outcome == Running && s.calls[c].cancelled
  }

  predicate AtWait(pc: Pc) { pc.Registered? || pc.Woken? }

  /** The call's owner is parked in its slot of the event table. */
  predicate Parked(s: State, call: Call)
  {
    call.fd < |s.table.contexts| && E.SlotOf(s.table.contexts[call.fd], EventOf(call)).fiber == Some(call.owner)
  }

  /** A flagged call has reached its wait; if its fiber is still parked, the
      callback that flagged it is about to cancel its event. */
  ghost predicate AloneInv(s: State)
  {
    |s.workers| == 1 &&
    forall c: CallId :: Flagged(s, c) ==>
      && AtWait(FiberAt(s, s.calls[c].owner).pc)
      && (Parked(s, s.calls[c]) ==> s.workers[0].place == InCancel(c, s.calls[c].fd, EventOf(s.calls[c])))
  }

  /** Nobody new is parked. */
  ghost predicate NoNewParks(s: State, r: State)
  {
    forall i, e :: 0 <= i < |r.table.contexts| && E.SlotOf(r.table.contexts[i], e).fiber.Some? ==>
      i < |s.table.contexts| && E.SlotOf(s.table.contexts[i], e).fiber == E.SlotOf(r.table.contexts[i], e).fiber
  }

  lemma QuietAlone(s: State, r: State)
    requires CallsOk(s) && AloneInv(s) && NoNewParks(s, r) && |r.workers| == 1
    requires s.calls <= r.calls && forall c :: |s.calls| <= c < |r.calls| ==> !r.calls[c].cancelled
    requires |s.fibers| <= |r.fibers| && forall f :: 0 <= f < |s.fibers| ==> (AtWait(s.fibers[f].pc) ==> AtWait(r.fibers[f].pc))
    requires r.workers[0].place == s.workers[0].place || !s.workers[0].place.InCancel?
    ensures AloneInv(r)
  {
    forall c: CallId | Flagged(r, c)
      ensures AtWait(FiberAt(r, r.calls[c].owner).pc)
      ensures Parked(r, r.calls[c]) ==> r.workers[0].place == InCancel(c, r.calls[c].fd, EventOf(r.calls[c]))
    {
      assert Flagged(s, c) && CallOk(s, s.calls[c], c);
    }
  }

  lemma SameTable(s: State, r: State)
    requires r.table == s.table
    ensures NoNewParks(s, r)
  {
  }

  lemma LeftParks(t: E.Table, r: E.Effect, s: State, s': State)
    requires Removal(t, r) && s.table == t && s'.table == r.table
    ensures NoNewParks(s, s')
  {
  }

  lemma AddedParks(s: State, r: State, fd: nat, e: Event, k: Task, ctl: bool)
    requires E.Inv(s.table) && E.AddEvent(s.table, fd, e, k, ctl).Effect? && r.table == E.AddEvent(s.table, fd, e, k, ctl).table
    requires ctl ==> k.CbTask?
    ensures NoNewParks(s, r)
  {
    E.GrowKeeps(s.table, fd);
  }

  lemma ActionAlone(s: State, inside: bool, a: Action)
    requires E.Inv(s.table) && ActionEnabled(s, inside, a)
    ensures NoNewParks(s, DoAction(s, inside, a))
    ensures var r := DoAction(s, inside, a);
            |s.fibers| <= |r.fibers| && forall f :: 0 <= f < |s.fibers| ==> r.fibers[f] == s.fibers[f]
  {
    hide E.Inv, NoNewParks, E.AddEvent, E.DelEvent, E.CancelEvent, E.CancelAll, T.Find, T.Cancel, T.Insert,
         FreeAddress, Removal;
    var r := DoAction(s, inside, a);
    match a
    case AddCallbackEvent(fd, e, id, ctl) => AddedParks(s, r, fd, e, CbTask(UserCb(id)), ctl);
    case DelCallbackEvent(fd, e, ctl) =>
      CancelRemoves(s.table, fd, e, ctl);
      LeftParks(s.table, E.DelEvent(s.table, fd, e, ctl), s, r);
    case CancelFdEvent(fd, e, ctl) =>
      CancelRemoves(s.table, fd, e, ctl);
      LeftParks(s.table, E.CancelEvent(s.table, fd, e, ctl), s, r);
    case CancelFd(fd, ctl) =>
      CancelRemoves(s.table, fd, READ, ctl);
      LeftParks(s.table, E.CancelAll(s.table, fd, ctl), s, r);
    case _ => SameTable(s, r);
  }

  lemma ActAlone(s: State, who: Option<nat>, a: Action)
    requires E.Inv(s.table) && CallsOk(s) && AloneInv(s) && Enabled(s, Act(who, a))
    ensures AloneInv(Apply(s, Act(who, a)))
  {
    hide E.Inv, CallsOk, DoAction, ActionEnabled, NoNewParks, AloneInv;
    var late := s.late || (who.None? && s.stopped);
    LateEnables(s, late, who.Some?, a);
    var m := s.(late := late);
    var r := Apply(s, Act(who, a));
    ActionAlone(m, who.Some?, a);
    LateParks(s, late, r);
    OneWorker(s);
    QuietAlone(s, r);
  }

  lemma OneWorker(s: State)
    requires AloneInv(s)
    ensures |s.workers| == 1
  {
  }

  lemma LateParks(s: State, late: bool, r: State)
    requires NoNewParks(s.(late := late), r)
    ensures NoNewParks(s, r)
  {
  }

  lemma DispatchAlone(s: State, w: nat)
    requires CallsOk(s) && AloneInv(s) && w < |s.workers| && s.workers[w].place.AtTop?
    ensures AloneInv(DoDispatch(s, w))
  {
    hide CallsOk, NoNewParks, Executing, Q.Take, Scanned;
    SameTable(s, DoDispatch(s, w));
    QuietAlone(s, DoDispatch(s, w));
  }

  lemma ReportAlone(s: State, w: nat, ctl: bool)
    requires CallsOk(s) && AloneInv(s) && Enabled(s, HandleReport(w, ctl))
    ensures AloneInv(DoReport(s, w, ctl))
  {
    hide CallsOk, NoNewParks, E.ProcessReady, Removal, PushAll;
    var rs := s.workers[w].place.reports;
    var r := DoReport(s, w, ctl);
    if rs != [] && rs[0].FdReady? {
      ReadyRemoves(s.table, rs[0].fd, rs[0].ready, ctl);
      LeftParks(s.table, E.ProcessReady(s.table, rs[0].fd, rs[0].ready, ctl), s, r);
    } else {
      SameTable(s, r);
    }
    QuietAlone(s, r);
  }

  /** While the only worker runs a callback no fiber runs, so a call that is not
      over has its fiber suspended behind its event. */
  lemma CallerWaits(s: State, c: CallId)
    requires Inv(s) && AloneInv(s) && s.workers[0].place.InCallback? && c < |s.calls| && s.calls[c].outcome == Running
    ensures FiberAt(s, s.calls[c].owner).pc == Registered(c)
  {
    hide Sum, TablesInv, HandlesInv, CountersInv, Linear, PlacesOk;
    var f := s.calls[c].owner;
    assert CallOk(s, s.calls[c], c) && FiberOk(s.fibers[f]);
    SumZero(s.workers, RunsWeight(f));
  }

  lemma CallbackAlone(s: State, w: nat)
    requires Inv(s) && AloneInv(s) && w < |s.workers| && s.workers[w].place.InCallback?
    ensures AloneInv(DoCallback(s, w))
  {
    hide TokenInv, CallsOk, TimersOk, OwnHandles, QueueOk, SlotsOk, Push;
    var r := DoCallback(s, w);
    var cb := s.workers[w].place.cb;
    assert HandOk(s, s.workers[w].place);
    if cb.TimeoutCb? && CallAt(s, cb.call).outcome == Running && !CallAt(s, cb.call).cancelled {
      CallerWaits(s, cb.call);
      forall c: CallId | Flagged(r, c)
        ensures AtWait(FiberAt(r, r.calls[c].owner).pc)
        ensures Parked(r, r.calls[c]) ==> r.workers[0].place == InCancel(c, r.calls[c].fd, EventOf(r.calls[c]))
      {
        assert c != cb.call ==> Flagged(s, c);
      }
    } else {
      SameTable(s, r);
      QuietAlone(s, r);
    }
  }

  /** Cancelling takes the fiber out of the slot. */
  lemma CancelUnparks(t: E.Table, fd: nat, e: Event)
    requires E.Inv(t)
    ensures var r := E.CancelEvent(t, fd, e, true).table;
            fd < |r.contexts| ==> E.SlotOf(r.contexts[fd], e).fiber.None?
  {
    if fd < |t.contexts| {
      assert E.ContextOk(t, fd);
    }
  }

  lemma CancelAlone(s: State, w: nat)
    requires E.Inv(s.table) && AloneInv(s) && w < |s.workers| && s.workers[w].place.InCancel?
    ensures AloneInv(DoCancel(s, w, true))
  {
    hide E.Inv, E.CancelEvent, Removal, PushAll;
    var p := s.workers[w].place;
    var r := DoCancel(s, w, true);
    CancelUnparks(s.table, p.fd, p.event);
    CancelRemoves(s.table, p.fd, p.event, true);
    LeftParks(s.table, E.CancelEvent(s.table, p.fd, p.event, true), s, r);
    forall c: CallId | Flagged(r, c)
      ensures AtWait(FiberAt(r, r.calls[c].owner).pc) && !Parked(r, r.calls[c])
    {
      assert Flagged(s, c);
    }
  }

  /** The running fiber's own step in a call that is not flagged afterwards. */
  lemma CallAlone(s: State, r: State, f: FiberId, c0: CallId)
    requires CallsOk(s) && AloneInv(s) && r.workers == s.workers && s.workers[0].place == InFiber(f)
    requires f < |s.fibers| && c0 < |s.calls| && CallOf(s.fibers[f].pc) == Some(c0) && s.calls[c0].owner == f
    requires |r.fibers| == |s.fibers| && r.fibers == s.fibers[f := r.fibers[f]]
    requires |r.calls| == |s.calls| && r.calls == s.calls[c0 := r.calls[c0]] && !Flagged(r, c0)
    requires forall i, e :: 0 <= i < |r.table.contexts| && E.SlotOf(r.table.contexts[i], e).fiber.Some? ==>
               (i < |s.table.contexts| && E.SlotOf(s.table.contexts[i], e).fiber == E.SlotOf(r.table.contexts[i], e).fiber) ||
               E.SlotOf(r.table.contexts[i], e).fiber == Some(f)
    ensures AloneInv(r)
  {
    forall c: CallId | Flagged(r, c)
      ensures AtWait(FiberAt(r, r.calls[c].owner).pc) && !Parked(r, r.calls[c])
    {
      assert Flagged(s, c) && CallOk(s, s.calls[c], c);
    }
  }

  lemma RunnerIsFirst(s: State, w: nat)
    requires AloneInv(s) && Runs(s, w)
    ensures s.workers[0].place == InFiber(Current(s, w))
    ensures CallsOk(s) && CurrentPc(s, w).Armed? ==> !Flagged(s, CurrentPc(s, w).call)
  {
    hide CallsOk;
    if CallsOk(s) && CurrentPc(s, w).Armed? {
      CurrentCall(s, w);
    }
  }

  lemma RegisterAlone(s: State, w: nat, ctl: bool)
    requires E.Inv(s.table) && CallsOk(s) && AloneInv(s) && Enabled(s, RegisterWait(w, ctl))
    ensures AloneInv(DoRegister(s, w, ctl))
  {
    hide E.Inv, CallsOk, OutcomeOk, DropHandle, T.Cancel, E.AddEvent, AloneInv;
    OneWorker(s);
    RunnerIsFirst(s, w);
    var r := DoRegister(s, w, ctl);
    var c := CurrentPc(s, w).call;
    CurrentCall(s, w);
    assert !Flagged(s, c);
    RegisterParks(s, w, ctl);
    CallAlone(s, r, Current(s, w), c);
  }

  lemma RegisterParks(s: State, w: nat, ctl: bool)
    requires E.Inv(s.table) && Enabled(s, RegisterWait(w, ctl))
    ensures var r := DoRegister(s, w, ctl);
            forall i, e :: 0 <= i < |r.table.contexts| && E.SlotOf(r.table.contexts[i], e).fiber.Some? ==>
              (i < |s.table.contexts| && E.SlotOf(s.table.contexts[i], e).fiber == E.SlotOf(r.table.contexts[i], e).fiber) ||
              E.SlotOf(r.table.contexts[i], e).fiber == Some(Current(s, w))
  {
    hide E.Inv, DoRegister, E.AddEvent;
    var call := CallAt(s, CurrentPc(s, w).call);
    AddedFor(s.table, call.fd, EventOf(call), Current(s, w), ctl);
    RegisterTable(s, w, ctl);
  }

  lemma RegisterTable(s: State, w: nat, ctl: bool)
    requires Enabled(s, RegisterWait(w, ctl))
    ensures var call := CallAt(s, CurrentPc(s, w).call);
            DoRegister(s, w, ctl).table == E.AddEvent(s.table, call.fd, EventOf(call), FiberTask(Current(s, w)), ctl).table
  {
    hide E.AddEvent, DropHandle;
  }

  /** An event added for fiber f parks nobody but f. */
  lemma AddedFor(t: E.Table, fd: nat, e: Event, f: FiberId, ctl: bool)
    requires E.Inv(t) && E.AddEvent(t, fd, e, FiberTask(f), ctl).Effect?
    ensures var r := E.AddEvent(t, fd, e, FiberTask(f), ctl).table;
            forall i, d :: 0 <= i < |r.contexts| && E.SlotOf(r.contexts[i], d).fiber.Some? ==>
              (i < |t.contexts| && E.SlotOf(t.contexts[i], d).fiber == E.SlotOf(r.contexts[i], d).fiber) ||
              E.SlotOf(r.contexts[i], d).fiber == Some(f)
  {
    assert |t.contexts| >= 2;
    hide E.Inv, E.Grow;
    E.GrowKeeps(t, fd);
    E.BlankGrown(t, fd);
  }

  lemma FiberAlone(s: State, step: Step)
    requires E.Inv(s.table) && CallsOk(s) && AloneInv(s) && Enabled(s, step)
    requires step.RawCall? || step.RegisterWait? || step.AfterWait? || step.CheckSocket?
    ensures AloneInv(Apply(s, step))
  {
    hide E.Inv, CallsOk, AloneInv, OutcomeOk, FreeAddress, DoRawCall, DoAfterWait, DoCheckSocket, DoRegister,
         E.AddEvent;
    match step
    case RawCall(w, raw, addr) => RawAlone(s, w, raw, addr);
    case RegisterWait(w, ctl) => RegisterAlone(s, w, ctl);
    case AfterWait(w) => AfterWaitAlone(s, w);
    case CheckSocket(w, errno) => CheckAlone(s, w, errno);
  }

  lemma RawAlone(s: State, w: nat, raw: Raw, addr: nat)
    requires CallsOk(s) && AloneInv(s) && Runs(s, w) && CurrentPc(s, w).Trying?
    ensures AloneInv(DoRawCall(s, w, raw, addr))
  {
    hide CallsOk, OutcomeOk, InsertTimer;
    CurrentCall(s, w);
    assert !Flagged(s, CurrentPc(s, w).call);
    CallAlone(s, DoRawCall(s, w, raw, addr), Current(s, w), CurrentPc(s, w).call);
  }

  lemma AfterWaitAlone(s: State, w: nat)
    requires CallsOk(s) && AloneInv(s) && Runs(s, w) && CurrentPc(s, w).Woken?
    ensures AloneInv(DoAfterWait(s, w))
  {
    hide CallsOk, OutcomeOk, DropHandle;
    CurrentCall(s, w);
    CallAlone(s, DoAfterWait(s, w), Current(s, w), CurrentPc(s, w).call);
  }

  lemma CheckAlone(s: State, w: nat, errno: int)
    requires CallsOk(s) && AloneInv(s) && Runs(s, w) && CurrentPc(s, w).Checking?
    ensures AloneInv(DoCheckSocket(s, w, errno))
  {
    hide CallsOk, OutcomeOk;
    CurrentCall(s, w);
    CallAlone(s, DoCheckSocket(s, w, errno), Current(s, w), CurrentPc(s, w).call);
  }

  lemma OtherAlone(s: State, step: Step)
    requires CallsOk(s) && AloneInv(s) && Enabled(s, step)
    requires step.Advance? || step.Stop? || step.Sleep? || step.Begin? || step.Suspend? || step.YieldReady? || step.Finish?
    ensures AloneInv(Apply(s, step))
  {
    hide CallsOk, NoNewParks, FreeAddress, T.Insert, Push, DoSleep, DoSuspend, DoYieldReady, DoFinish;
    SameTable(s, Apply(s, step));
    QuietAlone(s, Apply(s, step));
  }

  lemma IdleAlone(s: State, step: Step)
    requires CallsOk(s) && AloneInv(s) && Enabled(s, step)
    requires step.IdleCheck? || step.WaitReturns? || step.ExpireTimers? || step.PostExpired?
    ensures AloneInv(Apply(s, step))
  {
    hide CallsOk, NoNewParks, FreeAddress, ReportsOk, DoIdleCheck, DoExpire, DoPostExpired;
    SameTable(s, Apply(s, step));
    QuietAlone(s, Apply(s, step));
  }

  lemma StepKeepsAlone(s: State, step: Step)
    requires Inv(s) && AloneInv(s) && Enabled(s, step) && (step.RunCancel? ==> step.ctl)
    ensures AloneInv(Apply(s, step))
  {
    hide E.Inv, T.Inv, HandlesInv, CountersInv, RunsInv, FibersInv, Linear, CallsOk, PlacesOk, AloneInv, FreeAddress,
         ReportsOk, ReportEnabled, E.AddEvent,
         DoAction, DoDispatch, DoIdleCheck, DoExpire, DoPostExpired, DoReport, DoCallback, DoCancel, DoSleep, DoBegin,
         DoRawCall, DoRegister, DoSuspend, DoYieldReady, DoAfterWait, DoCheckSocket, DoFinish;
    match step
    case Act(who, a) => ActAlone(s, who, a);
    case Dispatch(w) => DispatchAlone(s, w);
    case HandleReport(w, ctl) => ReportAlone(s, w, ctl);
    case RunCallback(w) => CallbackAlone(s, w);
    case RunCancel(w, ctl) => CancelAlone(s, w);
    case RawCall(_, _, _) => FiberAlone(s, step);
    case RegisterWait(_, _) => FiberAlone(s, step);
    case AfterWait(_) => FiberAlone(s, step);
    case CheckSocket(_, _) => FiberAlone(s, step);
    case IdleCheck(_) => IdleAlone(s, step);
    case WaitReturns(_, _) => IdleAlone(s, step);
    case ExpireTimers(_, _) => IdleAlone(s, step);
    case PostExpired(_) => IdleAlone(s, step);
    case _ => OtherAlone(s, step);
  }

  // ----- one worker -----

  predicate NoFailedCancel(steps: seq<Step>)
  {
    forall i :: 0 <= i < |steps| && steps[i].RunCancel? ==> steps[i].ctl
  }

  lemma {:induction false} RunKeepsAlone(s: State, steps: seq<Step>)
    requires Inv(s) && AloneInv(s) && ValidRun(s, steps) && NoFailedCancel(steps)
    ensures Inv(Run(s, steps)) && AloneInv(Run(s, steps))
    decreases |steps|
  {
    hide Inv, AloneInv, Enabled, Apply;
    if steps != [] {
      StepKeepsInv(s, steps[0]);
      StepKeepsAlone(s, steps[0]);
      RunKeepsAlone(Apply(s, steps[0]), steps[1..]);
    }
  }

  lemma StartsAlone()
    ensures AloneInv(Start(1))
  {
  }

  /** The token of a fiber that waits in a call, and is not parked, is queued. */
  lemma UnparkedIsQueued(s: State, f: FiberId, c: CallId)
    requires Inv(s) && f < |s.fibers| && s.fibers[f].state == HOLD && s.fibers[f].pc == Registered(c) && c < |s.calls|
    requires s.calls[c].owner == f && !Parked(s, s.calls[c])
    ensures Q.Queued(s.queue, TokenOf(f)) == 1
  {
    hide Sum, Q.Queued, TablesInv, HandlesInv, CountersInv, RunsInv, FibersInv, CallsOk;
    assert Owed(s, f) == 1;
    NoTimerToken(s, f);
    NoHandToken(s, f);
    NoParkedToken(s, f, c);
    assert Total(s, TokenOf(f)) == 1;
  }

  lemma NoTimerToken(s: State, f: FiberId)
    requires TimersOk(s) && f < |s.fibers| && !s.fibers[f].pc.Asleep?
    ensures Sum(s.timers, TimerWeight(TokenOf(f))) == 0
  {
    forall i | 0 <= i < |s.timers|
      ensures TimerWeight(TokenOf(f))(s.timers[i]) == 0
    {
      assert TimerOk(s, s.timers[i]);
    }
    SumZero(s.timers, TimerWeight(TokenOf(f)));
  }

  lemma NoHandToken(s: State, f: FiberId)
    requires HandsOk(s) && f < |s.fibers| && !s.fibers[f].pc.Asleep?
    ensures Sum(s.workers, HandWeight(TokenOf(f))) == 0
  {
    forall w | 0 <= w < |s.workers|
      ensures HandWeight(TokenOf(f))(s.workers[w]) == 0
    {
      assert HandOk(s, s.workers[w].place);
      if s.workers[w].place.IdleHand? {
        var cbs := s.workers[w].place.cbs;
        forall i | 0 <= i < |cbs|
          ensures CallbackWeight(TokenOf(f))(cbs[i]) == 0
        {
          assert cbs[i] in cbs;
        }
        SumZero(cbs, CallbackWeight(TokenOf(f)));
      }
    }
    SumZero(s.workers, HandWeight(TokenOf(f)));
  }

  lemma NoParkedToken(s: State, f: FiberId, c: CallId)
    requires SlotsOk(s) && f < |s.fibers| && s.fibers[f].pc == Registered(c) && c < |s.calls|
    requires s.calls[c].owner == f && !Parked(s, s.calls[c])
    ensures E.Parked(s.table, TokenOf(f)) == 0
  {
    forall i | 0 <= i < |s.table.contexts|
      ensures E.ContextWeight(TokenOf(f))(s.table.contexts[i]) == 0
    {
      assert SlotHolds(s, s.table.contexts[i].read, i, READ) && SlotHolds(s, s.table.contexts[i].write, i, WRITE);
    }
    SumZero(s.table.contexts, E.ContextWeight(TokenOf(f)));
  }

  /** One worker delivers every timeout: once a call is flagged and its event
      cancelled, the suspended fiber is in the ready queue. */
  lemma TimeoutsAreDelivered(steps: seq<Step>, c: CallId)
    requires ValidRun(Start(1), steps) && NoFailedCancel(steps)
    requires var s := Run(Start(1), steps);
             Flagged(s, c) && (forall w :: 0 <= w < |s.workers| ==> !s.workers[w].place.InCancel?) && FiberAt(s, s.calls[c].owner).state == HOLD
    ensures var s := Run(Start(1), steps); Q.Queued(s.queue, TokenOf(s.calls[c].owner)) == 1
  {
    hide Q.Queued, TablesInv, HandlesInv, CountersInv, RunsInv, Linear, PlacesOk, ValidRun, Run;
    StartKeeps(1);
    StartsAlone();
    RunKeepsAlone(Start(1), steps);
    var s := Run(Start(1), steps);
    assert CallOk(s, s.calls[c], c) && FiberOk(s.fibers[s.calls[c].owner]);
    UnparkedIsQueued(s, s.calls[c].owner, c);
  }
}
