/** The invariant of the runtime: it holds when a scheduler starts, and every
    step of every worker, timer, event and outside thread keeps it. */
module RuntimeInvariant {
  import opened Tasks
  import opened Tally
  import opened Runtime
  import opened RuntimeTokens
  import opened RuntimeCalls
  import opened RuntimeCallSteps
  import opened RuntimePlaces
  import opened RuntimeWorkSteps
  import T = TimerSet
  import E = EventTable
  import Q = ReadyQueue

  ghost predicate Inv(s: State)
  {
    TokenInv(s) && CallsInv(s)
  }

  // ----- the two tables -----

  ghost predicate TimersInv(ts: seq<UserTimer>)
  {
    T.Inv(ts) && forall t :: t in ts && t.recurring ==> IsUserTimer(t)
  }

  lemma InsertTables(s: State, t: UserTimer)
    requires TimersInv(s.timers) && (forall u :: u in s.timers ==> u.addr != t.addr) && (t.recurring ==> IsUserTimer(t))
    ensures TimersInv(T.Insert(s.timers, t))
  {
    hide T.UpperBound;
    assert !T.Has(s.timers, t.addr) by {
      assert forall i :: 0 <= i < |s.timers| ==> s.timers[i] in s.timers;
    }
    T.InsertKeeps(s.timers, t);
    T.InsertMembers(s.timers, t);
  }

  lemma RekeyTables(s: State, i: nat, t: UserTimer)
    requires TimersInv(s.timers) && i < |s.timers| && t.addr == s.timers[i].addr && IsUserTimer(t)
    ensures TimersInv(T.Rekey(s.timers, i, t))
  {
    hide T.Rekey;
    T.RekeyKeeps(s.timers, i, t);
  }

  lemma CancelTables(s: State, addr: nat)
    requires TimersInv(s.timers)
    ensures TimersInv(T.Cancel(s.timers, addr))
  {
    hide T.Cancel;
    T.CancelKeeps(s.timers, addr);
  }

  lemma ExpireTables(s: State, probe: nat)
    requires TimersInv(s.timers) && !T.Has(s.timers, probe)
    ensures TimersInv(T.Expire(s.timers, s.now, probe))
  {
    hide T.Expire, T.Fired, T.Inv, T.Has;
    T.ExpireExact(s.timers, s.now, probe);
    forall t | t in T.Expire(s.timers, s.now, probe) && t.recurring
      ensures IsUserTimer(t)
    {
      if t !in s.timers {
        assert T.Requeued(T.Fired(s.timers, s.now, probe), s.now, t);
        var u :| u in T.Fired(s.timers, s.now, probe) && u.recurring && t == T.Refreshed(u, s.now);
        FiredDue(s.timers, s.now, probe, u);
      }
    }
  }

  lemma ActionTables(s: State, inside: bool, a: Action)
    requires TimersInv(s.timers) && E.Inv(s.table) && ActionEnabled(s, inside, a)
    ensures TimersInv(DoAction(s, inside, a).timers) && E.Inv(DoAction(s, inside, a).table)
  {
    hide TimersInv, E.Inv, E.AddEvent, E.DelEvent, E.CancelEvent, E.CancelAll, T.Insert, T.Rekey, T.Cancel,
         FreeAddress, Push, PushAll;
    match a
    case AddTimer(addr, ms, recurring, id) =>
      FreeIsFree(s, addr);
      InsertTables(s, T.Timer(addr, T.Add64(s.now, ms), ms, recurring, Some(UserCb(id))));
    case CancelTimer(addr) => CancelTables(s, addr);
    case RefreshTimer(addr) =>
      var i := T.Find(s.timers, addr).value;
      RekeyTables(s, i, T.Refreshed(s.timers[i], s.now));
    case ResetTimer(addr, ms, fromNow) =>
      var i := T.Find(s.timers, addr).value;
      RekeyTables(s, i, T.ResetTo(s.timers[i], ms, fromNow, s.now));
    case AddCallbackEvent(fd, e, id, ctl) => E.AddEventKeeps(s.table, fd, e, CbTask(UserCb(id)), ctl);
    case DelCallbackEvent(fd, e, ctl) => E.CancelsKeep(s.table, fd, e, ctl);
    case CancelFdEvent(fd, e, ctl) => E.CancelsKeep(s.table, fd, e, ctl);
    case CancelFd(fd, ctl) => E.CancelsKeep(s.table, fd, READ, ctl);
    case _ =>
  }

  lemma ReportTables(s: State, w: nat, ctl: bool)
    requires E.Inv(s.table) && Enabled(s, HandleReport(w, ctl))
    ensures E.Inv(DoReport(s, w, ctl).table)
  {
    hide E.Inv, E.ProcessReady, PushAll;
    var rs := s.workers[w].place.reports;
    if rs != [] && rs[0].FdReady? {
      E.ProcessReadyKeeps(s.table, rs[0].fd, rs[0].ready, ctl);
    }
  }

  lemma DropTables(s: State, c: CallId)
    requires TimersInv(s.timers)
    ensures TimersInv(DropHandle(s, c).timers)
  {
    hide TimersInv;
    if CallAt(s, c).handle.Some? {
      CancelTables(s, CallAt(s, c).handle.value);
    }
  }

  lemma RegisterTables(s: State, w: nat, ctl: bool)
    requires TimersInv(s.timers) && E.Inv(s.table) && Enabled(s, RegisterWait(w, ctl))
    ensures TimersInv(DoRegister(s, w, ctl).timers) && E.Inv(DoRegister(s, w, ctl).table)
  {
    hide TimersInv, E.Inv, E.AddEvent, DropHandle;
    var c := CurrentPc(s, w).call;
    var call := CallAt(s, c);
    var k := FiberTask(Current(s, w));
    E.AddEventKeeps(s.table, call.fd, EventOf(call), k, ctl);
    DropTables(s.(table := E.AddEvent(s.table, call.fd, EventOf(call), k, ctl).table), c);
  }

  lemma LateEnables(s: State, late: bool, inside: bool, a: Action)
    requires ActionEnabled(s, inside, a)
    ensures ActionEnabled(s.(late := late), inside, a)
  {
    hide T.Find, E.AddEvent;
  }

  lemma RawTables(s: State, w: nat, raw: Raw, addr: nat)
    requires TimersInv(s.timers) && CurrentPc(s, w).Trying? && FreeAddress(s, addr)
    ensures TimersInv(DoRawCall(s, w, raw, addr).timers)
  {
    hide TimersInv, FreeAddress, T.Insert, AfterRaw;
    FreeIsFree(s, addr);
    var call := CallAt(s, CurrentPc(s, w).call);
    if call.timeout.Some? {
      InsertTables(s, TimerOf(call, CurrentPc(s, w).call, s.now, addr));
    }
  }

  lemma SleepTables(s: State, w: nat, ms: nat, addr: nat)
    requires TimersInv(s.timers) && FreeAddress(s, addr)
    ensures TimersInv(DoSleep(s, w, ms, addr).timers)
  {
    hide TimersInv, FreeAddress, T.Insert;
    FreeIsFree(s, addr);
    InsertTables(s, T.Timer(addr, T.Add64(s.now, ms), ms, false, Some(WakeCb(Current(s, w)))));
  }

  lemma AfterWaitTables(s: State, w: nat)
    requires TimersInv(s.timers) && CurrentPc(s, w).Woken?
    ensures TimersInv(DoAfterWait(s, w).timers)
  {
    hide TimersInv, DropHandle;
    DropTables(s, CurrentPc(s, w).call);
  }

  lemma FiberTables(s: State, step: Step)
    requires TimersInv(s.timers) && E.Inv(s.table) && Enabled(s, step)
    requires step.Sleep? || step.Begin? || step.RawCall? || step.RegisterWait? || step.Suspend? ||
             step.YieldReady? || step.AfterWait? || step.CheckSocket? || step.Finish?
    ensures TimersInv(Apply(s, step).timers) && E.Inv(Apply(s, step).table)
  {
    hide TimersInv, E.Inv, E.AddEvent, FreeAddress, DoSleep, DoBegin, DoRawCall, DoRegister, DoSuspend, DoYieldReady,
         DoAfterWait, DoCheckSocket, DoFinish;
    match step
    case Sleep(w, ms, addr) => SleepTables(s, w, ms, addr);
    case RawCall(w, raw, addr) => RawTables(s, w, raw, addr);
    case RegisterWait(w, ctl) => RegisterTables(s, w, ctl);
    case AfterWait(w) => AfterWaitTables(s, w);
    case _ =>
  }

  /** Timers stay sorted and distinct, and the event table in agreement. */
  lemma StepKeepsTables(s: State, step: Step)
    requires TimersInv(s.timers) && E.Inv(s.table) && Enabled(s, step)
    ensures TimersInv(Apply(s, step).timers) && E.Inv(Apply(s, step).table)
  {
    hide TimersInv, E.Inv, T.Insert, T.Expire, T.Cancel, E.AddEvent, E.CancelEvent, FreeAddress, ReportsOk,
         ReportEnabled, ActionEnabled,
         DoAction, DoDispatch, DoIdleCheck, DoPostExpired, DoReport, DoCallback, DoBegin, DoRegister, DoSuspend,
         DoYieldReady,
         DoCheckSocket, DoFinish, PushAll, DropHandle;
    match step
    case Advance(_) =>
    case Stop =>
    case Dispatch(_) =>
    case IdleCheck(_) =>
    case WaitReturns(_, _) =>
    case PostExpired(_) =>
    case RunCallback(_) =>
    case Act(who, a) =>
      var late := s.late || (who.None? && s.stopped);
      LateEnables(s, late, who.Some?, a);
      ActionTables(s.(late := late), who.Some?, a);
    case ExpireTimers(w, probe) =>
      FreeIsFree(s, probe);
      ExpireTables(s, probe);
    case HandleReport(w, ctl) => ReportTables(s, w, ctl);
    case RunCancel(w, ctl) => E.CancelsKeep(s.table, s.workers[w].place.fd, s.workers[w].place.event, ctl);
    case _ => FiberTables(s, step);
  }

  // ----- calls -----

  lemma ActionCalls(s: State, inside: bool, a: Action)
    requires CallsOk(s) && ActionEnabled(s, inside, a)
    ensures CallsOk(DoAction(s, inside, a))
  {
    hide ActionEnabled, CallsOk, T.Find, T.Insert, E.AddEvent, E.DelEvent, E.CancelEvent, E.CancelAll, Push, PushAll,
         InsertTimer, RekeyTimer;
    CallsStay(s, DoAction(s, inside, a));
  }

  lemma DispatchCalls(s: State, w: nat)
    requires CallsOk(s) && w < |s.workers| && s.workers[w].place.AtTop?
    ensures CallsOk(DoDispatch(s, w))
  {
    hide CallsOk, Executing, Q.Take, Scanned;
    CallsStay(s, DoDispatch(s, w));
  }

  /** Calls and their owners stay in order. */
  lemma StepKeepsCalls(s: State, step: Step)
    requires CallsInv(s) && Enabled(s, step)
    ensures CallsOk(Apply(s, step))
  {
    hide CallsOk, PlacesOk, FreeAddress, ReportsOk, ReportEnabled, ActionEnabled, E.AddEvent, T.Expire, T.Fired,
         DoAction, DoDispatch, DoIdleCheck, DoPostExpired, DoReport, DoCallback, DoCancel, DoSleep, DoBegin,
         DoRawCall, DoRegister, DoSuspend, DoYieldReady, DoAfterWait, DoCheckSocket, DoFinish;
    match step
    case Act(who, a) => ActCalls(s, who, a);
    case Dispatch(w) => DispatchCalls(s, w);
    case RunCallback(w) => CallbackCalls(s, w);
    case Sleep(_, _, _) => BetweenCalls(s, step);
    case Suspend(_) => BetweenCalls(s, step);
    case YieldReady(_) => BetweenCalls(s, step);
    case Finish(_, _) => BetweenCalls(s, step);
    case Begin(_, _, _, _) => InsideCalls(s, step);
    case RawCall(_, _, _) => InsideCalls(s, step);
    case RegisterWait(_, _) => InsideCalls(s, step);
    case AfterWait(_) => InsideCalls(s, step);
    case CheckSocket(_, _) => InsideCalls(s, step);
    case _ => CallsStay(s, Apply(s, step));
  }

  lemma ActCalls(s: State, who: Option<nat>, a: Action)
    requires CallsOk(s) && Enabled(s, Act(who, a))
    ensures CallsOk(Apply(s, Act(who, a)))
  {
    hide CallsOk, ActionEnabled, DoAction;
    var late := s.late || (who.None? && s.stopped);
    var m := s.(late := late);
    CallsStay(s, m);
    LateEnables(s, late, who.Some?, a);
    ActionCalls(m, who.Some?, a);
  }

  lemma BetweenCalls(s: State, step: Step)
    requires CallsOk(s) && Enabled(s, step)
    requires step.Sleep? || step.Suspend? || step.YieldReady? || step.Finish?
    ensures CallsOk(Apply(s, step))
  {
    hide CallsOk, FreeAddress, DoSleep, DoSuspend, DoYieldReady, DoFinish;
    CallsStay(s, Apply(s, step));
  }

  lemma InsideCalls(s: State, step: Step)
    requires CallsOk(s) && Enabled(s, step)
    requires step.Begin? || step.RawCall? || step.RegisterWait? || step.AfterWait? || step.CheckSocket?
    ensures CallsOk(Apply(s, step))
  {
    hide CallsOk, FreeAddress, E.AddEvent, DoBegin, DoRawCall, DoRegister, DoAfterWait, DoCheckSocket;
    match step
    case Begin(w, kind, fd, timeout) => BeginCalls(s, w, kind, fd, timeout);
    case RawCall(w, raw, addr) => RawCalls(s, w, raw, addr);
    case RegisterWait(w, ctl) => RegisterCalls(s, w, ctl);
    case AfterWait(w) => AfterWaitCalls(s, w);
    case CheckSocket(w, errno) => CheckCalls(s, w, errno);
  }

  // ----- places -----

  lemma ActPlaces(s: State, who: Option<nat>, a: Action)
    requires TablesInv(s) && PlacesOk(s) && Enabled(s, Act(who, a))
    ensures PlacesOk(Apply(s, Act(who, a)))
  {
    hide PlacesOk, DoAction, E.Inv, T.Inv, T.Find;
    var m := s.(late := s.late || (who.None? && s.stopped));
    PlacesMove(s, m);
    ActionPlaces(m, who.Some?, a);
  }

  lemma FiberPlaces(s: State, step: Step)
    requires TokenInv(s) && CallsInv(s) && Enabled(s, step)
    requires step.Sleep? || step.Begin? || step.RawCall? || step.RegisterWait? || step.Suspend? ||
             step.YieldReady? || step.AfterWait? || step.CheckSocket? || step.Finish?
    ensures PlacesOk(Apply(s, step))
  {
    hide TokenInv, CallsOk, PlacesOk, FreeAddress, DoSleep, DoBegin, DoRawCall, DoRegister, DoSuspend, DoYieldReady,
         DoAfterWait, DoCheckSocket, DoFinish, E.AddEvent;
    match step
    case Sleep(w, ms, addr) => SleepPlaces(s, w, ms, addr);
    case Begin(w, kind, fd, timeout) => BeginPlaces(s, w, kind, fd, timeout);
    case RawCall(w, raw, addr) => RawPlaces(s, w, raw, addr);
    case RegisterWait(w, ctl) =>
      if ctl {
        RegisteredPlaces(s, w);
      } else {
        UnregisteredPlaces(s, w);
      }
    case AfterWait(w) => AfterWaitPlaces(s, w);
    case CheckSocket(w, errno) => CheckPlaces(s, w, errno);
    case _ => SwapOutPlaces(s, step);
  }

  lemma SwapOutPlaces(s: State, step: Step)
    requires TokenInv(s) && CallsInv(s) && Enabled(s, step)
    requires step.Suspend? || step.YieldReady? || step.Finish?
    ensures PlacesOk(Apply(s, step))
  {
    hide TokenInv, CallsOk, PlacesOk, DoSuspend, DoYieldReady, DoFinish;
    match step
    case Suspend(w) => SwappedOutPlaces(s, Apply(s, step), w, HOLD, FiberAt(s, Current(s, w)).yielded + 1);
    case YieldReady(w) => YieldReadyPlaces(s, w);
    case Finish(w, throws) =>
      SwappedOutPlaces(s, Apply(s, step), w, if throws then EXCPT else TERM, FiberAt(s, Current(s, w)).yielded);
  }

  lemma StepKeepsPlaces(s: State, step: Step)
    requires TokenInv(s) && CallsInv(s) && Enabled(s, step)
    ensures PlacesOk(Apply(s, step))
  {
    hide CallsOk, PlacesOk, FreeAddress, ReportsOk, ReportEnabled, ActionEnabled, E.AddEvent, E.Inv, T.Inv,
         HandlesInv, CountersInv, RunsInv, FibersInv, Linear,
         DoAction, DoDispatch, DoIdleCheck, DoExpire, DoPostExpired, DoReport, DoCallback, DoCancel, DoSleep, DoBegin,
         DoRawCall, DoRegister, DoSuspend, DoYieldReady, DoAfterWait, DoCheckSocket, DoFinish;
    match step
    case Advance(_) => PeopleMove(s, Apply(s, step));
    case Stop => PeopleMove(s, Apply(s, step));
    case Act(who, a) => ActPlaces(s, who, a);
    case Dispatch(w) => DispatchPlaces(s, w);
    case IdleCheck(w) => IdleCheckPlaces(s, w);
    case WaitReturns(w, reports) => PlaceMoves(s, Apply(s, step), w);
    case ExpireTimers(w, probe) => ExpirePlaces(s, w, probe);
    case PostExpired(w) => PostedPlaces(s, w);
    case HandleReport(w, ctl) => ReportPlaces(s, w, ctl);
    case RunCallback(w) => CallbackPlaces(s, w);
    case RunCancel(w, ctl) => CancelStepPlaces(s, w, ctl);
    case _ => FiberPlaces(s, step);
  }

  lemma IdleCheckPlaces(s: State, w: nat)
    requires PlacesOk(s) && w < |s.workers| && s.workers[w].place.IdleEnter?
    ensures PlacesOk(DoIdleCheck(s, w))
  {
    hide PlacesOk;
    PlaceMoves(s, DoIdleCheck(s, w), w);
  }

  // ----- all of it -----

  lemma TimersInvIsTablesInv(s: State)
    ensures TablesInv(s) <==> TimersInv(s.timers) && E.Inv(s.table)
  {
  }

  lemma OwnHandlesAreHandles(s: State)
    requires PlacesOk(s)
    ensures HandlesInv(s)
  {
  }

  /** Every step keeps the invariant. */
  lemma StepKeepsInv(s: State, step: Step)
    requires Inv(s) && Enabled(s, step)
    ensures Inv(Apply(s, step))
  {
    hide Enabled, Apply, TablesInv, TimersInv, HandlesInv, CountersInv, RunsInv, FibersInv, Linear, CallsOk, PlacesOk;
    TimersInvIsTablesInv(s);
    TimersInvIsTablesInv(Apply(s, step));
    StepKeepsTables(s, step);
    StepKeepsCounters(s, step);
    StepKeepsRuns(s, step);
    StepKeepsLinear(s, step);
    StepKeepsCalls(s, step);
    StepKeepsPlaces(s, step);
    OwnHandlesAreHandles(Apply(s, step));
  }

  // ----- the start -----

  lemma StartSums(n: nat, weight: Worker -> nat)
    requires weight(Worker(AtTop, false)) == 0
    ensures Sum(Start(n).workers, weight) == 0
  {
    SumZero(Start(n).workers, weight);
  }

  lemma StartKeeps(n: nat)
    ensures Inv(Start(n))
  {
    hide Sum, E.Parked, E.Inv, E.Initial;
    var s := Start(n);
    E.InitialKeeps();
    StartSums(n, BusyWeight());
    StartSums(n, IdlingWeight());
    assert s.table == E.Initial();
    forall f: FiberId
      ensures Sum(s.workers, RunsWeight(f)) == 0 && Total(s, TokenOf(f)) == 0
    {
      StartSums(n, RunsWeight(f));
      StartSums(n, HandWeight(TokenOf(f)));
      E.InitialParks(TokenOf(f));
      assert Sum(s.timers, TimerWeight(TokenOf(f))) == 0 by { SumZero(s.timers, TimerWeight(TokenOf(f))); }
      assert Q.Queued(s.queue, TokenOf(f)) == 0 by { SumZero(s.queue, Q.EntryWeight(TokenOf(f))); }
    }
    StartSlots(n);
    assert CallsOk(s);
    assert HandsOk(s);
  }

  lemma StartSlots(n: nat)
    ensures SlotsOk(Start(n))
  {
    var cs := Start(n).table.contexts;
    assert forall i :: 0 <= i < |cs| ==> cs[i] == E.Blank(i);
  }
}
