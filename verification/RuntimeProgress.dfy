/** No worker gets stuck: in every reachable state each worker that has not exited
    has a step of its own to take, but for two places where the program itself ends
    or its clock does. */
module RuntimeProgress {
  import opened Tasks
  import opened Runtime
  import opened RuntimeTokens
  import opened RuntimeTheorems
  import C = RuntimeCalls
  import I = RuntimeIdle
  import K = RuntimeTasks
  import D = RuntimeDelivery
  import E = EventTable
  import T = TimerSet

  // ----- reports in hand -----

  ghost predicate Knows(t: E.Table, rs: seq<Report>)
  {
    forall i :: 0 <= i < |rs| && rs[i].FdReady? ==> rs[i].fd < |t.contexts|
  }

  ghost predicate PlaceKnows(t: E.Table, p: Place)
  {
    match p
    case IdleExpire(rs) => Knows(t, rs)
    case IdleHand(_, rs) => Knows(t, rs)
    case IdleReports(rs) => Knows(t, rs)
    case _ => true
  }

  /** Whatever epoll reported is in the context vector. */
  ghost predicate ReportsInv(s: State)
  {
    forall w :: 0 <= w < |s.workers| ==> PlaceKnows(s.table, s.workers[w].place)
  }

  lemma StepKeepsSize(s: State, step: Step)
    requires E.Inv(s.table) && Enabled(s, step)
    ensures |Apply(s, step).table.contexts| >= |s.table.contexts|
  {
    hide E.Inv, FreeAddress, ReportsOk, ReportEnabled, ActionEnabled, DoAction, DoDispatch, DoIdleCheck, DoExpire, DoPostExpired,
         DoReport, DoCallback, DoCancel, DoSleep, DoBegin, DoRawCall, DoRegister, DoSuspend, DoYieldReady, DoAfterWait,
         DoCheckSocket, DoFinish, E.AddEvent;
    match step
    case Act(who, a) => ActKeepsSize(s, who, a);
    case HandleReport(w, ctl) => ReportKeepsSize(s, w, ctl);
    case RunCancel(w, ctl) => CancelKeepsSize(s, w, ctl);
    case RegisterWait(w, ctl) => RegisterKeepsSize(s, w, ctl);
    case _ =>
  }

  lemma ActKeepsSize(s: State, who: Option<nat>, a: Action)
    requires E.Inv(s.table) && Enabled(s, Act(who, a))
    ensures |Apply(s, Act(who, a)).table.contexts| >= |s.table.contexts|
  {
    hide E.Inv, E.AddEvent, FreeAddress, T.Find, T.Cancel, T.Insert, Push, PushAll, InsertTimer, RekeyTimer;
    if a.AddCallbackEvent? {
      AddKeepsSize(s.table, a.fd, a.event, CbTask(UserCb(a.id)), a.ctl);
    }
  }

  lemma ReportKeepsSize(s: State, w: nat, ctl: bool)
    requires Enabled(s, HandleReport(w, ctl))
    ensures |DoReport(s, w, ctl).table.contexts| == |s.table.contexts|
  {
    hide PushAll, E.TriggerBoth;
  }

  lemma CancelKeepsSize(s: State, w: nat, ctl: bool)
    requires w < |s.workers| && s.workers[w].place.InCancel?
    ensures |DoCancel(s, w, ctl).table.contexts| == |s.table.contexts|
  {
    hide PushAll, E.Scheduled;
  }

  lemma RegisterKeepsSize(s: State, w: nat, ctl: bool)
    requires E.Inv(s.table) && Enabled(s, RegisterWait(w, ctl))
    ensures |DoRegister(s, w, ctl).table.contexts| >= |s.table.contexts|
  {
    hide E.Inv, E.AddEvent, DoRegister;
    var call := CallAt(s, CurrentPc(s, w).call);
    D.RegisterTable(s, w, ctl);
    AddKeepsSize(s.table, call.fd, EventOf(call), FiberTask(Current(s, w)), ctl);
  }

  lemma AddKeepsSize(t: E.Table, fd: nat, e: Event, k: Task, ctl: bool)
    requires E.Inv(t) && E.AddEvent(t, fd, e, k, ctl).Effect?
    ensures |E.AddEvent(t, fd, e, k, ctl).table.contexts| >= |t.contexts|
  {
    hide E.Inv, E.Grow;
    E.GrowKeeps(t, fd);
  }

  lemma Remembers(t: E.Table, r: E.Table, p: Place)
    requires PlaceKnows(t, p) && |r.contexts| >= |t.contexts|
    ensures PlaceKnows(r, p)
  {
  }

  /** Only epoll_wait brings reports in. */
  lemma StepKeepsReports(s: State, step: Step)
    requires E.Inv(s.table) && ReportsInv(s) && Enabled(s, step)
    ensures ReportsInv(Apply(s, step))
  {
    hide E.Inv, PlaceKnows, Enabled, Apply;
    var r := Apply(s, step);
    StepKeepsSize(s, step);
    StepMovesWorker(s, step);
    forall w | 0 <= w < |r.workers|
      ensures PlaceKnows(r.table, r.workers[w].place)
    {
      if WorkerOf(step) == Some(w) {
        MovedKnows(s, step);
      }
      Remembers(s.table, r.table, r.workers[w].place);
    }
  }

  lemma MovedKnows(s: State, step: Step)
    requires E.Inv(s.table) && ReportsInv(s) && Enabled(s, step) && WorkerOf(step).Some?
    ensures var w := WorkerOf(step).value; w < |Apply(s, step).workers| && PlaceKnows(s.table, Apply(s, step).workers[w].place)
  {
    hide E.Inv, FreeAddress, ReportEnabled, ReportsOk, DoDispatch, DoIdleCheck, DoExpire, DoPostExpired, DoReport, DoCallback, DoCancel,
         DoSleep, DoBegin, DoRawCall, DoRegister, DoSuspend, DoYieldReady, DoAfterWait, DoCheckSocket, DoFinish, E.AddEvent;
    match step
    case WaitReturns(w, reports) => ReportedKnown(s, reports);
    case Dispatch(w) => DispatchKnows(s, w);
    case IdleCheck(w) => LoopKnows(s, step);
    case ExpireTimers(w, _) => LoopKnows(s, step);
    case PostExpired(w) => LoopKnows(s, step);
    case HandleReport(w, _) => LoopKnows(s, step);
    case RunCallback(w) => CallbackKnows(s, step);
    case RunCancel(w, _) => CallbackKnows(s, step);
    case _ =>
  }

  lemma ReportedKnown(s: State, reports: seq<Report>)
    requires E.Inv(s.table) && ReportsOk(s, reports)
    ensures Knows(s.table, reports)
  {
  }

  lemma DispatchKnows(s: State, w: nat)
    requires w < |s.workers| && s.workers[w].place.AtTop?
    ensures w < |DoDispatch(s, w).workers| && PlaceKnows(s.table, DoDispatch(s, w).workers[w].place)
  {
    hide Executing, Scanned;
  }

  lemma LoopKnows(s: State, step: Step)
    requires ReportsInv(s) && Enabled(s, step)
    requires step.IdleCheck? || step.ExpireTimers? || step.PostExpired? || step.HandleReport?
    ensures step.w < |Apply(s, step).workers| && PlaceKnows(s.table, Apply(s, step).workers[step.w].place)
  {
    hide FreeAddress, ReportEnabled, Stopping, T.Expire, T.Fired, E.ProcessReady, PushAll, PushBatch;
    assert PlaceKnows(s.table, s.workers[step.w].place);
  }

  lemma CallbackKnows(s: State, step: Step)
    requires Enabled(s, step) && (step.RunCallback? || step.RunCancel?)
    ensures step.w < |Apply(s, step).workers| && PlaceKnows(s.table, Apply(s, step).workers[step.w].place)
  {
    hide E.CancelEvent, Push, PushAll;
  }

  lemma {:induction false} RunKeepsReports(s: State, steps: seq<Step>)
    requires Sound(s) && ReportsInv(s) && ValidRun(s, steps)
    ensures ReportsInv(Run(s, steps))
    decreases |steps|
  {
    hide Sound, ReportsInv, Enabled, Apply;
    if steps != [] {
      TableOf(s);
      StepKeepsSound(s, steps[0]);
      StepKeepsReports(s, steps[0]);
      RunKeepsReports(Apply(s, steps[0]), steps[1..]);
    }
  }

  lemma TableOf(s: State)
    requires Sound(s)
    ensures E.Inv(s.table)
  {
  }

  // ----- addresses -----

  function AboveTimers(ts: seq<UserTimer>): (a: nat)
    ensures forall t :: t in ts ==> t.addr < a
  {
    if ts == [] then 0
    else
      var a := AboveTimers(ts[1..]);
      if ts[0].addr < a then a else ts[0].addr + 1
  }

  function AboveHandles(cs: seq<Call>): (a: nat)
    ensures forall i :: 0 <= i < |cs| && cs[i].handle.Some? ==> cs[i].handle.value < a
  {
    if cs == [] then 0
    else
      var a := AboveHandles(cs[1..]);
      if cs[0].handle.Some? && cs[0].handle.value >= a then cs[0].handle.value + 1 else a
  }

  /** There always is room for one more timer. */
  lemma SomeAddress(s: State) returns (addr: nat)
    ensures FreeAddress(s, addr)
  {
    addr := AboveTimers(s.timers) + AboveHandles(s.calls);
  }

  // ----- progress -----

  /** The worker's fiber is about to add an event that is there already: the assertion
      of add_event ends the process. */
  ghost predicate AtTakenEvent(s: State, w: nat)
  {
    Runs(s, w) && CurrentPc(s, w).Armed? &&
    var call := CallAt(s, CurrentPc(s, w).call);
    call.fd < |s.table.contexts| &&
    if call.kind.IoCall? then s.table.contexts[call.fd].events.read else s.table.contexts[call.fd].events.write
  }

  /** The worker's fiber is about to make a call whose timeout would end behind the
      last value of the clock. */
  ghost predicate AtEndOfTime(s: State, w: nat)
  {
    Runs(s, w) && CurrentPc(s, w).Trying? &&
    var timeout := CallAt(s, CurrentPc(s, w).call).timeout;
    timeout.Some? && s.now + timeout.value >= T.U64
  }

  lemma Registers(s: State, w: nat)
    requires E.Inv(s.table) && Runs(s, w) && CurrentPc(s, w).Armed?
    ensures Enabled(s, RegisterWait(w, true)) <==> !AtTakenEvent(s, w)
    ensures Enabled(s, RegisterWait(w, false)) <==> !AtTakenEvent(s, w)
  {
    hide E.Inv, E.Grow, E.AddEvent;
    assert |s.table.contexts| >= 2 by { TwoContexts(s.table); }
    var call := CallAt(s, CurrentPc(s, w).call);
    E.AddEventKeeps(s.table, call.fd, EventOf(call), FiberTask(Current(s, w)), true);
    E.AddEventKeeps(s.table, call.fd, EventOf(call), FiberTask(Current(s, w)), false);
  }

  lemma TwoContexts(t: E.Table)
    requires E.Inv(t)
    ensures |t.contexts| >= 2
  {
  }

  lemma InFiberGoesOn(s: State, w: nat) returns (step: Step)
    requires E.Inv(s.table) && Runs(s, w) && !AtTakenEvent(s, w) && !AtEndOfTime(s, w)
    ensures WorkerOf(step) == Some(w) && Enabled(s, step)
  {
    hide E.Inv, E.AddEvent, FreeAddress;
    match CurrentPc(s, w)
    case User => step := Finish(w, false);
    case Trying(_) =>
      var addr := SomeAddress(s);
      step := RawCall(w, Value(0), addr);
    case Armed(_) =>
      Registers(s, w);
      step := RegisterWait(w, true);
    case Registered(_) => step := Suspend(w);
    case Woken(_) => step := AfterWait(w);
    case Checking(_) => step := CheckSocket(w, 0);
    case Asleep(_) => step := Suspend(w);
  }

  lemma LoopGoesOn(s: State, w: nat) returns (step: Step)
    requires E.Inv(s.table) && ReportsInv(s) && w < |s.workers| && !s.workers[w].place.InFiber? && !s.workers[w].place.Exited?
    ensures WorkerOf(step) == Some(w) && Enabled(s, step)
  {
    hide E.Inv, FreeAddress;
    assert PlaceKnows(s.table, s.workers[w].place);
    match s.workers[w].place
    case AtTop => step := Dispatch(w);
    case InCallback(_) => step := RunCallback(w);
    case InCancel(_, _, _) => step := RunCancel(w, true);
    case IdleEnter => step := IdleCheck(w);
    case IdleWait(_, _) => step := WaitReturns(w, []);
    case IdleExpire(_) =>
      var addr := SomeAddress(s);
      step := ExpireTimers(w, addr);
    case IdleHand(_, _) => step := PostExpired(w);
    case IdleReports(rs) =>
      if rs != [] && rs[0].FdReady? {
        E.KnownFd(s.table, rs[0].fd);
      }
      step := HandleReport(w, false);
    case _ =>
  }

  /** Application code may begin any call or end at any time, and yield ready unless it
      is the first stretch of a callback. */
  lemma UserCodeIsFree(s: State, w: nat, kind: Kind, fd: nat, timeout: Option<nat>, throws: bool)
    requires Runs(s, w) && CurrentPc(s, w).User?
    ensures Enabled(s, Begin(w, kind, fd, timeout)) && Enabled(s, Finish(w, throws))
    ensures var fb := s.fibers[Current(s, w)]; Enabled(s, YieldReady(w)) <==> fb.origin.None? || fb.resumed > 1
  {
  }

  lemma NothingElse(s: State, w: nat, step: Step)
    requires E.Inv(s.table) && w < |s.workers| && WorkerOf(step) == Some(w)
    requires s.workers[w].place.Exited? || AtTakenEvent(s, w) || AtEndOfTime(s, w)
    ensures !Enabled(s, step)
  {
    hide E.Inv, E.AddEvent, FreeAddress, ReportEnabled, ReportsOk, AtTakenEvent;
    if AtTakenEvent(s, w) {
      TakenIsArmed(s, w);
      Registers(s, w);
    }
  }

  lemma TakenIsArmed(s: State, w: nat)
    requires AtTakenEvent(s, w)
    ensures Runs(s, w) && CurrentPc(s, w).Armed?
  {
  }

  /** In every reachable state a worker has a step to take exactly unless it has
      exited, or its fiber is about to add an event that somebody else is waiting for
      already, or to count past the end of the clock. */
  lemma WorkersGoOn(n: nat, steps: seq<Step>, w: nat)
    requires ValidRun(Start(n), steps) && w < |Run(Start(n), steps).workers|
    ensures var s := Run(Start(n), steps);
            (exists step :: WorkerOf(step) == Some(w) && Enabled(s, step)) <==>
            !s.workers[w].place.Exited? && !AtTakenEvent(s, w) && !AtEndOfTime(s, w)
  {
    hide Run, ValidRun, Start, Enabled, HandlesInv, CountersInv, RunsInv, FibersInv, Linear, C.CallsInv, I.IdleInv, K.TakenInv,
         I.Accounted, E.Inv, T.Inv, AtTakenEvent, AtEndOfTime, ReportsInv;
    ReachedIsSound(n, steps);
    StartIsSound(n);
    StartReports(n);
    RunKeepsReports(Start(n), steps);
    var s := Run(Start(n), steps);
    if s.workers[w].place.Exited? || AtTakenEvent(s, w) || AtEndOfTime(s, w) {
      forall step | WorkerOf(step) == Some(w)
        ensures !Enabled(s, step)
      {
        NothingElse(s, w, step);
      }
    } else if s.workers[w].place.InFiber? {
      RunningExecutes(s, w);
      var step := InFiberGoesOn(s, w);
    } else {
      var step := LoopGoesOn(s, w);
    }
  }

  lemma StartReports(n: nat)
    ensures ReportsInv(Start(n))
  {
  }
}
