/** Queued work and the workers: expired timers hand out all their callbacks, and
    work that is queued is attended to. */
module RuntimeWakes {
  import opened Tasks
  import opened Tally
  import opened Runtime
  import opened RuntimeTokens
  import opened RuntimeIdle
  import opened RuntimeTheorems
  import opened Stories
  import C = RuntimeCalls
  import K = RuntimeTasks
  import V = RuntimeInvariant
  import E = EventTable
  import T = TimerSet
  import Q = ReadyQueue

  // ----- expired timers -----

  lemma {:induction false} CallbacksAt(ts: seq<UserTimer>, i: nat)
    requires i < |ts| && forall k :: 0 <= k < |ts| ==> ts[k].cb.Some?
    ensures |CallbacksOf(ts)| == |ts| && Some(CallbacksOf(ts)[i]) == ts[i].cb
  {
    if |ts| > 1 {
      CallbacksAt(ts[1..], if i > 0 then i - 1 else 0);
    }
  }

  lemma {:induction false} TimeoutsAt(cbs: seq<Callback>, c: CallId)
    ensures c in TimeoutsIn(cbs) <==> exists i :: 0 <= i < |cbs| && cbs[i].TimeoutCb? && cbs[i].call == c
  {
    if cbs != [] {
      TimeoutsAt(cbs[1..], c);
      assert forall i :: 0 < i < |cbs| ==> cbs[i] == cbs[1..][i - 1];
      assert forall i :: 0 <= i < |cbs| - 1 ==> cbs[1..][i] == cbs[i + 1];
    }
  }

  /** A batch hands the worker the callback of every timer that fired, application
      timers included, in the order they fired in. */
  lemma ExpiryHandsOut(s: State, w: nat, probe: nat)
    requires V.Inv(s) && Enabled(s, ExpireTimers(w, probe))
    ensures var r := Apply(s, ExpireTimers(w, probe)); var fired := T.Fired(s.timers, s.now, probe);
            && w < |r.workers| && r.workers[w].place.IdleHand? && r.timers == T.Expire(s.timers, s.now, probe)
            && var cbs := r.workers[w].place.cbs;
               && |cbs| == |fired| && (forall i :: 0 <= i < |fired| ==> fired[i].cb == Some(cbs[i]))
               && forall c: CallId :: c in r.expired <==>
                    c in s.expired || exists i :: 0 <= i < |cbs| && cbs[i].TimeoutCb? && cbs[i].call == c
  {
    hide TokenInv, C.CallsOk, FreeAddress, T.Expire, T.DueCount, FrontInserts, CallbacksOf, TimeoutsIn;
    var fired := T.Fired(s.timers, s.now, probe);
    forall i | 0 <= i < |fired|
      ensures fired[i].cb.Some?
    {
      assert fired[i] in s.timers && C.TimerOk(s, fired[i]);
    }
    var cbs := CallbacksOf(fired);
    if fired == [] {
      NoCallbacks();
    } else {
      CallbacksAt(fired, 0);
    }
    forall i | 0 <= i < |fired|
      ensures |cbs| == |fired| && fired[i].cb == Some(cbs[i])
    {
      CallbacksAt(fired, i);
    }
    forall c: CallId
      ensures c in TimeoutsIn(cbs) <==> exists i :: 0 <= i < |cbs| && cbs[i].TimeoutCb? && cbs[i].call == c
    {
      TimeoutsAt(cbs, c);
    }
    assert Apply(s, ExpireTimers(w, probe)).expired == s.expired + TimeoutsIn(cbs);
  }

  lemma NoCallbacks()
    ensures CallbacksOf([]) == []
  {
  }

  lemma {:induction false} PostedAt(cbs: seq<Callback>, i: nat)
    requires i < |cbs|
    ensures |Q.Unpinned(CbTasks(cbs))| == |cbs| && Q.Unpinned(CbTasks(cbs))[i] == Entry(CbTask(cbs[i]), -1)
  {
    assert CbTasks(cbs)[1..] == CbTasks(cbs[1..]);
    if |cbs| > 1 {
      PostedAt(cbs[1..], if i > 0 then i - 1 else 0);
    }
  }

  /** And all of them are queued behind what is there, for any worker. */
  lemma HandIsQueued(s: State, w: nat, i: nat)
    requires Enabled(s, PostExpired(w)) && i < |s.workers[w].place.cbs|
    ensures var r := Apply(s, PostExpired(w)); var cbs := s.workers[w].place.cbs;
            && |r.queue| == |s.queue| + |cbs| && r.queue[..|s.queue|] == s.queue
            && r.queue[|s.queue| + i] == Entry(CbTask(cbs[i]), -1)
  {
    hide PushBatch, CbTasks, Q.Unpinned;
    PostedAt(s.workers[w].place.cbs, i);
  }

  // ----- queued work -----

  /** Where a worker will look at the queue again before it waits. */
  predicate AwakeAt(p: Place)
  {
    !p.IdleEnter? && !p.IdleWait? && !p.Exited?
  }

  /** If anything is queued, a byte is unread or some worker is awake. */
  ghost predicate Attended(s: State)
  {
    s.queue == [] || s.unread > 0 || exists w :: 0 <= w < |s.workers| && AwakeAt(s.workers[w].place)
  }

  predicate PinnedHome(e: Entry) { e.thread == -1 || e.thread == 0 }

  /** Either there is another worker, or nothing is pinned to anybody but this one. */
  ghost predicate PinsOk(s: State)
  {
    |s.workers| >= 2 || forall e :: e in s.queue ==> PinnedHome(e)
  }

  predicate PinsHome(step: Step)
  {
    match step
    case Act(_, PostFiber(thread)) => thread == -1 || thread == 0
    case Act(_, PostCallback(_, thread)) => thread == -1 || thread == 0
    case _ => true
  }

  /** Until stop no idle fiber ends, so a worker that is not idling is awake. */
  lemma SomebodyAwake(s: State, w: nat)
    requires DoneInv(s) && CountersInv(s) && !s.stopped && w < |s.workers| && s.idle <= 0
    ensures AwakeAt(s.workers[w].place)
  {
    assert DoneOk(s, s.workers[w]);
    if Idling(s.workers[w]) == 1 {
      IdlingCounts(s, w);
    }
  }

  lemma StepAttends(s: State, step: Step)
    requires DoneInv(s) && CountersInv(s) && RunsInv(s) && Attended(s) && PinsOk(s) && |s.workers| > 0
    requires Enabled(s, step) && !Apply(s, step).stopped
    ensures Attended(Apply(s, step))
  {
    hide Sum, DoneInv, CountersInv, RunsInv, Enabled, Apply, Attended, PinsOk;
    if s.stopped {
      StopStays(s, step);
    }
    if step.Act? {
      ActAttends(s, step.worker, step.action);
    } else if step.Dispatch? {
      DispatchAttends(s, step.w);
    } else if step.IdleCheck? || step.Advance? || step.Stop? {
      CheckAttends(s, step);
    } else {
      OthersAttend(s, step);
    }
  }

  lemma ActAttends(s: State, who: Option<nat>, a: Action)
    requires DoneInv(s) && CountersInv(s) && Attended(s) && |s.workers| > 0 && !s.stopped && Enabled(s, Act(who, a))
    ensures Attended(Apply(s, Act(who, a)))
  {
    hide Sum, DoneInv, CountersInv, Enabled, Apply;
    ActWakes(s, who, a);
    var r := Apply(s, Act(who, a));
    if s.queue == [] && s.idle <= 0 {
      SomebodyAwake(s, 0);
      AwakeAttends(r, 0);
    } else if v :| 0 <= v < |s.workers| && AwakeAt(s.workers[v].place) {
      AwakeAttends(r, v);
    }
  }

  lemma ActWakes(s: State, who: Option<nat>, a: Action)
    requires Enabled(s, Act(who, a))
    ensures var r := Apply(s, Act(who, a));
            && r.workers == s.workers && r.unread >= s.unread && s.queue <= r.queue
            && (s.queue == [] && r.queue != [] && s.idle > 0 ==> r.unread > 0)
  {
    hide ActionEnabled, FreeAddress, T.Find, T.Cancel, T.Insert, E.AddEvent, E.DelEvent, E.Leave, E.Scheduled, Push, PushAll,
         InsertTimer, RekeyTimer;
    assert Q.Unpinned([]) == [];
  }

  lemma CheckAttends(s: State, step: Step)
    requires Attended(s) && Enabled(s, step) && (step.IdleCheck? || step.Advance? || step.Stop?)
    ensures Attended(Apply(s, step))
  {
    hide Stopping;
    if v :| 0 <= v < |s.workers| && AwakeAt(s.workers[v].place) {
      assert AwakeAt(Apply(s, step).workers[v].place);
    }
  }

  lemma OthersAttend(s: State, step: Step)
    requires Enabled(s, step) && !step.Act? && !step.Dispatch? && !step.IdleCheck? && !step.Advance? && !step.Stop?
    ensures Attended(Apply(s, step))
  {
    hide Attended;
    StaysAwake(s, step);
    AwakeAttends(Apply(s, step), WorkerOf(step).value);
  }

  lemma AwakeAttends(s: State, w: nat)
    requires w < |s.workers| && AwakeAt(s.workers[w].place)
    ensures Attended(s)
  {
  }

  lemma StaysAwake(s: State, step: Step)
    requires Enabled(s, step) && !step.Act? && !step.Dispatch? && !step.IdleCheck? && !step.Advance? && !step.Stop?
    ensures var w := WorkerOf(step);
            w.Some? && w.value < |Apply(s, step).workers| && AwakeAt(Apply(s, step).workers[w.value].place)
  {
    hide FreeAddress, ReportsOk, ReportEnabled, DoExpire, DoPostExpired, DoReport, DoCallback, DoCancel, DoSleep, DoBegin,
         DoRawCall, DoRegister, DoSuspend, DoYieldReady, DoAfterWait, DoCheckSocket, DoFinish, E.AddEvent;
    if step.ExpireTimers? || step.PostExpired? || step.HandleReport? {
      LoopStaysAwake(s, step);
    } else if step.RunCallback? {
      CallbackStaysAwake(s, step.w);
    } else if step.RunCancel? {
      CancelStaysAwake(s, step.w, step.ctl);
    }
  }

  lemma LoopStaysAwake(s: State, step: Step)
    requires Enabled(s, step) && (step.ExpireTimers? || step.PostExpired? || step.HandleReport?)
    ensures step.w < |Apply(s, step).workers| && AwakeAt(Apply(s, step).workers[step.w].place)
  {
    hide FreeAddress, ReportEnabled, E.ProcessReady, T.Expire, T.Fired, PushAll, PushBatch;
  }

  lemma CallbackStaysAwake(s: State, w: nat)
    requires w < |s.workers| && s.workers[w].place.InCallback?
    ensures w < |DoCallback(s, w).workers| && AwakeAt(DoCallback(s, w).workers[w].place)
  {
    hide Push;
  }

  lemma CancelStaysAwake(s: State, w: nat, ctl: bool)
    requires w < |s.workers| && s.workers[w].place.InCancel?
    ensures w < |DoCancel(s, w, ctl).workers| && AwakeAt(DoCancel(s, w, ctl).workers[w].place)
  {
    hide PushAll, E.CancelEvent;
  }

  lemma DispatchAttends(s: State, w: nat)
    requires DoneInv(s) && CountersInv(s) && RunsInv(s) && PinsOk(s) && !s.stopped
    requires Enabled(s, Dispatch(w))
    ensures Attended(Apply(s, Dispatch(w)))
  {
    hide Sum, DoneInv, CountersInv, RunsInv, Executing, Q.Take, Scanned, Attended;
    ScannedFrame(s, w);
    var r := DoDispatch(s, w);
    if NextTaken(s, w).Some? {
      AwakeAttends(r, w);
    } else {
      NothingTakenAttends(s, w);
    }
  }

  lemma ScanTickles(s: State, w: nat)
    requires NextTaken(s, w).None?
    ensures Scanned(s, w).queue == s.queue
    ensures forall e :: e in s.queue ==> (e.thread != -1 && e.thread != w) || (e.task.FiberTask? && e.task.fiber in Executing(s))
    ensures (exists e :: e in s.queue && e.thread != -1 && e.thread != w) && s.idle > 0 ==> Scanned(s, w).unread > 0
  {
    hide Executing, Q.Take;
    var i := Q.SomeFirst(s.queue, w, Executing(s));
    Q.TakeByPosition(s.queue, w, Executing(s), i);
    assert i == |s.queue|;
  }

  lemma NothingTakenAttends(s: State, w: nat)
    requires DoneInv(s) && CountersInv(s) && RunsInv(s) && PinsOk(s) && !s.stopped
    requires w < |s.workers| && s.workers[w].place.AtTop? && NextTaken(s, w).None?
    ensures Attended(DoDispatch(s, w))
  {
    hide Sum, DoneInv, CountersInv, RunsInv, Executing, Q.Take, Scanned;
    ScannedFrame(s, w);
    ScanTickles(s, w);
    var r := DoDispatch(s, w);
    if s.queue != [] {
      var e := s.queue[0];
      assert e in s.queue;
      if e.thread != -1 && e.thread != w {
        if s.idle <= 0 {
          assert |s.workers| >= 2 || PinnedHome(e);
          var v := if w == 0 then 1 else 0;
          SomebodyAwake(s, v);
          AwakeAttends(r, v);
        }
      } else {
        var v := SomebodyRuns(s, e.task.fiber);
        AwakeAttends(r, v);
      }
    }
  }

  lemma SomebodyRuns(s: State, f: FiberId) returns (v: nat)
    requires RunsInv(s) && f in Executing(s)
    ensures v < |s.workers| && s.workers[v].place == InFiber(f)
  {
    assert Sum(s.workers, RunsWeight(f)) == ExecutingAt(s, f) == 1;
    if forall u :: 0 <= u < |s.workers| ==> s.workers[u].place != InFiber(f) {
      SumZero(s.workers, RunsWeight(f));
    }
    v :| 0 <= v < |s.workers| && s.workers[v].place == InFiber(f);
  }

  // ----- what is pinned -----

  lemma {:induction false} UnpinnedHome(ts: seq<Task>)
    ensures forall e :: e in Q.Unpinned(ts) ==> PinnedHome(e)
    decreases |ts|
  {
    if ts != [] {
      UnpinnedHome(ts[1..]);
    }
  }

  lemma StepKeepsPins(s: State, step: Step)
    requires PinsOk(s) && Enabled(s, step) && (|s.workers| >= 2 || PinsHome(step))
    ensures PinsOk(Apply(s, step)) && |Apply(s, step).workers| == |s.workers|
  {
    hide Enabled, Apply;
    StepMovesWorker(s, step);
    if |s.workers| < 2 {
      StepQueues(s, step);
    }
  }

  lemma StepQueues(s: State, step: Step)
    requires Enabled(s, step) && PinsHome(step)
    ensures forall e :: e in Apply(s, step).queue ==> e in s.queue || PinnedHome(e)
  {
    hide FreeAddress, ReportsOk, ReportEnabled, ActionEnabled, DoAction, DoDispatch, DoIdleCheck, DoExpire, DoPostExpired, DoReport,
         DoCallback, DoCancel, DoSleep, DoBegin, DoRawCall, DoRegister, DoSuspend, DoYieldReady, DoAfterWait, DoCheckSocket,
         DoFinish, E.AddEvent;
    match step
    case Act(who, a) => ActQueues(s, who, a);
    case Dispatch(w) => DispatchQueues(s, w);
    case PostExpired(w) => UnpinnedHome(CbTasks(s.workers[w].place.cbs)); PostQueues(s, w);
    case HandleReport(w, ctl) => ReportQueues(s, w, ctl);
    case RunCallback(w) => CallbackQueues(s, w);
    case RunCancel(w, ctl) => CancelQueues(s, w, ctl);
    case YieldReady(w) => YieldQueues(s, w);
    case _ =>
  }

  lemma ActQueues(s: State, who: Option<nat>, a: Action)
    requires Enabled(s, Act(who, a)) && PinsHome(Act(who, a))
    ensures forall e :: e in Apply(s, Act(who, a)).queue ==> e in s.queue || PinnedHome(e)
  {
    hide ActionEnabled, FreeAddress, T.Find, T.Cancel, T.Insert, E.AddEvent, E.DelEvent, E.Leave, E.Scheduled, Push, PushAll,
         InsertTimer, RekeyTimer, Q.Unpinned;
    if a.CancelFdEvent? {
      UnpinnedHome(E.CancelEvent(s.table, a.fd, a.event, a.ctl).woken);
    } else if a.CancelFd? {
      UnpinnedHome(E.CancelAll(s.table, a.fd, a.ctl).woken);
    }
  }

  lemma DispatchQueues(s: State, w: nat)
    requires w < |s.workers| && s.workers[w].place.AtTop?
    ensures forall e :: e in DoDispatch(s, w).queue ==> e in s.queue
  {
    hide Executing, Q.Take, Scanned;
    ScannedFrame(s, w);
    assert DoDispatch(s, w).queue == Scanned(s, w).queue;
    LeftBehind(s, w);
  }

  lemma LeftBehind(s: State, w: nat)
    ensures forall e :: e in Scanned(s, w).queue ==> e in s.queue
  {
    hide Executing;
  }

  lemma PostQueues(s: State, w: nat)
    requires w < |s.workers| && s.workers[w].place.IdleHand?
    ensures DoPostExpired(s, w).queue == s.queue + Q.Unpinned(CbTasks(s.workers[w].place.cbs))
  {
    hide PushBatch, CbTasks, Q.Unpinned;
  }

  lemma ReportQueues(s: State, w: nat, ctl: bool)
    requires Enabled(s, HandleReport(w, ctl))
    ensures forall e :: e in DoReport(s, w, ctl).queue ==> e in s.queue || PinnedHome(e)
  {
    hide PushAll, E.ProcessReady, Q.Unpinned;
    var rs := s.workers[w].place.reports;
    if rs != [] && rs[0].FdReady? {
      UnpinnedHome(E.ProcessReady(s.table, rs[0].fd, rs[0].ready, ctl).woken);
    }
  }

  lemma CallbackQueues(s: State, w: nat)
    requires w < |s.workers| && s.workers[w].place.InCallback?
    ensures forall e :: e in DoCallback(s, w).queue ==> e in s.queue || PinnedHome(e)
  {
    hide Push;
  }

  lemma CancelQueues(s: State, w: nat, ctl: bool)
    requires w < |s.workers| && s.workers[w].place.InCancel?
    ensures forall e :: e in DoCancel(s, w, ctl).queue ==> e in s.queue || PinnedHome(e)
  {
    hide PushAll, E.Leave, E.Scheduled, Q.Unpinned;
    UnpinnedHome(E.CancelEvent(s.table, s.workers[w].place.fd, s.workers[w].place.event, ctl).woken);
  }

  lemma YieldQueues(s: State, w: nat)
    requires w < |s.workers|
    ensures forall e :: e in DoYieldReady(s, w).queue ==> e in s.queue || PinnedHome(e)
  {
    hide Push;
  }

  // ----- over all runs -----

  lemma {:induction false} RunAttends(s: State, steps: seq<Step>)
    requires Sound(s) && ValidRun(s, steps) && |s.workers| > 0 && !Run(s, steps).stopped
    requires Attended(s) && PinsOk(s) && (|s.workers| >= 2 || forall i :: 0 <= i < |steps| ==> PinsHome(steps[i]))
    ensures Attended(Run(s, steps))
    decreases |steps|
  {
    hide Enabled, Apply, Attended, PinsOk, V.Inv, IdleInv, K.TakenInv, Accounted;
    if steps != [] {
      var m := Apply(s, steps[0]);
      if m.stopped {
        StoppedStays(m, steps[1..]);
      }
      Parts(s);
      StepAttends(s, steps[0]);
      StepKeepsPins(s, steps[0]);
      StepKeepsSound(s, steps[0]);
      assert forall i :: 0 <= i < |steps| - 1 ==> steps[1..][i] == steps[i + 1];
      RunAttends(m, steps[1..]);
    }
  }

  lemma Parts(s: State)
    requires Sound(s)
    ensures DoneInv(s) && CountersInv(s) && RunsInv(s)
  {
  }

  lemma StopStays(s: State, step: Step)
    requires Enabled(s, step) && s.stopped
    ensures Apply(s, step).stopped
  {
    hide FreeAddress, ReportsOk, ReportEnabled, ActionEnabled, DoAction, DoDispatch, DoIdleCheck, DoExpire, DoPostExpired, DoReport,
         DoCallback, DoCancel, DoSleep, DoBegin, DoRawCall, DoRegister, DoSuspend, DoYieldReady, DoAfterWait, DoCheckSocket,
         DoFinish, E.AddEvent;
  }

  lemma {:induction false} StoppedStays(s: State, steps: seq<Step>)
    requires ValidRun(s, steps) && s.stopped
    ensures Run(s, steps).stopped
    decreases |steps|
  {
    hide Enabled, Apply;
    if steps != [] {
      StopStays(s, steps[0]);
      StoppedStays(Apply(s, steps[0]), steps[1..]);
    }
  }

  lemma StartAttended(n: nat)
    ensures Attended(Start(n)) && PinsOk(Start(n)) && |Start(n).workers| == n
  {
  }

  /** Until stop, queued work is attended to: a byte is unread, or some worker is
      awake and will look at the queue before it waits. With one worker nothing may
      be pinned to another thread. */
  lemma WorkIsAttended(n: nat, steps: seq<Step>)
    requires ValidRun(Start(n), steps) && n > 0 && !Run(Start(n), steps).stopped
    requires n >= 2 || forall i :: 0 <= i < |steps| ==> PinsHome(steps[i])
    ensures var s := Run(Start(n), steps);
            s.queue == [] || s.unread > 0 ||
            exists w :: 0 <= w < |s.workers| && !s.workers[w].place.IdleEnter? && !s.workers[w].place.IdleWait? && !s.workers[w].place.Exited?
  {
    hide Run, ValidRun, Start, Sound, PinsOk;
    StartIsSound(n);
    StartAttended(n);
    RunAttends(Start(n), steps);
    var s := Run(Start(n), steps);
    if w :| 0 <= w < |s.workers| && AwakeAt(s.workers[w].place) {
      assert !s.workers[w].place.IdleEnter? && !s.workers[w].place.IdleWait? && !s.workers[w].place.Exited?;
    }
  }

  // ----- a lone worker and a task for another thread -----

  function Foreign(thread: int): Entry { Entry(CbTask(UserCb(0)), thread) }

  /** The only worker has passed over a task pinned to another thread. */
  function Passed(thread: int, place: Place): State
  {
    Start(1).(queue := [Foreign(thread)], accepted := [CbTask(UserCb(0))], workers := One(1, place),
              idle := if place.AtTop? then 0 else 1)
  }

  /** Somebody has work for it since. */
  function Missed(thread: int): State
  {
    Passed(thread, IdleWait(0, 5000)).(queue := [Foreign(thread)] + [Entry(CbTask(UserCb(1)), -1)],
                                       accepted := [CbTask(UserCb(0))] + [CbTask(UserCb(1))])
  }

  lemma PostsForeign(thread: int)
    ensures Leads(Start(1), Act(None, PostCallback(0, thread)), Passed(thread, AtTop))
  {
    assert Start(1).workers == One(1, AtTop);
  }

  lemma PassesOver(thread: int)
    requires thread != -1 && thread != 0
    ensures Leads(Passed(thread, AtTop), Dispatch(0), Passed(thread, IdleEnter))
  {
    hide Executing;
    var s := Passed(thread, AtTop);
    assert Q.Elsewhere(s.queue[0], 0);
    assert s.taken + [] == s.taken;
  }

  lemma WaitsOnIt(thread: int)
    ensures Leads(Passed(thread, IdleEnter), IdleCheck(0), Passed(thread, IdleWait(0, 5000)))
  {
  }

  lemma PostsMore(thread: int)
    ensures Leads(Passed(thread, IdleWait(0, 5000)), Act(None, PostCallback(1, -1)), Missed(thread))
  {
  }

  lemma MissingRun(thread: int) returns (steps: seq<Step>)
    requires thread != -1 && thread != 0
    ensures Reaches(1, steps, Missed(thread))
  {
    hide Leads, Reaches, Start, Passed, Missed;
    StartReaches(1);
    PostsForeign(thread);
    steps := Goes(1, [], Start(1), Act(None, PostCallback(0, thread)), Passed(thread, AtTop));
    PassesOver(thread);
    steps := Goes(1, steps, Passed(thread, AtTop), Dispatch(0), Passed(thread, IdleEnter));
    WaitsOnIt(thread);
    steps := Goes(1, steps, Passed(thread, IdleEnter), IdleCheck(0), Passed(thread, IdleWait(0, 5000)));
    PostsMore(thread);
    steps := Goes(1, steps, Passed(thread, IdleWait(0, 5000)), Act(None, PostCallback(1, -1)), Missed(thread));
  }

  lemma MissedIsMissed(thread: int)
    ensures !Attended(Missed(thread)) && !Missed(thread).stopped
    ensures Entry(CbTask(UserCb(1)), -1) in Missed(thread).queue
  {
  }

  /** Whatever is pinned, no run leaves queued work unattended exactly if there are
      two workers or more: one worker can sleep beside a task any worker may take. */
  lemma NoneMissedIffSeveral(n: nat)
    requires n > 0
    ensures (forall steps :: ValidRun(Start(n), steps) && !Run(Start(n), steps).stopped ==> Attended(Run(Start(n), steps))) <==> n >= 2
  {
    hide ValidRun, Run, Start, Sound, PinsOk, Attended;
    if n >= 2 {
      forall steps | ValidRun(Start(n), steps) && !Run(Start(n), steps).stopped
        ensures Attended(Run(Start(n), steps))
      {
        StartIsSound(n);
        StartAttended(n);
        RunAttends(Start(n), steps);
      }
    } else {
      var steps := MissingRun(1);
      MissedIsMissed(1);
      assert !Attended(Run(Start(1), steps));
    }
  }
}
