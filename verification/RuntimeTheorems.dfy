/** What holds in every state that any run of the runtime reaches: any number of
    workers, any interleaving, any clock, any answers of the kernel. */
module RuntimeTheorems {
  import opened Tasks
  import opened Tally
  import opened Runtime
  import opened RuntimeTokens
  import opened RuntimeCalls
  import opened RuntimeCallSteps
  import opened RuntimePlaces
  import opened RuntimeTasks
  import opened RuntimeTimeouts
  import opened RuntimeInvariant
  import opened RuntimeIdle
  import T = TimerSet
  import E = EventTable
  import Q = ReadyQueue

  ghost predicate Sound(s: State)
  {
    Inv(s) && IdleInv(s) && TakenInv(s) && forall w: Task -> nat :: Accounted(s, w)
  }

  lemma StepKeepsSound(s: State, step: Step)
    requires Sound(s) && Enabled(s, step)
    ensures Sound(Apply(s, step))
  {
    hide Enabled, Apply, HandlesInv, CountersInv, RunsInv, FibersInv, Linear, CallsInv, IdleInv, TakenInv, Accounted, E.Inv,
         T.Inv;
    StepKeepsInv(s, step);
    StepKeepsIdle(s, step);
    StepKeepsTaken(s, step);
    forall w: Task -> nat
      ensures Accounted(Apply(s, step), w)
    {
      StepAccounts(s, step, w);
    }
  }

  lemma StartIsSound(n: nat)
    ensures Sound(Start(n))
  {
    hide Inv, TakenInv;
    StartKeeps(n);
    StartWatched(n);
    StartTakesNothing(n);
    forall w: Task -> nat
      ensures Accounted(Start(n), w)
    {
      SumZero(Start(n).queue, Q.EntryWeight(w));
    }
  }

  lemma StartWatched(n: nat)
    ensures IdleInv(Start(n))
  {
    var s := Start(n);
    if n > 0 {
      assert Watches(s, s.workers[0]);
    }
  }

  lemma {:induction false} RunIsSound(s: State, steps: seq<Step>)
    requires Sound(s) && ValidRun(s, steps)
    ensures Sound(Run(s, steps))
    decreases |steps|
  {
    hide Sound, Enabled, Apply;
    if steps != [] {
      StepKeepsSound(s, steps[0]);
      RunIsSound(Apply(s, steps[0]), steps[1..]);
    }
  }

  /** Every state a run of an n-worker scheduler reaches. */
  lemma ReachedIsSound(n: nat, steps: seq<Step>)
    requires ValidRun(Start(n), steps)
    ensures Sound(Run(Start(n), steps))
  {
    hide Sound;
    StartIsSound(n);
    RunIsSound(Start(n), steps);
  }

  // ----- wake tokens -----

  /** Wake-token linearity: a fiber that is ready or suspended, or has handed
      itself out and is about to suspend, is referred to from exactly one place
      (queue, event table, timer, or a worker's hand); any other fiber from none;
      and no fiber ever runs on two workers. */
  lemma WakeTokensAreLinear(n: nat, steps: seq<Step>, f: FiberId)
    requires ValidRun(Start(n), steps)
    ensures var s := Run(Start(n), steps);
            Q.Queued(s.queue, TokenOf(f)) + E.Parked(s.table, TokenOf(f)) +
            Sum(s.timers, TimerWeight(TokenOf(f))) + Sum(s.workers, HandWeight(TokenOf(f))) ==
            if f < |s.fibers| && Owing(s.fibers[f]) then 1 else 0
    ensures var s := Run(Start(n), steps);
            Sum(s.workers, RunsWeight(f)) == if f < |s.fibers| && s.fibers[f].state == EXEC then 1 else 0
  {
    hide Sum, Run, ValidRun, Start, Q.Queued, E.Parked, TablesInv, HandlesInv, CountersInv, FibersInv, CallsInv,
         IdleInv, Accounted;
    ReachedIsSound(n, steps);
  }

  /** A fiber is in one place: referred to once, or executing without having handed
      itself out, or ended. */
  ghost predicate OnePlace(s: State, f: FiberId)
    requires f < |s.fibers|
  {
    var fb := s.fibers[f];
    Total(s, TokenOf(f))
    + (if Sum(s.workers, RunsWeight(f)) == 1 && !fb.pc.Registered? && !fb.pc.Asleep? then 1 else 0)
    + (if fb.state in {TERM, EXCPT} then 1 else 0) == 1
  }

  lemma FibersAreInOnePlace(n: nat, steps: seq<Step>, f: FiberId)
    requires ValidRun(Start(n), steps) && f < |Run(Start(n), steps).fibers|
    ensures OnePlace(Run(Start(n), steps), f)
  {
    hide Sum, Run, ValidRun, Start, Total, TablesInv, HandlesInv, CountersInv, CallsInv, IdleInv, TakenInv, Accounted;
    ReachedIsSound(n, steps);
  }

  /** Each suspension is resumed at most once: the switches in never run ahead of
      the start and the switches out. */
  lemma ResumedAtMostOnce(n: nat, steps: seq<Step>, f: FiberId)
    requires ValidRun(Start(n), steps) && f < |Run(Start(n), steps).fibers|
    ensures var fb := Run(Start(n), steps).fibers[f];
            fb.resumed == fb.yielded + if fb.state == EXEC || fb.state == TERM || fb.state == EXCPT then 1 else 0
  {
    hide Run, ValidRun, Start, TablesInv, HandlesInv, CountersInv, RunsInv, Linear, CallsInv, IdleInv, TakenInv, Accounted;
    ReachedIsSound(n, steps);
  }

  /** swapIn only ever sees a new, ready or suspended fiber: whatever the next
      dispatch of any worker takes, its assertion holds, nothing is resumed that
      has ended, and no queued fiber is dropped. */
  lemma SwapInIsLegal(n: nat, steps: seq<Step>, w: nat, f: FiberId)
    requires ValidRun(Start(n), steps) && NextTaken(Run(Start(n), steps), w) == Some(FiberTask(f))
    ensures var s := Run(Start(n), steps);
            f < |s.fibers| && s.fibers[f].state in {INIT, READY, HOLD}
  {
    hide Run, ValidRun, Start, TablesInv, HandlesInv, CountersInv, RunsInv, Linear, CallsInv, IdleInv, TakenInv, Accounted,
         NextTaken;
    ReachedIsSound(n, steps);
    TakenIsRunnable(Run(Start(n), steps), w, f);
  }

  /** A fiber that has ended stays as it is, however the run goes on. */
  lemma {:induction false} EndedStaysEnded(s: State, steps: seq<Step>, f: FiberId)
    requires Sound(s) && ValidRun(s, steps) && f < |s.fibers| && s.fibers[f].state in {TERM, EXCPT}
    ensures f < |Run(s, steps).fibers| && Run(s, steps).fibers[f] == s.fibers[f]
    decreases |steps|
  {
    hide Sound, Enabled, Apply;
    if steps != [] {
      StepKeepsEnded(s, steps[0], f);
      StepKeepsSound(s, steps[0]);
      EndedStaysEnded(Apply(s, steps[0]), steps[1..], f);
    }
  }

  lemma StepKeepsEnded(s: State, step: Step, f: FiberId)
    requires Sound(s) && Enabled(s, step) && f < |s.fibers| && s.fibers[f].state in {TERM, EXCPT}
    ensures f < |Apply(s, step).fibers| && Apply(s, step).fibers[f] == s.fibers[f]
  {
    hide IdleInv, TakenInv, Accounted, CallsInv, TablesInv, HandlesInv, CountersInv, RunsInv, FibersInv, Linear, FreeAddress,
         ReportsOk, ReportEnabled, ActionEnabled,
         DoAction, DoDispatch, DoIdleCheck, DoExpire, DoPostExpired, DoReport, DoCallback, DoCancel, DoSleep, DoBegin,
         DoRawCall, DoRegister, DoSuspend, DoYieldReady, DoAfterWait, DoCheckSocket, DoFinish, E.AddEvent;
    if step.Act? {
      ActionKeepsFiber(s, step.worker, step.action, f);
    } else if step.Dispatch? {
      DispatchKeepsEnded(s, step.w, f);
    } else if step.Sleep? || step.Begin? || step.RawCall? || step.RegisterWait? || step.Suspend? ||
              step.YieldReady? || step.AfterWait? || step.CheckSocket? || step.Finish? {
      RunningExecutes(s, step.w);
    }
  }

  lemma ActionKeepsFiber(s: State, who: Option<nat>, a: Action, f: FiberId)
    requires Enabled(s, Act(who, a)) && f < |s.fibers|
    ensures f < |Apply(s, Act(who, a)).fibers| && Apply(s, Act(who, a)).fibers[f] == s.fibers[f]
  {
    hide ActionEnabled, T.Find, T.Insert, T.Cancel, E.AddEvent, E.DelEvent, E.CancelEvent, E.CancelAll;
  }

  lemma DispatchKeepsEnded(s: State, w: nat, f: FiberId)
    requires Linear(s) && w < |s.workers| && s.workers[w].place.AtTop? && f < |s.fibers| && !Owing(s.fibers[f])
    ensures f < |DoDispatch(s, w).fibers| && DoDispatch(s, w).fibers[f] == s.fibers[f]
  {
    hide Linear, Executing, Scanned, Q.Take;
    if NextTaken(s, w).Some? && NextTaken(s, w).value.FiberTask? {
      TakenIsRunnable(s, w, NextTaken(s, w).value.fiber);
    }
  }

  // ----- the counters and tables -----

  /** The active and idle counters are the numbers of workers inside a task and
      inside their idle fiber. */
  lemma CountersAreExact(n: nat, steps: seq<Step>)
    requires ValidRun(Start(n), steps)
    ensures var s := Run(Start(n), steps);
            s.active == Sum(s.workers, BusyWeight()) && s.idle == Sum(s.workers, IdlingWeight())
  {
    hide Sum, Run, ValidRun, Start, TablesInv, HandlesInv, RunsInv, Linear, FibersInv, CallsInv, IdleInv, TakenInv, Accounted;
    ReachedIsSound(n, steps);
  }

  /** In every reachable state the kernel's interest, the event masks, the slots
      and the pending count agree, and the timers are in strict order. */
  lemma TablesAgree(n: nat, steps: seq<Step>)
    requires ValidRun(Start(n), steps)
    ensures E.Inv(Run(Start(n), steps).table) && T.Inv(Run(Start(n), steps).timers)
  {
    hide Run, ValidRun, Start, E.Inv, T.Inv, HandlesInv, CountersInv, RunsInv, Linear, FibersInv, CallsInv, IdleInv,
         Accounted;
    ReachedIsSound(n, steps);
  }

  /** Task conservation: a task has been accepted as often as it is still queued or
      has been begun. A queued fiber that was taken was switched in; an application
      callback that was taken has a fiber of its own; one of the runtime's own is in
      a worker's hands or finished. And every fiber is in one place. */
  lemma TasksAreConserved(n: nat, steps: seq<Step>, t: Task)
    requires ValidRun(Start(n), steps)
    ensures var s := Run(Start(n), steps);
            Sum(s.accepted, One(t)) == Q.Queued(s.queue, One(t)) +
            match t
            case FiberTask(f) => if f < |s.fibers| then TimesTaken(s.fibers[f]) else 0
            case CbTask(cb) =>
              if cb.UserCb? then Sum(s.fibers, MadeFor(cb.id))
              else Sum(s.workers, RunningCallback(cb)) + Sum(s.finished, OneCallback(cb))
    ensures var s := Run(Start(n), steps); forall f: FiberId :: f < |s.fibers| ==> OnePlace(s, f)
  {
    hide Run, ValidRun, Start, Inv, IdleInv, Sum, Q.Queued, OnePlace;
    ReachedIsSound(n, steps);
    var s := Run(Start(n), steps);
    assert Accounted(s, One(t)) && Sum(s.taken, One(t)) == Begun(s, t);
    forall f: FiberId | f < |s.fibers|
      ensures OnePlace(s, f)
    {
      FibersAreInOnePlace(n, steps, f);
    }
  }

  // ----- timeouts and sleeps -----

  /** A call ends as timed out only after a timer it set itself has fired and its
      timeout has passed, counted from its first wait. */
  lemma TimeoutsAreOwnAndNotEarly(n: nat, steps: seq<Step>, c: CallId)
    requires ValidRun(Start(n), steps) && c < |Run(Start(n), steps).calls|
    ensures var s := Run(Start(n), steps);
            s.calls[c].outcome == TimedOut ==> c in s.expired && TimeoutElapsed(s, s.calls[c])
  {
    hide Run, ValidRun, Start, TokenInv, PlacesOk, IdleInv, TakenInv, Accounted, TimeoutElapsed;
    ReachedIsSound(n, steps);
    var s := Run(Start(n), steps);
    assert CallOk(s, s.calls[c], c);
  }

  /** Back from its wait a call times out exactly if it was flagged; otherwise a
      read tries again and a connect goes on to its socket error. */
  lemma WokenTimesOutIffFlagged(n: nat, steps: seq<Step>, w: nat)
    requires ValidRun(Start(n), steps) && Enabled(Run(Start(n), steps), AfterWait(w))
    ensures var s := Run(Start(n), steps); var r := Apply(s, AfterWait(w)); var c := CurrentPc(s, w).call;
            && c < |s.calls| == |r.calls| && s.calls[c].outcome == Running
            && r.calls[c].outcome == (if s.calls[c].cancelled then TimedOut else Running)
            && (!s.calls[c].cancelled ==> CurrentPc(r, w) == if s.calls[c].kind.IoCall? then Trying(c) else Checking(c))
            && forall t :: t in r.timers ==> !(t.cb.Some? && IsTimeoutOf(t.cb.value, c))
  {
    hide Run, ValidRun, Start, RunsInv, FibersInv, Linear, HandlesInv, CountersInv, PlacesOk, OutcomeOk,
         IdleInv, TakenInv, Accounted, T.Inv, E.Inv, DropHandle, CallsOk;
    ReachedIsSound(n, steps);
    var s := Run(Start(n), steps);
    CurrentCall(s, w);
    NoTimerLeft(s, CurrentPc(s, w).call);
  }

  lemma NoTimerLeft(s: State, c: CallId)
    requires T.Inv(s.timers) && PlacesOk(s) && c < |s.calls|
    ensures forall t :: t in DropHandle(s, c).timers ==> !(t.cb.Some? && IsTimeoutOf(t.cb.value, c))
  {
    hide DropHandle, T.Inv;
    HandleDropped(s, c);
    forall t | t in DropHandle(s, c).timers
      ensures !(t.cb.Some? && IsTimeoutOf(t.cb.value, c))
    {
      assert t in s.timers && TimerOk(s, t);
    }
  }

  /** What a call has made of the raw results it saw. A connect sees one: it waits
      exactly if that is EINPROGRESS, and returns it exactly if it is not. A read goes
      on after EINTR and EAGAIN only, has waited exactly if it saw EAGAIN, and returns
      the first other result; otherwise it ends on an EAGAIN. */
  ghost predicate AnswersRight(call: Call)
  {
    match call.kind
    case ConnectCall =>
      && |call.raws| <= 1 && (call.firstWait.Some? <==> call.raws == [EINPROGRESS])
      && (match call.outcome
          case Running => call.raws == [] || call.raws == [EINPROGRESS]
          case Returned(raw) => call.raws == [raw] && !raw.EINPROGRESS?
          case TimedOut => call.raws == [EINPROGRESS] && call.cancelled
          case SocketError(_) => call.raws == [EINPROGRESS]
          case AddFailed => false)
    case IoCall =>
      && (forall i :: 0 <= i < |call.raws| - 1 ==> call.raws[i].EINTR? || call.raws[i].EAGAIN?)
      && (call.firstWait.Some? <==> exists i :: 0 <= i < |call.raws| && call.raws[i].EAGAIN?)
      && (call.raws == [] ==> call.outcome == Running)
      && (call.raws != [] ==>
            var last := call.raws[|call.raws| - 1];
            match call.outcome
            case Running => last.EINTR? || last.EAGAIN?
            case Returned(raw) => raw == last && !raw.EINTR? && !raw.EAGAIN?
            case TimedOut => last.EAGAIN? && call.cancelled
            case AddFailed => last.EAGAIN?
            case SocketError(_) => false)
  }

  lemma OutcomeAnswers(s: State, call: Call, c: CallId)
    requires CallOk(s, call, c)
    ensures AnswersRight(call)
  {
    if call.outcome.Returned? {
      var k := |call.raws| - 1;
      assert forall i :: 0 <= i < k ==> call.raws[..k][i] == call.raws[i];
    }
    assert |call.raws| == 1 ==> call.raws == [call.raws[0]];
  }

  /** A hooked call refines a blocking one: it ends with the first raw result that
      settles it, or with an outcome open to its kind after a result that made it
      wait; once it has ended no timer of its own is set, and an unfinished call
      is the one its owner is in. */
  lemma CallsRefineBlocking(n: nat, steps: seq<Step>, c: CallId)
    requires ValidRun(Start(n), steps) && c < |Run(Start(n), steps).calls|
    ensures var s := Run(Start(n), steps);
            && AnswersRight(s.calls[c])
            && (s.calls[c].outcome == Running ==>
                  s.calls[c].owner < |s.fibers| && CallOf(s.fibers[s.calls[c].owner].pc) == Some(c))
            && (s.calls[c].outcome != Running ==> forall t :: t in s.timers ==> !(t.cb.Some? && t.cb.value.TimeoutCb? && t.cb.value.call == c))
  {
    hide Run, ValidRun, Start, TokenInv, QueueOk, HandsOk, SlotsOk, OwnHandles, IdleInv, TakenInv, Accounted, OutcomeOk,
         AnswersRight, HasWaited;
    ReachedIsSound(n, steps);
    var s := Run(Start(n), steps);
    assert CallOk(s, s.calls[c], c);
    OutcomeAnswers(s, s.calls[c], c);
    forall t | t in s.timers && t.cb.Some? && t.cb.value.TimeoutCb? && t.cb.value.call == c
      ensures s.calls[c].outcome == Running
    {
      assert TimerOk(s, t);
    }
  }

  /** A call that has ended stays as it ended, and no callback starts to cancel an
      event on its behalf any more, however the run goes on. */
  lemma {:induction false} EndedCallIsFinal(s: State, steps: seq<Step>, c: CallId, w: nat)
    requires Sound(s) && ValidRun(s, steps) && c < |s.calls| && s.calls[c].outcome != Running && w < |s.workers|
    ensures var r := Run(s, steps);
            && c < |r.calls| && r.calls[c] == s.calls[c] && w < |r.workers|
            && (Cancels(r.workers[w].place, c) ==> Cancels(s.workers[w].place, c))
    decreases |steps|
  {
    hide Sound, Enabled, Apply, Cancels;
    if steps != [] {
      StepKeepsEndedCall(s, steps[0], c, w);
      StepKeepsSound(s, steps[0]);
      EndedCallIsFinal(Apply(s, steps[0]), steps[1..], c, w);
    }
  }

  predicate Cancels(p: Place, c: CallId) { p.InCancel? && p.call == c }

  lemma StepKeepsEndedCall(s: State, step: Step, c: CallId, w: nat)
    requires Sound(s) && Enabled(s, step) && c < |s.calls| && s.calls[c].outcome != Running && w < |s.workers|
    ensures var r := Apply(s, step);
            && c < |r.calls| && r.calls[c] == s.calls[c] && w < |r.workers|
            && (Cancels(r.workers[w].place, c) ==> Cancels(s.workers[w].place, c))
  {
    hide IdleInv, TakenInv, Accounted, TokenInv, PlacesOk, CallsOk, FreeAddress, ReportsOk, ReportEnabled, ActionEnabled,
         DoAction, DoDispatch, DoIdleCheck, DoExpire, DoPostExpired, DoReport, DoCallback, DoCancel, DoSleep, DoBegin,
         DoRawCall, DoRegister, DoSuspend, DoYieldReady, DoAfterWait, DoCheckSocket, DoFinish, E.AddEvent, T.Expire;
    if step.RunCallback? {
      CallbackKeepsEnded(s, step.w, c, w);
    } else if step.RawCall? || step.RegisterWait? || step.AfterWait? || step.CheckSocket? {
      CurrentCall(s, step.w);
      OtherCallKeeps(s, step, c);
    } else {
      OthersCancelNothing(s, step, c, w);
    }
  }

  lemma CallbackKeepsEnded(s: State, w: nat, c: CallId, v: nat)
    requires w < |s.workers| && s.workers[w].place.InCallback? && v < |s.workers|
    requires c < |s.calls| && s.calls[c].outcome != Running
    ensures var r := DoCallback(s, w);
            && |r.workers| == |s.workers| && c < |r.calls| && r.calls[c] == s.calls[c]
            && (Cancels(r.workers[v].place, c) ==> Cancels(s.workers[v].place, c))
  {
    hide Push;
  }

  /** The running fiber's call is unfinished, so it is another one. */
  lemma OtherCallKeeps(s: State, step: Step, c: CallId)
    requires Enabled(s, step) && (step.RawCall? || step.RegisterWait? || step.AfterWait? || step.CheckSocket?)
    requires c < |s.calls| && CallOf(CurrentPc(s, step.w)).Some? && CallOf(CurrentPc(s, step.w)).value != c
    ensures c < |Apply(s, step).calls| && Apply(s, step).calls[c] == s.calls[c]
  {
    hide FreeAddress, E.AddEvent, AfterRaw, DoRawCall, DoRegister, DoAfterWait;
    if step.RegisterWait? {
      RegisterKeepsOther(s, step.w, step.ctl, c);
    } else if step.AfterWait? {
      AfterWaitKeepsOther(s, step.w, c);
    }
  }

  lemma AfterWaitKeepsOther(s: State, w: nat, c: CallId)
    requires CurrentPc(s, w).Woken? && c < |s.calls| && CurrentPc(s, w).call != c
    ensures c < |DoAfterWait(s, w).calls| && DoAfterWait(s, w).calls[c] == s.calls[c]
  {
    hide DropHandle;
  }

  lemma RegisterKeepsOther(s: State, w: nat, ctl: bool, c: CallId)
    requires Enabled(s, RegisterWait(w, ctl)) && c < |s.calls| && CurrentPc(s, w).call != c
    ensures c < |DoRegister(s, w, ctl).calls| && DoRegister(s, w, ctl).calls[c] == s.calls[c]
  {
    hide E.AddEvent, DropHandle;
  }

  lemma OthersCancelNothing(s: State, step: Step, c: CallId, w: nat)
    requires Enabled(s, step) && c < |s.calls| && w < |s.workers|
    requires !step.RunCallback? && !step.RawCall? && !step.RegisterWait? && !step.AfterWait? && !step.CheckSocket?
    ensures var r := Apply(s, step);
            && c < |r.calls| && r.calls[c] == s.calls[c] && w < |r.workers|
            && (Cancels(r.workers[w].place, c) ==> Cancels(s.workers[w].place, c))
  {
    hide FreeAddress, ReportsOk, ReportEnabled, ActionEnabled, DoAction, DoDispatch, DoIdleCheck, DoExpire, DoPostExpired, DoReport,
         DoCancel, DoSleep, DoSuspend, DoYieldReady, DoFinish;
    if step.Dispatch? {
      DispatchCancelsNothing(s, step.w, c, w);
    } else if step.IdleCheck? || step.ExpireTimers? || step.PostExpired? || step.HandleReport? || step.RunCancel? {
      IdleCancelsNothing(s, step, c, w);
    }
  }

  lemma DispatchCancelsNothing(s: State, me: nat, c: CallId, w: nat)
    requires me < |s.workers| && s.workers[me].place.AtTop? && w < |s.workers|
    ensures var r := DoDispatch(s, me); w < |r.workers| && (Cancels(r.workers[w].place, c) ==> Cancels(s.workers[w].place, c))
  {
    hide Q.Take, Executing, Scanned;
  }

  lemma IdleCancelsNothing(s: State, step: Step, c: CallId, w: nat)
    requires Enabled(s, step) && w < |s.workers|
    requires step.IdleCheck? || step.ExpireTimers? || step.PostExpired? || step.HandleReport? || step.RunCancel?
    ensures var r := Apply(s, step); w < |r.workers| && (Cancels(r.workers[w].place, c) ==> Cancels(s.workers[w].place, c))
  {
    hide FreeAddress, ReportEnabled, Stopping, T.Expire, T.Fired, E.ProcessReady, E.CancelEvent, PushAll, PushBatch;
  }

  /** A sleeping fiber is taken from the queue no earlier than its wake-up time. */
  lemma SleepersAreNotEarly(n: nat, steps: seq<Step>, w: nat, f: FiberId)
    requires ValidRun(Start(n), steps) && NextTaken(Run(Start(n), steps), w) == Some(FiberTask(f))
    requires f < |Run(Start(n), steps).fibers| && Run(Start(n), steps).fibers[f].pc.Asleep?
    ensures Run(Start(n), steps).fibers[f].pc.until <= Run(Start(n), steps).now
  {
    hide Run, ValidRun, Start, TokenInv, CallsOk, TimersOk, HandsOk, SlotsOk, OwnHandles, IdleInv, TakenInv, Accounted, Executing;
    ReachedIsSound(n, steps);
    var s := Run(Start(n), steps);
    Q.TakeExact(s.queue, w, Executing(s));
    var e := Q.Take(s.queue, w, Executing(s)).taken.value;
    assert e in multiset(s.queue);
    assert TaskOk(s, e.task);
  }

  // ----- idling and stopping -----

  /** No oversleep: while some idle fiber is alive, a tickle byte is unread, or
      one of those workers is awake or waits no longer than until the earliest
      timer is due; and no wait is longer than 5000 ms. */
  lemma NobodyOversleeps(n: nat, steps: seq<Step>)
    requires ValidRun(Start(n), steps) && n > 0
    ensures var s := Run(Start(n), steps);
            AllDone(s) || s.unread > 0 || exists w :: 0 <= w < |s.workers| && Watches(s, s.workers[w])
    ensures WaitsInv(Run(Start(n), steps))
  {
    hide Run, Start, Inv, DoneInv, ExitInv, WaitsInv, Watches, AllDone, Accounted;
    ReachedIsSound(n, steps);
    WorkersStay(Start(n), steps);
    StartHas(n);
  }

  lemma StartHas(n: nat)
    ensures |Start(n).workers| == n
  {
  }

  lemma {:induction false} WorkersStay(s: State, steps: seq<Step>)
    requires ValidRun(s, steps)
    ensures |Run(s, steps).workers| == |s.workers|
    decreases |steps|
  {
    hide Enabled, Apply;
    if steps != [] {
      StepMovesWorker(s, steps[0]);
      WorkersStay(Apply(s, steps[0]), steps[1..]);
    }
  }

  lemma QuietSlots(s: State, f: FiberId)
    requires E.Inv(s.table) && s.table.pending == 0
    ensures E.Parked(s.table, TokenOf(f)) == 0
  {
    forall i | 0 <= i < |s.table.contexts|
      ensures E.ContextWeight(TokenOf(f))(s.table.contexts[i]) == 0
    {
      SumMember(s.table.contexts, i, E.BitsOf());
      assert E.ContextOk(s.table, i);
    }
    SumZero(s.table.contexts, E.ContextWeight(TokenOf(f)));
  }

  lemma QuietHands(s: State, f: FiberId)
    requires Quiet(s)
    ensures Sum(s.workers, HandWeight(TokenOf(f))) == 0 && Sum(s.workers, RunsWeight(f)) == 0
  {
    SumZero(s.workers, HandWeight(TokenOf(f)));
    SumZero(s.workers, RunsWeight(f));
  }

  lemma QuietFiber(s: State, f: FiberId)
    requires TokenInv(s) && Quiet(s) && f < |s.fibers|
    ensures s.fibers[f].state in {TERM, EXCPT} && s.fibers[f].pc.User?
  {
    hide Sum, E.Parked, T.Inv, E.Inv, HandlesInv, CountersInv;
    QuietSlots(s, f);
    QuietHands(s, f);
    SumZero(s.timers, TimerWeight(TokenOf(f)));
    SumZero(s.queue, Q.EntryWeight(TokenOf(f)));
    assert Total(s, TokenOf(f)) == 0;
    assert FiberOk(s.fibers[f]);
  }

  /** Clean exit: when every worker has exited, and nobody outside acted after
      stop, nothing is queued, timed or pending, every fiber has ended, and no
      hooked call is unfinished. */
  lemma ExitIsClean(n: nat, steps: seq<Step>)
    requires ValidRun(Start(n), steps) && n > 0
    requires var s := Run(Start(n), steps);
             !s.late && forall w :: 0 <= w < |s.workers| ==> s.workers[w].place.Exited?
    ensures var s := Run(Start(n), steps);
            && s.queue == [] && s.timers == [] && s.table.pending == 0 && s.active == 0 && s.idle == 0
            && (forall f :: 0 <= f < |s.fibers| ==> s.fibers[f].state in {TERM, EXCPT})
            && (forall c :: 0 <= c < |s.calls| ==> s.calls[c].outcome != Running)
  {
    hide Run, Start, TablesInv, HandlesInv, RunsInv, FibersInv, Linear, PlacesOk, WaitsInv, WatchInv, Accounted, Sum;
    ReachedIsSound(n, steps);
    WorkersStay(Start(n), steps);
    StartHas(n);
    var s := Run(Start(n), steps);
    assert AllDone(s) by {
      assert forall w :: 0 <= w < |s.workers| ==> DoneOk(s, s.workers[w]);
    }
    assert Quiet(s);
    SumZero(s.workers, BusyWeight());
    SumZero(s.workers, IdlingWeight());
    forall f | 0 <= f < |s.fibers|
      ensures s.fibers[f].state in {TERM, EXCPT} && s.fibers[f].pc.User?
    {
      QuietFiber(s, f);
    }
    forall c | 0 <= c < |s.calls|
      ensures s.calls[c].outcome != Running
    {
      assert CallOk(s, s.calls[c], c);
    }
  }
}
