/** What becomes of every task a worker takes: a queued fiber is switched in once
    for each time it is taken, an application callback starts a fiber of its own,
    and a callback of the runtime is in a worker's hands until it has run. */
module RuntimeTasks {
  import opened Tasks
  import opened Tally
  import opened Runtime
  import opened RuntimeTokens
  import T = TimerSet
  import E = EventTable
  import Q = ReadyQueue

  function One(t: Task): Task -> nat
  {
    (u: Task) => if u == t then 1 else 0
  }

  function OneCallback(cb: Callback): Callback -> nat
  {
    (c: Callback) => if c == cb then 1 else 0
  }

  /** Fibers made to run callback id. */
  function MadeFor(id: nat): Fiber -> nat
  {
    (fb: Fiber) => if fb.origin == Some(id) then 1 else 0
  }

  /** A worker that has taken the callback and not finished it. */
  predicate IsRunning(p: Place, cb: Callback)
  {
    p == InCallback(cb) || (p.InCancel? && cb == TimeoutCb(p.call, p.fd, p.event))
  }

  function RunningCallback(cb: Callback): Worker -> nat
  {
    (wk: Worker) => if IsRunning(wk.place, cb) then 1 else 0
  }

  /** A fiber is switched in when it is taken, and a callback's once at birth. */
  function TimesTaken(fb: Fiber): int
  {
    fb.resumed - if fb.origin.Some? then 1 else 0
  }

  function TimesTakenAt(s: State, f: FiberId): int
  {
    if f < |s.fibers| then TimesTaken(s.fibers[f]) else 0
  }

  /** How often what the task asks for has been begun: switches in of a fiber,
      fibers started for an application callback, and callbacks of the runtime in
      hand or finished. */
  function Begun(s: State, t: Task): int
  {
    match t
    case FiberTask(f) => TimesTakenAt(s, f)
    case CbTask(cb) =>
      if cb.UserCb? then Sum(s.fibers, MadeFor(cb.id))
      else Sum(s.workers, RunningCallback(cb)) + Sum(s.finished, OneCallback(cb))
  }

  /** Whatever has been taken has been begun, as often as it was taken. */
  ghost predicate TakenInv(s: State)
  {
    forall t: Task :: Sum(s.taken, One(t)) == Begun(s, t)
  }

  // ----- steps that begin nothing -----

  ghost predicate SameOrigins(s: State, r: State)
  {
    && |s.fibers| <= |r.fibers|
    && (forall f :: 0 <= f < |s.fibers| ==>
          r.fibers[f].origin == s.fibers[f].origin && r.fibers[f].resumed == s.fibers[f].resumed)
    && (forall f :: |s.fibers| <= f < |r.fibers| ==> r.fibers[f].origin.None? && r.fibers[f].resumed == 0)
  }

  predicate HandsFree(p: Place) { !p.InCallback? && !p.InCancel? }

  ghost predicate SameHands(s: State, r: State)
  {
    && |r.workers| == |s.workers|
    && forall w :: 0 <= w < |s.workers| ==>
         r.workers[w].place == s.workers[w].place || (HandsFree(r.workers[w].place) && HandsFree(s.workers[w].place))
  }

  lemma OriginsSum(s: State, r: State, id: nat)
    requires SameOrigins(s, r)
    ensures Sum(r.fibers, MadeFor(id)) == Sum(s.fibers, MadeFor(id))
  {
    var a, b := r.fibers[..|s.fibers|], r.fibers[|s.fibers|..];
    assert r.fibers == a + b;
    SumConcat(a, b, MadeFor(id));
    SumZero(b, MadeFor(id));
    SumSame(a, s.fibers, MadeFor(id));
  }

  lemma HandsSum(s: State, r: State, cb: Callback)
    requires SameHands(s, r)
    ensures Sum(r.workers, RunningCallback(cb)) == Sum(s.workers, RunningCallback(cb))
  {
    SumSame(r.workers, s.workers, RunningCallback(cb));
  }

  lemma BeginsNothing(s: State, r: State)
    requires TakenInv(s) && SameOrigins(s, r) && SameHands(s, r) && r.taken == s.taken && r.finished == s.finished
    ensures TakenInv(r)
  {
    hide Sum;
    forall t: Task
      ensures Sum(r.taken, One(t)) == Begun(r, t)
    {
      assert Sum(s.taken, One(t)) == Begun(s, t);
      if t.CbTask? {
        if t.cb.UserCb? {
          OriginsSum(s, r, t.cb.id);
        } else {
          HandsSum(s, r, t.cb);
        }
      }
    }
  }

  // ----- dispatch -----

  lemma TakesFiber(s: State, r: State, w: nat, f: FiberId)
    requires TakenInv(s) && f < |s.fibers| && r.taken == s.taken + [FiberTask(f)] && r.finished == s.finished
    requires |r.fibers| == |s.fibers| && r.fibers == s.fibers[f := r.fibers[f]]
    requires r.fibers[f].origin == s.fibers[f].origin && r.fibers[f].resumed == s.fibers[f].resumed + 1
    requires SameHands(s, r)
    ensures TakenInv(r)
  {
    hide Sum;
    forall t: Task
      ensures Sum(r.taken, One(t)) == Begun(r, t)
    {
      assert Sum(s.taken, One(t)) == Begun(s, t);
      SumPush(s.taken, FiberTask(f), One(t));
      if t.CbTask? {
        if t.cb.UserCb? {
          SumUpdate(s.fibers, f, r.fibers[f], MadeFor(t.cb.id));
        } else {
          HandsSum(s, r, t.cb);
        }
      }
    }
  }

  lemma TakesUserCallback(s: State, r: State, id: nat)
    requires TakenInv(s) && r.taken == s.taken + [CbTask(UserCb(id))] && r.finished == s.finished
    requires r.fibers == s.fibers + [Fiber(EXEC, User, Some(id), 1, 0)] && SameHands(s, r)
    ensures TakenInv(r)
  {
    hide Sum;
    forall t: Task
      ensures Sum(r.taken, One(t)) == Begun(r, t)
    {
      assert Sum(s.taken, One(t)) == Begun(s, t);
      SumPush(s.taken, CbTask(UserCb(id)), One(t));
      if t.CbTask? {
        if t.cb.UserCb? {
          SumPush(s.fibers, Fiber(EXEC, User, Some(id), 1, 0), MadeFor(t.cb.id));
        } else {
          HandsSum(s, r, t.cb);
        }
      }
    }
  }

  lemma TakesCallback(s: State, r: State, w: nat, cb: Callback)
    requires TakenInv(s) && !cb.UserCb? && r.taken == s.taken + [CbTask(cb)] && r.finished == s.finished
    requires r.fibers == s.fibers && w < |s.workers| == |r.workers| && HandsFree(s.workers[w].place)
    requires r.workers == s.workers[w := r.workers[w]] && r.workers[w].place == InCallback(cb)
    ensures TakenInv(r)
  {
    hide Sum;
    forall t: Task
      ensures Sum(r.taken, One(t)) == Begun(r, t)
    {
      assert Sum(s.taken, One(t)) == Begun(s, t);
      SumPush(s.taken, CbTask(cb), One(t));
      if t.CbTask? {
        SumUpdate(s.workers, w, r.workers[w], RunningCallback(t.cb));
      }
    }
  }

  lemma ScannedTaken(s: State, w: nat)
    ensures var r := Scanned(s, w);
            && r == s.(queue := r.queue, taken := r.taken, unread := r.unread)
            && r.taken == s.taken + if NextTaken(s, w).Some? then [NextTaken(s, w).value] else []
  {
  }

  lemma DispatchBegins(s: State, w: nat)
    requires TakenInv(s) && Linear(s) && w < |s.workers| && s.workers[w].place.AtTop?
    ensures TakenInv(DoDispatch(s, w))
  {
    hide TakenInv, Linear, Q.Take, Executing, Scanned;
    ScannedTaken(s, w);
    var r := DoDispatch(s, w);
    match NextTaken(s, w)
    case None =>
      assert s.taken + [] == s.taken;
      BeginsNothing(s, r);
    case Some(FiberTask(f)) =>
      TakenIsRunnable(s, w, f);
      TakesFiber(s, r, w, f);
    case Some(CbTask(cb)) =>
      if cb.UserCb? {
        TakesUserCallback(s, r, cb.id);
      } else {
        TakesCallback(s, r, w, cb);
      }
  }

  // ----- callbacks in hand -----

  lemma Finishes(s: State, r: State, w: nat, cb: Callback)
    requires TakenInv(s) && w < |s.workers| == |r.workers| && IsRunning(s.workers[w].place, cb)
    requires r.taken == s.taken && r.fibers == s.fibers && r.workers == s.workers[w := r.workers[w]]
    requires HandsFree(r.workers[w].place) && r.finished == s.finished + [cb]
    ensures TakenInv(r)
  {
    hide Sum;
    forall t: Task
      ensures Sum(r.taken, One(t)) == Begun(r, t)
    {
      assert Sum(s.taken, One(t)) == Begun(s, t);
      if t.CbTask? {
        SumUpdate(s.workers, w, r.workers[w], RunningCallback(t.cb));
        SumPush(s.finished, cb, OneCallback(t.cb));
      }
    }
  }

  lemma GoesOn(s: State, r: State, w: nat, cb: Callback)
    requires TakenInv(s) && w < |s.workers| == |r.workers| && IsRunning(s.workers[w].place, cb)
    requires r.taken == s.taken && r.fibers == s.fibers && r.workers == s.workers[w := r.workers[w]]
    requires IsRunning(r.workers[w].place, cb) && r.finished == s.finished
    ensures TakenInv(r)
  {
    hide Sum;
    forall t: Task
      ensures Sum(r.taken, One(t)) == Begun(r, t)
    {
      assert Sum(s.taken, One(t)) == Begun(s, t);
      if t.CbTask? {
        SumUpdate(s.workers, w, r.workers[w], RunningCallback(t.cb));
      }
    }
  }

  lemma CallbackBegins(s: State, w: nat)
    requires TakenInv(s) && w < |s.workers| && s.workers[w].place.InCallback?
    ensures TakenInv(DoCallback(s, w))
  {
    hide TakenInv, Push;
    var r := DoCallback(s, w);
    var cb := s.workers[w].place.cb;
    if r.workers[w].place.InCancel? {
      GoesOn(s, r, w, cb);
    } else {
      Finishes(s, r, w, cb);
    }
  }

  lemma CancelBegins(s: State, w: nat, ctl: bool)
    requires TakenInv(s) && w < |s.workers| && s.workers[w].place.InCancel?
    ensures TakenInv(DoCancel(s, w, ctl))
  {
    hide TakenInv, PushAll, E.CancelEvent;
    var p := s.workers[w].place;
    Finishes(s, DoCancel(s, w, ctl), w, TimeoutCb(p.call, p.fd, p.event));
  }

  lemma ActBegins(s: State, who: Option<nat>, a: Action)
    requires TakenInv(s) && Enabled(s, Act(who, a))
    ensures TakenInv(Apply(s, Act(who, a)))
  {
    hide TakenInv, ActionEnabled, T.Find, T.Insert, T.Cancel, E.AddEvent, E.DelEvent, E.CancelEvent, E.CancelAll;
    BeginsNothing(s, Apply(s, Act(who, a)));
  }

  lemma FiberBegins(s: State, step: Step)
    requires TakenInv(s) && Enabled(s, step)
    requires step.Sleep? || step.Begin? || step.RawCall? || step.RegisterWait? || step.AfterWait? || step.CheckSocket?
    ensures TakenInv(Apply(s, step))
  {
    hide TakenInv, FreeAddress, PcMoved, E.AddEvent, DoSleep, DoBegin, DoRawCall, DoRegister, DoAfterWait, DoCheckSocket;
    MovesOnBegins(s, Apply(s, step), step.w);
  }

  lemma MovesOnBegins(s: State, r: State, w: nat)
    requires TakenInv(s) && Runs(s, w) && PcMoved(s, r, w)
    requires r.workers == s.workers && r.taken == s.taken && r.finished == s.finished
    ensures TakenInv(r)
  {
    hide TakenInv;
    BeginsNothing(s, r);
  }

  lemma SwapOutBegins(s: State, step: Step)
    requires TakenInv(s) && Enabled(s, step)
    requires step.Suspend? || step.YieldReady? || step.Finish?
    ensures TakenInv(Apply(s, step))
  {
    hide TakenInv, DoSuspend, DoYieldReady, DoFinish;
    BeginsNothing(s, Apply(s, step));
  }

  /** Every step begins what it takes, and nothing else. */
  lemma StepKeepsTaken(s: State, step: Step)
    requires TakenInv(s) && Linear(s) && Enabled(s, step)
    ensures TakenInv(Apply(s, step))
  {
    hide TakenInv, Linear, FreeAddress, ReportsOk, ReportEnabled, ActionEnabled, T.Expire, T.Fired, E.AddEvent, E.ProcessReady,
         DoAction, DoDispatch, DoIdleCheck, DoExpire, DoPostExpired, DoReport, DoCallback, DoCancel, DoSleep, DoBegin,
         DoRawCall, DoRegister, DoSuspend, DoYieldReady, DoAfterWait, DoCheckSocket, DoFinish;
    match step
    case Act(who, a) => ActBegins(s, who, a);
    case Dispatch(w) => DispatchBegins(s, w);
    case IdleCheck(_) => IdleBegins(s, step);
    case WaitReturns(_, _) => IdleBegins(s, step);
    case ExpireTimers(_, _) => IdleBegins(s, step);
    case PostExpired(_) => IdleBegins(s, step);
    case HandleReport(_, _) => IdleBegins(s, step);
    case RunCallback(w) => CallbackBegins(s, w);
    case RunCancel(w, ctl) => CancelBegins(s, w, ctl);
    case Suspend(_) => SwapOutBegins(s, step);
    case YieldReady(_) => SwapOutBegins(s, step);
    case Finish(_, _) => SwapOutBegins(s, step);
    case Advance(_) => BeginsNothing(s, Apply(s, step));
    case Stop => BeginsNothing(s, Apply(s, step));
    case _ => FiberBegins(s, step);
  }

  lemma IdleBegins(s: State, step: Step)
    requires TakenInv(s) && Enabled(s, step)
    requires step.IdleCheck? || step.WaitReturns? || step.ExpireTimers? || step.PostExpired? || step.HandleReport?
    ensures TakenInv(Apply(s, step))
  {
    hide TakenInv, FreeAddress, ReportsOk, ReportEnabled, T.Expire, T.Fired, E.ProcessReady, PushBatch, PushAll, Stopping;
    BeginsNothing(s, Apply(s, step));
  }

  lemma StartTakesNothing(n: nat)
    ensures TakenInv(Start(n))
  {
    hide Sum;
    var s := Start(n);
    forall t: Task
      ensures Sum(s.taken, One(t)) == Begun(s, t)
    {
      SumZero(s.taken, One(t));
      if t.CbTask? {
        SumZero(s.workers, RunningCallback(t.cb));
        SumZero(s.finished, OneCallback(t.cb));
        if t.cb.UserCb? {
          SumZero(s.fibers, MadeFor(t.cb.id));
        }
      }
    }
  }
}
