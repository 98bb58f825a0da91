/** Why the cancel has to succeed: with one worker, too, a timeout is lost when
    epoll_ctl fails inside its callback. */
module FailedCancel {
  import opened Tasks
  import opened Runtime
  import opened RuntimeDelivery
  import opened Stories
  import L = LostTimeout
  import E = EventTable
  import T = TimerSet
  import Q = ReadyQueue

  // The reader adds its event and suspends in time; its own worker goes idle,
  // expires the timer and runs the callback, whose cancel fails.

  function Added(n: nat): State
    requires n >= 1
  {
    L.TimerSetState(n).(fibers := [Running0(Registered(0))], table := Waiting(L.PARKED, E.EMPTY))
  }

  function Hanging(n: nat, place: Place): State
    requires n >= 1
  {
    Added(n).(fibers := [Fiber(HOLD, Registered(0), Some(0), 1, 1)], workers := One(n, place), active := 0,
              idle := if place.AtTop? then 0 else 1)
  }

  function Later(n: nat, place: Place): State
    requires n >= 1
  {
    Hanging(n, place).(now := 11, idle := 1)
  }

  function Fired(n: nat): State
    requires n >= 1
  {
    Later(n, IdleHand([L.CALLBACK], [])).(timers := [], expired := {0})
  }

  function Queued(n: nat, place: Place): State
    requires n >= 1
  {
    Fired(n).(workers := One(n, place), unread := 1, idle := if place.AtTop? then 0 else 1,
               queue := [Entry(CbTask(L.CALLBACK), -1)], accepted := [CbTask(UserCb(0)), CbTask(L.CALLBACK)])
  }

  function Taken(n: nat): State
    requires n >= 1
  {
    Queued(n, AtTop).(queue := [], taken := [CbTask(UserCb(0)), CbTask(L.CALLBACK)],
                       workers := One(n, InCallback(L.CALLBACK)), active := 1)
  }

  function Flagged(n: nat): State
    requires n >= 1
  {
    Taken(n).(calls := [L.Reading([EAGAIN], true)], workers := One(n, InCancel(0, 5, READ)))
  }

  function Failed(n: nat): State
    requires n >= 1
  {
    Flagged(n).(workers := One(n, AtTop), active := 0, finished := [L.CALLBACK])
  }

  lemma AddsEvent(n: nat)
    requires n >= 1
    ensures Leads(L.TimerSetState(n), RegisterWait(0, true), Added(n))
  {
    hide E.AddEvent, Waiting;
    L.ParksReader();
  }

  lemma Suspends(n: nat)
    requires n >= 1
    ensures Leads(Added(n), Suspend(0), Hanging(n, AtTop))
  {
    hide Waiting;
  }

  lemma GoesIdle(n: nat)
    requires n >= 1
    ensures Leads(Hanging(n, AtTop), Dispatch(0), Hanging(n, IdleEnter))
  {
    hide Waiting;
  }

  lemma ComputesWait(n: nat)
    requires n >= 1
    ensures Leads(Hanging(n, IdleEnter), IdleCheck(0), Hanging(n, IdleWait(0, 10)))
  {
    hide Waiting;
  }

  lemma TimePasses(n: nat)
    requires n >= 1
    ensures Leads(Hanging(n, IdleWait(0, 10)), Advance(11), Later(n, IdleWait(0, 10)))
  {
    hide Waiting;
  }

  lemma WakesUp(n: nat)
    requires n >= 1
    ensures Leads(Later(n, IdleWait(0, 10)), WaitReturns(0, []), Later(n, IdleExpire([])))
  {
    hide Waiting;
  }

  lemma Expires(n: nat)
    requires n >= 1
    ensures Leads(Later(n, IdleExpire([])), ExpireTimers(0, 2), Fired(n))
  {
    hide T.Fired, T.Expire, CallbacksOf, TimeoutsIn, FrontInserts, Waiting;
    L.TimerExpires();
  }

  lemma PostsCallback(n: nat)
    requires n >= 1
    ensures Leads(Fired(n), PostExpired(0), Queued(n, IdleReports([])))
  {
    hide Waiting;
    assert CbTasks([L.CALLBACK]) == [CbTask(L.CALLBACK)];
    assert Q.Unpinned([CbTask(L.CALLBACK)]) == [Entry(CbTask(L.CALLBACK), -1)];
  }

  lemma EndsIdle(n: nat)
    requires n >= 1
    ensures Leads(Queued(n, IdleReports([])), HandleReport(0, true), Queued(n, AtTop))
  {
    hide Waiting;
  }

  lemma TakesCallback(n: nat)
    requires n >= 1
    ensures Leads(Queued(n, AtTop), Dispatch(0), Taken(n))
  {
    hide Waiting;
  }

  lemma SetsFlag(n: nat)
    requires n >= 1
    ensures Leads(Taken(n), RunCallback(0), Flagged(n))
  {
    hide Waiting;
  }

  lemma CancelFails(n: nat)
    requires n >= 1
    ensures Leads(Flagged(n), RunCancel(0, false), Failed(n))
  {
    hide Waiting;
  }

  lemma FailingRun(n: nat) returns (steps: seq<Step>)
    requires n >= 1
    ensures Reaches(n, steps, Failed(n))
  {
    hide Leads, Reaches, NoFailedCancel, Start;
    steps := L.TimerSetReached(n);
    AddsEvent(n);
    steps := Goes(n, steps, L.TimerSetState(n), RegisterWait(0, true), Added(n));
    Suspends(n);
    steps := Goes(n, steps, Added(n), Suspend(0), Hanging(n, AtTop));
    GoesIdle(n);
    steps := Goes(n, steps, Hanging(n, AtTop), Dispatch(0), Hanging(n, IdleEnter));
    ComputesWait(n);
    steps := Goes(n, steps, Hanging(n, IdleEnter), IdleCheck(0), Hanging(n, IdleWait(0, 10)));
    TimePasses(n);
    steps := Goes(n, steps, Hanging(n, IdleWait(0, 10)), Advance(11), Later(n, IdleWait(0, 10)));
    WakesUp(n);
    steps := Goes(n, steps, Later(n, IdleWait(0, 10)), WaitReturns(0, []), Later(n, IdleExpire([])));
    Expires(n);
    steps := Goes(n, steps, Later(n, IdleExpire([])), ExpireTimers(0, 2), Fired(n));
    PostsCallback(n);
    steps := Goes(n, steps, Fired(n), PostExpired(0), Queued(n, IdleReports([])));
    EndsIdle(n);
    steps := Goes(n, steps, Queued(n, IdleReports([])), HandleReport(0, true), Queued(n, AtTop));
    TakesCallback(n);
    steps := Goes(n, steps, Queued(n, AtTop), Dispatch(0), Taken(n));
    SetsFlag(n);
    steps := Goes(n, steps, Taken(n), RunCallback(0), Flagged(n));
    CancelFails(n);
    steps := Goes(n, steps, Flagged(n), RunCancel(0, false), Failed(n));
  }

  /** One failed cancel is enough to lose a timeout, with any number of workers. */
  lemma FailureLosesTimeout(n: nat)
    requires n > 0
    ensures exists steps :: ValidRun(Start(n), steps) && L.Lost(Run(Start(n), steps), 0) && L.Deserted(Run(Start(n), steps))
  {
    hide ValidRun, Run, Start, L.Lost, L.Deserted;
    var steps := FailingRun(n);
    FailedIsLost(n);
    assert L.Lost(Run(Start(n), steps), 0);
  }

  lemma FailedIsLost(n: nat)
    requires n >= 1
    ensures L.Lost(Failed(n), 0) && L.Deserted(Failed(n))
  {
  }
}
