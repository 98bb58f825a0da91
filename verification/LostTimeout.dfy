/** How several workers lose a timeout: a run, step by step, and the statement
    that one worker never does. */
module LostTimeout {
  import opened Tasks
  import opened Runtime
  import opened RuntimeInvariant
  import opened RuntimeDelivery
  import opened Stories
  import E = EventTable
  import T = TimerSet
  import Q = ReadyQueue

  const CALLBACK := TimeoutCb(0, 5, READ)

  const TIMER: UserTimer := T.Timer(1, 10, 10, false, Some(CALLBACK))

  const PARKED := E.Holding(FiberTask(0))

  // A reader with a timeout of 10 ms is slow to add its event, between setting its
  // timer and suspending; another worker expires the timer meanwhile. Below are the
  // states this story goes through, and the step from each to the next.

  function Reading(raws: seq<Raw>, cancelled: bool): Call
  {
    Call(IoCall, 5, 0, Some(10), raws, if raws == [] then None else Some(0), if raws == [] then None else Some(1), cancelled, Running)
  }

  /** The first two of n workers, the others still where they started. */
  function Two(n: nat, first: Place, second: Place): seq<Worker>
    requires n >= 2
  {
    One(n, first)[1 := Worker(second, false)]
  }

  function Begun(n: nat): State
    requires n >= 1
  {
    Started(n).(fibers := [Running0(Trying(0))], calls := [Reading([], false)])
  }

  function TimerSetState(n: nat): State
    requires n >= 1
  {
    Begun(n).(fibers := [Running0(Armed(0))], calls := [Reading([EAGAIN], false)],
             timers := [TIMER])
  }

  function Idles(n: nat, place: Place): State
    requires n >= 2
  {
    TimerSetState(n).(workers := Two(n, InFiber(0), place), idle := 1)
  }

  function Later(n: nat, place: Place): State
    requires n >= 2
  {
    Idles(n, place).(now := 11)
  }

  function Expired(n: nat): State
    requires n >= 2
  {
    Later(n, IdleHand([CALLBACK], [])).(timers := [], expired := {0})
  }

  function CallbackPosted(n: nat, place: Place): State
    requires n >= 2
  {
    Expired(n).(workers := Two(n, InFiber(0), place), unread := 1, idle := if place.AtTop? then 0 else 1,
               queue := [Entry(CbTask(CALLBACK), -1)], accepted := [CbTask(UserCb(0)), CbTask(CALLBACK)])
  }

  function CallbackTaken(n: nat): State
    requires n >= 2
  {
    CallbackPosted(n, AtTop).(queue := [], taken := [CbTask(UserCb(0)), CbTask(CALLBACK)],
                           workers := Two(n, InFiber(0), InCallback(CALLBACK)), active := 2)
  }

  function FlagSet(n: nat): State
    requires n >= 2
  {
    CallbackTaken(n).(calls := [Reading([EAGAIN], true)], workers := Two(n, InFiber(0), InCancel(0, 5, READ)))
  }

  function CallbackDone(n: nat): State
    requires n >= 2
  {
    FlagSet(n).(workers := Two(n, InFiber(0), AtTop), active := 1, finished := [CALLBACK])
  }

  function EventAdded(n: nat): State
    requires n >= 2
  {
    CallbackDone(n).(fibers := [Running0(Registered(0))], table := Waiting(PARKED, E.EMPTY))
  }

  function Suspended(n: nat): State
    requires n >= 2
  {
    EventAdded(n).(fibers := [Fiber(HOLD, Registered(0), Some(0), 1, 1)], workers := Two(n, AtTop, AtTop), active := 0)
  }

  lemma BeginsCall(n: nat)
    requires n >= 1
    ensures Leads(Started(n), Begin(0, IoCall, 5, Some(10)), Begun(n))
  {
  }

  lemma SetsTimer(n: nat)
    requires n >= 1
    ensures Leads(Begun(n), RawCall(0, EAGAIN, 1), TimerSetState(n))
  {
    var none: seq<UserTimer> := [];
    assert T.Insert(none, TIMER) == [TIMER];
    assert TimerOf(Reading([], false), 0, 0, 1) == TIMER;
    assert AfterRaw(Reading([], false), EAGAIN, 0, 1) == Reading([EAGAIN], false);
  }

  lemma GoesIdle(n: nat)
    requires n >= 2
    ensures Leads(TimerSetState(n), Dispatch(1), Idles(n, IdleEnter))
  {
  }

  lemma ComputesWait(n: nat)
    requires n >= 2
    ensures Leads(Idles(n, IdleEnter), IdleCheck(1), Idles(n, IdleWait(0, 10)))
  {
  }

  lemma TimePasses(n: nat)
    requires n >= 2
    ensures Leads(Idles(n, IdleWait(0, 10)), Advance(11), Later(n, IdleWait(0, 10)))
  {
  }

  lemma WakesUp(n: nat)
    requires n >= 2
    ensures Leads(Later(n, IdleWait(0, 10)), WaitReturns(1, []), Later(n, IdleExpire([])))
  {
  }

  lemma TimerExpires()
    ensures T.Fired([TIMER], 11, 2) == [TIMER] && T.Expire([TIMER], 11, 2) == []
    ensures CallbacksOf([TIMER]) == [CALLBACK] && TimeoutsIn([CALLBACK]) == {0}
    ensures FrontInserts([TIMER][1..], [TIMER], 11) == 0
  {
    assert [TIMER][1..] == [];
    assert T.UpperBound([TIMER], 11, 2) == 1;
    assert T.Fired([TIMER], 11, 2) == [TIMER];
    var none: seq<UserTimer> := [];
    assert T.Requeue(none, [TIMER], 11) == T.Requeue(none, none, 11);
    assert CallbacksOf([TIMER]) == [CALLBACK] + CallbacksOf(none);
    assert TimeoutsIn([CALLBACK]) == {0} + TimeoutsIn([]);
  }

  lemma Expires(n: nat)
    requires n >= 2
    ensures Leads(Later(n, IdleExpire([])), ExpireTimers(1, 2), Expired(n))
  {
    hide T.Fired, T.Expire, CallbacksOf, TimeoutsIn, FrontInserts;
    TimerExpires();
  }

  lemma PostsCallback(n: nat)
    requires n >= 2
    ensures Leads(Expired(n), PostExpired(1), CallbackPosted(n, IdleReports([])))
  {
    assert CbTasks([CALLBACK]) == [CbTask(CALLBACK)];
    assert Q.Unpinned([CbTask(CALLBACK)]) == [Entry(CbTask(CALLBACK), -1)];
  }

  lemma EndsIdle(n: nat)
    requires n >= 2
    ensures Leads(CallbackPosted(n, IdleReports([])), HandleReport(1, true), CallbackPosted(n, AtTop))
  {
  }

  lemma TakesCallback(n: nat)
    requires n >= 2
    ensures Leads(CallbackPosted(n, AtTop), Dispatch(1), CallbackTaken(n))
  {
  }

  lemma SetsFlag(n: nat)
    requires n >= 2
    ensures Leads(CallbackTaken(n), RunCallback(1), FlagSet(n))
  {
  }

  lemma NothingToCancel()
    ensures E.CancelEvent(E.Initial(), 5, READ, true) == E.Effect(E.Initial(), [], false)
  {
  }

  lemma CancelsNothing(n: nat)
    requires n >= 2
    ensures Leads(FlagSet(n), RunCancel(1, true), CallbackDone(n))
  {
    hide E.CancelEvent, E.Initial;
    NothingToCancel();
  }

  lemma ParksReader()
    ensures E.AddEvent(E.Initial(), 5, READ, FiberTask(0), true) == E.Effect(Waiting(PARKED, E.EMPTY), [], true)
  {
  }

  lemma AddsEvent(n: nat)
    requires n >= 2
    ensures Leads(CallbackDone(n), RegisterWait(0, true), EventAdded(n))
  {
    hide E.AddEvent, Waiting;
    ParksReader();
  }

  lemma Suspends(n: nat)
    requires n >= 2
    ensures Leads(EventAdded(n), Suspend(0), Suspended(n))
  {
  }

  /** Up to the timer any number of workers go this way. */
  lemma TimerSetReached(n: nat) returns (steps: seq<Step>)
    requires n >= 1
    ensures Reaches(n, steps, TimerSetState(n)) && NoFailedCancel(steps)
  {
    hide Leads, Reaches, NoFailedCancel, Start;
    steps := StartedReached(n);
    BeginsCall(n);
    steps := Goes(n, steps, Started(n), Begin(0, IoCall, 5, Some(10)), Begun(n));
    SetsTimer(n);
    steps := Goes(n, steps, Begun(n), RawCall(0, EAGAIN, 1), TimerSetState(n));
  }

  lemma SlowRun(n: nat) returns (steps: seq<Step>)
    requires n >= 2
    ensures Reaches(n, steps, Suspended(n)) && NoFailedCancel(steps)
  {
    hide Leads, Reaches, NoFailedCancel, Start;
    steps := TimerSetReached(n);
    GoesIdle(n);
    steps := Goes(n, steps, TimerSetState(n), Dispatch(1), Idles(n, IdleEnter));
    ComputesWait(n);
    steps := Goes(n, steps, Idles(n, IdleEnter), IdleCheck(1), Idles(n, IdleWait(0, 10)));
    TimePasses(n);
    steps := Goes(n, steps, Idles(n, IdleWait(0, 10)), Advance(11), Later(n, IdleWait(0, 10)));
    WakesUp(n);
    steps := Goes(n, steps, Later(n, IdleWait(0, 10)), WaitReturns(1, []), Later(n, IdleExpire([])));
    Expires(n);
    steps := Goes(n, steps, Later(n, IdleExpire([])), ExpireTimers(1, 2), Expired(n));
    PostsCallback(n);
    steps := Goes(n, steps, Expired(n), PostExpired(1), CallbackPosted(n, IdleReports([])));
    EndsIdle(n);
    steps := Goes(n, steps, CallbackPosted(n, IdleReports([])), HandleReport(1, true), CallbackPosted(n, AtTop));
    TakesCallback(n);
    steps := Goes(n, steps, CallbackPosted(n, AtTop), Dispatch(1), CallbackTaken(n));
    SetsFlag(n);
    steps := Goes(n, steps, CallbackTaken(n), RunCallback(1), FlagSet(n));
    CancelsNothing(n);
    steps := Goes(n, steps, FlagSet(n), RunCancel(1, true), CallbackDone(n));
    AddsEvent(n);
    steps := Goes(n, steps, CallbackDone(n), RegisterWait(0, true), EventAdded(n));
    Suspends(n);
    steps := Goes(n, steps, EventAdded(n), Suspend(0), Suspended(n));
  }

  /** A call that is flagged as timed out while its fiber is suspended behind its
      event, and that no worker is about to cancel: the timeout does not wake it. */
  ghost predicate Lost(s: State, c: CallId)
  {
    && Flagged(s, c) && Parked(s, s.calls[c]) && FiberAt(s, s.calls[c].owner).state == HOLD
    && forall w :: 0 <= w < |s.workers| ==> s.workers[w].place != InCancel(c, s.calls[c].fd, EventOf(s.calls[c]))
  }

  /** Nothing set, queued or in any worker's hands. */
  ghost predicate Deserted(s: State)
  {
    s.timers == [] && s.queue == [] && forall w :: 0 <= w < |s.workers| ==> s.workers[w].place.AtTop?
  }

  /** Several workers can lose a timeout, with every epoll_ctl succeeding: the call
      is flagged before its event is added. Then only the fd becoming ready, or
      somebody else's cancel, can still wake it. */
  lemma TimeoutCanBeLost(n: nat)
    requires n >= 2
    ensures exists steps ::
              ValidRun(Start(n), steps) && NoFailedCancel(steps) && Lost(Run(Start(n), steps), 0) && Deserted(Run(Start(n), steps))
  {
    hide ValidRun, Run, Start, NoFailedCancel, Lost, Deserted;
    var steps := SlowRun(n);
    SuspendedIsLost(n);
    assert Lost(Run(Start(n), steps), 0);
  }

  /** While no epoll_ctl fails inside a timeout callback, no run loses a timeout
      exactly if there is one worker. */
  lemma NoneLostIffAlone(n: nat)
    requires n > 0
    ensures (forall steps, c: CallId :: ValidRun(Start(n), steps) && NoFailedCancel(steps) ==> !Lost(Run(Start(n), steps), c)) <==>
            n == 1
  {
    hide ValidRun, Run, NoFailedCancel, Lost, Start;
    if n == 1 {
      forall steps, c: CallId | ValidRun(Start(n), steps) && NoFailedCancel(steps)
        ensures !Lost(Run(Start(n), steps), c)
      {
        AloneLosesNone(steps, c);
      }
    } else {
      TimeoutCanBeLost(n);
    }
  }

  lemma AloneLosesNone(steps: seq<Step>, c: CallId)
    requires ValidRun(Start(1), steps) && NoFailedCancel(steps)
    ensures !Lost(Run(Start(1), steps), c)
  {
    hide Inv, ValidRun, Run, NoFailedCancel, Parked;
    StartKeeps(1);
    StartsAlone();
    RunKeepsAlone(Start(1), steps);
  }

  lemma SuspendedIsLost(n: nat)
    requires n >= 2
    ensures Lost(Suspended(n), 0) && Deserted(Suspended(n))
  {
  }
}
