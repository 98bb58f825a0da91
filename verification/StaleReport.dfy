/** How a report of epoll that is stale by the time it is processed ends the
    process: a run for any number of workers. */
module StaleReport {
  import opened Tasks
  import opened Runtime
  import opened Stories
  import E = EventTable
  import Q = ReadyQueue

  const READY := E.Ready(true, true, false)

  const BOTH: seq<Report> := [FdReady(5, READY)]

  const READER := E.Holding(CbTask(UserCb(1)))

  const WRITER := E.Holding(CbTask(UserCb(2)))

  // An application callback waits for fd 5 in both directions and ends. epoll
  // reports the fd ready in both; before the idle fiber gets to the report, a
  // thread outside cancels the wait for writing.

  lemma AddsReader()
    ensures E.AddEvent(E.Initial(), 5, READ, CbTask(UserCb(1)), true) == E.Effect(Waiting(READER, E.EMPTY), [], true)
  {
  }

  lemma AddsWriter()
    ensures E.AddEvent(Waiting(READER, E.EMPTY), 5, WRITE, CbTask(UserCb(2)), true) ==
            E.Effect(Waiting(READER, WRITER), [], true)
  {
    var cs := E.Initial().contexts;
    assert cs[5 := E.FdContext(5, E.Mask(true, false), READER, E.EMPTY)][5 := E.FdContext(5, E.Mask(true, true), READER, WRITER)] ==
           cs[5 := E.FdContext(5, E.Mask(true, true), READER, WRITER)];
  }

  lemma CancelsWriter()
    ensures E.CancelEvent(Waiting(READER, WRITER), 5, WRITE, true) ==
            E.Effect(Waiting(READER, E.EMPTY), [CbTask(UserCb(2))], true)
  {
    var t := Waiting(READER, WRITER);
    assert E.Leave(t, 5, E.Of(WRITE)).contexts == Waiting(READER, E.EMPTY).contexts;
    assert E.Scheduled(t.contexts[5], E.Of(WRITE)) == [] + [CbTask(UserCb(2))] == [CbTask(UserCb(2))];
  }

  function WaitsOnce(n: nat): State
    requires n >= 1
  {
    Started(n).(table := Waiting(READER, E.EMPTY))
  }

  function WaitsTwice(n: nat): State
    requires n >= 1
  {
    Started(n).(table := Waiting(READER, WRITER))
  }

  function Idles(n: nat, place: Place): State
    requires n >= 1
  {
    WaitsTwice(n).(fibers := [Running0(User).(state := TERM)], workers := One(n, place), active := 0,
               idle := if place.AtTop? then 0 else 1)
  }

  function Cancelled(n: nat, place: Place): State
    requires n >= 1
  {
    Idles(n, place).(table := Waiting(READER, E.EMPTY), queue := [Entry(CbTask(UserCb(2)), -1)],
                     accepted := [CbTask(UserCb(0)), CbTask(UserCb(2))], unread := 1, idle := 1)
  }

  lemma WaitsToRead(n: nat)
    requires n >= 1
    ensures Leads(Started(n), Act(Some(0), AddCallbackEvent(5, READ, 1, true)), WaitsOnce(n))
  {
    hide E.AddEvent, Waiting;
    AddsReader();
  }

  lemma WaitsToWrite(n: nat)
    requires n >= 1
    ensures Leads(WaitsOnce(n), Act(Some(0), AddCallbackEvent(5, WRITE, 2, true)), WaitsTwice(n))
  {
    hide E.AddEvent;
    AddsWriter();
  }

  lemma Ends(n: nat)
    requires n >= 1
    ensures Leads(WaitsTwice(n), Finish(0, false), Idles(n, AtTop))
  {
    hide Waiting;
  }

  lemma GoesIdle(n: nat)
    requires n >= 1
    ensures Leads(Idles(n, AtTop), Dispatch(0), Idles(n, IdleEnter))
  {
    hide Waiting;
  }

  lemma ComputesWait(n: nat)
    requires n >= 1
    ensures Leads(Idles(n, IdleEnter), IdleCheck(0), Idles(n, IdleWait(0, 5000)))
  {
    hide Waiting;
  }

  lemma WakesUp(n: nat)
    requires n >= 1
    ensures Leads(Idles(n, IdleWait(0, 5000)), WaitReturns(0, BOTH), Idles(n, IdleExpire(BOTH)))
  {
  }

  lemma OtherCancels(n: nat)
    requires n >= 1
    ensures Leads(Idles(n, IdleExpire(BOTH)), Act(None, CancelFdEvent(5, WRITE, true)), Cancelled(n, IdleExpire(BOTH)))
  {
    hide E.CancelEvent, Waiting;
    CancelsWriter();
    assert Q.Unpinned([CbTask(UserCb(2))]) == [Entry(CbTask(UserCb(2)), -1)];
  }

  lemma Expires(n: nat)
    requires n >= 1
    ensures Leads(Cancelled(n, IdleExpire(BOTH)), ExpireTimers(0, 0), Cancelled(n, IdleHand([], BOTH)))
  {
    hide Waiting;
  }

  lemma PostsNothing(n: nat)
    requires n >= 1
    ensures Leads(Cancelled(n, IdleHand([], BOTH)), PostExpired(0), Cancelled(n, IdleReports(BOTH)))
  {
    hide Waiting;
  }

  lemma StaleRun(n: nat) returns (steps: seq<Step>)
    requires n >= 1
    ensures Reaches(n, steps, Cancelled(n, IdleReports(BOTH)))
  {
    hide Leads, Reaches, Start;
    steps := StartedReached(n);
    WaitsToRead(n);
    steps := Goes(n, steps, Started(n), Act(Some(0), AddCallbackEvent(5, READ, 1, true)), WaitsOnce(n));
    WaitsToWrite(n);
    steps := Goes(n, steps, WaitsOnce(n), Act(Some(0), AddCallbackEvent(5, WRITE, 2, true)), WaitsTwice(n));
    Ends(n);
    steps := Goes(n, steps, WaitsTwice(n), Finish(0, false), Idles(n, AtTop));
    GoesIdle(n);
    steps := Goes(n, steps, Idles(n, AtTop), Dispatch(0), Idles(n, IdleEnter));
    ComputesWait(n);
    steps := Goes(n, steps, Idles(n, IdleEnter), IdleCheck(0), Idles(n, IdleWait(0, 5000)));
    WakesUp(n);
    steps := Goes(n, steps, Idles(n, IdleWait(0, 5000)), WaitReturns(0, BOTH), Idles(n, IdleExpire(BOTH)));
    OtherCancels(n);
    steps := Goes(n, steps, Idles(n, IdleExpire(BOTH)), Act(None, CancelFdEvent(5, WRITE, true)), Cancelled(n, IdleExpire(BOTH)));
    Expires(n);
    steps := Goes(n, steps, Cancelled(n, IdleExpire(BOTH)), ExpireTimers(0, 0), Cancelled(n, IdleHand([], BOTH)));
    PostsNothing(n);
    steps := Goes(n, steps, Cancelled(n, IdleHand([], BOTH)), PostExpired(0), Cancelled(n, IdleReports(BOTH)));
  }

  /** The worker's next report is for a known fd, and processing it with epoll_ctl
      succeeding trips the assertion of triggerEvent. */
  ghost predicate AboutToAbort(s: State, w: nat)
  {
    && w < |s.workers| && s.workers[w].place.IdleReports? && s.workers[w].place.reports != []
    && var r := s.workers[w].place.reports[0];
       r.FdReady? && E.Known(s.table, r.fd) && E.ProcessReady(s.table, r.fd, r.ready, true).Abort?
  }

  /** Any pool can reach such a state, with nothing failing on the way. */
  lemma StaleReportAborts(n: nat)
    requires n > 0
    ensures exists steps :: ValidRun(Start(n), steps) && AboutToAbort(Run(Start(n), steps), 0)
  {
    hide ValidRun, Run, Start, AboutToAbort;
    var steps := StaleRun(n);
    CancelledAborts(n);
    assert AboutToAbort(Run(Start(n), steps), 0);
  }

  lemma CancelledAborts(n: nat)
    requires n >= 1
    ensures AboutToAbort(Cancelled(n, IdleReports(BOTH)), 0)
  {
  }
}
