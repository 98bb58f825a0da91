/** A run in which everything goes well, for any number of workers: a fiber sleeps,
    reads after a wait, connects after a wait and ends; the scheduler is stopped and
    every worker exits. */
module OrdinaryRun {
  import opened Tasks
  import opened Runtime
  import opened Stories
  import opened RuntimeExit
  import E = EventTable
  import T = TimerSet
  import Q = ReadyQueue

  const WAKE := WakeCb(0)

  /** What changes in this story: one worker and one fiber. */
  datatype Life = Life(now: nat, place: Place, fiber: Fiber, timers: seq<UserTimer>, table: E.Table, queue: seq<Task>,
                       calls: seq<Call>, unread: nat, accepted: seq<Task>, taken: seq<Task>, finished: seq<Callback>)

  function World(n: nat, l: Life): State
    requires n >= 1
  {
    State(l.now, l.timers, l.table, Q.Unpinned(l.queue), [l.fiber], l.calls, One(n, l.place), Busy(Worker(l.place, false)),
          Idling(Worker(l.place, false)), l.unread, false, false, {}, l.accepted, l.taken, l.finished)
  }

  function Runs0(l: Life, pc: Pc): Life { l.(place := InFiber(0), fiber := l.fiber.(state := EXEC, pc := pc)) }

  // ----- steps this story takes again and again -----

  lemma LooksForWork(n: nat, l: Life)
    requires n >= 1 && l.place == AtTop && l.queue == []
    ensures Leads(World(n, l), Dispatch(0), World(n, l.(place := IdleEnter)))
  {
    hide Executing;
    assert Q.Take([], 0, Executing(World(n, l))).rest == [];
    assert l.taken + [] == l.taken;
  }

  lemma StartsWaiting(n: nat, l: Life)
    requires n >= 1 && l.place == IdleEnter
    ensures Leads(World(n, l), IdleCheck(0), World(n, l.(place := IdleWait(l.now, l.now + WaitTime(World(n, l))))))
  {
  }

  lemma IsWoken(n: nat, l: Life, reports: seq<Report>)
    requires n >= 1 && l.place.IdleWait? && ReportsOk(World(n, l), reports)
    ensures Leads(World(n, l), WaitReturns(0, reports), World(n, l.(place := IdleExpire(reports))))
  {
    hide ReportsOk;
  }

  lemma ExpiresNone(n: nat, l: Life, probe: nat)
    requires n >= 1 && l.place.IdleExpire? && (l.timers == [] || l.timers[0].next > l.now)
    requires FreeAddress(World(n, l), probe)
    ensures Leads(World(n, l), ExpireTimers(0, probe), World(n, l.(place := IdleHand([], l.place.reports))))
  {
    hide FreeAddress;
    var s := World(n, l);
    assert T.Fired(s.timers, s.now, probe) == [];
    assert T.Expire(s.timers, s.now, probe) == s.timers;
    assert s.expired + {} == s.expired;
  }

  lemma PostsNone(n: nat, l: Life, reports: seq<Report>)
    requires n >= 1 && l.place == IdleHand([], reports)
    ensures Leads(World(n, l), PostExpired(0), World(n, l.(place := IdleReports(reports))))
  {
    assert l.accepted + [] == l.accepted;
    assert Q.Unpinned(l.queue) + Q.Unpinned([]) == Q.Unpinned(l.queue);
  }

  lemma ReadsTickle(n: nat, l: Life, more: seq<Report>)
    requires n >= 1 && l.place == IdleReports([Tickle] + more)
    ensures Leads(World(n, l), HandleReport(0, true), World(n, l.(place := IdleReports(more), unread := 0)))
  {
    assert ([Tickle] + more)[1..] == more;
  }

  lemma EndsIdling(n: nat, l: Life)
    requires n >= 1 && l.place == IdleReports([])
    ensures Leads(World(n, l), HandleReport(0, true), World(n, l.(place := AtTop)))
  {
  }

  lemma Suspends(n: nat, l: Life)
    requires n >= 1 && l.place == InFiber(0) && (l.fiber.pc.Registered? || l.fiber.pc.Asleep?)
    ensures Leads(World(n, l), Suspend(0),
                  World(n, l.(place := AtTop, fiber := l.fiber.(state := HOLD, yielded := l.fiber.yielded + 1))))
  {
  }

  lemma Takes(n: nat, l: Life, t: Task)
    requires n >= 1 && l.queue == [t] && (t.FiberTask? ==> l.fiber.state != EXEC)
    ensures var s := World(n, l); var p := Q.Take(s.queue, 0, Executing(s));
            p.taken == Some(Entry(t, -1)) && p.rest == [] && !p.tickle
  {
    var s := World(n, l);
    assert Q.Unpinned([t]) == [Entry(t, -1)];
    assert t.FiberTask? ==> t.fiber !in Executing(s);
    Q.TakeIsFifo(s.queue, 0, Executing(s));
  }

  lemma GoesOn(n: nat, l: Life)
    requires n >= 1 && l.place == AtTop && l.queue == [FiberTask(0)] && l.fiber.state == HOLD
    ensures Leads(World(n, l), Dispatch(0),
                  World(n, l.(place := InFiber(0), queue := [], taken := l.taken + [FiberTask(0)],
                              fiber := l.fiber.(state := EXEC, pc := Resume(l.fiber.pc), resumed := l.fiber.resumed + 1))))
  {
    hide Executing, Q.Take;
    Takes(n, l, FiberTask(0));
  }

  /** From looking for work to the reports of epoll_wait, with no timer due. */
  lemma Idles(n: nat, steps: seq<Step>, l: Life, reports: seq<Report>, probe: nat) returns (longer: seq<Step>)
    requires n >= 1 && Reaches(n, steps, World(n, l)) && l.place == AtTop && l.queue == []
    requires (l.timers == [] || l.timers[0].next > l.now) && FreeAddress(World(n, l), probe) && ReportsOk(World(n, l), reports)
    ensures Reaches(n, longer, World(n, l.(place := IdleReports(reports))))
  {
    hide Leads, Reaches, World, FreeAddress, ReportsOk;
    LooksForWork(n, l);
    longer := Goes(n, steps, World(n, l), Dispatch(0), World(n, l.(place := IdleEnter)));
    StartsWaiting(n, l.(place := IdleEnter));
    var wait := IdleWait(l.now, l.now + WaitTime(World(n, l.(place := IdleEnter))));
    longer := Goes(n, longer, World(n, l.(place := IdleEnter)), IdleCheck(0), World(n, l.(place := wait)));
    PlaceFrees(n, l, wait, probe, reports);
    IsWoken(n, l.(place := wait), reports);
    longer := Goes(n, longer, World(n, l.(place := wait)), WaitReturns(0, reports), World(n, l.(place := IdleExpire(reports))));
    PlaceFrees(n, l, IdleExpire(reports), probe, reports);
    ExpiresNone(n, l.(place := IdleExpire(reports)), probe);
    longer := Goes(n, longer, World(n, l.(place := IdleExpire(reports))), ExpireTimers(0, probe),
                   World(n, l.(place := IdleHand([], reports))));
    PostsNone(n, l.(place := IdleHand([], reports)), reports);
    longer := Goes(n, longer, World(n, l.(place := IdleHand([], reports))), PostExpired(0),
                   World(n, l.(place := IdleReports(reports))));
  }

  lemma PlaceFrees(n: nat, l: Life, place: Place, probe: nat, reports: seq<Report>)
    requires n >= 1
    ensures FreeAddress(World(n, l.(place := place)), probe) == FreeAddress(World(n, l), probe)
    ensures ReportsOk(World(n, l.(place := place)), reports) == ReportsOk(World(n, l), reports)
  {
    hide T.Find;
  }

  // ----- asleep -----

  const SLEEP: UserTimer := T.Timer(1, 10, 10, false, Some(WAKE))

  function Born(): Life
  {
    Life(0, InFiber(0), Running0(User), [], E.Initial(), [], [], 0, [CbTask(UserCb(0))], [CbTask(UserCb(0))], [])
  }

  function Sleeping(): Life
  {
    Born().(place := AtTop, fiber := Fiber(HOLD, Asleep(10), Some(0), 1, 1), timers := [SLEEP])
  }

  /** The clock has reached the wake-up time. */
  function Due(place: Place): Life
  {
    Sleeping().(now := 10, place := place)
  }

  function WakePosted(place: Place): Life
  {
    Due(place).(timers := [], queue := [CbTask(WAKE)], accepted := Born().accepted + [CbTask(WAKE)], unread := 1)
  }

  function WakeTaken(): Life
  {
    WakePosted(InCallback(WAKE)).(queue := [], taken := Born().taken + [CbTask(WAKE)])
  }

  function Roused(): Life
  {
    WakeTaken().(place := AtTop, queue := [FiberTask(0)], accepted := Born().accepted + [CbTask(WAKE)] + [FiberTask(0)], finished := [WAKE])
  }

  function Awoken(): Life
  {
    Roused().(place := InFiber(0), queue := [], fiber := Fiber(EXEC, User, Some(0), 2, 1),
              taken := Born().taken + [CbTask(WAKE)] + [FiberTask(0)])
  }

  lemma FallsAsleep(n: nat)
    requires n >= 1
    ensures Leads(World(n, Born()), Sleep(0, 10, 1), World(n, Born().(fiber := Running0(Asleep(10)), timers := [SLEEP])))
  {
    var none: seq<UserTimer> := [];
    assert T.Insert(none, SLEEP) == [SLEEP];
  }

  lemma TimePasses(n: nat)
    requires n >= 1
    ensures Leads(World(n, Sleeping().(place := IdleWait(0, 10))), Advance(10), World(n, Due(IdleWait(0, 10))))
  {
  }

  lemma SleepFires()
    ensures T.Fired([SLEEP], 10, 2) == [SLEEP] && T.Expire([SLEEP], 10, 2) == []
    ensures CallbacksOf([SLEEP]) == [WAKE] && TimeoutsIn([WAKE]) == {} && FrontInserts([], [SLEEP], 10) == 0
  {
    var none: seq<UserTimer> := [];
    assert [SLEEP][1..] == none;
    assert T.UpperBound([SLEEP], 10, 2) == 1;
    assert T.Requeue(none, [SLEEP], 10) == none;
    assert CallbacksOf(none) == [] && TimeoutsIn([]) == {};
    assert [WAKE][1..] == [];
  }

  lemma Fires(n: nat)
    requires n >= 1
    ensures Leads(World(n, Due(IdleExpire([]))), ExpireTimers(0, 2), World(n, Due(IdleHand([WAKE], [])).(timers := [])))
  {
    hide T.Fired, T.Expire, CallbacksOf, TimeoutsIn, FrontInserts;
    SleepFires();
    assert [SLEEP][|[SLEEP]|..] == [];
  }

  lemma PostsWake(n: nat)
    requires n >= 1
    ensures Leads(World(n, Due(IdleHand([WAKE], [])).(timers := [])), PostExpired(0), World(n, WakePosted(IdleReports([]))))
  {
    assert CbTasks([WAKE]) == [CbTask(WAKE)];
    assert Q.Unpinned([]) + Q.Unpinned([CbTask(WAKE)]) == Q.Unpinned([CbTask(WAKE)]);
  }

  lemma TakesWake(n: nat)
    requires n >= 1
    ensures Leads(World(n, WakePosted(AtTop)), Dispatch(0), World(n, WakeTaken()))
  {
    hide Executing, Q.Take;
    Takes(n, WakePosted(AtTop), CbTask(WAKE));
  }

  lemma Rouses(n: nat)
    requires n >= 1
    ensures Leads(World(n, WakeTaken()), RunCallback(0), World(n, Roused()))
  {
    assert Q.Unpinned([]) + [Entry(FiberTask(0), -1)] == Q.Unpinned([FiberTask(0)]);
  }

  lemma SleepsThrough(n: nat, steps: seq<Step>) returns (longer: seq<Step>)
    requires n >= 1 && Reaches(n, steps, World(n, Born()))
    ensures Reaches(n, longer, World(n, Awoken()))
  {
    hide Leads, Reaches, World;
    FallsAsleep(n);
    var down := Born().(fiber := Running0(Asleep(10)), timers := [SLEEP]);
    longer := Goes(n, steps, World(n, Born()), Sleep(0, 10, 1), World(n, down));
    Suspends(n, down);
    longer := Goes(n, longer, World(n, down), Suspend(0), World(n, Sleeping()));
    LooksForWork(n, Sleeping());
    longer := Goes(n, longer, World(n, Sleeping()), Dispatch(0), World(n, Sleeping().(place := IdleEnter)));
    StartsWaiting(n, Sleeping().(place := IdleEnter));
    WaitsTen(n);
    longer := Goes(n, longer, World(n, Sleeping().(place := IdleEnter)), IdleCheck(0), World(n, Sleeping().(place := IdleWait(0, 10))));
    TimePasses(n);
    longer := Goes(n, longer, World(n, Sleeping().(place := IdleWait(0, 10))), Advance(10), World(n, Due(IdleWait(0, 10))));
    IsWoken(n, Due(IdleWait(0, 10)), []);
    longer := Goes(n, longer, World(n, Due(IdleWait(0, 10))), WaitReturns(0, []), World(n, Due(IdleExpire([]))));
    Fires(n);
    longer := Goes(n, longer, World(n, Due(IdleExpire([]))), ExpireTimers(0, 2), World(n, Due(IdleHand([WAKE], [])).(timers := [])));
    PostsWake(n);
    longer := Goes(n, longer, World(n, Due(IdleHand([WAKE], [])).(timers := [])), PostExpired(0), World(n, WakePosted(IdleReports([]))));
    EndsIdling(n, WakePosted(IdleReports([])));
    longer := Goes(n, longer, World(n, WakePosted(IdleReports([]))), HandleReport(0, true), World(n, WakePosted(AtTop)));
    TakesWake(n);
    longer := Goes(n, longer, World(n, WakePosted(AtTop)), Dispatch(0), World(n, WakeTaken()));
    Rouses(n);
    longer := Goes(n, longer, World(n, WakeTaken()), RunCallback(0), World(n, Roused()));
    GoesOn(n, Roused());
    longer := Goes(n, longer, World(n, Roused()), Dispatch(0), World(n, Awoken()));
  }

  lemma WaitsTen(n: nat)
    requires n >= 1
    ensures WaitTime(World(n, Sleeping().(place := IdleEnter))) == 10
  {
  }

  // ----- a read, and a connect, that have to wait -----

  /** A call of fiber 0 on fd 5, and the slot it waits in. */
  function CallSeen(kind: Kind, timeout: Option<nat>, raws: seq<Raw>, firstWait: Option<nat>, handle: Option<nat>): Call
  {
    Call(kind, 5, 0, timeout, raws, firstWait, handle, false, Running)
  }

  const PARKED := E.Holding(FiberTask(0))

  function WaitingFor(kind: Kind): E.Table
  {
    if kind.IoCall? then Waiting(PARKED, E.EMPTY) else Waiting(E.EMPTY, PARKED)
  }

  function ReadyFor(kind: Kind): Report
  {
    FdReady(5, E.Ready(kind.IoCall?, kind.ConnectCall?, false))
  }

  lemma Parks(kind: Kind)
    ensures E.AddEvent(E.Initial(), 5, if kind.IoCall? then READ else WRITE, FiberTask(0), true) ==
            E.Effect(WaitingFor(kind), [], true)
  {
  }

  lemma Unparks(kind: Kind)
    ensures E.ProcessReady(WaitingFor(kind), 5, ReadyFor(kind).ready, true) == E.Effect(E.Initial(), [FiberTask(0)], true)
    ensures E.Known(WaitingFor(kind), 5)
  {
    var t := WaitingFor(kind);
    E.ProcessReadyIs(t, 5, ReadyFor(kind).ready, true);
    var gone := E.Mask(kind.IoCall?, kind.ConnectCall?);
    assert E.RealEvents(t.contexts[5], ReadyFor(kind).ready) == gone;
    assert E.Leave(t, 5, gone).contexts == E.Initial().contexts;
    assert E.Leave(t, 5, gone).kernel == map[];
    assert E.Scheduled(t.contexts[5], gone) == [FiberTask(0)];
  }

  /** l is in user code and has made some calls; this is that life inside one more. */
  function Inside(l: Life, pc: Pc, call: Call): Life
  {
    Runs0(l, pc).(calls := l.calls + [call])
  }

  lemma Begins(n: nat, l: Life, kind: Kind, timeout: Option<nat>)
    requires n >= 1 && l.place == InFiber(0) && l.fiber.state == EXEC && l.fiber.pc == User
    ensures Leads(World(n, l), Begin(0, kind, 5, timeout),
                  World(n, Inside(l, Trying(|l.calls|), CallSeen(kind, timeout, [], None, None))))
  {
  }

  lemma AddsEvent(n: nat, l: Life, call: Call)
    requires n >= 1 && call.fd == 5 && l.table == E.Initial()
    ensures Leads(World(n, Inside(l, Armed(|l.calls|), call)), RegisterWait(0, true),
                  World(n, Inside(l, Registered(|l.calls|), call).(table := WaitingFor(call.kind))))
  {
    hide E.AddEvent, WaitingFor, E.Initial;
    Parks(call.kind);
    assert |E.Initial().contexts| >= 2 by { SomeContexts(); }
  }

  lemma SomeContexts()
    ensures |E.Initial().contexts| >= 2
  {
  }

  lemma IsReady(n: nat, l: Life, kind: Kind)
    requires n >= 1 && l.place == IdleReports([ReadyFor(kind)]) && l.table == WaitingFor(kind) && l.queue == []
    ensures Leads(World(n, l), HandleReport(0, true),
                  World(n, l.(place := IdleReports([]), table := E.Initial(), queue := [FiberTask(0)],
                              accepted := l.accepted + [FiberTask(0)], unread := l.unread + 1)))
  {
    hide E.ProcessReady, WaitingFor, E.Initial, PushAll, ReadyFor;
    Unparks(kind);
    assert [ReadyFor(kind)][1..] == [];
    assert ReadyFor(kind).FdReady? && ReadyFor(kind).fd == 5 by { ReadyOnFive(kind); }
    PushesOne(World(n, l).(table := E.Initial()), FiberTask(0));
  }

  lemma ReadyOnFive(kind: Kind)
    ensures ReadyFor(kind).FdReady? && ReadyFor(kind).fd == 5
  {
  }

  lemma PushesOne(s: State, t: Task)
    requires s.queue == []
    ensures PushAll(s, [t]) == s.(queue := Q.Unpinned([t]), accepted := s.accepted + [t], unread := s.unread + if s.idle > 0 then 1 else 0)
  {
    hide Q.Unpinned;
    assert [t][1..] == [];
    PushesNone(Push(s, Entry(t, -1)));
    UnpinnedOne(t);
  }

  lemma PushesNone(s: State)
    ensures PushAll(s, []) == s
  {
    hide Q.Unpinned;
  }

  lemma UnpinnedOne(t: Task)
    ensures Q.Unpinned([t]) == [Entry(t, -1)]
  {
    assert [t][1..] == [];
  }

  lemma Reported(n: nat, l: Life, kind: Kind)
    requires n >= 1 && l.table == WaitingFor(kind)
    ensures ReportsOk(World(n, l), [ReadyFor(kind)])
    ensures l.unread > 0 ==> ReportsOk(World(n, l), [Tickle] + [ReadyFor(kind)])
  {
  }

  /** From adding the event to being suspended. */
  lemma GoesDown(n: nat, steps: seq<Step>, l: Life, call: Call) returns (longer: seq<Step>, held: Life)
    requires n >= 1 && call.fd == 5 && l.table == E.Initial() && l.place == InFiber(0) && l.fiber.state == EXEC
    requires Reaches(n, steps, World(n, Inside(l, Armed(|l.calls|), call)))
    ensures Reaches(n, longer, World(n, held))
    ensures held == l.(place := AtTop, calls := l.calls + [call], table := WaitingFor(call.kind),
                       fiber := l.fiber.(state := HOLD, pc := Registered(|l.calls|), yielded := l.fiber.yielded + 1))
  {
    hide Leads, Reaches, World, WaitingFor, E.Initial;
    AddsEvent(n, l, call);
    var inside := Inside(l, Registered(|l.calls|), call).(table := WaitingFor(call.kind));
    longer := Goes(n, steps, World(n, Inside(l, Armed(|l.calls|), call)), RegisterWait(0, true), World(n, inside));
    Suspends(n, inside);
    held := inside.(place := AtTop, fiber := inside.fiber.(state := HOLD, yielded := inside.fiber.yielded + 1));
    longer := Goes(n, longer, World(n, inside), Suspend(0), World(n, held));
  }

  /** From there to the report that the fd is ready. */
  lemma HearsOf(n: nat, steps: seq<Step>, held: Life, kind: Kind, probe: nat) returns (longer: seq<Step>, seen: Life)
    requires n >= 1 && Reaches(n, steps, World(n, held)) && held.place == AtTop && held.queue == [] && held.table == WaitingFor(kind)
    requires (held.timers == [] || held.timers[0].next > held.now) && FreeAddress(World(n, held), probe)
    ensures Reaches(n, longer, World(n, seen)) && seen == held.(place := IdleReports([ReadyFor(kind)]), unread := 0)
  {
    hide Leads, Reaches, World, FreeAddress, ReportsOk, WaitingFor;
    Reported(n, held, kind);
    seen := held.(place := IdleReports([ReadyFor(kind)]), unread := 0);
    if held.unread > 0 {
      longer := Idles(n, steps, held, [Tickle] + [ReadyFor(kind)], probe);
      var first := held.(place := IdleReports([Tickle] + [ReadyFor(kind)]));
      ReadsTickle(n, first, [ReadyFor(kind)]);
      longer := Goes(n, longer, World(n, first), HandleReport(0, true), World(n, seen));
    } else {
      longer := Idles(n, steps, held, [ReadyFor(kind)], probe);
      assert seen == held.(place := IdleReports([ReadyFor(kind)]));
    }
  }

  /** From adding the event to going on behind the wait. */
  lemma WaitsFor(n: nat, steps: seq<Step>, l: Life, call: Call, probe: nat) returns (longer: seq<Step>, after: Life)
    requires n >= 1 && call.fd == 5 && l.table == E.Initial() && l.queue == [] && l.place == InFiber(0) && l.fiber.state == EXEC
    requires Reaches(n, steps, World(n, Inside(l, Armed(|l.calls|), call)))
    requires (l.timers == [] || l.timers[0].next > l.now) && FreeAddress(World(n, Inside(l, Armed(|l.calls|), call)), probe)
    ensures Reaches(n, longer, World(n, Inside(after, Woken(|l.calls|), call)))
    ensures after == l.(unread := 1, accepted := l.accepted + [FiberTask(0)], taken := l.taken + [FiberTask(0)],
                        fiber := l.fiber.(pc := after.fiber.pc, resumed := l.fiber.resumed + 1, yielded := l.fiber.yielded + 1))
  {
    hide Leads, Reaches, World, FreeAddress, WaitingFor, E.Initial;
    var held, seen;
    longer, held := GoesDown(n, steps, l, call);
    SameFree(n, Inside(l, Armed(|l.calls|), call), held, probe);
    longer, seen := HearsOf(n, longer, held, call.kind, probe);
    IsReady(n, seen, call.kind);
    var posted := seen.(place := IdleReports([]), table := E.Initial(), queue := [FiberTask(0)],
                        accepted := seen.accepted + [FiberTask(0)], unread := 1);
    longer := Goes(n, longer, World(n, seen), HandleReport(0, true), World(n, posted));
    EndsIdling(n, posted);
    longer := Goes(n, longer, World(n, posted), HandleReport(0, true), World(n, posted.(place := AtTop)));
    GoesOn(n, posted.(place := AtTop));
    after := l.(unread := 1, accepted := l.accepted + [FiberTask(0)], taken := l.taken + [FiberTask(0)],
                fiber := l.fiber.(pc := Woken(|l.calls|), resumed := l.fiber.resumed + 1, yielded := l.fiber.yielded + 1));
    longer := Goes(n, longer, World(n, posted.(place := AtTop)), Dispatch(0), World(n, Inside(after, Woken(|l.calls|), call)));
  }

  lemma SameFree(n: nat, a: Life, b: Life, probe: nat)
    requires n >= 1 && a.timers == b.timers && a.calls == b.calls
    ensures FreeAddress(World(n, b), probe) == FreeAddress(World(n, a), probe)
  {
    hide T.Find;
  }

  // ----- the read: interrupted, blocked, answered -----

  const GUARD: UserTimer := T.Timer(3, 20, 10, false, Some(TimeoutCb(0, 5, READ)))

  function ReadBlocked(): Call { CallSeen(IoCall, Some(10), [EINTR] + [EAGAIN], Some(10), Some(3)) }

  function ReadDone(): Call
  {
    ReadBlocked().(raws := [EINTR] + [EAGAIN] + [Value(7)], handle := None, outcome := Returned(Value(7)))
  }

  lemma Interrupted(n: nat)
    requires n >= 1
    ensures Leads(World(n, Inside(Awoken(), Trying(0), CallSeen(IoCall, Some(10), [], None, None))), RawCall(0, EINTR, 3),
                  World(n, Inside(Awoken(), Trying(0), CallSeen(IoCall, Some(10), [EINTR], None, None))))
  {
    hide T.Insert;
    assert [] + [EINTR] == [EINTR];
  }

  lemma Blocked(n: nat)
    requires n >= 1
    ensures Leads(World(n, Inside(Awoken(), Trying(0), CallSeen(IoCall, Some(10), [EINTR], None, None))), RawCall(0, EAGAIN, 3),
                  World(n, Inside(Awoken().(timers := [GUARD]), Armed(0), ReadBlocked())))
  {
    var none: seq<UserTimer> := [];
    assert T.Insert(none, GUARD) == [GUARD];
    assert TimerOf(CallSeen(IoCall, Some(10), [EINTR], None, None), 0, 10, 3) == GUARD;
  }

  lemma LooksAtFlag(n: nat, l: Life)
    requires n >= 1 && l.place == InFiber(0) && l.timers == [GUARD] && l.calls == []
    ensures Leads(World(n, Inside(l, Woken(0), ReadBlocked())), AfterWait(0),
                  World(n, Inside(l.(timers := []), Trying(0), ReadBlocked().(handle := None))))
  {
    assert T.Find([GUARD], 3) == Some(0);
    assert T.Cancel([GUARD], 3) == [];
  }

  lemma Answered(n: nat, l: Life)
    requires n >= 1 && l.place == InFiber(0) && l.timers == [] && l.calls == [] && l.now == 10
    ensures Leads(World(n, Inside(l, Trying(0), ReadBlocked().(handle := None))), RawCall(0, Value(7), 5),
                  World(n, Inside(l, User, ReadDone())))
  {
    var was, now := ReadBlocked().(handle := None), ReadDone();
    assert AfterRaw(was, Value(7), 10, 5) == now;
    assert ([] + [was])[0 := now] == [] + [now];
    assert (l.calls + [was])[0] == was;
  }

  lemma GuardIsElsewhere(n: nat)
    requires n >= 1
    ensures FreeAddress(World(n, Inside(Awoken().(timers := [GUARD]), Armed(0), ReadBlocked())), 4)
  {
    var none: seq<UserTimer> := [];
    assert [GUARD][1..] == none;
    assert T.Find(none, 4).None?;
  }

  lemma Reads(n: nat, steps: seq<Step>) returns (longer: seq<Step>, after: Life)
    requires n >= 1 && Reaches(n, steps, World(n, Awoken()))
    ensures after.place == InFiber(0) && after.fiber == Fiber(EXEC, User, Some(0), 3, 2) && after.timers == [] && after.queue == []
    ensures after.table == E.Initial() && after.calls == [] && after.now == 10
    ensures Reaches(n, longer, World(n, after.(calls := [ReadDone()])))
  {
    hide Leads, Reaches, World, FreeAddress, E.Initial;
    var l := Awoken();
    var trying := CallSeen(IoCall, Some(10), [], None, None);
    Begins(n, l, IoCall, Some(10));
    longer := Goes(n, steps, World(n, l), Begin(0, IoCall, 5, Some(10)), World(n, Inside(l, Trying(0), trying)));
    Interrupted(n);
    longer := Goes(n, longer, World(n, Inside(l, Trying(0), trying)), RawCall(0, EINTR, 3),
                   World(n, Inside(l, Trying(0), trying.(raws := [EINTR]))));
    Blocked(n);
    var armed := l.(timers := [GUARD]);
    longer := Goes(n, longer, World(n, Inside(l, Trying(0), trying.(raws := [EINTR]))), RawCall(0, EAGAIN, 3),
                   World(n, Inside(armed, Armed(0), ReadBlocked())));
    GuardIsElsewhere(n);
    longer, after := WaitsFor(n, longer, armed, ReadBlocked(), 4);
    LooksAtFlag(n, after);
    var free := after.(timers := []);
    longer := Goes(n, longer, World(n, Inside(after, Woken(0), ReadBlocked())), AfterWait(0),
                   World(n, Inside(free, Trying(0), ReadBlocked().(handle := None))));
    Answered(n, free);
    longer := Goes(n, longer, World(n, Inside(free, Trying(0), ReadBlocked().(handle := None))), RawCall(0, Value(7), 5),
                   World(n, Inside(free, User, ReadDone())));
    after := Runs0(free, User);
    assert [] + [ReadDone()] == [ReadDone()];
  }

  // ----- the connect: in progress, then without error -----

  function ConnectBlocked(): Call { CallSeen(ConnectCall, None, [EINPROGRESS], Some(10), None) }

  lemma InProgress(n: nat, l: Life)
    requires n >= 1 && l.now == 10 && l.timers == [] && |l.calls| == 1 && l.calls[0].handle.None?
    ensures Leads(World(n, Inside(l, Trying(1), CallSeen(ConnectCall, None, [], None, None))), RawCall(0, EINPROGRESS, 5),
                  World(n, Inside(l, Armed(1), ConnectBlocked())))
    ensures FreeAddress(World(n, Inside(l, Armed(1), ConnectBlocked())), 6)
  {
    assert [] + [EINPROGRESS] == [EINPROGRESS];
  }

  lemma LooksAtSocket(n: nat, l: Life)
    requires n >= 1 && l.place == InFiber(0) && |l.calls| == 1
    ensures Leads(World(n, Inside(l, Woken(1), ConnectBlocked())), AfterWait(0), World(n, Inside(l, Checking(1), ConnectBlocked())))
  {
    hide T.Cancel;
  }

  lemma Connected(n: nat, l: Life)
    requires n >= 1 && l.place == InFiber(0) && |l.calls| == 1
    ensures Leads(World(n, Inside(l, Checking(1), ConnectBlocked())), CheckSocket(0, 0),
                  World(n, Inside(l, User, ConnectBlocked().(outcome := SocketError(0)))))
  {
  }

  lemma Connects(n: nat, steps: seq<Step>, l: Life) returns (longer: seq<Step>, after: Life)
    requires n >= 1 && Reaches(n, steps, World(n, l))
    requires l.place == InFiber(0) && l.fiber.state == EXEC && l.fiber.pc == User && l.timers == [] && l.queue == []
    requires l.table == E.Initial() && l.calls == [ReadDone()] && l.now == 10
    ensures after.place == InFiber(0) && after.fiber.state == EXEC && after.fiber.pc == User && after.timers == [] && after.queue == []
    ensures after.table == E.Initial() && after.calls == [ReadDone()] + [ConnectBlocked().(outcome := SocketError(0))]
    ensures Reaches(n, longer, World(n, after))
  {
    hide Leads, Reaches, World, FreeAddress, E.Initial;
    var trying := CallSeen(ConnectCall, None, [], None, None);
    Begins(n, l, ConnectCall, None);
    longer := Goes(n, steps, World(n, l), Begin(0, ConnectCall, 5, None), World(n, Inside(l, Trying(1), trying)));
    InProgress(n, l);
    longer := Goes(n, longer, World(n, Inside(l, Trying(1), trying)), RawCall(0, EINPROGRESS, 5),
                   World(n, Inside(l, Armed(1), ConnectBlocked())));
    longer, after := WaitsFor(n, longer, l, ConnectBlocked(), 6);
    LooksAtSocket(n, after);
    longer := Goes(n, longer, World(n, Inside(after, Woken(1), ConnectBlocked())), AfterWait(0),
                   World(n, Inside(after, Checking(1), ConnectBlocked())));
    Connected(n, after);
    var done := Inside(after, User, ConnectBlocked().(outcome := SocketError(0)));
    longer := Goes(n, longer, World(n, Inside(after, Checking(1), ConnectBlocked())), CheckSocket(0, 0), World(n, done));
    after := done;
  }

  // ----- the end -----

  lemma Ends(n: nat, l: Life)
    requires n >= 1 && l.place == InFiber(0) && l.fiber.pc == User
    ensures Leads(World(n, l), Finish(0, false), World(n, l.(place := AtTop, fiber := l.fiber.(state := TERM))))
  {
  }

  lemma IsStopped(n: nat, l: Life)
    requires n >= 1 && l.place == AtTop && l.timers == [] && l.queue == [] && l.table == E.Initial()
    ensures Leads(World(n, l), Stop, World(n, l).(stopped := true)) && Calm(World(n, l).(stopped := true))
  {
  }

  lemma BornIsStarted(n: nat)
    requires n >= 1
    ensures World(n, Born()) == Started(n)
  {
  }

  lemma Lives(n: nat) returns (steps: seq<Step>, end: Life)
    requires n >= 1
    ensures Reaches(n, steps, World(n, end).(stopped := true)) && Calm(World(n, end).(stopped := true))
    ensures end.calls == [ReadDone()] + [ConnectBlocked().(outcome := SocketError(0))] && end.fiber.state == TERM
  {
    hide Leads, Reaches, World, Calm, Born, Awoken, E.Initial;
    steps := StartedReached(n);
    BornIsStarted(n);
    steps := SleepsThrough(n, steps);
    var l;
    steps, l := Reads(n, steps);
    steps, l := Connects(n, steps, l.(calls := [ReadDone()]));
    Ends(n, l);
    end := l.(place := AtTop, fiber := l.fiber.(state := TERM));
    steps := Goes(n, steps, World(n, l), Finish(0, false), World(n, end));
    IsStopped(n, end);
    steps := Goes(n, steps, World(n, end), Stop, World(n, end).(stopped := true));
  }

  /** Pools of every size have such a run: a sleep, a read answered after a wait, a
      connect answered after a wait, and then every worker exits, with nobody acting
      from outside after stop. */
  lemma AllGoesWell(n: nat)
    requires n > 0
    ensures exists steps ::
              ValidRun(Start(n), steps) &&
              var s := Run(Start(n), steps);
              && |s.workers| == n && (forall w :: 0 <= w < n ==> s.workers[w].place.Exited?) && !s.late
              && |s.calls| == 2 && s.calls[0].outcome == Returned(Value(7)) && s.calls[1].outcome == SocketError(0)
              && |s.fibers| == 1 && s.fibers[0].state == TERM
  {
    hide ValidRun, Run, Start, Calm;
    var steps, end := Lives(n);
    var s := World(n, end).(stopped := true);
    WorldSize(n, end);
    var more := PoolExits(s, n);
    Joined(Start(n), steps, more);
    assert ValidRun(Start(n), steps + more);
  }

  lemma WorldSize(n: nat, l: Life)
    requires n >= 1
    ensures |World(n, l).workers| == n && World(n, l).fibers == [l.fiber] && World(n, l).calls == l.calls && !World(n, l).late
  {
  }
}
