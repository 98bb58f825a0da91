/** The fiber runtime as one step system: any number of worker threads, the
    clock, epoll, the timers, the ready queue, the fibers and their hooked
    blocking calls, and threads outside the pool.

    One step is what runs without interruption here: a dispatch from scanning the
    queue to switching the task in, one locked operation on the timers or on one
    fd, or one decision of a fiber. Assertions that would end the process are
    steps that are not enabled. */
module Runtime {
  import opened Tasks
  import T = TimerSet
  import E = EventTable
  import Q = ReadyQueue

  type UserTimer = T.Timer<Callback>

  // ----- hooked blocking calls -----

  /** do_io (reads and accepts) and connect_with_timeout. */
  datatype Kind = IoCall | ConnectCall

  /** What the raw system call answers: a value other than -1, or -1 with errno. */
  datatype Raw = Value(n: int) | EINTR | EAGAIN | EINPROGRESS | Errno(errno: int)

  datatype Verdict = Retry | Wait | Return

  /** How the hook reads a raw result. */
  function Judge(kind: Kind, raw: Raw): Verdict
  {
    match kind
    case IoCall => if raw.EINTR? then Retry else if raw.EAGAIN? then Wait else Return
    case ConnectCall => if raw.EINPROGRESS? then Wait else Return
  }

  /** How a call ends; `SocketError(0)` is connect's success. */
  datatype Outcome = Running | Returned(raw: Raw) | TimedOut | AddFailed | SocketError(errno: int)

  /** A call in flight or finished. `handle` is the timer it holds on to,
      `cancelled` the flag it shares with its timer callbacks, `raws` and
      `firstWait` remember what it has seen. */
  datatype Call = Call(kind: Kind, fd: nat, owner: FiberId, timeout: Option<nat>,
                       raws: seq<Raw>, firstWait: Option<nat>, handle: Option<nat>,
                       cancelled: bool, outcome: Outcome)

  /** do_io always waits for event 1, READ; connect waits for WRITE. */
  function EventOf(call: Call): Event { if call.kind.IoCall? then READ else WRITE }

  // ----- fibers and workers -----

  /** Where a fiber is in its program. */
  datatype Pc =
    | User                      // application code
    | Trying(call: CallId)      // about to make the raw call
    | Armed(call: CallId)       // timer set, about to add the event
    | Registered(call: CallId)  // event added, about to yield or suspended
    | Woken(call: CallId)       // switched back in
    | Checking(call: CallId)    // connect, about to read the socket error
    | Asleep(until: nat)        // sleep timer set, about to yield or suspended

  /** `origin` is the id of the callback the fiber was made to run, if any;
      `resumed` and `yielded` count switches in and out. */
  datatype Fiber = Fiber(state: FiberState, pc: Pc, origin: Option<nat>, resumed: nat, yielded: nat)

  /** An entry of the epoll_wait result. */
  datatype Report = Tickle | FdReady(fd: nat, ready: E.Ready)

  datatype Place =
    | AtTop                                                   // top of the run loop
    | InFiber(fiber: FiberId)
    | InCallback(cb: Callback)                                // a callback of the runtime's own
    | InCancel(call: CallId, fd: nat, event: Event)           // a timeout callback about to cancel
    | IdleEnter                                               // idle fiber switched in
    | IdleWait(since: nat, deadline: nat)                     // in epoll_wait
    | IdleExpire(reports: seq<Report>)                        // back from epoll_wait
    | IdleHand(cbs: seq<Callback>, reports: seq<Report>)      // expired callbacks in hand
    | IdleReports(reports: seq<Report>)
    | Exited

  /** `idleDone`: the idle fiber has ended, having seen the scheduler stopping. */
  datatype Worker = Worker(place: Place, idleDone: bool)

  datatype State = State(
    now: nat,
    timers: seq<UserTimer>,
    table: E.Table,
    queue: seq<Entry>,
    fibers: seq<Fiber>,
    calls: seq<Call>,
    workers: seq<Worker>,
    active: int,
    idle: int,
    unread: nat,            // tickle bytes in the pipe
    stopped: bool,          // stop() was called
    late: bool,             // an outside thread acted after that
    expired: set<CallId>,   // calls one of whose timers has fired
    accepted: seq<Task>,    // everything ever scheduled
    taken: seq<Task>,       // everything ever dispatched
    finished: seq<Callback>) // the runtime's own callbacks that have run

  // ----- steps -----

  /** What application code may do from a fiber, and other threads from outside. */
  datatype Action =
    | PostFiber(thread: int)
    | PostCallback(id: nat, thread: int)
    | AddTimer(addr: nat, ms: nat, recurring: bool, id: nat)
    | CancelTimer(addr: nat)
    | RefreshTimer(addr: nat)
    | ResetTimer(addr: nat, ms: nat, fromNow: bool)
    | AddCallbackEvent(fd: nat, event: Event, id: nat, ctl: bool)
    | DelCallbackEvent(fd: nat, event: Event, ctl: bool)
    | CancelFdEvent(fd: nat, event: Event, ctl: bool)
    | CancelFd(fd: nat, ctl: bool)

  datatype Step =
    | Advance(delta: nat)
    | Stop
    | Act(worker: Option<nat>, action: Action)
    // a worker
    | Dispatch(w: nat)
    | IdleCheck(w: nat)
    | WaitReturns(w: nat, reports: seq<Report>)
    | ExpireTimers(w: nat, probe: nat)
    | PostExpired(w: nat)
    | HandleReport(w: nat, ctl: bool)
    | RunCallback(w: nat)
    | RunCancel(w: nat, ctl: bool)
    // the fiber a worker runs
    | Sleep(w: nat, ms: nat, addr: nat)
    | Begin(w: nat, kind: Kind, fd: nat, timeout: Option<nat>)
    | RawCall(w: nat, raw: Raw, addr: nat)
    | RegisterWait(w: nat, ctl: bool)
    | Suspend(w: nat)
    | YieldReady(w: nat)
    | AfterWait(w: nat)
    | CheckSocket(w: nat, errno: int)
    | Finish(w: nat, throws: bool)

  // ----- pieces of steps -----

  /** IOManager::tickle: one byte if some worker is idle. */
  function Tickled(s: State): (r: State)
    ensures r == s.(unread := r.unread) && r.unread >= s.unread
    ensures s.idle > 0 ==> r.unread > 0
  {
    if s.idle > 0 then s.(unread := s.unread + 1) else s
  }

  /** Scheduler::schedule of one task. */
  function Push(s: State, e: Entry): (r: State)
    ensures r == s.(queue := s.queue + [e], accepted := s.accepted + [e.task], unread := r.unread) && r.unread >= s.unread
    ensures r.unread == s.unread + if s.queue == [] && s.idle > 0 then 1 else 0
  {
    var r := s.(queue := s.queue + [e], accepted := s.accepted + [e.task]);
    if s.queue == [] then Tickled(r) else r
  }

  /** The schedule calls of triggerEvent, one after another. */
  function PushAll(s: State, ts: seq<Task>): (r: State)
    ensures r.unread >= s.unread
    ensures r == s.(queue := s.queue + Q.Unpinned(ts), accepted := s.accepted + ts, unread := r.unread)
    ensures r.unread == s.unread + if s.queue == [] && ts != [] && s.idle > 0 then 1 else 0
    decreases |ts|
  {
    if ts == [] then
      assert s.queue + [] == s.queue && s.accepted + ts == s.accepted;
      s
    else
      assert s.queue + Q.Unpinned(ts) == s.queue + [Entry(ts[0], -1)] + Q.Unpinned(ts[1..]);
      assert s.accepted + ts == s.accepted + [ts[0]] + ts[1..];
      PushAll(Push(s, Entry(ts[0], -1)), ts[1..])
  }

  function CbTasks(cbs: seq<Callback>): seq<Task>
  {
    if cbs == [] then [] else [CbTask(cbs[0])] + CbTasks(cbs[1..])
  }

  /** Scheduler::schedule of a range: one tickle, if the queue was empty. */
  function PushBatch(s: State, ts: seq<Task>): (r: State)
    ensures r == s.(queue := s.queue + Q.Unpinned(ts), accepted := s.accepted + ts, unread := r.unread)
    ensures r.unread == s.unread + if s.queue == [] && ts != [] && s.idle > 0 then 1 else 0
  {
    var r := s.(queue := s.queue + Q.Unpinned(ts), accepted := s.accepted + ts);
    if s.queue == [] && ts != [] then Tickled(r) else r
  }

  function InsertTimer(s: State, t: UserTimer): (r: State)
    ensures r == s.(timers := T.Insert(s.timers, t), unread := r.unread) && r.unread >= s.unread
    ensures T.AtFront(s.timers, t) && s.idle > 0 ==> r.unread > 0
  {
    var r := s.(timers := T.Insert(s.timers, t));
    if T.AtFront(s.timers, t) then Tickled(r) else r
  }

  /** Re-keying: the tickle is for landing first among the remaining timers. */
  function RekeyTimer(s: State, i: nat, t: UserTimer): (r: State)
    requires i < |s.timers|
    ensures r == s.(timers := T.Rekey(s.timers, i, t), unread := r.unread) && r.unread >= s.unread
  {
    InsertTimer(s.(timers := T.Drop(s.timers, i)), t)
  }

  function SetPlace(s: State, w: nat, p: Place): State
    requires w < |s.workers|
  {
    s.(workers := s.workers[w := s.workers[w].(place := p)])
  }

  function SetFiber(s: State, f: FiberId, fb: Fiber): State
  {
    if f < |s.fibers| then s.(fibers := s.fibers[f := fb]) else s
  }

  function SetCall(s: State, c: CallId, call: Call): State
  {
    if c < |s.calls| then s.(calls := s.calls[c := call]) else s
  }

  function FiberAt(s: State, f: FiberId): Fiber
  {
    if f < |s.fibers| then s.fibers[f] else Fiber(TERM, User, None, 0, 0)
  }

  function CallAt(s: State, c: CallId): Call
  {
    if c < |s.calls| then s.calls[c] else Call(IoCall, 0, 0, None, [], None, None, false, TimedOut)
  }

  function Executing(s: State): set<FiberId>
  {
    set f | 0 <= f < |s.fibers| && s.fibers[f].state == EXEC
  }

  /** The fiber worker w runs; only meaningful while it runs one. */
  function Current(s: State, w: nat): FiberId
  {
    if w < |s.workers| && s.workers[w].place.InFiber? then s.workers[w].place.fiber else 0
  }

  predicate Runs(s: State, w: nat)
  {
    w < |s.workers| && s.workers[w].place.InFiber? && s.workers[w].place.fiber < |s.fibers|
  }

  function CurrentPc(s: State, w: nat): Pc { FiberAt(s, Current(s, w)).pc }

  function WithPc(s: State, w: nat, pc: Pc): State
  {
    SetFiber(s, Current(s, w), FiberAt(s, Current(s, w)).(pc := pc))
  }

  /** From s to r the fiber worker w runs moved on in its program, to where it
      is in r, and nothing else happened to any fiber. */
  predicate PcMoved(s: State, r: State, w: nat)
  {
    Runs(s, w) ==> r.fibers == WithPc(s, w, CurrentPc(r, w)).fibers
  }

  /** From s to r the fiber worker w runs stopped, its state and switch count as
      given, and the worker is back at the top of its loop. */
  predicate SwappedOut(s: State, r: State, w: nat, state: FiberState, yielded: nat)
  {
    Runs(s, w) ==>
      && r.fibers == s.fibers[Current(s, w) := FiberAt(s, Current(s, w)).(state := state, yielded := yielded)]
      && r.workers == s.workers[w := Worker(AtTop, s.workers[w].idleDone)]
  }

  /** Worker w is done with what it was running. */
  function Release(s: State, w: nat): (r: State)
    requires w < |s.workers|
    ensures r == s.(workers := r.workers, active := s.active - 1)
    ensures r.workers == s.workers[w := Worker(AtTop, s.workers[w].idleDone)]
  {
    SetPlace(s, w, AtTop).(active := s.active - 1)
  }

  /** Timer objects in the set, or still held by a waiting call, keep their address. */
  predicate FreeAddress(s: State, addr: nat)
  {
    && T.Find(s.timers, addr).None?
    && forall c :: 0 <= c < |s.calls| ==> s.calls[c].handle != Some(addr)
  }

  predicate IsUserTimer(t: UserTimer) { t.cb.Some? && t.cb.value.UserCb? }

  function Busy(wk: Worker): nat
  {
    if wk.place.InFiber? || wk.place.InCallback? || wk.place.InCancel? then 1 else 0
  }

  function Idling(wk: Worker): nat
  {
    if wk.place.AtTop? || wk.place.Exited? || Busy(wk) == 1 then 0 else 1
  }

  /** From s to r only worker w moved, and the counters moved with it. */
  predicate Moved(s: State, r: State, w: nat)
  {
    && w < |s.workers| == |r.workers| && r.workers == s.workers[w := r.workers[w]]
    && r.active + Busy(s.workers[w]) == s.active + Busy(r.workers[w])
    && r.idle + Idling(s.workers[w]) == s.idle + Idling(r.workers[w])
  }

  // ----- application and outside actions -----

  predicate ActionEnabled(s: State, inside: bool, a: Action)
  {
    match a
    case AddTimer(addr, ms, _, _) => FreeAddress(s, addr)
    case CancelTimer(addr) => var i := T.Find(s.timers, addr); i.Some? && IsUserTimer(s.timers[i.value])
    case RefreshTimer(addr) => var i := T.Find(s.timers, addr); i.Some? && IsUserTimer(s.timers[i.value])
    case ResetTimer(addr, _, _) => var i := T.Find(s.timers, addr); i.Some? && IsUserTimer(s.timers[i.value])
    case AddCallbackEvent(fd, e, id, ctl) =>
      inside && |s.table.contexts| >= 2 && E.AddEvent(s.table, fd, e, CbTask(UserCb(id)), ctl).Effect?
    case DelCallbackEvent(fd, e, ctl) =>
      // an event the application added with a callback of its own
      E.Known(s.table, fd) && var slot := E.SlotOf(s.table.contexts[fd], e);
                              slot.fiber.None? && (slot.cb.Some? ==> slot.cb.value.UserCb?)
    case _ => true
  }

  function DoAction(s: State, inside: bool, a: Action): (r: State)
    requires ActionEnabled(s, inside, a)
    ensures r == s.(timers := r.timers, table := r.table, queue := r.queue, fibers := r.fibers,
                    unread := r.unread, accepted := r.accepted)
  {
    match a
    case PostFiber(thread) =>
      Push(s.(fibers := s.fibers + [Fiber(INIT, User, None, 0, 0)]), Entry(FiberTask(|s.fibers|), thread))
    case PostCallback(id, thread) => Push(s, Entry(CbTask(UserCb(id)), thread))
    case AddTimer(addr, ms, recurring, id) =>
      InsertTimer(s, T.Timer(addr, T.Add64(s.now, ms), ms, recurring, Some(UserCb(id))))
    case CancelTimer(addr) => s.(timers := T.Cancel(s.timers, addr))
    case RefreshTimer(addr) =>
      var i := T.Find(s.timers, addr).value;
      RekeyTimer(s, i, T.Refreshed(s.timers[i], s.now))
    case ResetTimer(addr, ms, fromNow) =>
      var i := T.Find(s.timers, addr).value;
      if s.timers[i].ms == ms && !fromNow then s
      else RekeyTimer(s, i, T.ResetTo(s.timers[i], ms, fromNow, s.now))
    case AddCallbackEvent(fd, e, id, ctl) => s.(table := E.AddEvent(s.table, fd, e, CbTask(UserCb(id)), ctl).table)
    case DelCallbackEvent(fd, e, ctl) => s.(table := E.DelEvent(s.table, fd, e, ctl).table)
    case CancelFdEvent(fd, e, ctl) =>
      var r := E.CancelEvent(s.table, fd, e, ctl);
      PushAll(s.(table := r.table), r.woken)
    case CancelFd(fd, ctl) =>
      var r := E.CancelAll(s.table, fd, ctl);
      PushAll(s.(table := r.table), r.woken)
  }

  // ----- the worker loop -----

  /** A suspended fiber continues behind the call that suspended it. */
  function Resume(pc: Pc): Pc
  {
    match pc
    case Registered(c) => Woken(c)
    case Asleep(_) => User
    case _ => pc
  }

  function SwapIn(s: State, w: nat, f: FiberId): (r: State)
    requires w < |s.workers|
    ensures r == s.(fibers := r.fibers, workers := r.workers, active := s.active + 1)
    ensures r.workers == s.workers[w := Worker(InFiber(f), s.workers[w].idleDone)]
  {
    var fb := FiberAt(s, f);
    SetPlace(SetFiber(s, f, fb.(state := EXEC, pc := Resume(fb.pc), resumed := fb.resumed + 1)), w, InFiber(f))
      .(active := s.active + 1)
  }

  /** The queue scan and its tickle. */
  function Scanned(s: State, w: nat): (r: State)
    ensures r == s.(queue := r.queue, taken := r.taken, unread := r.unread) && r.unread >= s.unread
  {
    var p := Q.Take(s.queue, w, Executing(s));
    var r := s.(queue := p.rest, taken := s.taken + if p.taken.Some? then [p.taken.value.task] else []);
    if p.tickle then Tickled(r) else r
  }

  /** No task to run: switch in the idle fiber, or exit if that has ended. */
  function GoIdle(s: State, w: nat): (r: State)
    requires w < |s.workers| && s.workers[w].place.AtTop?
    ensures r == s.(workers := r.workers, idle := r.idle) && Moved(s, r, w)
  {
    if s.workers[w].idleDone then SetPlace(s, w, Exited)
    else SetPlace(s, w, IdleEnter).(idle := s.idle + 1)
  }

  /** Run a callback: an application's in a fiber of its own, one of the
      runtime's as a single step. */
  function StartCallback(s: State, w: nat, cb: Callback): (r: State)
    requires w < |s.workers| && s.workers[w].place.AtTop?
    ensures r == s.(fibers := r.fibers, workers := r.workers, active := r.active) && Moved(s, r, w)
  {
    if cb.UserCb? then
      SetPlace(s.(fibers := s.fibers + [Fiber(EXEC, User, Some(cb.id), 1, 0)]), w, InFiber(|s.fibers|))
        .(active := s.active + 1)
    else SetPlace(s, w, InCallback(cb)).(active := s.active + 1)
  }

  /** One round of the run loop up to the switch. */
  function DoDispatch(s: State, w: nat): (r: State)
    requires w < |s.workers| && s.workers[w].place.AtTop?
    ensures r == s.(queue := r.queue, taken := r.taken, unread := r.unread, fibers := r.fibers, workers := r.workers,
                    active := r.active, idle := r.idle)
    ensures Moved(s, r, w)
  {
    var p := Q.Take(s.queue, w, Executing(s));
    var r := Scanned(s, w);
    match p.taken
    case None => GoIdle(r, w)
    case Some(e) =>
      match e.task
      case FiberTask(f) => if FiberAt(s, f).state == TERM then r else SwapIn(r, w, f)
      case CbTask(cb) => StartCallback(r, w, cb)
  }

  const MAX_TIMEOUT := 5000

  /** get_next_timeout: None is the largest value. */
  function NextTimeout(s: State): Option<nat>
  {
    if s.timers == [] then None
    else if s.now >= s.timers[0].next then Some(0)
    else Some(s.timers[0].next - s.now)
  }

  function WaitTime(s: State): nat
  {
    match NextTimeout(s)
    case None => MAX_TIMEOUT
    case Some(t) => if MAX_TIMEOUT > t then t else MAX_TIMEOUT
  }

  /** IOManager::stopping. */
  predicate Stopping(s: State)
  {
    NextTimeout(s).None? && s.table.pending == 0 && s.stopped && s.queue == [] && s.active == 0
  }

  function DoIdleCheck(s: State, w: nat): (r: State)
    requires w < |s.workers| && s.workers[w].place.IdleEnter?
    ensures r == s.(workers := r.workers, idle := r.idle) && Moved(s, r, w)
  {
    if Stopping(s) then s.(workers := s.workers[w := Worker(AtTop, true)], idle := s.idle - 1)
    else SetPlace(s, w, IdleWait(s.now, s.now + WaitTime(s)))
  }

  /** What epoll_wait may report: at most 64 registered events with their errors,
      and the pipe if there is a byte in it. */
  predicate ReportsOk(s: State, reports: seq<Report>)
  {
    |reports| <= 64 &&
    forall i :: 0 <= i < |reports| ==>
      match reports[i]
      case Tickle => s.unread > 0
      case FdReady(fd, r) =>
        fd in s.table.kernel && (r.input ==> s.table.kernel[fd].read) && (r.output ==> s.table.kernel[fd].write)
  }

  function CallbacksOf(ts: seq<UserTimer>): seq<Callback>
  {
    if ts == [] then []
    else (if ts[0].cb.Some? then [ts[0].cb.value] else []) + CallbacksOf(ts[1..])
  }

  function TimeoutsIn(cbs: seq<Callback>): set<CallId>
  {
    if cbs == [] then {}
    else (if cbs[0].TimeoutCb? then {cbs[0].call} else {}) + TimeoutsIn(cbs[1..])
  }

  /** Tickles of the recurring timers of a batch going back in first. */
  function FrontInserts(rest: seq<UserTimer>, fired: seq<UserTimer>, now: nat): nat
    decreases |fired|
  {
    if fired == [] then 0
    else if !fired[0].recurring then FrontInserts(rest, fired[1..], now)
    else
      var t := T.Refreshed(fired[0], now);
      (if T.AtFront(rest, t) then 1 else 0) + FrontInserts(T.Insert(rest, t), fired[1..], now)
  }

  function DoExpire(s: State, w: nat, probe: nat): (r: State)
    requires w < |s.workers| && s.workers[w].place.IdleExpire?
    ensures r == s.(timers := r.timers, expired := r.expired, unread := r.unread, workers := r.workers)
    ensures r.unread >= s.unread && Moved(s, r, w)
  {
    var fired := T.Fired(s.timers, s.now, probe);
    var cbs := CallbacksOf(fired);
    SetPlace(s.(timers := T.Expire(s.timers, s.now, probe),
                expired := s.expired + TimeoutsIn(cbs),
                unread := s.unread + FrontInserts(s.timers[|fired|..], fired, s.now)),
             w, IdleHand(cbs, s.workers[w].place.reports))
  }

  function DoPostExpired(s: State, w: nat): (r: State)
    requires w < |s.workers| && s.workers[w].place.IdleHand?
    ensures r == s.(queue := r.queue, accepted := r.accepted, unread := r.unread, workers := r.workers)
    ensures r.unread >= s.unread && Moved(s, r, w)
  {
    var p := s.workers[w].place;
    SetPlace(PushBatch(s, CbTasks(p.cbs)), w, IdleReports(p.reports))
  }

  predicate ReportEnabled(s: State, w: nat, ctl: bool)
    requires w < |s.workers| && s.workers[w].place.IdleReports?
  {
    var rs := s.workers[w].place.reports;
    rs != [] && rs[0].FdReady? ==>
      E.Known(s.table, rs[0].fd) && E.ProcessReady(s.table, rs[0].fd, rs[0].ready, ctl).Effect?
  }

  /** One report of the idle loop; after the last the idle fiber switches out. */
  function DoReport(s: State, w: nat, ctl: bool): (r: State)
    requires w < |s.workers| && s.workers[w].place.IdleReports? && ReportEnabled(s, w, ctl)
    ensures r == s.(table := r.table, queue := r.queue, accepted := r.accepted, unread := r.unread,
                    workers := r.workers, idle := r.idle)
    ensures Moved(s, r, w)
  {
    var rs := s.workers[w].place.reports;
    if rs == [] then SetPlace(s, w, AtTop).(idle := s.idle - 1)
    else if rs[0].Tickle? then SetPlace(s.(unread := 0), w, IdleReports(rs[1..]))
    else
      var r := E.ProcessReady(s.table, rs[0].fd, rs[0].ready, ctl);
      SetPlace(PushAll(s.(table := r.table), r.woken), w, IdleReports(rs[1..]))
  }

  /** The timer callbacks of hooked calls: wake the sleeper, or flag the call as
      timed out unless it is over or flagged already. */
  function DoCallback(s: State, w: nat): (r: State)
    requires w < |s.workers| && s.workers[w].place.InCallback?
    ensures r == s.(calls := r.calls, queue := r.queue, accepted := r.accepted, unread := r.unread,
                    workers := r.workers, active := r.active, finished := r.finished)
    ensures Moved(s, r, w)
  {
    var done := s.(finished := s.finished + [s.workers[w].place.cb]);
    match s.workers[w].place.cb
    case UserCb(_) => Release(done, w)
    case WakeCb(f) => Release(Push(done, Entry(FiberTask(f), -1)), w)
    case TimeoutCb(c, fd, e) =>
      if CallAt(s, c).outcome != Running || CallAt(s, c).cancelled then Release(done, w)
      else SetPlace(SetCall(s, c, CallAt(s, c).(cancelled := true)), w, InCancel(c, fd, e))
  }

  function DoCancel(s: State, w: nat, ctl: bool): (r: State)
    requires w < |s.workers| && s.workers[w].place.InCancel?
    ensures r == s.(table := r.table, queue := r.queue, accepted := r.accepted, unread := r.unread,
                    workers := r.workers, active := r.active, finished := r.finished)
    ensures Moved(s, r, w)
  {
    var p := s.workers[w].place;
    var r := E.CancelEvent(s.table, p.fd, p.event, ctl);
    var done := s.(finished := s.finished + [TimeoutCb(p.call, p.fd, p.event)]);
    Release(PushAll(done.(table := r.table), r.woken), w)
  }

  // ----- hooked calls -----

  function DoSleep(s: State, w: nat, ms: nat, addr: nat): (r: State)
    ensures r == s.(fibers := r.fibers, timers := r.timers, unread := r.unread)
    ensures PcMoved(s, r, w) && (Runs(s, w) ==> CurrentPc(r, w) == Asleep(s.now + ms))
  {
    InsertTimer(WithPc(s, w, Asleep(s.now + ms)),
                T.Timer(addr, T.Add64(s.now, ms), ms, false, Some(WakeCb(Current(s, w)))))
  }

  function DoBegin(s: State, w: nat, kind: Kind, fd: nat, timeout: Option<nat>): (r: State)
    ensures r == s.(fibers := r.fibers, calls := r.calls)
    ensures PcMoved(s, r, w) && (Runs(s, w) ==> CurrentPc(r, w) == Trying(|s.calls|))
  {
    WithPc(s, w, Trying(|s.calls|))
      .(calls := s.calls + [Call(kind, fd, Current(s, w), timeout, [], None, None, false, Running)])
  }

  /** The call after one more raw result; `addr` is where its timer goes if it
      has to wait. */
  function AfterRaw(call: Call, raw: Raw, now: nat, addr: nat): Call
  {
    var seen := call.(raws := call.raws + [raw]);
    match Judge(call.kind, raw)
    case Retry => seen
    case Return => seen.(outcome := Returned(raw))
    case Wait => seen.(firstWait := if call.firstWait.Some? then call.firstWait else Some(now),
                       handle := if call.timeout.Some? then Some(addr) else None)
  }

  function TimerOf(call: Call, c: CallId, now: nat, addr: nat): UserTimer
    requires call.timeout.Some?
  {
    T.Timer(addr, T.Add64(now, call.timeout.value), call.timeout.value, false,
            Some(TimeoutCb(c, call.fd, EventOf(call))))
  }

  /** A raw result: again, done, or set the timer and get ready to wait. */
  function DoRawCall(s: State, w: nat, raw: Raw, addr: nat): (r: State)
    requires CurrentPc(s, w).Trying?
    ensures r == s.(fibers := r.fibers, calls := r.calls, timers := r.timers, unread := r.unread)
    ensures var c := CurrentPc(s, w).call; var verdict := Judge(CallAt(s, c).kind, raw);
            && PcMoved(s, r, w)
            && (Runs(s, w) ==> CurrentPc(r, w) == if verdict.Retry? then Trying(c) else if verdict.Return? then User else Armed(c))
            && r.calls == SetCall(s, c, AfterRaw(CallAt(s, c), raw, s.now, addr)).calls
  {
    var c := CurrentPc(s, w).call;
    var call := CallAt(s, c);
    var verdict := Judge(call.kind, raw);
    var pc := if verdict.Retry? then Trying(c) else if verdict.Return? then User else Armed(c);
    var r := WithPc(SetCall(s, c, AfterRaw(call, raw, s.now, addr)), w, pc);
    if verdict.Wait? && call.timeout.Some? then InsertTimer(r, TimerOf(call, c, s.now, addr)) else r
  }

  /** timer->cancel() on the call's own timer. */
  function DropHandle(s: State, c: CallId): (r: State)
    ensures r == s.(timers := r.timers, calls := r.calls)
    ensures r.calls == if c < |s.calls| then s.calls[c := s.calls[c].(handle := None)] else s.calls
    ensures r.timers == match CallAt(s, c).handle case None => s.timers case Some(addr) => T.Cancel(s.timers, addr)
  {
    var call := CallAt(s, c);
    match call.handle
    case None =>
      assert c < |s.calls| ==> s.calls[c].(handle := None) == s.calls[c];
      s
    case Some(addr) => SetCall(s.(timers := T.Cancel(s.timers, addr)), c, call.(handle := None))
  }

  /** add_event for the current fiber; if it fails do_io gives up and connect
      goes on to read the socket error. */
  function DoRegister(s: State, w: nat, ctl: bool): (r: State)
    requires CurrentPc(s, w).Armed? && |s.table.contexts| >= 2
    requires var call := CallAt(s, CurrentPc(s, w).call);
             E.AddEvent(s.table, call.fd, EventOf(call), FiberTask(Current(s, w)), ctl).Effect?
    ensures r == s.(fibers := r.fibers, calls := r.calls, timers := r.timers, table := r.table)
    ensures PcMoved(s, r, w)
    ensures Runs(s, w) ==> var c := CurrentPc(s, w).call;
                       if ctl then CurrentPc(r, w) == Registered(c) else CurrentPc(r, w) in {Checking(c), User}
  {
    var c := CurrentPc(s, w).call;
    var call := CallAt(s, c);
    var r := s.(table := E.AddEvent(s.table, call.fd, EventOf(call), FiberTask(Current(s, w)), ctl).table);
    if ctl then WithPc(r, w, Registered(c))
    else
      var d := DropHandle(r, c);
      if call.kind.IoCall? then WithPc(SetCall(d, c, CallAt(d, c).(outcome := AddFailed)), w, User)
      else WithPc(d, w, Checking(c))
  }

  function DoSuspend(s: State, w: nat): (r: State)
    requires w < |s.workers|
    ensures r == s.(fibers := r.fibers, workers := r.workers, active := r.active)
    ensures Runs(s, w) ==> Moved(s, r, w)
    ensures SwappedOut(s, r, w, HOLD, FiberAt(s, Current(s, w)).yielded + 1)
  {
    var fb := FiberAt(s, Current(s, w));
    Release(SetFiber(s, Current(s, w), fb.(state := HOLD, yielded := fb.yielded + 1)), w)
  }

  function DoYieldReady(s: State, w: nat): (r: State)
    requires w < |s.workers|
    ensures r == s.(fibers := r.fibers, workers := r.workers, active := r.active, queue := r.queue,
                    accepted := r.accepted, unread := r.unread)
    ensures r.unread >= s.unread && (Runs(s, w) ==> Moved(s, r, w))
    ensures SwappedOut(s, r, w, READY, FiberAt(s, Current(s, w)).yielded + 1)
  {
    var f := Current(s, w);
    var fb := FiberAt(s, f);
    Push(Release(SetFiber(s, f, fb.(state := READY, yielded := fb.yielded + 1)), w), Entry(FiberTask(f), -1))
  }

  /** Back from the wait: cancel the timer, give up if flagged, else try again
      (do_io) or look at the socket (connect). */
  function DoAfterWait(s: State, w: nat): (r: State)
    requires CurrentPc(s, w).Woken?
    ensures r == s.(fibers := r.fibers, calls := r.calls, timers := r.timers)
    ensures PcMoved(s, r, w)
    ensures Runs(s, w) ==> var c := CurrentPc(s, w).call; CurrentPc(r, w) in {Trying(c), Checking(c), User}
  {
    var c := CurrentPc(s, w).call;
    var d := DropHandle(s, c);
    if CallAt(d, c).cancelled then WithPc(SetCall(d, c, CallAt(d, c).(outcome := TimedOut)), w, User)
    else WithPc(d, w, if CallAt(d, c).kind.IoCall? then Trying(c) else Checking(c))
  }

  function DoCheckSocket(s: State, w: nat, errno: int): (r: State)
    requires CurrentPc(s, w).Checking?
    ensures r == s.(fibers := r.fibers, calls := r.calls)
    ensures PcMoved(s, r, w) && (Runs(s, w) ==> CurrentPc(r, w) == User)
  {
    var c := CurrentPc(s, w).call;
    WithPc(SetCall(s, c, CallAt(s, c).(outcome := SocketError(errno))), w, User)
  }

  function DoFinish(s: State, w: nat, throws: bool): (r: State)
    requires w < |s.workers|
    ensures r == s.(fibers := r.fibers, workers := r.workers, active := r.active)
    ensures Runs(s, w) ==> Moved(s, r, w)
    ensures SwappedOut(s, r, w, if throws then EXCPT else TERM, FiberAt(s, Current(s, w)).yielded)
  {
    var f := Current(s, w);
    Release(SetFiber(s, f, FiberAt(s, f).(state := if throws then EXCPT else TERM)), w)
  }

  // ----- the step relation -----

  /** The stretch a callback starts in may not yield ready: its fiber still is the
      one the worker keeps for callbacks. */
  predicate MayYieldReady(fb: Fiber)
  {
    fb.origin.Some? ==> fb.resumed > 1
  }

  predicate Enabled(s: State, step: Step)
  {
    match step
    case Advance(_) => true
    case Stop => true
    case Act(who, a) => (who.Some? ==> Runs(s, who.value) && CurrentPc(s, who.value).User?) && ActionEnabled(s, who.Some?, a)
    case Dispatch(w) => w < |s.workers| && s.workers[w].place.AtTop?
    case IdleCheck(w) => w < |s.workers| && s.workers[w].place.IdleEnter?
    case WaitReturns(w, reports) => w < |s.workers| && s.workers[w].place.IdleWait? && ReportsOk(s, reports)
    case ExpireTimers(w, probe) => w < |s.workers| && s.workers[w].place.IdleExpire? && FreeAddress(s, probe)
    case PostExpired(w) => w < |s.workers| && s.workers[w].place.IdleHand?
    case HandleReport(w, ctl) => w < |s.workers| && s.workers[w].place.IdleReports? && ReportEnabled(s, w, ctl)
    case RunCallback(w) => w < |s.workers| && s.workers[w].place.InCallback?
    case RunCancel(w, _) => w < |s.workers| && s.workers[w].place.InCancel?
    case Sleep(w, ms, addr) => Runs(s, w) && CurrentPc(s, w).User? && FreeAddress(s, addr) && s.now + ms < T.U64
    case Begin(w, _, _, _) => Runs(s, w) && CurrentPc(s, w).User?
    case RawCall(w, raw, addr) =>
      && Runs(s, w) && CurrentPc(s, w).Trying? && FreeAddress(s, addr)
      && var timeout := CallAt(s, CurrentPc(s, w).call).timeout; timeout.Some? ==> s.now + timeout.value < T.U64
    case RegisterWait(w, ctl) =>
      && Runs(s, w) && CurrentPc(s, w).Armed? && |s.table.contexts| >= 2
      && var call := CallAt(s, CurrentPc(s, w).call);
         E.AddEvent(s.table, call.fd, EventOf(call), FiberTask(Current(s, w)), ctl).Effect?
    case Suspend(w) => Runs(s, w) && (CurrentPc(s, w).Registered? || CurrentPc(s, w).Asleep?)
    case YieldReady(w) => Runs(s, w) && CurrentPc(s, w).User? && MayYieldReady(FiberAt(s, Current(s, w)))
    case AfterWait(w) => Runs(s, w) && CurrentPc(s, w).Woken?
    case CheckSocket(w, _) => Runs(s, w) && CurrentPc(s, w).Checking?
    case Finish(w, _) => Runs(s, w) && CurrentPc(s, w).User?
  }

  function Apply(s: State, step: Step): State
    requires Enabled(s, step)
  {
    match step
    case Advance(delta) => s.(now := s.now + delta)
    case Stop => s.(stopped := true)
    case Act(who, a) =>
      DoAction(s.(late := s.late || (who.None? && s.stopped)), who.Some?, a)
    case Dispatch(w) => DoDispatch(s, w)
    case IdleCheck(w) => DoIdleCheck(s, w)
    case WaitReturns(w, reports) => SetPlace(s, w, IdleExpire(reports))
    case ExpireTimers(w, probe) => DoExpire(s, w, probe)
    case PostExpired(w) => DoPostExpired(s, w)
    case HandleReport(w, ctl) => DoReport(s, w, ctl)
    case RunCallback(w) => DoCallback(s, w)
    case RunCancel(w, ctl) => DoCancel(s, w, ctl)
    case Sleep(w, ms, addr) => DoSleep(s, w, ms, addr)
    case Begin(w, kind, fd, timeout) => DoBegin(s, w, kind, fd, timeout)
    case RawCall(w, raw, addr) => DoRawCall(s, w, raw, addr)
    case RegisterWait(w, ctl) => DoRegister(s, w, ctl)
    case Suspend(w) => DoSuspend(s, w)
    case YieldReady(w) => DoYieldReady(s, w)
    case AfterWait(w) => DoAfterWait(s, w)
    case CheckSocket(w, errno) => DoCheckSocket(s, w, errno)
    case Finish(w, throws) => DoFinish(s, w, throws)
  }

  /** A started scheduler with n worker threads. */
  function Start(n: nat): State
  {
    State(0, [], E.Initial(), [], [], [], seq(n, _ => Worker(AtTop, false)), 0, 0, 0, false, false, {}, [], [], [])
  }

  ghost predicate ValidRun(s: State, steps: seq<Step>)
    decreases |steps|
  {
    steps == [] || (Enabled(s, steps[0]) && ValidRun(Apply(s, steps[0]), steps[1..]))
  }

  function Run(s: State, steps: seq<Step>): State
    requires ValidRun(s, steps)
    decreases |steps|
  {
    if steps == [] then s else Run(Apply(s, steps[0]), steps[1..])
  }
}
