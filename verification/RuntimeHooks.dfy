/** What the hooked calls do in the running system: what a raw result leads to, how
    a call ends, where its fiber waits, and where it goes on. */
module RuntimeHooks {
  import opened Tasks
  import opened Tally
  import opened Runtime
  import opened RuntimeTokens
  import opened RuntimeCalls
  import opened RuntimeCallSteps
  import opened RuntimeInvariant
  import opened RuntimeTheorems
  import D = RuntimeDelivery
  import I = RuntimeIdle
  import K = RuntimeTasks
  import T = TimerSet
  import E = EventTable
  import Q = ReadyQueue

  // ----- raw results -----

  /** Whether the result makes the call wait. */
  predicate MakesWait(call: Call, raw: Raw)
  {
    if call.kind.IoCall? then raw.EAGAIN? else raw.EINPROGRESS?
  }

  /** A read that waits is after the read event, a connect after the write event. */
  function AwaitedEvent(call: Call): Event
  {
    match call.kind
    case IoCall => READ
    case ConnectCall => WRITE
  }

  /** After a raw result: the call has seen it, and when it first had to wait; if it
      has to wait now and has a timeout, one more timer is set, due that much later
      and aimed at this call and its event; and its fiber tries again after an
      interrupted read, gets ready to wait, or has its answer. */
  lemma RawResult(s: State, w: nat, raw: Raw, addr: nat)
    requires Inv(s) && Enabled(s, RawCall(w, raw, addr))
    ensures var r := Apply(s, RawCall(w, raw, addr)); var c := CurrentPc(s, w).call;
            && c < |s.calls| == |r.calls|
            && var call, after := s.calls[c], r.calls[c]; var waits := MakesWait(call, raw);
               && after.raws == call.raws + [raw]
               && after.firstWait == (if waits && call.firstWait.None? then Some(s.now) else call.firstWait)
               && CurrentPc(r, w) == (if waits then Armed(c) else if call.kind.IoCall? && raw.EINTR? then Trying(c) else User)
               && forall t :: t in r.timers <==>
                    t in s.timers ||
                    (waits && call.timeout.Some? &&
                     t == T.Timer(addr, s.now + call.timeout.value, call.timeout.value, false,
                                  Some(TimeoutCb(c, call.fd, AwaitedEvent(call)))))
  {
    hide TokenInv, PlacesOk, CallsOk, FreeAddress, DoRawCall;
    CurrentCall(s, w);
    RawTimers(s, w, raw, addr);
  }

  lemma RawTimers(s: State, w: nat, raw: Raw, addr: nat)
    requires CurrentPc(s, w).Trying?
    requires var timeout := CallAt(s, CurrentPc(s, w).call).timeout; timeout.Some? ==> s.now + timeout.value < T.U64
    ensures var r := DoRawCall(s, w, raw, addr); var c := CurrentPc(s, w).call; var call := CallAt(s, c);
            forall t :: t in r.timers <==>
              t in s.timers ||
              (MakesWait(call, raw) && call.timeout.Some? &&
               t == T.Timer(addr, s.now + call.timeout.value, call.timeout.value, false,
                            Some(TimeoutCb(c, call.fd, AwaitedEvent(call)))))
  {
    hide T.UpperBound, T.Add64, AfterRaw;
    var c := CurrentPc(s, w).call;
    var call := CallAt(s, c);
    if call.timeout.Some? {
      T.NoWrap(s.now, call.timeout.value);
      T.InsertMembers(s.timers, TimerOf(call, c, s.now, addr));
    }
  }

  /** A sleep sets one timer, due that much later, that wakes this fiber. */
  lemma SleepResult(s: State, w: nat, ms: nat, addr: nat)
    requires Enabled(s, Sleep(w, ms, addr))
    ensures var r := Apply(s, Sleep(w, ms, addr)); var f := Current(s, w);
            && CurrentPc(r, w) == Asleep(s.now + ms)
            && forall t :: t in r.timers <==> t in s.timers || t == T.Timer(addr, s.now + ms, ms, false, Some(WakeCb(f)))
  {
    hide FreeAddress, T.UpperBound, T.Add64;
    T.NoWrap(s.now, ms);
    T.InsertMembers(s.timers, T.Timer(addr, T.Add64(s.now, ms), ms, false, Some(WakeCb(Current(s, w)))));
  }

  // ----- timer callbacks -----

  /** A timeout callback flags its call and goes on to cancel that very event, unless
      the call is over or flagged already: then it is done, like any other callback,
      and a sleeper's is done once the sleeper is queued. */
  lemma CallbackResult(s: State, w: nat)
    requires Inv(s) && Enabled(s, RunCallback(w))
    ensures var r := Apply(s, RunCallback(w)); var cb := s.workers[w].place.cb;
            && w < |r.workers| && |r.calls| == |s.calls|
            && match cb
               case UserCb(_) => r.workers[w].place == AtTop && r.calls == s.calls && r.queue == s.queue
               case WakeCb(f) => r.workers[w].place == AtTop && r.calls == s.calls && r.queue == s.queue + [Entry(FiberTask(f), -1)]
               case TimeoutCb(c, fd, e) =>
                 && c < |s.calls| && fd == s.calls[c].fd && e == AwaitedEvent(s.calls[c]) && r.queue == s.queue
                 && (forall d :: 0 <= d < |s.calls| && d != c ==> r.calls[d] == s.calls[d])
                 && if s.calls[c].outcome == Running && !s.calls[c].cancelled
                    then r.calls[c] == s.calls[c].(cancelled := true) && r.workers[w].place == InCancel(c, fd, e)
                    else r.calls[c] == s.calls[c] && r.workers[w].place == AtTop
  {
    hide TokenInv, CallsOk, TimersOk, OwnHandles, QueueOk, SlotsOk, Push;
    assert HandOk(s, s.workers[w].place);
  }

  // ----- what the application and others ask for -----

  /** Every action does what it says, and nothing to the timers or the table that it
      does not say. */
  lemma ActionResult(s: State, inside: bool, a: Action)
    requires TablesInv(s) && ActionEnabled(s, inside, a)
    ensures var r := DoAction(s, inside, a);
            match a
            case PostFiber(thread) =>
              && r.queue == s.queue + [Entry(FiberTask(|s.fibers|), thread)]
              && r.fibers == s.fibers + [Fiber(INIT, User, None, 0, 0)] && r.timers == s.timers && r.table == s.table
            case PostCallback(id, thread) =>
              && r.queue == s.queue + [Entry(CbTask(UserCb(id)), thread)]
              && r.fibers == s.fibers && r.timers == s.timers && r.table == s.table
            case AddCallbackEvent(fd, e, id, ctl) =>
              r == s.(table := E.AddEvent(s.table, fd, e, CbTask(UserCb(id)), ctl).table)
            case DelCallbackEvent(fd, e, ctl) => r == s.(table := E.DelEvent(s.table, fd, e, ctl).table)
            case CancelFdEvent(fd, e, ctl) =>
              var c := E.CancelEvent(s.table, fd, e, ctl);
              r.table == c.table && r.queue == s.queue + Q.Unpinned(c.woken) && r.fibers == s.fibers && r.timers == s.timers
            case CancelFd(fd, ctl) =>
              var c := E.CancelAll(s.table, fd, ctl);
              r.table == c.table && r.queue == s.queue + Q.Unpinned(c.woken) && r.fibers == s.fibers && r.timers == s.timers
            case _ => r.table == s.table && r.queue == s.queue && r.fibers == s.fibers
  {
    hide TablesInv, FreeAddress, T.Insert, T.Cancel, T.Find, E.AddEvent, E.DelEvent, E.Leave, E.Scheduled, Push, PushAll;
  }

  /** The application's timers: a new one is due its period from now; a cancelled one
      is gone; a refreshed or reset one has its new key, as `TimerSet` has it; and no
      other timer is touched. */
  lemma TimerActionResult(s: State, inside: bool, a: Action)
    requires TablesInv(s) && ActionEnabled(s, inside, a)
    requires a.AddTimer? || a.CancelTimer? || a.RefreshTimer? || a.ResetTimer?
    ensures var r := DoAction(s, inside, a);
            match a
            case AddTimer(addr, ms, recurring, id) =>
              forall t :: t in r.timers <==> t in s.timers || t == T.Timer(addr, (s.now + ms) % T.U64, ms, recurring, Some(UserCb(id)))
            case CancelTimer(addr) => forall t :: t in r.timers <==> t in s.timers && t.addr != addr
            case RefreshTimer(addr) =>
              && (forall t :: t in s.timers ==> (if t.addr == addr then t.(next := (s.now + t.ms) % T.U64) else t) in r.timers)
              && |r.timers| == |s.timers|
            case ResetTimer(addr, ms, fromNow) =>
              && (forall t :: t in s.timers ==>
                    (if t.addr != addr || (t.ms == ms && !fromNow) then t
                     else t.(ms := ms, next := ((if fromNow then s.now else t.next - t.ms) + ms) % T.U64)) in r.timers)
              && |r.timers| == |s.timers|
  {
    hide TablesInv, ActionEnabled, DoAction;
    match a
    case AddTimer(_, _, _, _) => AddResult(s, inside, a);
    case CancelTimer(_) => AddResult(s, inside, a);
    case RefreshTimer(_) => RefreshResult(s, inside, a);
    case ResetTimer(_, _, _) => ResetResult(s, inside, a);
  }

  lemma AddResult(s: State, inside: bool, a: Action)
    requires TablesInv(s) && ActionEnabled(s, inside, a) && (a.AddTimer? || a.CancelTimer?)
    ensures var r := DoAction(s, inside, a);
            match a
            case AddTimer(addr, ms, recurring, id) =>
              forall t :: t in r.timers <==> t in s.timers || t == T.Timer(addr, (s.now + ms) % T.U64, ms, recurring, Some(UserCb(id)))
            case CancelTimer(addr) => forall t :: t in r.timers <==> t in s.timers && t.addr != addr
            case _ => true
  {
    hide E.Inv, FreeAddress, T.UpperBound, T.Find;
    match a
    case AddTimer(addr, ms, recurring, id) =>
      T.InsertMembers(s.timers, T.Timer(addr, T.Add64(s.now, ms), ms, recurring, Some(UserCb(id))));
    case CancelTimer(addr) => T.CancelKeeps(s.timers, addr);
    case _ =>
  }

  lemma RefreshResult(s: State, inside: bool, a: Action)
    requires TablesInv(s) && ActionEnabled(s, inside, a) && a.RefreshTimer?
    ensures var r := DoAction(s, inside, a);
            && (forall t :: t in s.timers ==> (if t.addr == a.addr then t.(next := (s.now + t.ms) % T.U64) else t) in r.timers)
            && |r.timers| == |s.timers|
  {
    hide TablesInv, RekeyTimer, T.Find, T.U64, FreeAddress, E.AddEvent;
    var i := T.Find(s.timers, a.addr).value;
    Rekeyed(s, i, T.Refreshed(s.timers[i], s.now));
  }

  lemma ResetResult(s: State, inside: bool, a: Action)
    requires TablesInv(s) && ActionEnabled(s, inside, a) && a.ResetTimer?
    ensures var r := DoAction(s, inside, a);
            && (forall t :: t in s.timers ==>
                  (if t.addr != a.addr || (t.ms == a.ms && !a.fromNow) then t
                   else t.(ms := a.ms, next := ((if a.fromNow then s.now else t.next - t.ms) + a.ms) % T.U64)) in r.timers)
            && |r.timers| == |s.timers|
  {
    hide TablesInv, RekeyTimer, T.Find, T.U64, T.Sub64, FreeAddress, E.AddEvent;
    var i := T.Find(s.timers, a.addr).value;
    var t := s.timers[i];
    KeyShift(t.next, t.ms, a.ms);
    Rekeyed(s, i, T.ResetTo(t, a.ms, a.fromNow, s.now));
  }

  lemma KeyShift(next: nat, was: nat, ms: nat)
    ensures T.Add64(T.Sub64(next, was), ms) == (next - was + ms) % T.U64
  {
  }

  lemma Rekeyed(s: State, i: nat, t: UserTimer)
    requires TablesInv(s) && i < |s.timers| && t.addr == s.timers[i].addr
    ensures var r := RekeyTimer(s, i, t).timers;
            && |r| == |s.timers| && t in r && (forall u :: u in s.timers && u.addr != t.addr ==> u in r)
            && forall u :: u in s.timers && u.addr == t.addr ==> u == s.timers[i]
  {
    hide T.UpperBound;
    T.RekeyKeeps(s.timers, i, t);
    T.RekeyLength(s.timers, i, t);
    assert RekeyTimer(s, i, t).timers == T.Rekey(s.timers, i, t);
    assert t in T.Rekey(s.timers, i, t);
    forall u | u in s.timers && u.addr == t.addr
      ensures u == s.timers[i]
    {
      var j :| 0 <= j < |s.timers| && s.timers[j] == u;
    }
  }

  // ----- how a call ends -----

  /** The outcome of an unfinished call after a step. */
  function OutcomeBy(s: State, step: Step, c: CallId): Outcome
    requires c < |s.calls|
  {
    var call := s.calls[c];
    match step
    case RawCall(w, raw, _) =>
      if CurrentPc(s, w) == Trying(c) && !MakesWait(call, raw) && !(call.kind.IoCall? && raw.EINTR?) then Returned(raw)
      else Running
    case RegisterWait(w, ctl) =>
      if CurrentPc(s, w) == Armed(c) && !ctl && call.kind.IoCall? then AddFailed else Running
    case AfterWait(w) => if CurrentPc(s, w) == Woken(c) && call.cancelled then TimedOut else Running
    case CheckSocket(w, errno) => if CurrentPc(s, w) == Checking(c) then SocketError(errno) else Running
    case _ => Running
  }

  /** A call ends by a step of its own fiber, and by that alone: a raw result that
      answers it, a refused event (a read), the flag seen after its wait, or the
      socket error (a connect). */
  lemma CallsEndBy(s: State, step: Step, c: CallId)
    requires Sound(s) && Enabled(s, step) && c < |s.calls| && s.calls[c].outcome == Running
    ensures c < |Apply(s, step).calls| && Apply(s, step).calls[c].outcome == OutcomeBy(s, step, c)
  {
    hide I.IdleInv, K.TakenInv, I.Accounted, TokenInv, PlacesOk, CallsOk, FreeAddress, ReportsOk, ReportEnabled, ActionEnabled,
         OutcomeBy, DoAction, DoDispatch, DoIdleCheck, DoExpire, DoPostExpired, DoReport, DoCallback, DoCancel, DoSleep,
         DoBegin, DoRawCall, DoRegister, DoSuspend, DoYieldReady, DoAfterWait, DoCheckSocket, DoFinish, E.AddEvent, T.Expire;
    if step.RawCall? || step.RegisterWait? || step.AfterWait? || step.CheckSocket? {
      CurrentCall(s, step.w);
      var own := CallOf(CurrentPc(s, step.w)).value;
      if own == c {
        OwnStepEnds(s, step, c);
      } else {
        OtherCallKeeps(s, step, c);
        OthersGoOn(s, step, c);
      }
    } else {
      NoStepEnds(s, step, c);
      OthersGoOn(s, step, c);
    }
  }

  lemma OthersGoOn(s: State, step: Step, c: CallId)
    requires c < |s.calls|
    requires step.RawCall? || step.RegisterWait? || step.AfterWait? || step.CheckSocket? ==> CallOf(CurrentPc(s, step.w)) != Some(c)
    ensures OutcomeBy(s, step, c) == Running
  {
  }

  lemma OwnStepEnds(s: State, step: Step, c: CallId)
    requires Enabled(s, step) && c < |s.calls| && s.calls[c].outcome == Running
    requires (step.RawCall? || step.RegisterWait? || step.AfterWait? || step.CheckSocket?) && CallOf(CurrentPc(s, step.w)) == Some(c)
    ensures c < |Apply(s, step).calls| && Apply(s, step).calls[c].outcome == OutcomeBy(s, step, c)
  {
    hide FreeAddress, E.AddEvent, DoRawCall, DoRegister, DoAfterWait;
    if step.RegisterWait? {
      OwnRegisterEnds(s, step.w, step.ctl, c);
    } else if step.AfterWait? {
      OwnAfterWaitEnds(s, step.w, c);
    }
  }

  lemma OwnRegisterEnds(s: State, w: nat, ctl: bool, c: CallId)
    requires Enabled(s, RegisterWait(w, ctl)) && c < |s.calls| && s.calls[c].outcome == Running && CurrentPc(s, w) == Armed(c)
    ensures var r := DoRegister(s, w, ctl);
            c < |r.calls| && r.calls[c].outcome == if !ctl && s.calls[c].kind.IoCall? then AddFailed else Running
  {
    hide E.AddEvent, DropHandle;
  }

  lemma OwnAfterWaitEnds(s: State, w: nat, c: CallId)
    requires Runs(s, w) && c < |s.calls| && s.calls[c].outcome == Running && CurrentPc(s, w) == Woken(c)
    ensures var r := DoAfterWait(s, w);
            c < |r.calls| && r.calls[c].outcome == if s.calls[c].cancelled then TimedOut else Running
  {
    hide DropHandle;
  }

  lemma NoStepEnds(s: State, step: Step, c: CallId)
    requires Enabled(s, step) && c < |s.calls|
    requires !step.RawCall? && !step.RegisterWait? && !step.AfterWait? && !step.CheckSocket?
    ensures c < |Apply(s, step).calls| && Apply(s, step).calls[c].outcome == s.calls[c].outcome
  {
    hide FreeAddress, ReportsOk, ReportEnabled, ActionEnabled, DoAction, DoDispatch, DoIdleCheck, DoExpire, DoPostExpired, DoReport,
         DoCancel, DoSleep, DoSuspend, DoYieldReady, DoFinish;
    if step.RunCallback? {
      CallbackEndsNone(s, step.w, c);
    }
  }

  lemma CallbackEndsNone(s: State, w: nat, c: CallId)
    requires w < |s.workers| && s.workers[w].place.InCallback? && c < |s.calls|
    ensures c < |DoCallback(s, w).calls| && DoCallback(s, w).calls[c].outcome == s.calls[c].outcome
  {
    hide Push;
  }

  // ----- where a fiber waits and goes on -----

  /** A fiber suspended in a call is in its slot of the event table, the read slot of
      its fd for a read and the write slot for a connect, or it is in the ready
      queue, and never both. */
  lemma WaitersAreParked(n: nat, steps: seq<Step>, f: FiberId)
    requires ValidRun(Start(n), steps) && f < |Run(Start(n), steps).fibers|
    requires var fb := Run(Start(n), steps).fibers[f]; fb.state == HOLD && fb.pc.Registered?
    ensures var s := Run(Start(n), steps); var c := s.fibers[f].pc.call;
            && c < |s.calls| && s.calls[c].owner == f && s.calls[c].outcome == Running
            && var call := s.calls[c];
               var parked := call.fd < |s.table.contexts| &&
                             (if call.kind.IoCall? then s.table.contexts[call.fd].read else s.table.contexts[call.fd].write).fiber == Some(f);
               Q.Queued(s.queue, TokenOf(f)) == if parked then 0 else 1
  {
    hide Run, ValidRun, Start, TablesInv, HandlesInv, CountersInv, RunsInv, FibersInv, Linear, PlacesOk, I.IdleInv, K.TakenInv,
         I.Accounted, Q.Queued, D.Parked;
    ReachedIsSound(n, steps);
    var s := Run(Start(n), steps);
    assert PcOk(s, f);
    var c := s.fibers[f].pc.call;
    ParkedWhere(s, s.calls[c]);
    if D.Parked(s, s.calls[c]) {
      ParkedIsNotQueued(s, f, c);
    } else {
      D.UnparkedIsQueued(s, f, c);
    }
  }

  lemma ParkedWhere(s: State, call: Call)
    ensures D.Parked(s, call) <==>
            call.fd < |s.table.contexts| &&
            (if call.kind.IoCall? then s.table.contexts[call.fd].read else s.table.contexts[call.fd].write).fiber == Some(call.owner)
  {
  }

  lemma ParkedIsNotQueued(s: State, f: FiberId, c: CallId)
    requires Linear(s) && f < |s.fibers| && c < |s.calls| && s.calls[c].owner == f && D.Parked(s, s.calls[c])
    ensures Q.Queued(s.queue, TokenOf(f)) == 0
  {
    hide Sum, Q.Queued;
    SumMember(s.table.contexts, s.calls[c].fd, E.ContextWeight(TokenOf(f)));
    assert Total(s, TokenOf(f)) == Owed(s, f) <= 1;
  }

  /** A fiber that a worker takes executes, once more, behind what suspended it: a
      call has to look at its flag, a sleep is over. */
  lemma GoesOnBehindWait(n: nat, steps: seq<Step>, w: nat, f: FiberId)
    requires ValidRun(Start(n), steps) && Enabled(Run(Start(n), steps), Dispatch(w))
    requires NextTaken(Run(Start(n), steps), w) == Some(FiberTask(f))
    ensures var s := Run(Start(n), steps); var r := Apply(s, Dispatch(w));
            && f < |s.fibers| == |r.fibers| && r.workers[w].place == InFiber(f)
            && r.fibers[f].state == EXEC && r.fibers[f].resumed == s.fibers[f].resumed + 1
            && match s.fibers[f].pc
               case Registered(c) => r.fibers[f].pc == Woken(c)
               case Asleep(_) => r.fibers[f].pc == User
               case pc => r.fibers[f].pc == pc == User
  {
    hide Run, ValidRun, Start, TablesInv, HandlesInv, CountersInv, RunsInv, Linear, CallsInv, I.IdleInv, K.TakenInv, I.Accounted,
         Q.Take, Executing, Scanned;
    ReachedIsSound(n, steps);
    var s := Run(Start(n), steps);
    TakenIsRunnable(s, w, f);
    assert FiberOk(s.fibers[f]);
    ScannedFrame(s, w);
  }
}
