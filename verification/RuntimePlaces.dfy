/** Every step keeps timers, queue, hands and event slots in order: nothing in
    circulation is early, and everything refers to what it should. */
module RuntimePlaces {
  import opened Tasks
  import opened Tally
  import opened Runtime
  import opened RuntimeTokens
  import opened RuntimeCalls
  import opened RuntimeCallSteps
  import T = TimerSet
  import E = EventTable
  import Q = ReadyQueue

  /** Nobody refers to a fiber that runs and has not handed itself out. */
  lemma RunnerUnmentioned(s: State, w: nat)
    requires TokenInv(s) && Runs(s, w) && !CurrentPc(s, w).Registered? && !CurrentPc(s, w).Asleep?
    ensures Unmentioned(s, Current(s, w))
  {
    hide Sum, Total, Unmentioned, TablesInv, HandlesInv, CountersInv, FibersInv;
    RunningExecutes(s, w);
    NoTokenUnmentioned(s, Current(s, w));
  }

  /** The running fiber and its call move on while nothing else does. */
  lemma RunnerMoves(s: State, r: State, w: nat)
    requires PlacesOk(s) && Runs(s, w) && Unmentioned(s, Current(s, w))
    requires Grows(s, r) && SamePlaces(s, r) && |r.fibers| == |s.fibers|
    requires r.fibers == s.fibers[Current(s, w) := r.fibers[Current(s, w)]]
    requires forall c :: 0 <= c < |s.calls| ==>
               r.calls[c].handle == s.calls[c].handle ||
               forall t :: t in s.timers ==> Some(t.addr) != s.calls[c].handle && Some(t.addr) != r.calls[c].handle
    requires forall c :: |s.calls| <= c < |r.calls| ==> r.calls[c].handle.None?
    ensures PlacesOk(r)
  {
    hide PlacesOk, Unmentioned;
    PeopleMove(s, r);
  }

  lemma TimerArrives(s: State, t: UserTimer)
    requires PlacesOk(s) && TimerOk(s, t) && OwnHandle(s, t)
    ensures PlacesOk(InsertTimer(s, t))
  {
    hide InsertTimer, T.Insert, PlacesOk;
    T.InsertMembers(s.timers, t);
    PlacesMove(s, InsertTimer(s, t));
  }

  lemma FreeIsFree(s: State, addr: nat)
    requires FreeAddress(s, addr)
    ensures forall t :: t in s.timers ==> t.addr != addr
    ensures !T.Has(s.timers, addr)
  {
    forall t | t in s.timers
      ensures t.addr != addr
    {
      var i :| 0 <= i < |s.timers| && s.timers[i] == t;
    }
  }

  lemma SleepPlaces(s: State, w: nat, ms: nat, addr: nat)
    requires TokenInv(s) && PlacesOk(s) && Enabled(s, Sleep(w, ms, addr))
    ensures PlacesOk(DoSleep(s, w, ms, addr))
  {
    hide TokenInv, PlacesOk, InsertTimer, Unmentioned;
    RunnerUnmentioned(s, w);
    var asleep := WithPc(s, w, Asleep(s.now + ms));
    RunnerMoves(s, asleep, w);
    FreeIsFree(s, addr);
    TimerArrives(asleep, T.Timer(addr, T.Add64(s.now, ms), ms, false, Some(WakeCb(Current(s, w)))));
  }

  lemma BeginPlaces(s: State, w: nat, kind: Kind, fd: nat, timeout: Option<nat>)
    requires TokenInv(s) && PlacesOk(s) && Enabled(s, Begin(w, kind, fd, timeout))
    ensures PlacesOk(DoBegin(s, w, kind, fd, timeout))
  {
    hide TokenInv, PlacesOk, Unmentioned;
    RunnerUnmentioned(s, w);
    RunnerMoves(s, DoBegin(s, w, kind, fd, timeout), w);
  }

  lemma SeenPlaces(s: State, w: nat, raw: Raw, addr: nat, pc: Pc)
    requires TokenInv(s) && CallsOk(s) && PlacesOk(s) && Runs(s, w) && CurrentPc(s, w).Trying? && FreeAddress(s, addr)
    ensures var c := CurrentPc(s, w).call;
            PlacesOk(WithPc(SetCall(s, c, AfterRaw(CallAt(s, c), raw, s.now, addr)), w, pc))
  {
    hide TokenInv, CallsOk, PlacesOk, Unmentioned, OutcomeOk, FreeAddress;
    RunnerUnmentioned(s, w);
    CurrentCall(s, w);
    FreeIsFree(s, addr);
    var c := CurrentPc(s, w).call;
    RunnerMoves(s, WithPc(SetCall(s, c, AfterRaw(CallAt(s, c), raw, s.now, addr)), w, pc), w);
  }

  lemma ArmedTimerOk(s: State, w: nat, raw: Raw, addr: nat)
    requires CallsOk(s) && Enabled(s, RawCall(w, raw, addr))
    requires var call := CallAt(s, CurrentPc(s, w).call); Judge(call.kind, raw).Wait? && call.timeout.Some?
    ensures var c := CurrentPc(s, w).call; var call := CallAt(s, c);
            var m := WithPc(SetCall(s, c, AfterRaw(call, raw, s.now, addr)), w, Armed(c));
            TimerOk(m, TimerOf(call, c, s.now, addr)) && OwnHandle(m, TimerOf(call, c, s.now, addr))
  {
    hide CallsOk, OutcomeOk;
    CurrentCall(s, w);
  }

  lemma RawPlaces(s: State, w: nat, raw: Raw, addr: nat)
    requires TokenInv(s) && CallsOk(s) && PlacesOk(s) && Enabled(s, RawCall(w, raw, addr))
    ensures PlacesOk(DoRawCall(s, w, raw, addr))
  {
    hide TokenInv, CallsOk, PlacesOk, InsertTimer, AfterRaw, TimerOf, OwnHandle, TimerOk, WithPc, SetCall;
    var c := CurrentPc(s, w).call;
    var call := CallAt(s, c);
    var verdict := Judge(call.kind, raw);
    SeenPlaces(s, w, raw, addr, if verdict.Retry? then Trying(c) else if verdict.Return? then User else Armed(c));
    if verdict.Wait? && call.timeout.Some? {
      ArmedTimerOk(s, w, raw, addr);
      TimerArrives(WithPc(SetCall(s, c, AfterRaw(call, raw, s.now, addr)), w, Armed(c)), TimerOf(call, c, s.now, addr));
    }
  }

  lemma CheckPlaces(s: State, w: nat, errno: int)
    requires TokenInv(s) && PlacesOk(s) && Enabled(s, CheckSocket(w, errno))
    ensures PlacesOk(DoCheckSocket(s, w, errno))
  {
    hide TokenInv, PlacesOk, Unmentioned;
    RunnerUnmentioned(s, w);
    RunnerMoves(s, DoCheckSocket(s, w, errno), w);
  }

  /** Fewer timers, same rest. */
  lemma CancelPlaces(s: State, addr: nat)
    requires PlacesOk(s) && T.Inv(s.timers)
    ensures PlacesOk(s.(timers := T.Cancel(s.timers, addr)))
    ensures forall t :: t in T.Cancel(s.timers, addr) ==> t in s.timers && t.addr != addr
  {
    hide T.Cancel, PlacesOk;
    T.CancelKeeps(s.timers, addr);
    PlacesMove(s, s.(timers := T.Cancel(s.timers, addr)));
  }

  lemma HandleDropped(s: State, c: CallId)
    requires PlacesOk(s) && T.Inv(s.timers) && c < |s.calls|
    ensures var d := DropHandle(s, c);
            PlacesOk(s.(timers := d.timers)) && forall t :: t in d.timers ==> t in s.timers && Some(t.addr) != s.calls[c].handle
  {
    hide PlacesOk;
    if s.calls[c].handle.Some? {
      CancelPlaces(s, s.calls[c].handle.value);
    }
  }

  lemma FewerTimersUnmentioned(s: State, timers: seq<UserTimer>, f: FiberId)
    requires Unmentioned(s, f) && forall t :: t in timers ==> t in s.timers
    ensures Unmentioned(s.(timers := timers), f)
  {
  }

  lemma AfterWaitPlaces(s: State, w: nat)
    requires TokenInv(s) && CallsOk(s) && PlacesOk(s) && Enabled(s, AfterWait(w))
    ensures PlacesOk(DoAfterWait(s, w))
  {
    hide CallsOk, PlacesOk, Unmentioned, OutcomeOk, DropHandle, RunsInv, FibersInv, Linear, HandlesInv, CountersInv,
         T.Inv, E.Inv;
    RunnerUnmentioned(s, w);
    CurrentCall(s, w);
    var c := CurrentPc(s, w).call;
    HandleDropped(s, c);
    var m := s.(timers := DropHandle(s, c).timers);
    FewerTimersUnmentioned(s, m.timers, Current(s, w));
    RunnerMoves(m, DoAfterWait(s, w), w);
  }

  /** The event is added and the fiber about to suspend behind it. */
  lemma RegisteredPlaces(s: State, w: nat)
    requires TokenInv(s) && CallsOk(s) && PlacesOk(s) && Enabled(s, RegisterWait(w, true))
    ensures PlacesOk(DoRegister(s, w, true))
  {
    hide CallsOk, TimersOk, OwnHandles, QueueOk, HandsOk, SlotsOk, Unmentioned, OutcomeOk, E.AddEvent, DropHandle,
         E.Inv, T.Inv,
         RunsInv, FibersInv, Linear, HandlesInv, CountersInv;
    RunnerUnmentioned(s, w);
    CurrentCall(s, w);
    var c := CurrentPc(s, w).call;
    var m := WithPc(s, w, Registered(c));
    RunnerMoves(s, m, w);
    AddHolds(m, s.calls[c].fd, EventOf(s.calls[c]), FiberTask(Current(s, w)), true);
    PlacesMove(m, DoRegister(s, w, true));
  }

  lemma GrownUnmentioned(s: State, r: State, fd: nat, f: FiberId)
    requires Unmentioned(s, f) && E.Inv(s.table) && r == s.(table := E.Grow(s.table, fd))
    ensures Unmentioned(r, f)
  {
    E.GrowKeeps(s.table, fd);
    forall i | 0 <= i < |r.table.contexts|
      ensures r.table.contexts[i].read.fiber != Some(f) && r.table.contexts[i].write.fiber != Some(f)
    {
      if i >= |s.table.contexts| {
        assert r.table.contexts[i] == E.Blank(i);
      }
    }
  }

  /** epoll_ctl failed: the vector may have grown, and the timer is cancelled. */
  lemma UnregisteredPlaces(s: State, w: nat)
    requires TokenInv(s) && CallsOk(s) && PlacesOk(s) && Enabled(s, RegisterWait(w, false))
    ensures PlacesOk(DoRegister(s, w, false))
  {
    hide CallsOk, PlacesOk, Unmentioned, OutcomeOk, DropHandle, RunsInv, FibersInv, Linear, HandlesInv, CountersInv,
         T.Inv,
         E.Grow, E.Inv, DoRegister, E.AddEvent;
    RunnerUnmentioned(s, w);
    CurrentCall(s, w);
    var c := CurrentPc(s, w).call;
    var call := s.calls[c];
    HandleDropped(s, c);
    var fewer := s.(timers := DropHandle(s, c).timers);
    FewerTimersUnmentioned(s, fewer.timers, Current(s, w));
    var m := fewer.(table := E.Grow(s.table, call.fd));
    GrowPlaces(fewer, call.fd);
    GrownUnmentioned(fewer, m, call.fd, Current(s, w));
    UnregisteredRest(s, w);
    RunnerMoves(m, DoRegister(s, w, false), w);
  }

  /** What else a failed registration leaves: the call without a handle. */
  lemma UnregisteredRest(s: State, w: nat)
    requires Enabled(s, RegisterWait(w, false)) && CurrentPc(s, w).call < |s.calls|
    ensures var r := DoRegister(s, w, false); var c := CurrentPc(s, w).call; var call := s.calls[c];
            && r.table == E.Grow(s.table, call.fd) && r.timers == DropHandle(s, c).timers
            && r.calls == s.calls[c := call.(handle := None, outcome := r.calls[c].outcome)]
  {
    hide DropHandle, E.Grow;
  }

  lemma GrowPlaces(s: State, fd: nat)
    requires PlacesOk(s) && E.Inv(s.table)
    ensures PlacesOk(s.(table := E.Grow(s.table, fd)))
  {
    GrowHolds(s, fd);
    PlacesMove(s, s.(table := E.Grow(s.table, fd)));
  }

  // ----- dispatch -----

  lemma {:induction false} TakenFrom(q: seq<Entry>, me: int, executing: set<FiberId>)
    ensures var p := Q.Take(q, me, executing);
            && (forall e :: e in p.rest ==> e in q)
            && (p.taken.Some? ==> p.taken.value in q)
  {
  }

  lemma ScannedPlaces(s: State, w: nat)
    requires PlacesOk(s)
    ensures PlacesOk(Scanned(s, w))
    ensures NextTaken(s, w).Some? ==> TaskOk(s, NextTaken(s, w).value)
  {
    hide Q.Take, Executing, TimersOk, OwnHandles, HandsOk, SlotsOk;
    TakenFrom(s.queue, w, Executing(s));
    ScannedFrame(s, w);
    PlacesMove(s, Scanned(s, w));
  }

  lemma PlaceMoves(s: State, r: State, w: nat)
    requires PlacesOk(s) && SamePeople(s, r) && w < |s.workers| && |r.workers| == |s.workers|
    requires r.workers == s.workers[w := r.workers[w]] && HandOk(s, r.workers[w].place)
    requires r.queue == s.queue && r.timers == s.timers && r.table == s.table
    ensures PlacesOk(r)
  {
    hide PlacesOk;
    PlacesMove(s, r);
  }

  /** After the scan nobody refers to the fiber it took. */
  lemma TakenUnmentioned(s: State, w: nat, f: FiberId)
    requires Linear(s) && NextTaken(s, w) == Some(FiberTask(f))
    ensures Unmentioned(Scanned(s, w), f)
  {
    hide Sum, Total, Unmentioned, Scanned, Q.Take;
    ScannedTotal(s, w, TokenOf(f));
    TakenIsRunnable(s, w, f);
    NoTokenUnmentioned(Scanned(s, w), f);
  }

  /** Switching in a fiber nobody refers to any more. */
  lemma SwapInPlaces(s: State, w: nat, f: FiberId)
    requires PlacesOk(s) && Unmentioned(s, f) && w < |s.workers| && f < |s.fibers|
    ensures PlacesOk(SwapIn(s, w, f))
  {
    hide PlacesOk, Unmentioned;
    var r := SwapIn(s, w, f);
    var m := s.(fibers := r.fibers);
    PeopleMove(s, m);
    PlaceMoves(m, r, w);
  }

  lemma DispatchPlaces(s: State, w: nat)
    requires TokenInv(s) && PlacesOk(s) && w < |s.workers| && s.workers[w].place.AtTop?
    ensures PlacesOk(DoDispatch(s, w))
  {
    hide TablesInv, RunsInv, FibersInv, Linear, HandlesInv, CountersInv, PlacesOk, Scanned, Q.Take, Executing,
         Unmentioned, SwapIn;
    ScannedPlaces(s, w);
    ScannedFrame(s, w);
    var r := Scanned(s, w);
    var d := DoDispatch(s, w);
    match NextTaken(s, w)
    case None => PlaceMoves(r, d, w);
    case Some(FiberTask(f)) =>
      if FiberAt(s, f).state != TERM {
        TakenIsRunnable(s, w, f);
        TakenUnmentioned(s, w, f);
        SwapInPlaces(r, w, f);
      }
    case Some(CbTask(cb)) =>
      if cb.UserCb? {
        var m := r.(fibers := d.fibers);
        PeopleMove(r, m);
        PlaceMoves(m, d, w);
      } else {
        PlaceMoves(r, d, w);
      }
  }
}
