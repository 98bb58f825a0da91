/** What the application, other threads and the idle loop do keeps timers, queue,
    hands and event slots in order. */
module RuntimeWorkSteps {
  import opened Tasks
  import opened Runtime
  import opened RuntimeTokens
  import opened RuntimeCalls
  import opened RuntimeCallSteps
  import opened RuntimePlaces
  import T = TimerSet
  import E = EventTable
  import Q = ReadyQueue

  lemma PushPlaces(s: State, e: Entry)
    requires PlacesOk(s) && TaskOk(s, e.task)
    ensures PlacesOk(Push(s, e))
  {
    hide PlacesOk, TaskOk, Push;
    PlacesMove(s, Push(s, e));
  }

  // ----- application and outside actions -----

  lemma RekeyPlaces(s: State, i: nat, t: UserTimer)
    requires PlacesOk(s) && T.Inv(s.timers) && i < |s.timers| && IsUserTimer(s.timers[i])
    requires t.addr == s.timers[i].addr && t.cb == s.timers[i].cb
    ensures PlacesOk(RekeyTimer(s, i, t))
  {
    hide TimersOk, QueueOk, HandsOk, SlotsOk, T.Rekey, RekeyTimer, T.Inv;
    T.RekeyKeeps(s.timers, i, t);
    assert OwnHandle(s, t) by {
      assert s.timers[i] in s.timers && OwnHandles(s);
    }
    PlacesMove(s, RekeyTimer(s, i, t));
  }

  lemma AddedPlaces(s: State, fd: nat, e: Event, id: nat, ctl: bool)
    requires TablesInv(s) && PlacesOk(s) && ActionEnabled(s, true, AddCallbackEvent(fd, e, id, ctl))
    ensures PlacesOk(s.(table := E.AddEvent(s.table, fd, e, CbTask(UserCb(id)), ctl).table))
  {
    hide TimersOk, OwnHandles, QueueOk, HandsOk, SlotsOk, E.AddEvent, E.Inv;
    AddHolds(s, fd, e, CbTask(UserCb(id)), ctl);
    PlacesMove(s, s.(table := E.AddEvent(s.table, fd, e, CbTask(UserCb(id)), ctl).table));
  }

  lemma RemovedPlaces(s: State, e: E.Effect)
    requires PlacesOk(s) && e.Effect? && Removal(s.table, e)
    ensures PlacesOk(PushAll(s.(table := e.table), e.woken))
  {
    hide PlacesOk, PushAll;
    RemovalMoves(s, e, PushAll(s.(table := e.table), e.woken));
  }

  lemma ActionPlaces(s: State, inside: bool, a: Action)
    requires TablesInv(s) && PlacesOk(s) && ActionEnabled(s, inside, a)
    ensures PlacesOk(DoAction(s, inside, a))
  {
    hide PlacesOk, E.Inv, T.Inv, E.AddEvent, E.DelEvent, E.CancelEvent, E.CancelAll, RekeyTimer, InsertTimer, Push,
         Removal, FreeAddress;
    match a
    case PostFiber(thread) =>
      var m := s.(fibers := s.fibers + [Fiber(INIT, User, None, 0, 0)]);
      PeopleMove(s, m);
      PushPlaces(m, Entry(FiberTask(|s.fibers|), thread));
    case PostCallback(id, thread) => PushPlaces(s, Entry(CbTask(UserCb(id)), thread));
    case AddTimer(addr, ms, recurring, id) =>
      FreeIsFree(s, addr);
      assert FreeAddress(s, addr);
      var t := T.Timer(addr, T.Add64(s.now, ms), ms, recurring, Some(UserCb(id)));
      FreeOwnHandle(s, t);
      TimerArrives(s, t);
    case CancelTimer(addr) => CancelPlaces(s, addr);
    case RefreshTimer(addr) =>
      var i := T.Find(s.timers, addr).value;
      RekeyPlaces(s, i, T.Refreshed(s.timers[i], s.now));
    case ResetTimer(addr, ms, fromNow) =>
      var i := T.Find(s.timers, addr).value;
      RekeyPlaces(s, i, T.ResetTo(s.timers[i], ms, fromNow, s.now));
    case AddCallbackEvent(fd, e, id, ctl) => AddedPlaces(s, fd, e, id, ctl);
    case DelCallbackEvent(fd, e, ctl) =>
      CancelRemoves(s.table, fd, e, ctl);
      RemovedPlaces(s, E.DelEvent(s.table, fd, e, ctl));
      DelWakesNone(s.table, fd, e, ctl);
    case CancelFdEvent(fd, e, ctl) =>
      CancelRemoves(s.table, fd, e, ctl);
      RemovedPlaces(s, E.CancelEvent(s.table, fd, e, ctl));
    case CancelFd(fd, ctl) =>
      CancelRemoves(s.table, fd, READ, ctl);
      RemovedPlaces(s, E.CancelAll(s.table, fd, ctl));
  }

  lemma FreeOwnHandle(s: State, t: UserTimer)
    requires FreeAddress(s, t.addr)
    ensures OwnHandle(s, t)
  {
  }

  lemma DelWakesNone(t: E.Table, fd: nat, e: Event, ctl: bool)
    ensures E.DelEvent(t, fd, e, ctl).Effect? && E.DelEvent(t, fd, e, ctl).woken == []
  {
  }

  // ----- the idle loop -----

  lemma {:induction false} CallbacksFrom(ts: seq<UserTimer>, cb: Callback) returns (t: UserTimer)
    requires cb in CallbacksOf(ts)
    ensures t in ts && t.cb == Some(cb)
  {
    if ts[0].cb == Some(cb) {
      t := ts[0];
    } else {
      t := CallbacksFrom(ts[1..], cb);
    }
  }

  lemma {:induction false} TimeoutsFound(cbs: seq<Callback>, cb: Callback)
    requires cb in cbs && cb.TimeoutCb?
    ensures cb.call in TimeoutsIn(cbs)
  {
    if cbs[0] != cb {
      TimeoutsFound(cbs[1..], cb);
    }
  }

  /** A timer that fires is due, so its callback is not early. */
  lemma FiredOk(s: State, r: State, t: UserTimer)
    requires TimerOk(s, t) && t.next <= s.now && r == s.(expired := r.expired)
    requires t.cb.value.TimeoutCb? ==> t.cb.value.call in r.expired
    ensures TaskOk(r, CbTask(t.cb.value))
  {
  }

  lemma FiredDue(ts: seq<UserTimer>, now: nat, probe: nat, t: UserTimer)
    requires T.Inv(ts) && !T.Has(ts, probe) && t in T.Fired(ts, now, probe)
    ensures t in ts && t.next <= now
  {
    T.ExpireExact(ts, now, probe);
    var i :| 0 <= i < |ts| && ts[i] == t;
  }

  lemma ExpiredHand(s: State, r: State, probe: nat)
    requires TimersOk(s) && T.Inv(s.timers) && !T.Has(s.timers, probe)
    requires var cbs := CallbacksOf(T.Fired(s.timers, s.now, probe)); r == s.(expired := s.expired + TimeoutsIn(cbs))
    ensures forall cb :: cb in CallbacksOf(T.Fired(s.timers, s.now, probe)) ==> TaskOk(r, CbTask(cb))
  {
    hide T.Inv, T.Fired, T.Has, TimerOk, TaskOk, CallbacksOf, TimeoutsIn;
    var fired := T.Fired(s.timers, s.now, probe);
    forall cb | cb in CallbacksOf(fired)
      ensures TaskOk(r, CbTask(cb))
    {
      var t := CallbacksFrom(fired, cb);
      FiredDue(s.timers, s.now, probe, t);
      if cb.TimeoutCb? {
        TimeoutsFound(CallbacksOf(fired), cb);
      }
      FiredOk(s, r, t);
    }
  }

  /** What a batch leaves in the set was there before or is recurring. */
  lemma ExpiredTimers(s: State, r: State, probe: nat)
    requires TablesInv(s) && TimersOk(s) && OwnHandles(s) && !T.Has(s.timers, probe) && r == s.(expired := r.expired)
    requires s.expired <= r.expired
    ensures forall t :: t in T.Expire(s.timers, s.now, probe) ==> t in s.timers || (TimerOk(r, t) && OwnHandle(r, t))
  {
    hide T.Inv, T.Fired, T.Has, T.Expire, E.Inv;
    T.ExpireExact(s.timers, s.now, probe);
    forall t | t in T.Expire(s.timers, s.now, probe) && t !in s.timers
      ensures TimerOk(r, t) && OwnHandle(r, t)
    {
      assert T.Requeued(T.Fired(s.timers, s.now, probe), s.now, t);
      var u :| u in T.Fired(s.timers, s.now, probe) && u.recurring && t == T.Refreshed(u, s.now);
      FiredDue(s.timers, s.now, probe, u);
      assert TimerOk(s, u);
    }
  }

  lemma ExpirePlaces(s: State, w: nat, probe: nat)
    requires TablesInv(s) && PlacesOk(s) && Enabled(s, ExpireTimers(w, probe))
    ensures PlacesOk(DoExpire(s, w, probe))
  {
    hide T.Inv, E.Inv, T.Fired, T.Has, T.Expire, TimersOk, OwnHandles, QueueOk, HandsOk, SlotsOk, TaskOk, TimerOk,
         CallbacksOf, TimeoutsIn, OwnHandle,
         FreeAddress, FrontInserts;
    FreeIsFree(s, probe);
    var cbs := CallbacksOf(T.Fired(s.timers, s.now, probe));
    var m := s.(expired := s.expired + TimeoutsIn(cbs));
    PeopleMove(s, m);
    ExpiredHand(s, m, probe);
    ExpiredTimers(s, m, probe);
    PlacesMove(m, DoExpire(s, w, probe));
  }

  lemma {:induction false} CbTasksFrom(cbs: seq<Callback>, t: Task)
    requires t in CbTasks(cbs)
    ensures t.CbTask? && t.cb in cbs
  {
    if t != CbTask(cbs[0]) {
      CbTasksFrom(cbs[1..], t);
    }
  }

  lemma PostedPlaces(s: State, w: nat)
    requires PlacesOk(s) && w < |s.workers| && s.workers[w].place.IdleHand?
    ensures PlacesOk(DoPostExpired(s, w))
  {
    hide TimersOk, OwnHandles, QueueOk, SlotsOk, TaskOk, PushBatch;
    var r := DoPostExpired(s, w);
    var cbs := s.workers[w].place.cbs;
    assert HandOk(s, s.workers[w].place);
    forall e | e in r.queue
      ensures e in s.queue || TaskOk(s, e.task)
    {
      if e in Q.Unpinned(CbTasks(cbs)) {
        UnpinnedTasks(CbTasks(cbs), e);
        CbTasksFrom(cbs, e.task);
      }
    }
    PlacesMove(s, r);
  }

  lemma ReportPlaces(s: State, w: nat, ctl: bool)
    requires PlacesOk(s) && Enabled(s, HandleReport(w, ctl))
    ensures PlacesOk(DoReport(s, w, ctl))
  {
    hide PlacesOk, E.ProcessReady, Removal, PushAll;
    var rs := s.workers[w].place.reports;
    var r := DoReport(s, w, ctl);
    if rs != [] && rs[0].FdReady? {
      var e := E.ProcessReady(s.table, rs[0].fd, rs[0].ready, ctl);
      ReadyRemoves(s.table, rs[0].fd, rs[0].ready, ctl);
      RemovalMoves(s, e, r);
    } else {
      PlacesMove(s, r);
    }
  }

  // ----- the callbacks of hooked calls -----

  /** Flagging the call keeps it in order, since its timer did fire in time. */
  lemma CallbackCalls(s: State, w: nat)
    requires CallsOk(s) && PlacesOk(s) && w < |s.workers| && s.workers[w].place.InCallback?
    ensures CallsOk(DoCallback(s, w))
  {
    hide TimersOk, OwnHandles, QueueOk, SlotsOk, Unsettled;
    var r := DoCallback(s, w);
    var cb := s.workers[w].place.cb;
    assert HandOk(s, s.workers[w].place);
    if cb.TimeoutCb? && CallAt(s, cb.call).outcome == Running && !CallAt(s, cb.call).cancelled {
      var f := s.calls[cb.call].owner;
      assert CallOk(s, s.calls[cb.call], cb.call);
      assert PcOk(s, f);
      OneCallMoves(s, r, f, cb.call);
    } else {
      CallsStay(s, r);
    }
  }

  lemma CallbackPlaces(s: State, w: nat)
    requires PlacesOk(s) && w < |s.workers| && s.workers[w].place.InCallback?
    ensures PlacesOk(DoCallback(s, w))
  {
    hide TimersOk, OwnHandles, QueueOk, SlotsOk, Push;
    var r := DoCallback(s, w);
    assert HandOk(s, s.workers[w].place);
    var m := s.(calls := r.calls);
    FlaggedPlaces(s, w);
    PlacesMove(m, r);
  }

  lemma FlaggedPlaces(s: State, w: nat)
    requires PlacesOk(s) && w < |s.workers| && s.workers[w].place.InCallback?
    ensures PlacesOk(s.(calls := DoCallback(s, w).calls))
  {
    hide PlacesOk, Push;
    PeopleMove(s, s.(calls := DoCallback(s, w).calls));
  }

  lemma CancelStepPlaces(s: State, w: nat, ctl: bool)
    requires PlacesOk(s) && w < |s.workers| && s.workers[w].place.InCancel?
    ensures PlacesOk(DoCancel(s, w, ctl))
  {
    hide PlacesOk, E.CancelEvent, Removal, PushAll;
    var p := s.workers[w].place;
    CancelRemoves(s.table, p.fd, p.event, ctl);
    RemovalMoves(s, E.CancelEvent(s.table, p.fd, p.event, ctl), DoCancel(s, w, ctl));
  }

  // ----- switching out -----

  lemma SwappedOutPlaces(s: State, r: State, w: nat, state: FiberState, yielded: nat)
    requires PlacesOk(s) && Runs(s, w) && SwappedOut(s, r, w, state, yielded)
    requires r == s.(fibers := r.fibers, workers := r.workers, active := r.active)
    ensures PlacesOk(r)
  {
    hide PlacesOk;
    var m := s.(fibers := r.fibers);
    PeopleMove(s, m);
    PlacesMove(m, r);
  }

  lemma YieldReadyPlaces(s: State, w: nat)
    requires PlacesOk(s) && Runs(s, w) && CurrentPc(s, w).User?
    ensures PlacesOk(DoYieldReady(s, w))
  {
    hide PlacesOk, Push;
    var f := Current(s, w);
    var fb := FiberAt(s, f);
    var m := Release(SetFiber(s, f, fb.(state := READY, yielded := fb.yielded + 1)), w);
    SwappedOutPlaces(s, m, w, READY, fb.yielded + 1);
    PushPlaces(m, Entry(FiberTask(f), -1));
  }
}
