/** The hooked calls as the program runs them: retry loops around a raw call, a
    timer of their own, and a flag shared with the timer's callback. */
module BlockingIo {
  import opened Tasks
  import opened Runtime
  import opened RuntimeCalls
  import E = EventTable
  import I = IoManagers
  import M = TimerManagers
  import T = TimerSet

  /** What the rest of the system does around one wait: whether epoll_ctl refuses
      the event; when the fiber is switched in again, for whatever reason; whether
      a batch of timers expired before that (and the address of the batch's
      probe); whether a fired callback of this call got to run. */
  datatype Turn = Turn(refused: bool, wakeAt: nat, expires: bool, probe: nat, runs: bool, addr: nat)

  /** timer_info, shared between the call and its callbacks. */
  class TimerInfo {
    var cancelled: bool
    /** A callback of this call has left the timers and not run yet. */
    var queued: bool

    constructor ()
      ensures !cancelled && !queued
    {
      cancelled, queued := false, false;
    }

    /** The condition-timer callback, while the call is still there. */
    method Callback()
      modifies this
      ensures cancelled && !queued
    {
      cancelled, queued := true, false;
    }
  }

  type Timers = M.TimerManager<Callback>

  type OwnTimer = M.Timer<Callback>

  /** New objects get addresses nothing else has. */
  ghost predicate FreshAddresses(registry: set<OwnTimer>, turns: seq<Turn>, w: nat)
  {
    && (forall t, i :: t in registry && w <= i < |turns| ==> t.addr != turns[i].addr && t.addr != turns[i].probe)
    && (forall i, j :: w <= i < j < |turns| ==> turns[i].addr != turns[j].addr)
    && (forall i, j :: w <= i < |turns| && w <= j < |turns| ==> turns[i].addr != turns[j].probe)
  }

  /** A one-shot timer fires in a batch exactly if the batch leaves nothing at its
      address, and then it is due. */
  lemma FiredIffGone(ts: seq<UserTimer>, now: nat, probe: nat, t: UserTimer)
    requires T.Inv(ts) && !T.Has(ts, probe) && t in ts && !t.recurring
    ensures t in T.Fired(ts, now, probe) <==> !T.Has(T.Expire(ts, now, probe), t.addr)
    ensures t in T.Fired(ts, now, probe) ==> t.next <= now
  {
    hide T.Fired, T.Expire;
    T.ExpireExact(ts, now, probe);
    var fired, left := T.Fired(ts, now, probe), T.Expire(ts, now, probe);
    var i :| 0 <= i < |ts| && ts[i] == t;
    if t in fired {
      forall k | 0 <= k < |left|
        ensures left[k].addr != t.addr
      {
        LeftElsewhere(ts, now, probe, t, left[k]);
      }
    } else {
      assert t in left;
    }
  }

  lemma LeftElsewhere(ts: seq<UserTimer>, now: nat, probe: nat, t: UserTimer, u: UserTimer)
    requires T.Inv(ts) && !T.Has(ts, probe) && t in T.Fired(ts, now, probe) && !t.recurring
    requires u in T.Expire(ts, now, probe)
    ensures u.addr != t.addr
  {
    T.ExpireExact(ts, now, probe);
    if u in ts {
      SameAddress(ts, t, u);
    } else {
      var v :| v in T.Fired(ts, now, probe) && v.recurring && u == T.Refreshed(v, now);
      SameAddress(ts, t, v);
    }
  }

  lemma SameAddress(ts: seq<UserTimer>, t: UserTimer, u: UserTimer)
    requires T.DistinctAddrs(ts) && t in ts && u in ts
    ensures t.addr == u.addr ==> t == u
  {
    var i :| 0 <= i < |ts| && ts[i] == t;
    var j :| 0 <= j < |ts| && ts[j] == u;
  }

  /** A batch brings no address into the set. */
  lemma ExpireAddsNone(ts: seq<UserTimer>, now: nat, probe: nat, t: UserTimer)
    requires T.Inv(ts) && !T.Has(ts, probe) && t in T.Expire(ts, now, probe)
    ensures T.Has(ts, t.addr)
  {
    T.ExpireExact(ts, now, probe);
    if t in ts {
      var i :| 0 <= i < |ts| && ts[i] == t;
    } else {
      var u :| u in T.Fired(ts, now, probe) && u.recurring && t == T.Refreshed(u, now);
      var i :| 0 <= i < |T.Fired(ts, now, probe)| && T.Fired(ts, now, probe)[i] == u;
      assert ts[i] == u;
    }
  }

  // ----- what the loops count -----

  /** How many of the raw results made the call wait. */
  function Waits(raws: seq<Raw>): nat
  {
    if raws == [] then 0 else Waits(raws[..|raws| - 1]) + if raws[|raws| - 1].EAGAIN? then 1 else 0
  }

  /** The same continuation, k times. */
  function Copies(t: Task, k: nat): seq<Task>
  {
    if k == 0 then [] else Copies(t, k - 1) + [t]
  }

  lemma NothingSettles()
    ensures forall raws :: raws == [] ==> Unsettled(IoCall, raws) && Waits(raws) == 0
  {
  }

  /** How a call that has seen raws and waited `waits` times stands to its script:
      every EAGAIN made one wait; it ends with the first raw result that settles
      it, or by timeout exactly if its flag is set, or at the first wait whose event
      is refused; and it is still running only at the end of the script. */
  ghost predicate FollowsScript(call: Call, more: bool, turns: seq<Turn>, waits: nat)
    requires waits <= |turns|
  {
    && OutcomeOk(call)
    && (call.outcome.Running? && more ==>
          waits == |turns| && call.raws != [] && call.raws[|call.raws| - 1].EAGAIN? && Waits(call.raws) == waits + 1)
    && (call.outcome.Running? && !more ==>
          Waits(call.raws) == waits ||
          (waits == |turns| && call.raws != [] && call.raws[|call.raws| - 1].EAGAIN? && Waits(call.raws) == waits + 1))
    && (!call.outcome.Running? ==> Waits(call.raws) == waits)
    && (call.outcome.AddFailed? <==> waits > 0 && turns[waits - 1].refused)
    && (forall i :: 0 <= i < waits - 1 ==> !turns[i].refused)
    && (call.outcome.TimedOut? <==> call.cancelled)
  }

  /** What the loop knows at each of its ends. */
  lemma Ends(call: Call, more: bool, turns: seq<Turn>, waits: nat)
    requires call.kind.IoCall? && waits <= |turns| && (forall i :: 0 <= i < waits - 1 ==> !turns[i].refused)
    requires call.outcome.AddFailed? <==> waits > 0 && turns[waits - 1].refused
    requires call.cancelled <==> call.outcome.TimedOut?
    requires call.raws == [] ==> call.outcome.Running?
    requires match call.outcome
             case Running =>
               && Unsettled(IoCall, call.raws)
               && if Waits(call.raws) == waits then !more
                  else waits == |turns| && Waits(call.raws) == waits + 1 && call.raws != [] && call.raws[|call.raws| - 1].EAGAIN?
             case Returned(raw) =>
               && raw == call.raws[|call.raws| - 1] && Judge(IoCall, raw).Return? && Waits(call.raws) == waits
               && Unsettled(IoCall, call.raws[..|call.raws| - 1])
             case TimedOut => call.raws[|call.raws| - 1].EAGAIN? && Unsettled(IoCall, call.raws) && Waits(call.raws) == waits
             case AddFailed => call.raws[|call.raws| - 1].EAGAIN? && Unsettled(IoCall, call.raws) && Waits(call.raws) == waits
             case _ => false
    ensures FollowsScript(call, more, turns, waits)
  {
  }

  lemma OneMore(raws: seq<Raw>, k: nat)
    requires k < |raws| && Unsettled(IoCall, raws[..k])
    ensures raws[..k + 1][..k] == raws[..k]
    ensures raws[k].EINTR? || raws[k].EAGAIN? ==> Unsettled(IoCall, raws[..k + 1])
    ensures Waits(raws[..k + 1]) == Waits(raws[..k]) + if raws[k].EAGAIN? then 1 else 0
  {
    assert raws[..k + 1] == raws[..k] + [raws[k]];
  }

  // ----- how long the hooked sleeps ask for -----

  const U32: nat := 0x1_0000_0000

  /** seconds * 1000 in 32-bit unsigned arithmetic. */
  function SleepMs(seconds: nat): (ms: nat)
    ensures ms < U32
  {
    seconds * 1000 % U32
  }

  /** Microseconds in whole milliseconds. */
  function UsleepMs(useconds: nat): nat { useconds / 1000 }

  /** A hooked sleep asks for its time exactly up to 4294967 seconds; one
      second more and it asks for 704 milliseconds. */
  lemma SleepIsFull(seconds: nat)
    requires seconds < U32
    ensures SleepMs(seconds) == 1000 * seconds <==> seconds <= 4294967
    ensures SleepMs(seconds) <= 1000 * seconds && (1000 * seconds - SleepMs(seconds)) % 0x1_0000_0000 == 0
    ensures SleepMs(4294968) == 704
  {
    if seconds <= 4294967 {
      assert seconds * 1000 < U32;
    } else {
      assert SleepMs(seconds) < U32 < 1000 * seconds;
    }
  }

  /** A hooked usleep asks for less than its full time, by under a millisecond,
      exactly when that is not a whole number of milliseconds. */
  lemma UsleepIsFull(useconds: nat)
    ensures 1000 * UsleepMs(useconds) >= useconds <==> useconds % 1000 == 0
    ensures useconds - 1000 < 1000 * UsleepMs(useconds) <= useconds
  {
  }

  /** The flag after a turn in which the call's timer fired or not. */
  predicate FlagAfter(turn: Turn, cancelled: bool, queued: bool, fired: bool)
  {
    cancelled || (turn.runs && (queued || fired))
  }

  predicate QueuedAfter(turn: Turn, queued: bool, fired: bool)
  {
    !turn.runs && (queued || fired)
  }

  /** What the waits of a call change: the timers, the clock, its flag, and whether a
      callback of it has left the timers without having run. */
  datatype Waiting = Waiting(timers: seq<UserTimer>, now: nat, cancelled: bool, queued: bool)

  /** The timer a call sets for one wait. */
  function OwnRecord(now: nat, addr: nat, ms: nat, fd: nat, e: Event): UserTimer
  {
    T.Timer(addr, T.Add64(now, ms), ms, false, Some(TimeoutCb(0, fd, e)))
  }

  /** The timers while the call waits, its own among them. */
  function WithOwn(s: Waiting, turn: Turn, timeout: Option<nat>, fd: nat, e: Event): seq<UserTimer>
  {
    if timeout.Some? then T.Insert(s.timers, OwnRecord(s.now, turn.addr, timeout.value, fd, e)) else s.timers
  }

  /** The clock when the call goes on. */
  function ClockAfter(now: nat, turn: Turn): nat
  {
    if !turn.refused && now < turn.wakeAt then turn.wakeAt else now
  }

  /** Whether the wait's own timer fires during it. */
  predicate OwnFires(s: Waiting, turn: Turn, timeout: Option<nat>, fd: nat, e: Event)
  {
    !turn.refused && turn.expires && timeout.Some? &&
    OwnRecord(s.now, turn.addr, timeout.value, fd, e) in
      T.Fired(WithOwn(s, turn, timeout, fd, e), ClockAfter(s.now, turn), turn.probe)
  }

  function Swept(ts: seq<UserTimer>, now: nat, turn: Turn): seq<UserTimer>
  {
    if !turn.refused && turn.expires then T.Expire(ts, now, turn.probe) else ts
  }

  /** One wait. */
  function Waited(s: Waiting, turn: Turn, timeout: Option<nat>, fd: nat, e: Event): Waiting
  {
    var now := ClockAfter(s.now, turn);
    var swept := Swept(WithOwn(s, turn, timeout, fd, e), now, turn);
    var fired := OwnFires(s, turn, timeout, fd, e);
    Waiting(if timeout.Some? then T.Cancel(swept, turn.addr) else swept, now,
            if turn.refused then s.cancelled else FlagAfter(turn, s.cancelled, s.queued, fired),
            if turn.refused then s.queued else QueuedAfter(turn, s.queued, fired))
  }

  /** The first k waits. */
  function AfterWaits(s: Waiting, turns: seq<Turn>, k: nat, timeout: Option<nat>, fd: nat, e: Event): Waiting
    requires k <= |turns|
  {
    if k == 0 then s else Waited(AfterWaits(s, turns, k - 1, timeout, fd, e), turns[k - 1], timeout, fd, e)
  }

  lemma OneMoreWait(s: Waiting, turns: seq<Turn>, k: nat, timeout: Option<nat>, fd: nat, e: Event)
    requires k < |turns|
    ensures AfterWaits(s, turns, k + 1, timeout, fd, e) ==
            Waited(AfterWaits(s, turns, k, timeout, fd, e), turns[k], timeout, fd, e)
    ensures var r := AfterWaits(s, turns, k + 1, timeout, fd, e);
            r.now == ClockAfter(AfterWaits(s, turns, k, timeout, fd, e).now, turns[k])
    ensures turns[k].refused ==>
              AfterWaits(s, turns, k + 1, timeout, fd, e).cancelled == AfterWaits(s, turns, k, timeout, fd, e).cancelled
  {
  }

  /** The j-th wait's own timer fires during it. */
  predicate FiresAt(s: Waiting, turns: seq<Turn>, j: nat, timeout: Option<nat>, fd: nat, e: Event)
    requires j < |turns|
  {
    OwnFires(AfterWaits(s, turns, j, timeout, fd, e), turns[j], timeout, fd, e)
  }

  /** A callback of the call that has left the timers gets to run in the i-th wait. */
  predicate RunsAt(turns: seq<Turn>, i: nat)
    requires i < |turns|
  {
    !turns[i].refused && turns[i].runs
  }

  ghost predicate FiredBefore(s: Waiting, turns: seq<Turn>, k: nat, timeout: Option<nat>, fd: nat, e: Event)
    requires k <= |turns|
  {
    exists j :: 0 <= j < k && FiresAt(s, turns, j, timeout, fd, e)
  }

  /** A timer of the call's own fired in one of the first k waits, and in that or a
      later one of them a callback got to run. */
  ghost predicate RanBefore(s: Waiting, turns: seq<Turn>, k: nat, timeout: Option<nat>, fd: nat, e: Event)
    requires k <= |turns|
  {
    exists i :: 0 <= i < k && RunsAt(turns, i) && FiredBefore(s, turns, i + 1, timeout, fd, e)
  }

  lemma FiredMore(s: Waiting, turns: seq<Turn>, k: nat, timeout: Option<nat>, fd: nat, e: Event)
    requires k < |turns|
    ensures FiredBefore(s, turns, k + 1, timeout, fd, e) <==>
            FiredBefore(s, turns, k, timeout, fd, e) || FiresAt(s, turns, k, timeout, fd, e)
  {
    hide FiresAt;
  }

  lemma RanMore(s: Waiting, turns: seq<Turn>, k: nat, timeout: Option<nat>, fd: nat, e: Event)
    requires k < |turns|
    ensures RanBefore(s, turns, k + 1, timeout, fd, e) <==>
            RanBefore(s, turns, k, timeout, fd, e) || (RunsAt(turns, k) && FiredBefore(s, turns, k + 1, timeout, fd, e))
  {
    hide FiredBefore, RunsAt;
  }

  lemma FlagMore(s: Waiting, turns: seq<Turn>, k: nat, timeout: Option<nat>, fd: nat, e: Event)
    requires k < |turns|
    ensures var was, r := AfterWaits(s, turns, k, timeout, fd, e), AfterWaits(s, turns, k + 1, timeout, fd, e);
            && (r.cancelled || r.queued <==> was.cancelled || was.queued || FiresAt(s, turns, k, timeout, fd, e))
            && (r.cancelled <==>
                  was.cancelled || (RunsAt(turns, k) && (was.queued || FiresAt(s, turns, k, timeout, fd, e))))
  {
    hide T.Fired, T.Expire, T.Insert, T.Cancel, WithOwn, Swept;
  }

  lemma UnflaggedFirst(s: Waiting, turns: seq<Turn>, timeout: Option<nat>, fd: nat, e: Event)
    ensures AfterWaits(s, turns, 0, timeout, fd, e) == s
    ensures !FiredBefore(s, turns, 0, timeout, fd, e) && !RanBefore(s, turns, 0, timeout, fd, e)
  {
  }

  /** The flag is set exactly if a timer of the call's own fired in some wait, and
      in that wait or a later one a callback got to run. */
  lemma {:induction false} FlaggedIff(s: Waiting, turns: seq<Turn>, k: nat, timeout: Option<nat>, fd: nat, e: Event)
    requires k <= |turns| && !s.cancelled && !s.queued
    ensures var r := AfterWaits(s, turns, k, timeout, fd, e);
            && (r.cancelled || r.queued <==> FiredBefore(s, turns, k, timeout, fd, e))
            && (r.cancelled <==> RanBefore(s, turns, k, timeout, fd, e))
  {
    hide AfterWaits, FiredBefore, RanBefore, FiresAt, RunsAt;
    if k == 0 {
      UnflaggedFirst(s, turns, timeout, fd, e);
    } else {
      FlaggedIff(s, turns, k - 1, timeout, fd, e);
      FiredMore(s, turns, k - 1, timeout, fd, e);
      RanMore(s, turns, k - 1, timeout, fd, e);
      FlagMore(s, turns, k - 1, timeout, fd, e);
    }
  }

  /** What a call found when it began. */
  datatype Found = Found(table: E.Table, queue: seq<Task>, registry: set<OwnTimer>, waiting: Waiting)

  /** Each accepted wait has parked the fiber and scheduled it once, and nothing of
      it is left in the event table. */
  ghost predicate Parkings(waits: nat, accepted: nat, fiber: FiberId, fd: nat, table: E.Table, queue: seq<Task>,
                           after: E.Table, queueAfter: seq<Task>)
  {
    && |table.contexts| >= 2
    && after == (if waits > 0 then E.Grow(table, fd) else table)
    && queueAfter == queue + Copies(FiberTask(fiber), accepted)
  }

  /** Each wait has made one timer, if there is a timeout, and none is still set. */
  ghost predicate Armings(waits: nat, timeout: Option<nat>, turns: seq<Turn>, made: seq<OwnTimer>,
                          registry: set<OwnTimer>, after: set<OwnTimer>, timers: seq<OwnTimer>)
    requires waits <= |turns|
  {
    && |made| == (if timeout.Some? then waits else 0)
    && (forall i :: 0 <= i < |made| ==> made[i].addr == turns[i].addr && made[i] !in registry && made[i] !in timers)
    && after == registry + (set t | t in made)
  }

  lemma NothingYet(fiber: FiberId, fd: nat, table: E.Table, queue: seq<Task>, timeout: Option<nat>, turns: seq<Turn>,
                   registry: set<OwnTimer>, timers: seq<OwnTimer>)
    requires |table.contexts| >= 2
    ensures Parkings(0, 0, fiber, fd, table, queue, table, queue)
    ensures Armings(0, timeout, turns, [], registry, registry, timers)
  {
  }

  lemma OneMoreParking(waits: nat, added: bool, fiber: FiberId, fd: nat, table: E.Table, queue: seq<Task>, mid: E.Table,
                       queueMid: seq<Task>)
    requires Parkings(waits, waits, fiber, fd, table, queue, mid, queueMid)
    ensures |mid.contexts| >= 2
    ensures Parkings(waits + 1, if added then waits + 1 else waits, fiber, fd, table, queue, E.Grow(mid, fd),
                     queueMid + if added then [FiberTask(fiber)] else [])
  {
    hide E.Grow;
    E.GrowTwice(table, fd);
    assert queueMid + [] == queueMid;
  }

  lemma OneMoreArming(waits: nat, timeout: Option<nat>, turns: seq<Turn>, made: seq<OwnTimer>, registry: set<OwnTimer>,
                      mid: set<OwnTimer>, timers: seq<OwnTimer>, timer: M.Timer?<Callback>, after: set<OwnTimer>,
                      timersAfter: seq<OwnTimer>)
    requires waits < |turns| && Armings(waits, timeout, turns, made, registry, mid, timers) && (timer == null <==> timeout.None?)
    requires timer == null ==> after == mid
    requires timer != null ==> timer !in mid && timer.addr == turns[waits].addr && timer !in timersAfter && after == mid + {timer}
    requires forall t :: t in timersAfter ==> t in timers
    ensures Armings(waits + 1, timeout, turns, if timer != null then made + [timer] else made, registry, after, timersAfter)
  {
  }

  lemma OneMoreAddress(registry: set<OwnTimer>, turns: seq<Turn>, w: nat, timer: M.Timer?<Callback>, after: set<OwnTimer>)
    requires w < |turns| && FreshAddresses(registry, turns, w)
    requires timer == null ==> after == registry
    requires timer != null ==> timer.addr == turns[w].addr && after == registry + {timer}
    ensures FreshAddresses(after, turns, w + 1)
  {
  }

  lemma OneTurn(registry: set<OwnTimer>, turn: Turn)
    requires FreshAddresses(registry, [turn], 0)
    ensures turn.addr != turn.probe && forall t :: t in registry ==> t.addr != turn.addr && t.addr != turn.probe
  {
    assert [turn][0] == turn;
  }

  class Hooks {
    const tm: Timers
    const iom: I.IoManager
    const fiber: FiberId
    var now: nat

    constructor (tm: Timers, iom: I.IoManager, fiber: FiberId, now: nat)
      ensures this.tm == tm && this.iom == iom && this.fiber == fiber && this.now == now
    {
      this.tm, this.iom, this.fiber, this.now := tm, iom, fiber, now;
    }

    /** Nobody waits for the event yet. */
    ghost predicate Free(fd: nat, e: Event)
      reads iom, iom.contexts
    {
      fd < |iom.contexts| ==> !E.Has(iom.contexts[fd].events, e)
    }

    ghost function Here(info: TimerInfo): Waiting
      reads this, info, tm, tm.timers
    {
      Waiting(tm.View(), now, info.cancelled, info.queued)
    }

    /** Whether the batch of a turn fires the given timer. */
    ghost predicate Fires(turn: Turn, ts: seq<UserTimer>, t: UserTimer)
      reads this
    {
      turn.expires && t in T.Fired(ts, now, turn.probe)
    }

    /** A new condition timer for the call, if it has a timeout. */
    method Arm(turn: Turn, timeout: Option<nat>, fd: nat, e: Event) returns (timer: M.Timer?<Callback>)
      requires tm.Valid() && forall t :: t in tm.registry ==> t.addr != turn.addr
      modifies tm
      ensures tm.Valid() && (timer == null <==> timeout.None?)
      ensures timer == null ==> tm.registry == old(tm.registry) && tm.timers == old(tm.timers) && tm.View() == old(tm.View())
      ensures timer != null ==>
                && fresh(timer) && tm.registry == old(tm.registry) + {timer} && timer.callable
                && (forall t :: t in tm.timers <==> t == timer || t in old(tm.timers))
                && timer.Record() == OwnRecord(now, turn.addr, timeout.value, fd, e)
                && tm.View() == T.Insert(old(tm.View()), timer.Record())
    {
      timer := null;
      if timeout.Some? {
        timer := tm.AddTimer(turn.addr, timeout.value, Some(TimeoutCb(0, fd, e)), false, now);
      }
    }

    /** From switching out to being switched in again. The event leaves the table,
        by readiness or by a cancel, and schedules the fiber; the flag is set
        exactly if a callback of the call that came out of the timers got to run. */
    method YieldToHold(turn: Turn, fd: nat, e: Event, info: TimerInfo, timer: M.Timer?<Callback>)
      requires tm.Valid() && forall t :: t in tm.registry ==> t.addr != turn.probe
      requires timer != null ==> timer in tm.timers && timer.cb.Some? && !timer.recurring
      requires iom.Valid()
      modifies this`now, info, tm`timers, tm`frontInserts, tm.registry
      modifies iom`kernel, iom`pending, iom`queue, iom.contexts
      ensures tm.Valid() && now == if old(now) < turn.wakeAt then turn.wakeAt else old(now)
      ensures forall t :: t in tm.timers ==> t in old(tm.timers)
      ensures tm.View() == if turn.expires then T.Expire(old(tm.View()), now, turn.probe) else old(tm.View())
      ensures var fired := timer != null && Fires(turn, old(tm.View()), old(timer.Record()));
              info.cancelled == FlagAfter(turn, old(info.cancelled), old(info.queued), fired) &&
              info.queued == QueuedAfter(turn, old(info.queued), fired) &&
              (fired ==> old(timer.next) <= now)
      ensures var r := E.CancelEvent(old(iom.View()), fd, e, true);
              iom.Valid() && iom.View() == r.table && iom.queue == old(iom.queue) + r.woken
    {
      hide E.CancelEvent, E.Inv, T.Fired, T.Expire, T.Inv, T.Sorted, M.TimerManager.Valid, M.TimerManager.Ordered,
           M.TimerManager.View, M.Records, I.IoManager.View, I.Records;
      if now < turn.wakeAt {
        now := turn.wakeAt;
      }
      RunTimers(turn, info, timer);
      var _ := iom.CancelEvent(fd, e, true);
    }

    /** What timers do to the call while it is switched out. */
    method RunTimers(turn: Turn, info: TimerInfo, timer: M.Timer?<Callback>)
      requires tm.Valid() && forall t :: t in tm.registry ==> t.addr != turn.probe
      requires timer != null ==> timer in tm.timers && timer.cb.Some? && !timer.recurring
      modifies info, tm`timers, tm`frontInserts, tm.registry
      ensures tm.Valid() && forall t :: t in tm.timers ==> t in old(tm.timers)
      ensures tm.View() == if turn.expires then T.Expire(old(tm.View()), now, turn.probe) else old(tm.View())
      ensures var fired := timer != null && Fires(turn, old(tm.View()), old(timer.Record()));
              info.cancelled == FlagAfter(turn, old(info.cancelled), old(info.queued), fired) &&
              info.queued == QueuedAfter(turn, old(info.queued), fired) &&
              (fired ==> old(timer.next) <= now)
    {
      hide T.Fired, T.Expire;
      var fired := false;
      if turn.expires {
        fired := Expire(turn, timer);
      }
      if fired {
        info.queued := true;
      }
      if turn.runs && info.queued {
        info.Callback();
      }
    }

    /** Set the timer, add the event, switch out, and cancel the timer whatever
        happened; `added` is false if the event was refused. */
    method WaitOnce(turn: Turn, timeout: Option<nat>, fd: nat, e: Event, info: TimerInfo)
      returns (added: bool, timer: M.Timer?<Callback>)
      requires tm.Valid() && iom.Valid() && Free(fd, e) && turn.addr != turn.probe
      requires forall t :: t in tm.registry ==> t.addr != turn.addr && t.addr != turn.probe
      requires timeout.Some? ==> now + timeout.value < T.U64
      modifies this`now, info, tm, tm.registry, iom, iom.contexts
      ensures tm.Valid() && iom.Valid() && Free(fd, e) && added == !turn.refused
      // one timer of its own, no longer set
      ensures timer == null <==> timeout.None?
      ensures timer == null ==> tm.registry == old(tm.registry)
      ensures timer != null ==>
                fresh(timer) && timer.addr == turn.addr && timer !in tm.timers && tm.registry == old(tm.registry) + {timer}
      ensures forall t :: t in tm.timers ==> t in old(tm.timers)
      // one wait, in which the fiber was parked and scheduled once
      ensures iom.View() == E.Grow(old(iom.View()), fd) && fresh(iom.Objects() - old(iom.Objects()))
      ensures iom.queue == old(iom.queue) + if added then [FiberTask(fiber)] else []
      // timers, clock and flag; a callback of the call is not early
      ensures Here(info) == Waited(old(Here(info)), turn, timeout, fd, e) && now >= old(now)
      ensures info.cancelled || info.queued ==>
                old(info.cancelled || info.queued) || (timeout.Some? && old(now) + timeout.value <= now)
    {
      hide E.Grow, E.Inv, T.Fired, T.Expire, T.Cancel, T.Insert, T.Inv, T.Sorted, M.TimerManager.Valid, M.TimerManager.Ordered,
           M.TimerManager.View, I.IoManager.Valid, I.IoManager.View, I.Records, Free, FlagAfter, QueuedAfter;
      timer := Arm(turn, timeout, fd, e);
      if timer != null {
        T.NoWrap(now, timeout.value);
      }
      added := AddAndYield(turn, fd, e, info, timer);
      if timer != null {
        Disarm(timer);
      }
    }

    /** Cancelling the call's own timer, fired or not. */
    method Disarm(timer: OwnTimer)
      requires tm.Valid() && timer in tm.registry && timer.callable
      modifies tm`timers, timer`cb
      ensures tm.Valid() && timer !in tm.timers && forall t :: t in tm.timers ==> t in old(tm.timers)
      ensures tm.View() == T.Cancel(old(tm.View()), timer.addr)
    {
      InSetIff(timer);
      var _ := tm.CancelTimer(timer);
    }

    /** The part between setting the timer and cancelling it. */
    method AddAndYield(turn: Turn, fd: nat, e: Event, info: TimerInfo, timer: M.Timer?<Callback>) returns (added: bool)
      requires tm.Valid() && forall t :: t in tm.registry ==> t.addr != turn.probe
      requires timer != null ==> timer in tm.timers && timer.cb.Some? && !timer.recurring
      requires iom.Valid() && Free(fd, e)
      modifies this`now, info, tm`timers, tm`frontInserts, tm.registry, iom, iom.contexts
      ensures tm.Valid() && iom.Valid() && Free(fd, e) && added == !turn.refused
      ensures now == ClockAfter(old(now), turn) && tm.View() == Swept(old(tm.View()), now, turn)
      ensures forall t :: t in tm.timers ==> t in old(tm.timers)
      ensures iom.View() == E.Grow(old(iom.View()), fd) && fresh(iom.Objects() - old(iom.Objects()))
      ensures iom.queue == old(iom.queue) + if added then [FiberTask(fiber)] else []
      ensures var fired := added && timer != null && Fires(turn, old(tm.View()), old(timer.Record()));
              && info.cancelled == (if added then FlagAfter(turn, old(info.cancelled), old(info.queued), fired) else old(info.cancelled))
              && info.queued == (if added then QueuedAfter(turn, old(info.queued), fired) else old(info.queued))
              && (fired ==> old(timer.next) <= now)
              && (info.cancelled || info.queued ==> old(info.cancelled || info.queued) || fired)
    {
      hide E.AddEvent, E.CancelEvent, E.Grow, E.Inv, T.Fired, T.Expire, T.Inv, T.Sorted;
      added := Add(fd, e, !turn.refused);
      if added {
        YieldToHold(turn, fd, e, info, timer);
        FreeMeans(fd, e);
      }
    }

    /** add_event for this fiber; what it adds can be cancelled without a trace. */
    method Add(fd: nat, e: Event, accepted: bool) returns (added: bool)
      requires iom.Valid() && Free(fd, e)
      modifies iom`contexts, iom`kernel, iom`pending, iom.contexts
      ensures iom.Valid() && added == accepted && fresh(iom.Objects() - old(iom.Objects()))
      ensures !added ==> iom.View() == E.Grow(old(iom.View()), fd) && Free(fd, e)
      ensures added ==>
                && E.CancelEvent(iom.View(), fd, e, true) == E.Effect(E.Grow(old(iom.View()), fd), [FiberTask(fiber)], true)
                && var g := E.Grow(old(iom.View()), fd); fd < |g.contexts| && !E.Has(g.contexts[fd].events, e)
    {
      hide E.AddEvent, E.CancelEvent, E.Grow, E.Inv;
      FreeMeans(fd, e);
      E.AddCancelRoundTrip(iom.View(), fd, e, FiberTask(fiber));
      var rt, aborted := iom.AddEvent(fd, e, FiberTask(fiber), accepted);
      FreeMeans(fd, e);
      added := rt == 0;
    }

    lemma FreeMeans(fd: nat, e: Event)
      ensures Free(fd, e) <==> !(fd < |iom.View().contexts| && E.Has(iom.View().contexts[fd].events, e))
    {
    }

    /** The raw call, again while it is interrupted, and only then. */
    method TryRaw(raws: seq<Raw>, start: nat) returns (n: Raw, used: nat)
      requires start < |raws| && Unsettled(IoCall, raws[..start])
      ensures start < used <= |raws| && n == raws[used - 1] && raws[..used][..used - 1] == raws[..used - 1]
      ensures forall i :: start <= i < used - 1 ==> raws[i].EINTR?
      ensures n.EINTR? ==> used == |raws|
      ensures Unsettled(IoCall, raws[..used - 1])
      ensures n.EINTR? || n.EAGAIN? ==> Unsettled(IoCall, raws[..used])
      ensures Waits(raws[..used]) == Waits(raws[..start]) + if n.EAGAIN? then 1 else 0
    {
      hide Unsettled, Waits;
      n, used := raws[start], start + 1;
      while n.EINTR? && used < |raws|
        invariant start < used <= |raws| && n == raws[used - 1] && Unsettled(IoCall, raws[..used - 1])
        invariant forall i :: start <= i < used - 1 ==> raws[i].EINTR?
        invariant Waits(raws[..used - 1]) == Waits(raws[..start])
      {
        OneMore(raws, used - 1);
        n, used := raws[used], used + 1;
      }
      OneMore(raws, used - 1);
    }

    /** What the call knows of its flag: set or about to be only when it is due. */
    predicate FlagOk(info: TimerInfo, timeout: Option<nat>, firstWait: Option<nat>)
      reads this, info
    {
      info.queued || info.cancelled ==> timeout.Some? && firstWait.Some? && now >= firstWait.value + timeout.value
    }

    lemma NothingDone(fd: nat, timeout: Option<nat>, turns: seq<Turn>)
      requires iom.Valid()
      ensures Parkings(0, 0, fiber, fd, iom.View(), iom.queue, iom.View(), iom.queue)
      ensures Armings(0, timeout, turns, [], tm.registry, tm.registry, tm.timers)
    {
      NothingYet(fiber, fd, iom.View(), iom.queue, timeout, turns, tm.registry, tm.timers);
    }

    /** One more wait of do_io. */
    method WaitAgain(fd: nat, timeout: Option<nat>, firstWait: Option<nat>, turns: seq<Turn>, waits: nat, info: TimerInfo,
                     made: seq<OwnTimer>, ghost found: Found)
      returns (added: bool, more: seq<OwnTimer>)
      requires waits < |turns| && tm.Valid() && iom.Valid() && Free(fd, READ) && FreshAddresses(tm.registry, turns, waits)
      requires Parkings(waits, waits, fiber, fd, found.table, found.queue, iom.View(), iom.queue)
      requires Armings(waits, timeout, turns, made, found.registry, tm.registry, tm.timers)
      requires timeout.Some? ==> now + timeout.value < T.U64
      requires firstWait.Some? && firstWait.value <= now && FlagOk(info, timeout, firstWait)
      modifies this`now, info, tm, tm.registry, iom, iom.contexts
      ensures tm.Valid() && iom.Valid() && Free(fd, READ) && FreshAddresses(tm.registry, turns, waits + 1)
      ensures fresh(tm.registry - old(tm.registry)) && fresh(iom.Objects() - old(iom.Objects()))
      ensures Parkings(waits + 1, if added then waits + 1 else waits, fiber, fd, found.table, found.queue, iom.View(), iom.queue)
      ensures Armings(waits + 1, timeout, turns, more, found.registry, tm.registry, tm.timers)
      ensures added == !turns[waits].refused
      ensures Here(info) == Waited(old(Here(info)), turns[waits], timeout, fd, READ)
      ensures FlagOk(info, timeout, firstWait)
    {
      hide E.Inv, E.Grow, T.Inv, T.Sorted, Waited, M.TimerManager.Valid, M.TimerManager.Ordered, M.TimerManager.View,
           I.IoManager.Valid, Armings, Parkings, Free;
      OneMoreParking(waits, !turns[waits].refused, fiber, fd, found.table, found.queue, iom.View(), iom.queue);
      ghost var mid, timers := tm.registry, tm.timers;
      var timer;
      added, timer := WaitOnce(turns[waits], timeout, fd, READ, info);
      more := if timer != null then made + [timer] else made;
      OneMoreArming(waits, timeout, turns, made, found.registry, mid, timers, timer, tm.registry, tm.timers);
      OneMoreAddress(mid, turns, waits, timer, tm.registry);
    }

    ghost function Before(): Found
      reads this, tm, tm.timers, iom, iom.contexts
    {
      Found(iom.View(), iom.queue, tm.registry, Waiting(tm.View(), now, false, false))
    }

    /** After some waits, all of them accepted and none with the flag set. */
    ghost predicate Going(fd: nat, timeout: Option<nat>, turns: seq<Turn>, waits: nat, firstWait: Option<nat>,
                          info: TimerInfo, made: seq<OwnTimer>, found: Found)
      reads this, info, tm, tm.timers, tm.registry, iom, iom.contexts
    {
      && waits <= |turns| && (forall i :: 0 <= i < waits ==> !turns[i].refused)
      && tm.Valid() && iom.Valid() && Free(fd, READ) && FreshAddresses(tm.registry, turns, waits)
      && Parkings(waits, waits, fiber, fd, found.table, found.queue, iom.View(), iom.queue)
      && Armings(waits, timeout, turns, made, found.registry, tm.registry, tm.timers)
      && Here(info) == AfterWaits(found.waiting, turns, waits, timeout, fd, READ)
      && (timeout.Some? ==>
            now + timeout.value < T.U64 && forall i :: 0 <= i < |turns| ==> turns[i].wakeAt + timeout.value < T.U64)
      && (firstWait.Some? ==> firstWait.value <= now)
      && !info.cancelled && FlagOk(info, timeout, firstWait)
    }

    /** Between two tries: as many waits as there were EAGAINs, and no settling result. */
    ghost predicate Retrying(fd: nat, timeout: Option<nat>, raws: seq<Raw>, turns: seq<Turn>, used: nat, waits: nat,
                             firstWait: Option<nat>, info: TimerInfo, made: seq<OwnTimer>, found: Found)
      reads this, info, tm, tm.timers, tm.registry, iom, iom.contexts
    {
      && used <= |raws| && Unsettled(IoCall, raws[..used]) && Waits(raws[..used]) == waits
      && Going(fd, timeout, turns, waits, firstWait, info, made, found)
    }

    /** How do_io has ended. */
    ghost predicate Ended(fd: nat, timeout: Option<nat>, raws: seq<Raw>, turns: seq<Turn>, outcome: Outcome, used: nat,
                          waits: nat, firstWait: Option<nat>, info: TimerInfo, made: seq<OwnTimer>,
                          found: Found)
      reads this, info, tm, tm.timers, tm.registry, iom, iom.contexts
    {
      && used <= |raws| && waits <= |turns| && tm.Valid() && iom.Valid()
      && FollowsScript(Call(IoCall, fd, 0, timeout, raws[..used], firstWait, None, info.cancelled, outcome), used < |raws|, turns,
                       waits)
      && Parkings(waits, if outcome.AddFailed? && waits > 0 then waits - 1 else waits, fiber, fd, found.table, found.queue,
                  iom.View(), iom.queue)
      && Armings(waits, timeout, turns, made, found.registry, tm.registry, tm.timers)
      && (outcome.TimedOut? ==> timeout.Some? && firstWait.Some? && now >= firstWait.value + timeout.value)
      && Here(info) == AfterWaits(found.waiting, turns, waits, timeout, fd, READ)
    }

    /** do_io on a socket in blocking mode, its raw call answering with raws and its
        waits going as in turns. Every EAGAIN makes one wait, and nothing else does.
        The call ends with the first raw result that settles it; or by timeout,
        exactly if a timer of its own fired in one of its waits and a callback got to
        run in that one or a later one, and not early; or at the first wait whose
        event is refused. It is still running only when the script ends. No timer of
        its own stays set. */
    method DoIo(fd: nat, timeout: Option<nat>, raws: seq<Raw>, turns: seq<Turn>)
      returns (outcome: Outcome, used: nat, waits: nat, firstWait: Option<nat>, info: TimerInfo, made: seq<OwnTimer>)
      requires tm.Valid() && iom.Valid() && Free(fd, READ) && FreshAddresses(tm.registry, turns, 0)
      requires timeout.Some? ==>
                 now + timeout.value < T.U64 && forall i :: 0 <= i < |turns| ==> turns[i].wakeAt + timeout.value < T.U64
      modifies this`now, tm, tm.registry, iom, iom.contexts
      ensures Ended(fd, timeout, raws, turns, outcome, used, waits, firstWait, info, made, old(Before()))
      ensures outcome.TimedOut? <==> waits <= |turns| && RanBefore(old(Before().waiting), turns, waits, timeout, fd, READ)
    {
      hide RanBefore, Retrying, Ended, FreshAddresses, Free, M.TimerManager.Valid, M.TimerManager.Ordered, M.TimerManager.View, M.Records,
           I.IoManager.Valid, I.IoManager.View, I.Records, E.Inv, T.Inv, T.Sorted;
      info := new TimerInfo();
      used, waits, firstWait, made := 0, 0, None, [];
      BeforeTrying(fd, timeout, raws, turns, info);
      var done := false;
      while used < |raws|
        invariant fresh(info) && fresh(tm.registry - old(tm.registry)) && fresh(iom.Objects() - old(iom.Objects()))
        invariant Retrying(fd, timeout, raws, turns, used, waits, firstWait, info, made,
                           old(Before()))
        decreases |raws| - used
      {
        done, outcome, used, waits, firstWait, made :=
          Attempt(fd, timeout, raws, turns, used, waits, firstWait, info, made, old(Before()));
        if done {
          TimedOutIff(fd, timeout, raws, turns, outcome, used, waits, firstWait, info, made, old(Before()));
          return;
        }
      }
      outcome := Running;
      AfterTrying(fd, timeout, raws, turns, used, waits, firstWait, info, made, old(Before()));
      TimedOutIff(fd, timeout, raws, turns, outcome, used, waits, firstWait, info, made, old(Before()));
    }

    lemma TimedOutIff(fd: nat, timeout: Option<nat>, raws: seq<Raw>, turns: seq<Turn>, outcome: Outcome, used: nat, waits: nat,
                      firstWait: Option<nat>, info: TimerInfo, made: seq<OwnTimer>, found: Found)
      requires Ended(fd, timeout, raws, turns, outcome, used, waits, firstWait, info, made, found)
      requires !found.waiting.cancelled && !found.waiting.queued
      ensures outcome.TimedOut? <==> waits <= |turns| && RanBefore(found.waiting, turns, waits, timeout, fd, READ)
    {
      hide RanBefore, FiredBefore, AfterWaits, Parkings, Armings, OutcomeOk, M.TimerManager.Valid, I.IoManager.Valid;
      FlaggedIff(found.waiting, turns, waits, timeout, fd, READ);
    }

    lemma BeforeTrying(fd: nat, timeout: Option<nat>, raws: seq<Raw>, turns: seq<Turn>, info: TimerInfo)
      requires tm.Valid() && iom.Valid() && Free(fd, READ) && FreshAddresses(tm.registry, turns, 0)
      requires timeout.Some? ==>
                 now + timeout.value < T.U64 && forall i :: 0 <= i < |turns| ==> turns[i].wakeAt + timeout.value < T.U64
      requires !info.cancelled && !info.queued
      ensures Retrying(fd, timeout, raws, turns, 0, 0, None, info, [], Before())
    {
      NothingDone(fd, timeout, turns);
      NothingSettles();
    }

    lemma AfterTrying(fd: nat, timeout: Option<nat>, raws: seq<Raw>, turns: seq<Turn>, used: nat, waits: nat,
                      firstWait: Option<nat>, info: TimerInfo, made: seq<OwnTimer>,
                      found: Found)
      requires Retrying(fd, timeout, raws, turns, used, waits, firstWait, info, made, found) && used >= |raws|
      ensures Ended(fd, timeout, raws, turns, Running, used, waits, firstWait, info, made, found)
    {
      hide Parkings, Armings, FollowsScript, Unsettled, FreshAddresses, Free, M.TimerManager.Valid, I.IoManager.Valid;
      Ends(Call(IoCall, fd, 0, timeout, raws[..used], firstWait, None, info.cancelled, Running), used < |raws|, turns, waits);
    }

    /** One round of do_io: the raw call, and the wait if it asks for one. */
    method Attempt(fd: nat, timeout: Option<nat>, raws: seq<Raw>, turns: seq<Turn>, start: nat, before: nat,
                   first: Option<nat>, info: TimerInfo, had: seq<OwnTimer>, ghost found: Found)
      returns (done: bool, outcome: Outcome, used: nat, waits: nat, firstWait: Option<nat>, made: seq<OwnTimer>)
      requires Retrying(fd, timeout, raws, turns, start, before, first, info, had, found) && start < |raws|
      modifies this`now, info, tm, tm.registry, iom, iom.contexts
      ensures start < used <= |raws|
      ensures fresh(tm.registry - old(tm.registry)) && fresh(iom.Objects() - old(iom.Objects()))
      ensures !done ==> Retrying(fd, timeout, raws, turns, used, waits, firstWait, info, made, found)
      ensures done ==> Ended(fd, timeout, raws, turns, outcome, used, waits, firstWait, info, made, found)
    {
      hide Unsettled, Waits, Going, Ended;
      var n;
      n, used := TryRaw(raws, start);
      GoingBounds(fd, timeout, turns, before, first, info, had, found);
      if n.EAGAIN? && before < |turns| {
        done, outcome, waits, firstWait, made := Wait(fd, timeout, raws, turns, used, before, first, info, had, found);
      } else {
        done, waits, firstWait, made := true, before, first, had;
        outcome := if n.EAGAIN? || n.EINTR? then Running else Returned(n);
        EndsUnwaited(fd, timeout, raws, turns, outcome, used, waits, firstWait, info, made, found);
      }
    }

    lemma GoingBounds(fd: nat, timeout: Option<nat>, turns: seq<Turn>, waits: nat, firstWait: Option<nat>,
                      info: TimerInfo, made: seq<OwnTimer>, found: Found)
      requires Going(fd, timeout, turns, waits, firstWait, info, made, found)
      ensures waits <= |turns|
    {
    }

    /** The call ends on a raw result, or because the script is over. */
    lemma EndsUnwaited(fd: nat, timeout: Option<nat>, raws: seq<Raw>, turns: seq<Turn>, outcome: Outcome, used: nat, waits: nat,
                       firstWait: Option<nat>, info: TimerInfo, made: seq<OwnTimer>, found: Found)
      requires Going(fd, timeout, turns, waits, firstWait, info, made, found) && 0 < used <= |raws|
      requires var n := raws[used - 1];
               && outcome == (if n.EAGAIN? || n.EINTR? then Running else Returned(n)) && (n.EAGAIN? ==> waits == |turns|)
               && (n.EINTR? ==> used == |raws|) && raws[..used][..used - 1] == raws[..used - 1]
               && Unsettled(IoCall, raws[..used - 1]) && (n.EINTR? || n.EAGAIN? ==> Unsettled(IoCall, raws[..used]))
               && Waits(raws[..used]) == waits + if n.EAGAIN? then 1 else 0
      ensures Ended(fd, timeout, raws, turns, outcome, used, waits, firstWait, info, made, found)
    {
      hide Unsettled, FollowsScript, Waits, AfterWaits, Parkings, Armings, FreshAddresses, Free, M.TimerManager.Valid,
           M.TimerManager.View, I.IoManager.Valid, I.IoManager.View;
      Ends(Call(IoCall, fd, 0, timeout, raws[..used], firstWait, None, info.cancelled, outcome), used < |raws|, turns, waits);
    }

    /** The wait of a round whose raw call has answered EAGAIN, and what follows. */
    method Wait(fd: nat, timeout: Option<nat>, raws: seq<Raw>, turns: seq<Turn>, used: nat, before: nat,
                first: Option<nat>, info: TimerInfo, had: seq<OwnTimer>, ghost found: Found)
      returns (done: bool, outcome: Outcome, waits: nat, firstWait: Option<nat>, made: seq<OwnTimer>)
      requires before < |turns| && Going(fd, timeout, turns, before, first, info, had, found)
      requires 0 < used <= |raws| && raws[used - 1].EAGAIN?
      requires Unsettled(IoCall, raws[..used]) && Waits(raws[..used]) == before + 1
      modifies this`now, info, tm, tm.registry, iom, iom.contexts
      ensures fresh(tm.registry - old(tm.registry)) && fresh(iom.Objects() - old(iom.Objects()))
      ensures !done ==> Retrying(fd, timeout, raws, turns, used, waits, firstWait, info, made, found)
      ensures done ==> Ended(fd, timeout, raws, turns, outcome, used, waits, firstWait, info, made, found)
    {
      hide Unsettled, FollowsScript, Waits, AfterWaits, Waited, Parkings, Armings, FreshAddresses, Free, M.TimerManager.Valid,
           M.TimerManager.View, M.Records, I.IoManager.Valid, I.IoManager.View, I.Records;
      firstWait := if first.None? then Some(now) else first;
      OneMoreWait(found.waiting, turns, before, timeout, fd, READ);
      var added;
      added, made := WaitAgain(fd, timeout, firstWait, turns, before, info, had, found);
      waits := before + 1;
      done := !added || info.cancelled;
      outcome := if !added then AddFailed else if info.cancelled then TimedOut else Running;
      if done {
        Ends(Call(IoCall, fd, 0, timeout, raws[..used], firstWait, None, info.cancelled, outcome), used < |raws|, turns, waits);
      }
    }

    /** connect_with_timeout: one raw call, and if it is in progress one wait to
        write. Then the flag decides if the event was accepted, and otherwise the
        socket error, 0 being success; so a refused event is reported as a
        connection made exactly when the socket has no error yet. */
    method Connect(fd: nat, timeout: Option<nat>, raw: Raw, turn: Turn, soError: int)
      returns (outcome: Outcome, info: TimerInfo, timer: M.Timer?<Callback>)
      requires tm.Valid() && iom.Valid() && Free(fd, WRITE) && FreshAddresses(tm.registry, [turn], 0)
      requires timeout.Some? ==> now + timeout.value < T.U64
      modifies this`now, tm, tm.registry, iom, iom.contexts
      ensures tm.Valid() && iom.Valid()
      ensures outcome == if !raw.EINPROGRESS? then Returned(raw)
                         else if !turn.refused && info.cancelled then TimedOut
                         else SocketError(soError)
      // one wait, and only if the raw call asks for it
      ensures iom.View() == if raw.EINPROGRESS? then E.Grow(old(iom.View()), fd) else old(iom.View())
      ensures iom.queue == old(iom.queue) + if raw.EINPROGRESS? && !turn.refused then [FiberTask(fiber)] else []
      ensures timer == null <==> timeout.None? || !raw.EINPROGRESS?
      ensures tm.registry == old(tm.registry) + (if timer == null then {} else {timer})
      ensures timer != null ==> timer.addr == turn.addr && timer !in tm.timers
      // what the wait does to the timers, the clock and the flag, which is not early
      ensures var before := old(Waiting(tm.View(), now, false, false));
              && Here(info) == (if raw.EINPROGRESS? then Waited(before, turn, timeout, fd, WRITE) else before)
              && (info.cancelled <==> raw.EINPROGRESS? && turn.runs && OwnFires(before, turn, timeout, fd, WRITE))
      ensures outcome.TimedOut? ==> timeout.Some? && now >= old(now) + timeout.value
    {
      hide FreshAddresses, Free, WithOwn, Swept, E.Inv, E.Grow, T.Inv, T.Sorted, T.Fired, T.Insert, M.TimerManager.Valid,
           M.TimerManager.Ordered, M.TimerManager.View, M.Records, I.IoManager.Valid, I.IoManager.View, I.Records;
      OneTurn(tm.registry, turn);
      info := new TimerInfo();
      timer := null;
      if !raw.EINPROGRESS? {
        outcome := Returned(raw);
        return;
      }
      var added;
      assert Here(info) == old(Waiting(tm.View(), now, false, false));
      added, timer := WaitOnce(turn, timeout, fd, WRITE, info);
      if added && info.cancelled {
        outcome := TimedOut;
      } else {
        outcome := SocketError(soError);
      }
    }

    /** The hooked sleep sets a timer that switches the fiber back in. */
    method Sleep(seconds: nat, fiber: FiberId, addr: nat) returns (timer: OwnTimer)
      requires tm.Valid() && forall t :: t in tm.registry ==> t.addr != addr
      requires seconds < U32 && now + U32 < T.U64
      modifies tm
      ensures tm.Valid() && timer in tm.timers
      ensures tm.View() == T.Insert(old(tm.View()), T.Timer(addr, now + SleepMs(seconds), SleepMs(seconds), false, Some(WakeCb(fiber))))
      ensures timer.next == now + 1000 * seconds <==> seconds <= 4294967
      ensures timer.next == now + timer.ms <= now + 1000 * seconds
    {
      hide SleepMs, T.Add64, T.Insert;
      SleepIsFull(seconds);
      T.NoWrap(now, SleepMs(seconds));
      timer := tm.AddTimer(addr, SleepMs(seconds), Some(WakeCb(fiber)), false, now);
    }

    /** One batch of timers; whether it fired the given one. */
    method Expire(turn: Turn, timer: M.Timer?<Callback>) returns (fired: bool)
      requires tm.Valid() && forall t :: t in tm.registry ==> t.addr != turn.probe
      requires timer != null ==> timer in tm.timers && timer.cb.Some? && !timer.recurring
      modifies tm`timers, tm`frontInserts, tm.registry
      ensures tm.Valid() && forall t :: t in tm.timers ==> t in old(tm.timers)
      ensures tm.View() == T.Expire(old(tm.View()), now, turn.probe)
      ensures fired <==> timer != null && old(timer.Record()) in T.Fired(old(tm.View()), now, turn.probe)
      ensures fired ==> old(timer.next) <= now
    {
      ghost var before := tm.View();
      ghost var was := tm.timers;
      tm.OrderedIsInv();
      assert !T.Has(before, turn.probe) by {
        assert forall i :: 0 <= i < |was| ==> was[i] in tm.registry;
      }
      ghost var record := if timer != null then Some(timer.Record()) else None;
      assert record.Some? ==> record.value in before;
      var _ := tm.ListExpired(now, turn.probe);
      forall t | t in tm.timers
        ensures t in was
      {
        StillThere(was, before, t, turn.probe);
      }
      fired := timer != null && timer.cb.None?;
      if timer != null {
        InSetIff(timer);
        FiredIffGone(before, now, turn.probe, record.value);
      }
    }

    lemma InSetIff(t: OwnTimer)
      requires tm.Ordered() && t in tm.registry
      ensures t in tm.timers <==> T.Has(tm.View(), t.addr)
    {
      if i :| 0 <= i < |tm.timers| && tm.timers[i] == t {
        assert tm.View()[i].addr == t.addr;
      }
      forall i | 0 <= i < |tm.View()| && tm.View()[i].addr == t.addr
        ensures t in tm.timers
      {
        assert tm.timers[i] in tm.registry && tm.timers[i].addr == t.addr;
      }
    }

    lemma StillThere(was: seq<OwnTimer>, before: seq<UserTimer>, t: OwnTimer, probe: nat)
      requires tm.Ordered() && (forall u :: u in was ==> u in tm.registry) && |before| == |was|
      requires forall i :: 0 <= i < |was| ==> before[i].addr == was[i].addr
      requires T.Inv(before) && !T.Has(before, probe) && tm.View() == T.Expire(before, now, probe) && t in tm.timers
      ensures t in was
    {
      var i :| 0 <= i < |tm.timers| && tm.timers[i] == t;
      assert tm.View()[i] in tm.View();
      ExpireAddsNone(before, now, probe, tm.View()[i]);
      var j :| 0 <= j < |before| && before[j].addr == t.addr;
      assert was[j] in tm.registry && was[j].addr == t.addr;
    }
  }
}
