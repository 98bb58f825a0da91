/** Hooked blocking calls: what a call in flight, its timers and the callbacks
    in circulation know about each other in every reachable state. */
module RuntimeCalls {
  import opened Tasks
  import opened Tally
  import opened Runtime
  import opened RuntimeTokens
  import E = EventTable
  import Q = ReadyQueue

  // ----- calls and their owners -----

  function CallOf(pc: Pc): Option<CallId>
  {
    match pc
    case Trying(c) => Some(c)
    case Armed(c) => Some(c)
    case Registered(c) => Some(c)
    case Woken(c) => Some(c)
    case Checking(c) => Some(c)
    case User => None
    case Asleep(_) => None
  }

  /** Between setting the timer and cancelling it. */
  predicate HoldsTimer(pc: Pc) { pc.Armed? || pc.Registered? || pc.Woken? }

  /** A raw result for which the caller of a blocking call would have been blocked. */
  predicate WouldBlock(kind: Kind, raw: Raw)
  {
    match kind
    case IoCall => raw.EAGAIN?
    case ConnectCall => raw.EINPROGRESS?
  }

  /** A raw result that a blocking call does not return. */
  predicate Unanswered(kind: Kind, raw: Raw)
  {
    WouldBlock(kind, raw) || (kind.IoCall? && raw.EINTR?)
  }

  /** No raw result so far has settled the call. */
  ghost predicate Unsettled(kind: Kind, raws: seq<Raw>)
  {
    forall i :: 0 <= i < |raws| ==> Unanswered(kind, raws[i])
  }

  predicate LastWaits(kind: Kind, raws: seq<Raw>)
  {
    raws != [] && WouldBlock(kind, raws[|raws| - 1])
  }

  ghost predicate HasWaited(kind: Kind, raws: seq<Raw>)
  {
    exists i :: 0 <= i < |raws| && WouldBlock(kind, raws[i])
  }

  /** The call has waited for its whole timeout, counted from its first wait. */
  predicate TimeoutElapsed(s: State, call: Call)
  {
    call.timeout.Some? && call.firstWait.Some? && s.now >= call.firstWait.value + call.timeout.value
  }

  /** An outcome is the first settling raw result, or else the call had to wait
      and ended in one of the other ways open to its kind. */
  ghost predicate OutcomeOk(call: Call)
  {
    match call.outcome
    case Running => Unsettled(call.kind, call.raws)
    case Returned(raw) =>
      && call.raws != [] && raw == call.raws[|call.raws| - 1] && !Unanswered(call.kind, raw)
      && Unsettled(call.kind, call.raws[..|call.raws| - 1])
    case TimedOut => Unsettled(call.kind, call.raws) && LastWaits(call.kind, call.raws) && call.cancelled
    case AddFailed => Unsettled(call.kind, call.raws) && LastWaits(call.kind, call.raws) && call.kind.IoCall?
    case SocketError(_) => Unsettled(call.kind, call.raws) && LastWaits(call.kind, call.raws) && call.kind.ConnectCall?
  }

  ghost predicate CallOk(s: State, call: Call, c: CallId)
  {
    && OutcomeOk(call)
    && (call.firstWait.Some? <==> HasWaited(call.kind, call.raws))
    && (call.kind.ConnectCall? ==> |call.raws| <= 1)
    && (call.firstWait.Some? ==> call.firstWait.value <= s.now)
    && (call.cancelled ==> c in s.expired && TimeoutElapsed(s, call))
    && (call.outcome != Running ==> call.handle.None?)
    && (call.outcome == Running ==>
          var pc := FiberAt(s, call.owner).pc;
          && call.owner < |s.fibers| && CallOf(pc) == Some(c)
          && (HoldsTimer(pc) || pc.Checking? ==> LastWaits(call.kind, call.raws))
          && (pc.Checking? ==> call.kind.ConnectCall?)
          && (call.kind.ConnectCall? && pc.Trying? ==> call.raws == [])
          && (HoldsTimer(pc) ==> call.firstWait.Some?)
          && (call.handle.Some? ==> HoldsTimer(pc) && call.timeout.Some?))
  }

  /** A fiber inside a call is the owner of that one unfinished call. */
  ghost predicate PcOk(s: State, f: FiberId)
    requires f < |s.fibers|
  {
    var c := CallOf(s.fibers[f].pc);
    c.Some? ==> c.value < |s.calls| && s.calls[c.value].owner == f && s.calls[c.value].outcome == Running
  }

  ghost predicate CallsOk(s: State)
  {
    && (forall c :: 0 <= c < |s.calls| ==> CallOk(s, s.calls[c], c))
    && (forall f :: 0 <= f < |s.fibers| ==> PcOk(s, f))
  }

  // ----- callbacks and continuations in circulation -----

  /** A timeout callback refers to a call with that timeout, fd and event. */
  predicate NamesCall(s: State, c: CallId, fd: nat, e: Event)
  {
    && c < |s.calls| && s.calls[c].fd == fd && EventOf(s.calls[c]) == e
    && s.calls[c].timeout.Some? && s.calls[c].firstWait.Some?
  }

  predicate SleepsUntil(s: State, f: FiberId, due: nat)
  {
    f < |s.fibers| && s.fibers[f].pc.Asleep? && s.fibers[f].pc.until <= due
  }

  /** A timer is due no earlier than what it stands for: its call's first wait
      plus the timeout, or its sleeper's wake-up time; a call's timer is the one
      the call holds on to. */
  predicate TimerOk(s: State, t: UserTimer)
  {
    t.cb.Some? &&
    match t.cb.value
    case UserCb(_) => true
    case WakeCb(f) => !t.recurring && SleepsUntil(s, f, t.next)
    case TimeoutCb(c, fd, e) =>
      && !t.recurring && NamesCall(s, c, fd, e)
      && s.calls[c].handle == Some(t.addr)
      && t.next >= s.calls[c].firstWait.value + s.calls[c].timeout.value
  }

  /** Work in the queue or in a hand is not early. */
  predicate TaskOk(s: State, t: Task)
  {
    match t
    case FiberTask(f) => f < |s.fibers| && s.fibers[f].pc.Asleep? ==> SleepsUntil(s, f, s.now)
    case CbTask(cb) =>
      match cb
      case UserCb(_) => true
      case WakeCb(f) => SleepsUntil(s, f, s.now)
      case TimeoutCb(c, fd, e) => NamesCall(s, c, fd, e) && c in s.expired && TimeoutElapsed(s, s.calls[c])
  }

  /** A parked fiber waits in a call on that very fd and event. */
  predicate SlotHolds(s: State, slot: E.Slot, fd: nat, e: Event)
  {
    && (slot.fiber.Some? ==>
          var f := slot.fiber.value;
          f < |s.fibers| && s.fibers[f].pc.Registered? &&
          var c := s.fibers[f].pc.call;
          c < |s.calls| && s.calls[c].fd == fd && EventOf(s.calls[c]) == e)
    && (slot.cb.Some? ==> slot.cb.value.UserCb?)
  }

  ghost predicate TimersOk(s: State)
  {
    forall t :: t in s.timers ==> TimerOk(s, t)
  }

  /** Only its own timer sits at the address a call holds on to. */
  ghost predicate OwnHandles(s: State)
  {
    forall c, t :: 0 <= c < |s.calls| && t in s.timers && s.calls[c].handle == Some(t.addr) ==>
      t.cb.Some? && t.cb.value.TimeoutCb? && t.cb.value.call == c
  }

  ghost predicate QueueOk(s: State)
  {
    forall e :: e in s.queue ==> TaskOk(s, e.task)
  }

  ghost predicate HandOk(s: State, p: Place)
  {
    match p
    case InCallback(cb) => TaskOk(s, CbTask(cb))
    case IdleHand(cbs, _) => forall cb :: cb in cbs ==> TaskOk(s, CbTask(cb))
    case _ => true
  }

  ghost predicate HandsOk(s: State)
  {
    forall w :: 0 <= w < |s.workers| ==> HandOk(s, s.workers[w].place)
  }

  ghost predicate SlotsOk(s: State)
  {
    forall i :: 0 <= i < |s.table.contexts| ==>
      SlotHolds(s, s.table.contexts[i].read, i, READ) && SlotHolds(s, s.table.contexts[i].write, i, WRITE)
  }

  ghost predicate PlacesOk(s: State)
  {
    TimersOk(s) && OwnHandles(s) && QueueOk(s) && HandsOk(s) && SlotsOk(s)
  }

  ghost predicate CallsInv(s: State)
  {
    CallsOk(s) && PlacesOk(s)
  }

  // ----- a fiber without a token is mentioned nowhere -----

  predicate Mentions(t: Task, f: FiberId)
  {
    t == FiberTask(f) || t == CbTask(WakeCb(f))
  }

  ghost predicate Unmentioned(s: State, f: FiberId)
  {
    && (forall e :: e in s.queue ==> !Mentions(e.task, f))
    && (forall t :: t in s.timers ==> t.cb != Some(WakeCb(f)))
    && (forall w :: 0 <= w < |s.workers| ==>
          match s.workers[w].place
          case InCallback(cb) => cb != WakeCb(f)
          case IdleHand(cbs, _) => WakeCb(f) !in cbs
          case _ => true)
    && (forall i :: 0 <= i < |s.table.contexts| ==>
          s.table.contexts[i].read.fiber != Some(f) && s.table.contexts[i].write.fiber != Some(f))
  }

  lemma NoTokenInQueue(s: State, f: FiberId)
    requires Q.Queued(s.queue, TokenOf(f)) == 0
    ensures forall e :: e in s.queue ==> !Mentions(e.task, f)
  {
    forall i | 0 <= i < |s.queue|
      ensures !Mentions(s.queue[i].task, f)
    {
      SumMember(s.queue, i, Q.EntryWeight(TokenOf(f)));
    }
  }

  lemma NoTokenInTimers(s: State, f: FiberId)
    requires Sum(s.timers, TimerWeight(TokenOf(f))) == 0
    ensures forall t :: t in s.timers ==> t.cb != Some(WakeCb(f))
  {
    forall i | 0 <= i < |s.timers|
      ensures s.timers[i].cb != Some(WakeCb(f))
    {
      SumMember(s.timers, i, TimerWeight(TokenOf(f)));
    }
  }

  lemma NoTokenInCallbacks(cbs: seq<Callback>, f: FiberId)
    requires Sum(cbs, CallbackWeight(TokenOf(f))) == 0
    ensures WakeCb(f) !in cbs
  {
    forall i | 0 <= i < |cbs|
      ensures cbs[i] != WakeCb(f)
    {
      SumMember(cbs, i, CallbackWeight(TokenOf(f)));
    }
  }

  lemma NoTokenInHands(s: State, f: FiberId, w: nat)
    requires Sum(s.workers, HandWeight(TokenOf(f))) == 0 && w < |s.workers|
    ensures match s.workers[w].place
            case InCallback(cb) => cb != WakeCb(f)
            case IdleHand(cbs, _) => WakeCb(f) !in cbs
            case _ => true
  {
    SumMember(s.workers, w, HandWeight(TokenOf(f)));
    if s.workers[w].place.IdleHand? {
      NoTokenInCallbacks(s.workers[w].place.cbs, f);
    }
  }

  lemma NoTokenInSlots(s: State, f: FiberId, i: nat)
    requires E.Parked(s.table, TokenOf(f)) == 0 && i < |s.table.contexts|
    ensures s.table.contexts[i].read.fiber != Some(f) && s.table.contexts[i].write.fiber != Some(f)
  {
    SumMember(s.table.contexts, i, E.ContextWeight(TokenOf(f)));
  }

  lemma NoTokenUnmentioned(s: State, f: FiberId)
    requires Total(s, TokenOf(f)) == 0
    ensures Unmentioned(s, f)
  {
    hide Sum;
    NoTokenInQueue(s, f);
    NoTokenInTimers(s, f);
    forall w | 0 <= w < |s.workers|
      ensures match s.workers[w].place
              case InCallback(cb) => cb != WakeCb(f)
              case IdleHand(cbs, _) => WakeCb(f) !in cbs
              case _ => true
    {
      NoTokenInHands(s, f, w);
    }
    forall i | 0 <= i < |s.table.contexts|
      ensures s.table.contexts[i].read.fiber != Some(f) && s.table.contexts[i].write.fiber != Some(f)
    {
      NoTokenInSlots(s, f, i);
    }
  }

  // ----- changing fibers and calls under fixed places -----

  /** What can never be taken back: time passes, timers stay fired, calls keep
      their parameters and the moment of their first wait. */
  ghost predicate Grows(s: State, r: State)
  {
    && s.now <= r.now && s.expired <= r.expired
    && |s.calls| <= |r.calls| && |s.fibers| <= |r.fibers|
    && forall c :: 0 <= c < |s.calls| ==>
         var a, b := s.calls[c], r.calls[c];
         && b.kind == a.kind && b.fd == a.fd && b.owner == a.owner && b.timeout == a.timeout
         && (a.firstWait.Some? ==> b.firstWait == a.firstWait)
  }

  ghost predicate SamePlaces(s: State, r: State)
  {
    r.queue == s.queue && r.timers == s.timers && r.table.contexts == s.table.contexts && r.workers == s.workers
  }

  /** Fibers that somebody refers to have not moved in their program, and calls
      with a timer still hold on to it. */
  ghost predicate Undisturbed(s: State, r: State)
    requires Grows(s, r)
  {
    && (forall f :: |s.fibers| <= f < |r.fibers| ==> !r.fibers[f].pc.Asleep?)
    && (forall f :: 0 <= f < |s.fibers| ==> r.fibers[f].pc == s.fibers[f].pc || Unmentioned(s, f))
    && (forall c :: 0 <= c < |s.calls| ==>
          r.calls[c].handle == s.calls[c].handle ||
          forall t :: t in s.timers ==> Some(t.addr) != s.calls[c].handle && Some(t.addr) != r.calls[c].handle)
    && (forall c :: |s.calls| <= c < |r.calls| ==> r.calls[c].handle.None?)
  }

  lemma PeopleMove(s: State, r: State)
    requires PlacesOk(s) && Grows(s, r) && SamePlaces(s, r) && Undisturbed(s, r)
    ensures PlacesOk(r)
  {
    assert TimersOk(r) && OwnHandles(r);
    assert QueueOk(r);
    assert HandsOk(r);
    assert SlotsOk(r);
  }

  // ----- changing places under fixed fibers and calls -----

  ghost predicate SamePeople(s: State, r: State)
  {
    r.now == s.now && r.expired == s.expired && r.calls == s.calls && r.fibers == s.fibers
  }

  ghost predicate OwnHandle(s: State, t: UserTimer)
  {
    forall c :: 0 <= c < |s.calls| && s.calls[c].handle == Some(t.addr) ==>
      t.cb.Some? && t.cb.value.TimeoutCb? && t.cb.value.call == c
  }

  predicate ContextHolds(s: State, c: E.FdContext, i: nat)
  {
    SlotHolds(s, c.read, i, READ) && SlotHolds(s, c.write, i, WRITE)
  }

  /** Whatever is new in a place has to be all right on its own. */
  lemma PlacesMove(s: State, r: State)
    requires PlacesOk(s) && SamePeople(s, r)
    requires forall e :: e in r.queue ==> e in s.queue || TaskOk(s, e.task)
    requires forall t :: t in r.timers ==> t in s.timers || (TimerOk(s, t) && OwnHandle(s, t))
    requires forall w :: 0 <= w < |r.workers| ==>
               (w < |s.workers| && r.workers[w].place == s.workers[w].place) || HandOk(s, r.workers[w].place)
    requires forall i :: 0 <= i < |r.table.contexts| ==>
               (i < |s.table.contexts| && r.table.contexts[i] == s.table.contexts[i]) || ContextHolds(s, r.table.contexts[i], i)
    ensures PlacesOk(r)
  {
    assert TimersOk(r) && OwnHandles(r);
    assert QueueOk(r);
    forall w | 0 <= w < |r.workers|
      ensures HandOk(r, r.workers[w].place)
    {
      assert w < |s.workers| && r.workers[w].place == s.workers[w].place ==> HandOk(s, s.workers[w].place);
    }
    assert SlotsOk(r);
  }

  lemma {:induction false} UnpinnedTasks(ts: seq<Task>, e: Entry)
    requires e in Q.Unpinned(ts)
    ensures e.task in ts
    decreases |ts|
  {
    if e != Entry(ts[0], -1) {
      UnpinnedTasks(ts[1..], e);
    }
  }

  /** Tasks that leave the event table are not early. */
  lemma ScheduledOk(s: State, fd: nat, gone: E.Mask, t: Task)
    requires SlotsOk(s) && fd < |s.table.contexts| && t in E.Scheduled(s.table.contexts[fd], gone)
    ensures TaskOk(s, t)
  {
    var c := s.table.contexts[fd];
    assert ContextHolds(s, c, fd);
    assert t in E.Woken(c.read) || t in E.Woken(c.write);
  }

  /** The slots after events have left: as before, or empty. */
  lemma LeaveHolds(s: State, fd: nat, gone: E.Mask)
    requires SlotsOk(s) && E.Known(s.table, fd)
    ensures forall i :: 0 <= i < |s.table.contexts| ==>
              ContextHolds(s, E.Leave(s.table, fd, gone).contexts[i], i)
  {
    forall i | 0 <= i < |s.table.contexts|
      ensures ContextHolds(s, E.Leave(s.table, fd, gone).contexts[i], i)
    {
      assert ContextHolds(s, s.table.contexts[i], i);
    }
  }

  /** Outcome of an event-table operation that schedules what it removes. */
  ghost predicate Removal(t: E.Table, r: E.Effect)
  {
    r.Effect? &&
    ((r.table == t && r.woken == []) ||
     exists fd: nat, gone {:trigger E.Leave(t, fd, gone)} ::
       E.Known(t, fd) && r.table == E.Leave(t, fd, gone) && (r.woken == [] || r.woken == E.Scheduled(t.contexts[fd], gone)))
  }

  lemma RemovalHolds(s: State, r: E.Effect)
    requires SlotsOk(s) && Removal(s.table, r)
    ensures |r.table.contexts| == |s.table.contexts|
    ensures forall i :: 0 <= i < |r.table.contexts| ==> ContextHolds(s, r.table.contexts[i], i)
    ensures forall t :: t in r.woken ==> TaskOk(s, t)
  {
    if r.table == s.table && r.woken == [] {
    } else {
      var fd: nat, gone :| E.Known(s.table, fd) && r.table == E.Leave(s.table, fd, gone) &&
                      (r.woken == [] || r.woken == E.Scheduled(s.table.contexts[fd], gone));
      LeaveHolds(s, fd, gone);
      forall t | t in r.woken
        ensures TaskOk(s, t)
      {
        ScheduledOk(s, fd, gone, t);
      }
    }
  }

  /** Removing events and scheduling their continuations keeps the places in order. */
  lemma RemovalMoves(s: State, e: E.Effect, r: State)
    requires PlacesOk(s) && Removal(s.table, e) && SamePeople(s, r)
    requires r.queue == s.queue + Q.Unpinned(e.woken) && r.table == e.table && r.timers == s.timers
    requires |r.workers| == |s.workers|
    requires forall w :: 0 <= w < |r.workers| ==> r.workers[w].place == s.workers[w].place || HandOk(s, r.workers[w].place)
    ensures PlacesOk(r)
  {
    RemovalHolds(s, e);
    forall x | x in r.queue
      ensures x in s.queue || TaskOk(s, x.task)
    {
      if x in Q.Unpinned(e.woken) {
        UnpinnedTasks(e.woken, x);
      }
    }
    PlacesMove(s, r);
  }

  lemma CancelRemoves(t: E.Table, fd: nat, e: Event, ctl: bool)
    ensures Removal(t, E.CancelEvent(t, fd, e, ctl)) && Removal(t, E.CancelAll(t, fd, ctl)) && Removal(t, E.DelEvent(t, fd, e, ctl))
    ensures E.CancelEvent(t, fd, e, ctl).Effect? && E.CancelAll(t, fd, ctl).Effect? && E.DelEvent(t, fd, e, ctl).Effect?
  {
    hide E.Leave, E.Scheduled;
    if E.Known(t, fd) {
      assert E.Leave(t, fd, E.Of(e)) == E.Leave(t, fd, E.Of(e));
      assert E.Leave(t, fd, t.contexts[fd].events) == E.Leave(t, fd, t.contexts[fd].events);
    }
  }

  lemma ReadyRemoves(t: E.Table, fd: nat, r: E.Ready, ctl: bool)
    requires E.Known(t, fd) && E.ProcessReady(t, fd, r, ctl).Effect?
    ensures Removal(t, E.ProcessReady(t, fd, r, ctl))
  {
    hide E.Leave, E.Scheduled, E.ProcessReady;
    E.ProcessReadyIs(t, fd, r, ctl);
    var hit := E.RealEvents(t.contexts[fd], r);
    assert E.Leave(t, fd, hit) == E.Leave(t, fd, hit);
  }

  lemma GrowHolds(s: State, fd: nat)
    requires SlotsOk(s) && E.Inv(s.table)
    ensures forall i :: 0 <= i < |E.Grow(s.table, fd).contexts| ==> ContextHolds(s, E.Grow(s.table, fd).contexts[i], i)
  {
    var g := E.Grow(s.table, fd);
    forall i | 0 <= i < |g.contexts|
      ensures ContextHolds(s, g.contexts[i], i)
    {
      if i < |s.table.contexts| {
        assert ContextHolds(s, s.table.contexts[i], i);
      } else {
        assert g.contexts[i] == E.Blank(i);
      }
    }
  }

  /** A new event parks one continuation that belongs there. */
  lemma AddHolds(s: State, fd: nat, e: Event, k: Task, ctl: bool)
    requires SlotsOk(s) && E.Inv(s.table) && E.AddEvent(s.table, fd, e, k, ctl).Effect?
    requires ctl ==> SlotHolds(s, E.Holding(k), fd, e)
    ensures var t := E.AddEvent(s.table, fd, e, k, ctl).table;
            forall i :: 0 <= i < |t.contexts| ==> ContextHolds(s, t.contexts[i], i)
  {
    E.GrowKeeps(s.table, fd);
    assert E.ContextOk(E.Grow(s.table, fd), fd);
    GrowHolds(s, fd);
  }
}
