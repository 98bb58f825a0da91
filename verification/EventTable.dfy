/** The event table of the I/O manager as a value: per-fd contexts, the kernel's
    interest map, and the count of pending events. */
module EventTable {
  import opened Tasks
  import opened Tally

  /** A set of events (an `m_events` field or an epoll mask). */
  datatype Mask = Mask(read: bool, write: bool)

  const NONE := Mask(false, false)

  function Of(e: Event): Mask { Mask(e.READ?, e.WRITE?) }

  predicate Has(m: Mask, e: Event) { if e.READ? then m.read else m.write }

  function Union(a: Mask, b: Mask): Mask { Mask(a.read || b.read, a.write || b.write) }

  function Common(a: Mask, b: Mask): Mask { Mask(a.read && b.read, a.write && b.write) }

  function Minus(a: Mask, b: Mask): Mask { Mask(a.read && !b.read, a.write && !b.write) }

  function Bits(m: Mask): nat { (if m.read then 1 else 0) + (if m.write then 1 else 0) }

  /** One continuation slot; `scheduled` says that its scheduler pointer is set. */
  datatype Slot = Slot(scheduled: bool, fiber: Option<FiberId>, cb: Option<Callback>)

  const EMPTY := Slot(false, None, None)

  function Holding(k: Task): Slot
  {
    match k
    case FiberTask(f) => Slot(true, Some(f), None)
    case CbTask(cb) => Slot(true, None, Some(cb))
  }

  datatype FdContext = FdContext(fd: nat, events: Mask, read: Slot, write: Slot)

  function SlotOf(c: FdContext, e: Event): Slot { if e.READ? then c.read else c.write }

  function WithSlot(c: FdContext, e: Event, s: Slot): FdContext
  {
    if e.READ? then c.(read := s) else c.(write := s)
  }

  datatype Table = Table(contexts: seq<FdContext>, kernel: map<nat, Mask>, pending: int)

  // ----- the kernel's side -----

  datatype CtlOp = ADD | MOD | DEL

  /** epoll refuses to add a registered fd and to change an unregistered one. */
  predicate Legal(kernel: map<nat, Mask>, op: CtlOp, fd: nat)
  {
    if op.ADD? then fd !in kernel else fd in kernel
  }

  /** The interest map after a successful epoll_ctl. */
  function Ctl(kernel: map<nat, Mask>, op: CtlOp, fd: nat, m: Mask): map<nat, Mask>
  {
    if op.DEL? then kernel - {fd} else kernel[fd := m]
  }

  function AddOp(c: FdContext): CtlOp { if c.events != NONE then MOD else ADD }

  function LeaveOp(left: Mask): CtlOp { if left != NONE then MOD else DEL }

  // ----- the operations -----

  /** What an operation leaves, the tasks it schedules in order, and its return
      value; or a failed assertion, which ends the process. */
  datatype Effect = Effect(table: Table, woken: seq<Task>, ok: bool) | Abort

  /** Size after growing by half until fd fits. */
  function GrownSize(size: nat, fd: nat): (n: nat)
    requires size >= 2
    ensures n > fd && n >= size
    ensures n == size || n <= fd + fd / 2
    decreases fd + 1 - size
  {
    if size > fd then size else GrownSize(size + size / 2, fd)
  }

  function Blank(fd: nat): FdContext { FdContext(fd, NONE, EMPTY, EMPTY) }

  /** context_resize to a larger size: old contexts stay, new ones are blank. */
  function Extend(cs: seq<FdContext>, size: nat): (r: seq<FdContext>)
    ensures cs <= r && (size >= |cs| ==> |r| == size)
    ensures forall i :: |cs| <= i < |r| ==> r[i] == Blank(i)
  {
    if |cs| >= size then cs else cs + seq(size - |cs|, i requires 0 <= i => Blank(|cs| + i))
  }

  function Grow(t: Table, fd: nat): (g: Table)
    requires |t.contexts| >= 2
    ensures fd < |g.contexts|
  {
    if |t.contexts| > fd then t
    else t.(contexts := Extend(t.contexts, GrownSize(|t.contexts|, fd)))
  }

  predicate Known(t: Table, fd: nat) { fd < |t.contexts| && t.contexts[fd].fd == fd }

  function Put(t: Table, c: FdContext, kernel: map<nat, Mask>, pending: int): Table
    requires c.fd < |t.contexts|
  {
    Table(t.contexts[c.fd := c], kernel, pending)
  }

  /** The part of add_event after its first assertion, on an fd in range. */
  function Register(t: Table, fd: nat, e: Event, k: Task, ctl: bool): Effect
    requires Known(t, fd)
  {
    var c := t.contexts[fd];
    if !ctl then Effect(t, [], false)
    else if SlotOf(c, e) != EMPTY then Abort
    else
      var m := Union(c.events, Of(e));
      Effect(Put(t, WithSlot(c, e, Holding(k)).(events := m), Ctl(t.kernel, AddOp(c), fd, m), t.pending + 1), [], true)
  }

  /** add_event: `ctl` is whether epoll_ctl succeeds. */
  function AddEvent(t: Table, fd: nat, e: Event, k: Task, ctl: bool): Effect
    requires |t.contexts| >= 2
  {
    var g := Grow(t, fd);
    if !Known(g, fd) || Has(g.contexts[fd].events, e) then Abort else Register(g, fd, e, k, ctl)
  }

  /** triggerEvent: the bit goes, the continuation is scheduled, the slot empties. */
  function Trigger(c: FdContext, e: Event): FdContext
  {
    WithSlot(c, e, EMPTY).(events := Minus(c.events, Of(e)))
  }

  function Woken(s: Slot): seq<Task>
  {
    if s.cb.Some? then [CbTask(s.cb.value)]
    else if s.fiber.Some? then [FiberTask(s.fiber.value)]
    else []
  }

  /** The events present and asked for leave the table; for del_event their
      continuations are dropped, for the others they are scheduled. */
  function Leave(t: Table, fd: nat, gone: Mask): Table
    requires fd < |t.contexts| && t.contexts[fd].fd == fd
  {
    var c := t.contexts[fd];
    var left := Minus(c.events, gone);
    var c1 := if gone.read then Trigger(c, READ) else c;
    var c2 := if gone.write then Trigger(c1, WRITE) else c1;
    Put(t, c2, Ctl(t.kernel, LeaveOp(left), fd, left), t.pending - Bits(gone))
  }

  function Scheduled(c: FdContext, gone: Mask): seq<Task>
  {
    (if gone.read then Woken(c.read) else []) + (if gone.write then Woken(c.write) else [])
  }

  function DelEvent(t: Table, fd: nat, e: Event, ctl: bool): Effect
  {
    if !Known(t, fd) || !Has(t.contexts[fd].events, e) || !ctl then Effect(t, [], false)
    else Effect(Leave(t, fd, Of(e)), [], true)
  }

  function CancelEvent(t: Table, fd: nat, e: Event, ctl: bool): Effect
  {
    if !Known(t, fd) || !Has(t.contexts[fd].events, e) || !ctl then Effect(t, [], false)
    else Effect(Leave(t, fd, Of(e)), Scheduled(t.contexts[fd], Of(e)), true)
  }

  function CancelAll(t: Table, fd: nat, ctl: bool): Effect
  {
    if !Known(t, fd) || t.contexts[fd].events == NONE || !ctl then Effect(t, [], false)
    else Effect(Leave(t, fd, t.contexts[fd].events), Scheduled(t.contexts[fd], t.contexts[fd].events), true)
  }

  /** One entry of the epoll_wait result: readable, writable, error or hang-up. */
  datatype Ready = Ready(input: bool, output: bool, error: bool)

  function RealEvents(c: FdContext, r: Ready): Mask
  {
    Mask(r.input || (r.error && c.events.read), r.output || (r.error && c.events.write))
  }

  /** What triggerEvent leaves of a context and schedules, or its failed assertion. */
  datatype Triggered = Triggered(context: FdContext, woken: seq<Task>) | Missing

  function TriggerEvent(c: FdContext, e: Event): Triggered
  {
    if Has(c.events, e) then Triggered(Trigger(c, e), Woken(SlotOf(c, e))) else Missing
  }

  /** Triggering what was reported, reading first. */
  function TriggerBoth(c: FdContext, hit: Mask): (r: Triggered)
    ensures r.Triggered? ==> r.context.fd == c.fd
  {
    var first := if hit.read then TriggerEvent(c, READ) else Triggered(c, []);
    if first.Missing? || !hit.write then first
    else
      match TriggerEvent(first.context, WRITE)
      case Missing => Missing
      case Triggered(d, woken) => Triggered(d, first.woken + woken)
  }

  /** The body of the idle loop for one ready fd. */
  function ProcessReady(t: Table, fd: nat, r: Ready, ctl: bool): Effect
    requires Known(t, fd)
  {
    var c := t.contexts[fd];
    var hit := RealEvents(c, r);
    if Common(c.events, hit) == NONE || !ctl then Effect(t, [], false)
    else
      var left := Minus(c.events, hit);
      match TriggerBoth(c, hit)
      case Missing => Abort
      case Triggered(d, woken) =>
        Effect(Put(t, d, Ctl(t.kernel, LeaveOp(left), fd, left), t.pending - Bits(hit)), woken, true)
  }

  // ----- agreement -----

  /** A set bit means a scheduler and exactly one of fiber and callback; a clear
      bit means an empty slot. */
  predicate SlotOk(bit: bool, s: Slot)
  {
    if bit then s.scheduled && s.fiber.Some? != s.cb.Some? else s == EMPTY
  }

  ghost predicate ContextOk(t: Table, i: nat)
    requires i < |t.contexts|
  {
    var c := t.contexts[i];
    && c.fd == i
    && (if c.events == NONE then i !in t.kernel else i in t.kernel && t.kernel[i] == c.events)
    && SlotOk(c.events.read, c.read) && SlotOk(c.events.write, c.write)
  }

  function BitsOf(): FdContext -> nat { (c: FdContext) => Bits(c.events) }

  ghost predicate Inv(t: Table)
  {
    && |t.contexts| >= 2
    && (forall i :: 0 <= i < |t.contexts| ==> ContextOk(t, i))
    && (forall fd :: fd in t.kernel ==> fd < |t.contexts|)
    && t.pending == Sum(t.contexts, BitsOf())
  }

  lemma PutKeeps(t: Table, c: FdContext, kernel: map<nat, Mask>, pending: int)
    requires Inv(t) && c.fd < |t.contexts|
    requires SlotOk(c.events.read, c.read) && SlotOk(c.events.write, c.write)
    requires if c.events == NONE then c.fd !in kernel else c.fd in kernel && kernel[c.fd] == c.events
    requires forall fd :: fd != c.fd ==> (fd in kernel <==> fd in t.kernel) && (fd in kernel ==> kernel[fd] == t.kernel[fd])
    requires pending == t.pending - Bits(t.contexts[c.fd].events) + Bits(c.events)
    ensures Inv(Put(t, c, kernel, pending))
  {
    SumUpdate(t.contexts, c.fd, c, BitsOf());
    var p := Put(t, c, kernel, pending);
    forall i | 0 <= i < |p.contexts|
      ensures ContextOk(p, i)
    {
      assert ContextOk(t, i);
    }
  }

  /** The table of a new I/O manager. */
  function Initial(): Table
  {
    Table(Extend([], 32), map[], 0)
  }

  lemma InitialKeeps()
    ensures Inv(Initial())
  {
    BlankKeeps(Extend([], 32), (k: Task) => 0);
  }

  lemma BlankKeeps(cs: seq<FdContext>, w: Task -> nat)
    requires |cs| >= 2 && forall i :: 0 <= i < |cs| ==> cs[i] == Blank(i)
    ensures Inv(Table(cs, map[], 0)) && Parked(Table(cs, map[], 0), w) == 0
  {
    SumZero(cs, BitsOf());
    SumZero(cs, ContextWeight(w));
  }

  /** One round of the growth loop is on the way to the same table. */
  lemma GrowRound(t: Table, fd: nat)
    requires 2 <= |t.contexts| <= fd
    ensures var r := t.(contexts := Extend(t.contexts, |t.contexts| + |t.contexts| / 2));
            |r.contexts| > |t.contexts| && Grow(r, fd) == Grow(t, fd)
  {
    var n := |t.contexts| + |t.contexts| / 2;
    var r := Extend(t.contexts, n);
    var full := Extend(t.contexts, GrownSize(|t.contexts|, fd));
    assert Extend(r, GrownSize(n, fd)) == full;
  }

  lemma ResizeKeeps(t: Table, size: nat)
    requires Inv(t) && size >= |t.contexts|
    ensures Inv(t.(contexts := Extend(t.contexts, size)))
  {
    var r := t.(contexts := Extend(t.contexts, size));
    var more := r.contexts[|t.contexts|..];
    assert r.contexts == t.contexts + more;
    SumConcat(t.contexts, more, BitsOf());
    SumZero(more, BitsOf());
    forall i | 0 <= i < |r.contexts|
      ensures ContextOk(r, i)
    {
      if i < |t.contexts| {
        assert ContextOk(t, i);
      }
    }
  }

  /** Context growth: the vector ends above fd and, if it had to grow, at most
      half again as large as fd; existing contexts stay where they are. */
  lemma GrowKeeps(t: Table, fd: nat)
    requires Inv(t)
    ensures Inv(Grow(t, fd)) && Grow(t, fd).pending == t.pending && Grow(t, fd).kernel == t.kernel
    ensures t.contexts <= Grow(t, fd).contexts && fd < |Grow(t, fd).contexts|
    ensures |Grow(t, fd).contexts| == |t.contexts| || |Grow(t, fd).contexts| <= fd + fd / 2
  {
    if |t.contexts| <= fd {
      ResizeKeeps(t, GrownSize(|t.contexts|, fd));
    }
  }

  lemma RegisterKeeps(t: Table, fd: nat, e: Event, k: Task, ctl: bool)
    requires Inv(t) && Known(t, fd) && !Has(t.contexts[fd].events, e)
    ensures var r := Register(t, fd, e, k, ctl);
            && r.Effect? && Inv(r.table) && r.ok == ctl
            && (ctl ==> r.table.pending == t.pending + 1 && Has(r.table.contexts[fd].events, e) &&
                        SlotOf(r.table.contexts[fd], e) == Holding(k))
    ensures Legal(t.kernel, AddOp(t.contexts[fd]), fd)
  {
    var c := t.contexts[fd];
    assert ContextOk(t, fd);
    var m := Union(c.events, Of(e));
    PutKeeps(t, WithSlot(c, e, Holding(k)).(events := m), Ctl(t.kernel, AddOp(c), fd, m), t.pending + 1);
  }

  /** add_event refuses exactly a bit that is already there; otherwise it issues
      a legal epoll_ctl and keeps the four views in agreement whatever the
      answer, parking the continuation in the slot if it succeeds. */
  lemma AddEventKeeps(t: Table, fd: nat, e: Event, k: Task, ctl: bool)
    requires Inv(t)
    ensures var r := AddEvent(t, fd, e, k, ctl);
            && (r.Abort? <==> fd < |t.contexts| && Has(t.contexts[fd].events, e))
            && (r.Effect? ==> Inv(r.table) && r.ok == ctl)
            && (r.Effect? && ctl ==>
                  fd < |r.table.contexts| && r.table.pending == t.pending + 1 && Has(r.table.contexts[fd].events, e) &&
                  SlotOf(r.table.contexts[fd], e) == Holding(k))
    ensures Legal(t.kernel, AddOp(Grow(t, fd).contexts[fd]), fd)
  {
    GrowKeeps(t, fd);
    var g := Grow(t, fd);
    assert ContextOk(g, fd);
    if !Has(g.contexts[fd].events, e) {
      RegisterKeeps(g, fd, e, k, ctl);
    }
  }

  lemma LeaveKeeps(t: Table, fd: nat, gone: Mask)
    requires Inv(t) && Known(t, fd) && Minus(gone, t.contexts[fd].events) == NONE && gone != NONE
    ensures Inv(Leave(t, fd, gone))
    ensures Leave(t, fd, gone).contexts[fd].events == Minus(t.contexts[fd].events, gone)
    ensures Leave(t, fd, gone).pending == t.pending - Bits(gone)
    ensures Legal(t.kernel, LeaveOp(Minus(t.contexts[fd].events, gone)), fd)
  {
    assert ContextOk(t, fd);
    var left := Minus(t.contexts[fd].events, gone);
    var c := Leave(t, fd, gone).contexts[fd];
    PutKeeps(t, c, Ctl(t.kernel, LeaveOp(left), fd, left), t.pending - Bits(gone));
  }

  /** What agreement says of one fd. */
  lemma KnownFd(t: Table, fd: nat)
    requires Inv(t) && fd < |t.contexts|
    ensures Known(t, fd) && ContextOk(t, fd)
  {
    assert ContextOk(t, fd);
  }

  /** Registered events leave by being triggered one after the other. */
  lemma LeaveTriggers(t: Table, fd: nat, gone: Mask)
    requires Known(t, fd) && Minus(gone, t.contexts[fd].events) == NONE
    ensures TriggerBoth(t.contexts[fd], gone) ==
            Triggered(Leave(t, fd, gone).contexts[fd], Scheduled(t.contexts[fd], gone))
    ensures Leave(t, fd, gone).contexts == t.contexts[fd := Leave(t, fd, gone).contexts[fd]]
  {
  }

  /** Agreement survives del_event, cancel_event and cancel_all, successful or not. */
  lemma CancelsKeep(t: Table, fd: nat, e: Event, ctl: bool)
    requires Inv(t)
    ensures Inv(DelEvent(t, fd, e, ctl).table)
    ensures Inv(CancelEvent(t, fd, e, ctl).table)
    ensures Inv(CancelAll(t, fd, ctl).table)
    ensures CancelAll(t, fd, ctl).ok ==> fd !in CancelAll(t, fd, ctl).table.kernel
  {
    if Known(t, fd) {
      assert ContextOk(t, fd);
      if Has(t.contexts[fd].events, e) {
        LeaveKeeps(t, fd, Of(e));
      }
      if t.contexts[fd].events != NONE {
        LeaveKeeps(t, fd, t.contexts[fd].events);
        assert ContextOk(Leave(t, fd, t.contexts[fd].events), fd);
      }
    }
  }

  /** Triggering one event after the other comes to their leaving together, unless
      one of them is gone. */
  lemma ProcessReadyIs(t: Table, fd: nat, r: Ready, ctl: bool)
    requires Known(t, fd)
    ensures var c := t.contexts[fd]; var hit := RealEvents(c, r);
            ProcessReady(t, fd, r, ctl) ==
            if Common(c.events, hit) == NONE || !ctl then Effect(t, [], false)
            else if Minus(hit, c.events) != NONE then Abort
            else Effect(Leave(t, fd, hit), Scheduled(c, hit), true)
  {
    assert Woken(t.contexts[fd].write) + [] == [] + Woken(t.contexts[fd].write) == Woken(t.contexts[fd].write);
    assert Woken(t.contexts[fd].read) + [] == Woken(t.contexts[fd].read);
  }

  /** The idle loop's processing issues a legal epoll_ctl and keeps agreement, and
      trips the assertion of triggerEvent exactly on a stale report: some but not
      all of the reported events are still registered (and epoll_ctl succeeds). */
  lemma ProcessReadyKeeps(t: Table, fd: nat, r: Ready, ctl: bool)
    requires Inv(t) && Known(t, fd)
    ensures var hit := RealEvents(t.contexts[fd], r); var events := t.contexts[fd].events;
            ProcessReady(t, fd, r, ctl).Abort? <==>
            ctl && Common(events, hit) != NONE && Minus(hit, events) != NONE
    ensures ProcessReady(t, fd, r, ctl).Effect? ==> Inv(ProcessReady(t, fd, r, ctl).table)
    ensures var hit := RealEvents(t.contexts[fd], r); var events := t.contexts[fd].events;
            Common(events, hit) != NONE ==> Legal(t.kernel, LeaveOp(Minus(events, hit)), fd)
  {
    hide ProcessReady;
    assert ContextOk(t, fd);
    ProcessReadyIs(t, fd, r, ctl);
    var hit := RealEvents(t.contexts[fd], r);
    if Common(t.contexts[fd].events, hit) != NONE && Minus(hit, t.contexts[fd].events) == NONE {
      LeaveKeeps(t, fd, hit);
    }
  }

  /** An event that is added and then cancelled gives its continuation back and
      leaves the table as it was, but for its size; a refused one leaves nothing. */
  lemma AddCancelRoundTrip(t: Table, fd: nat, e: Event, k: Task)
    requires Inv(t) && !(fd < |t.contexts| && Has(t.contexts[fd].events, e))
    ensures AddEvent(t, fd, e, k, false) == Effect(Grow(t, fd), [], false)
    ensures AddEvent(t, fd, e, k, true).Effect?
    ensures CancelEvent(AddEvent(t, fd, e, k, true).table, fd, e, true) == Effect(Grow(t, fd), [k], true)
    ensures var g := Grow(t, fd); fd < |g.contexts| && !Has(g.contexts[fd].events, e)
  {
    AddEventKeeps(t, fd, e, k, true);
    GrowKeeps(t, fd);
    var g := Grow(t, fd);
    KnownFd(g, fd);
    BlankGrown(t, fd);
    RegisterCancel(g, fd, e, k);
  }

  lemma GrowTwice(t: Table, fd: nat)
    requires |t.contexts| >= 2
    ensures |Grow(t, fd).contexts| >= 2 && Grow(Grow(t, fd), fd) == Grow(t, fd)
  {
  }

  lemma BlankGrown(t: Table, fd: nat)
    requires |t.contexts| >= 2
    ensures forall i :: |t.contexts| <= i < |Grow(t, fd).contexts| ==> Grow(t, fd).contexts[i] == Blank(i)
  {
  }

  lemma RegisterCancel(g: Table, fd: nat, e: Event, k: Task)
    requires Inv(g) && Known(g, fd) && !Has(g.contexts[fd].events, e)
    ensures Register(g, fd, e, k, true).Effect?
    ensures CancelEvent(Register(g, fd, e, k, true).table, fd, e, true) == Effect(g, [k], true)
  {
    KnownFd(g, fd);
    var a := Register(g, fd, e, k, true).table;
    var c := g.contexts[fd];
    var left := Leave(a, fd, Of(e));
    assert left.contexts[fd] == c;
    assert left.contexts == g.contexts;
    assert left.kernel == g.kernel;
    assert Scheduled(a.contexts[fd], Of(e)) == [k];
  }

  // ----- what becomes of each slot -----

  /** The task continues what the slot holds; a callback comes before a fiber. */
  predicate Continues(k: Task, s: Slot)
  {
    match k
    case FiberTask(f) => s.cb.None? && s.fiber == Some(f)
    case CbTask(cb) => s.cb == Some(cb)
  }

  /** From t to r the given events of fd are gone and their slots empty; its other
      slot, and every other fd, is as before. */
  ghost predicate LeftExactly(t: Table, r: Table, fd: nat, read: bool, write: bool)
    requires fd < |t.contexts|
  {
    && |r.contexts| == |t.contexts|
    && (forall i :: 0 <= i < |t.contexts| && i != fd ==> r.contexts[i] == t.contexts[i])
    && (forall g :: g != fd ==> (g in r.kernel <==> g in t.kernel) && (g in t.kernel ==> r.kernel[g] == t.kernel[g]))
    && var c, d := t.contexts[fd], r.contexts[fd];
       && d.fd == c.fd
       && d.events.read == (c.events.read && !read) && d.read == (if read then EMPTY else c.read)
       && d.events.write == (c.events.write && !write) && d.write == (if write then EMPTY else c.write)
  }

  /** Just the continuations of these slots, reading first. */
  ghost predicate WokenExactly(woken: seq<Task>, c: FdContext, read: bool, write: bool)
  {
    && |woken| == (if read then 1 else 0) + (if write then 1 else 0)
    && (read ==> Continues(woken[0], c.read))
    && (write ==> Continues(woken[|woken| - 1], c.write))
  }

  lemma LeaveExact(t: Table, fd: nat, gone: Mask)
    requires Inv(t) && Known(t, fd) && Minus(gone, t.contexts[fd].events) == NONE
    ensures LeftExactly(t, Leave(t, fd, gone), fd, gone.read, gone.write)
    ensures WokenExactly(Scheduled(t.contexts[fd], gone), t.contexts[fd], gone.read, gone.write)
  {
    assert ContextOk(t, fd);
  }

  /** Readiness, bit by bit: reading goes on exactly if it was waited for and the fd
      is readable or has failed, writing likewise; the process ends exactly if
      something is to go on and something reported is not waited for. */
  lemma ReadyExact(t: Table, fd: nat, r: Ready, ctl: bool)
    requires Inv(t) && Known(t, fd)
    ensures var p := ProcessReady(t, fd, r, ctl); var c := t.contexts[fd];
            var read := Has(c.events, READ) && (r.input || r.error);
            var write := Has(c.events, WRITE) && (r.output || r.error);
            && (p.Abort? <==>
                  ctl && (read || write) && ((r.input && !Has(c.events, READ)) || (r.output && !Has(c.events, WRITE))))
            && (p.Effect? && ctl && (read || write) ==>
                  LeftExactly(t, p.table, fd, read, write) && WokenExactly(p.woken, c, read, write))
            && (p.Effect? && !(ctl && (read || write)) ==> p.table == t && p.woken == [])
  {
    hide ProcessReady, LeftExactly, WokenExactly;
    ProcessReadyIs(t, fd, r, ctl);
    var hit := RealEvents(t.contexts[fd], r);
    if Minus(hit, t.contexts[fd].events) == NONE {
      LeaveExact(t, fd, hit);
    }
  }

  /** Each removal succeeds exactly if there is something to remove and epoll_ctl
      succeeds, and removes just that; del_event schedules nothing. */
  lemma CancelsExact(t: Table, fd: nat, e: Event, ctl: bool)
    requires Inv(t)
    ensures var d, r := DelEvent(t, fd, e, ctl), CancelEvent(t, fd, e, ctl);
            && (d.ok <==> fd < |t.contexts| && Has(t.contexts[fd].events, e) && ctl) && (r.ok <==> d.ok)
            && (d.ok ==> LeftExactly(t, d.table, fd, e.READ?, e.WRITE?)) && d.woken == []
            && (r.ok ==> LeftExactly(t, r.table, fd, e.READ?, e.WRITE?) && WokenExactly(r.woken, t.contexts[fd], e.READ?, e.WRITE?))
            && (!d.ok ==> d.table == r.table == t && r.woken == [])
    ensures var r := CancelAll(t, fd, ctl);
            && (r.ok <==> fd < |t.contexts| && (t.contexts[fd].events.read || t.contexts[fd].events.write) && ctl)
            && (r.ok ==> var m := t.contexts[fd].events;
                         LeftExactly(t, r.table, fd, m.read, m.write) && WokenExactly(r.woken, t.contexts[fd], m.read, m.write))
            && (!r.ok ==> r.table == t && r.woken == [])
  {
    hide LeftExactly, WokenExactly, Leave, Scheduled;
    if fd < |t.contexts| {
      KnownFd(t, fd);
      if Has(t.contexts[fd].events, e) {
        LeaveExact(t, fd, Of(e));
      }
      LeaveExact(t, fd, t.contexts[fd].events);
    }
  }

  /** A new event sets its bit and fills its slot; its fd's other slot, and every
      other fd, is as before or blank. */
  lemma AddEventExact(t: Table, fd: nat, e: Event, k: Task)
    requires Inv(t) && AddEvent(t, fd, e, k, true).Effect?
    ensures var r := AddEvent(t, fd, e, k, true).table;
            && (forall i :: 0 <= i < |r.contexts| && i != fd ==>
                  r.contexts[i] == if i < |t.contexts| then t.contexts[i] else FdContext(i, NONE, EMPTY, EMPTY))
            && fd < |r.contexts|
            && var c := if fd < |t.contexts| then t.contexts[fd] else FdContext(fd, NONE, EMPTY, EMPTY); var d := r.contexts[fd];
               && d.fd == fd && d.events == Mask(c.events.read || e.READ?, c.events.write || e.WRITE?)
               && (if e.READ? then Continues(k, d.read) && d.read.scheduled && d.write == c.write
                   else Continues(k, d.write) && d.write.scheduled && d.read == c.read)
  {
    GrowKeeps(t, fd);
    BlankGrown(t, fd);
    KnownFd(Grow(t, fd), fd);
  }

  // ----- conservation of continuations -----

  function SlotWeight(s: Slot, w: Task -> nat): nat
  {
    (if s.fiber.Some? then w(FiberTask(s.fiber.value)) else 0) + (if s.cb.Some? then w(CbTask(s.cb.value)) else 0)
  }

  function ContextWeight(w: Task -> nat): FdContext -> nat
  {
    (c: FdContext) => SlotWeight(c.read, w) + SlotWeight(c.write, w)
  }

  /** Weight of all continuations parked in the table. */
  function Parked(t: Table, w: Task -> nat): nat
  {
    Sum(t.contexts, ContextWeight(w))
  }

  lemma ExtendParks(t: Table, size: nat, w: Task -> nat)
    ensures Parked(t.(contexts := Extend(t.contexts, size)), w) == Parked(t, w)
  {
    var r := Extend(t.contexts, size);
    assert r == t.contexts + r[|t.contexts|..];
    SumConcat(t.contexts, r[|t.contexts|..], ContextWeight(w));
    SumZero(r[|t.contexts|..], ContextWeight(w));
  }

  lemma GrowParks(t: Table, fd: nat, w: Task -> nat)
    requires Inv(t)
    ensures Parked(Grow(t, fd), w) == Parked(t, w)
  {
    if |t.contexts| <= fd {
      ExtendParks(t, GrownSize(|t.contexts|, fd), w);
    }
  }

  /** A successful add_event parks exactly the given continuation. */
  lemma AddEventParks(t: Table, fd: nat, e: Event, k: Task, ctl: bool, w: Task -> nat)
    requires Inv(t) && AddEvent(t, fd, e, k, ctl).Effect?
    ensures Parked(AddEvent(t, fd, e, k, ctl).table, w) == Parked(t, w) + if ctl then w(k) else 0
  {
    GrowKeeps(t, fd);
    GrowParks(t, fd, w);
    var g := Grow(t, fd);
    var c := g.contexts[fd];
    assert ContextOk(g, fd);
    if ctl {
      SumUpdate(g.contexts, fd, WithSlot(c, e, Holding(k)).(events := Union(c.events, Of(e))), ContextWeight(w));
    }
  }

  /** Whatever leaves the table is scheduled, once. */
  lemma LeaveConserves(t: Table, fd: nat, gone: Mask, w: Task -> nat)
    requires Inv(t) && Known(t, fd) && Minus(gone, t.contexts[fd].events) == NONE
    ensures Parked(Leave(t, fd, gone), w) + Sum(Scheduled(t.contexts[fd], gone), w) == Parked(t, w)
  {
    assert ContextOk(t, fd);
    var c := t.contexts[fd];
    SumUpdate(t.contexts, fd, Leave(t, fd, gone).contexts[fd], ContextWeight(w));
    WokenWeight(c.read, c.events.read, w);
    WokenWeight(c.write, c.events.write, w);
    SumConcat(if gone.read then Woken(c.read) else [], if gone.write then Woken(c.write) else [], w);
  }

  lemma WokenWeight(s: Slot, bit: bool, w: Task -> nat)
    requires SlotOk(bit, s)
    ensures Sum(Woken(s), w) == SlotWeight(s, w)
  {
    if s.cb.Some? {
      SumOne(CbTask(s.cb.value), w);
    } else if s.fiber.Some? {
      SumOne(FiberTask(s.fiber.value), w);
    }
  }

  /** cancel_event and cancel_all move continuations to the queue and lose none. */
  lemma CancelsConserve(t: Table, fd: nat, e: Event, ctl: bool, w: Task -> nat)
    requires Inv(t)
    ensures var c := CancelEvent(t, fd, e, ctl); Parked(c.table, w) + Sum(c.woken, w) == Parked(t, w)
    ensures var c := CancelAll(t, fd, ctl); Parked(c.table, w) + Sum(c.woken, w) == Parked(t, w)
  {
    if Known(t, fd) {
      if Has(t.contexts[fd].events, e) {
        LeaveConserves(t, fd, Of(e), w);
      }
      LeaveConserves(t, fd, t.contexts[fd].events, w);
    }
  }

  /** So does readiness, unless the process ends. */
  lemma ReadyConserves(t: Table, fd: nat, r: Ready, ctl: bool, w: Task -> nat)
    requires Inv(t) && Known(t, fd) && ProcessReady(t, fd, r, ctl).Effect?
    ensures var c := ProcessReady(t, fd, r, ctl); Parked(c.table, w) + Sum(c.woken, w) == Parked(t, w)
  {
    hide ProcessReady;
    ProcessReadyIs(t, fd, r, ctl);
    if Minus(RealEvents(t.contexts[fd], r), t.contexts[fd].events) == NONE {
      LeaveConserves(t, fd, RealEvents(t.contexts[fd], r), w);
    }
  }

  /** del_event schedules nothing, so what it removes is lost: conservation holds
      for it exactly unless it removes an event whose continuation weighs something. */
  lemma DelEventDrops(t: Table, fd: nat, e: Event, ctl: bool, w: Task -> nat)
    requires Inv(t)
    ensures var d := DelEvent(t, fd, e, ctl);
            Parked(d.table, w) + Sum(d.woken, w) == Parked(t, w) <==>
            (Known(t, fd) && Has(t.contexts[fd].events, e) && ctl ==> SlotWeight(SlotOf(t.contexts[fd], e), w) == 0)
  {
    if Known(t, fd) && Has(t.contexts[fd].events, e) && ctl {
      LeaveConserves(t, fd, Of(e), w);
      assert ContextOk(t, fd);
      var s := SlotOf(t.contexts[fd], e);
      WokenWeight(s, true, w);
      assert Scheduled(t.contexts[fd], Of(e)) == Woken(s);
    }
  }

  /** So a fiber that waits on a new manager's first event is dropped by del_event:
      it is parked before, and neither parked nor scheduled after. */
  lemma DelEventDropsWaiter(fd: nat, e: Event, f: FiberId, w: Task -> nat)
    ensures var a := AddEvent(Initial(), fd, e, FiberTask(f), true);
            a.Effect? && Parked(a.table, w) == w(FiberTask(f)) &&
            var d := DelEvent(a.table, fd, e, true); d.ok && d.woken == [] && Parked(d.table, w) == 0
  {
    hide Sum, AddEvent, Parked, Initial, Inv;
    var t := Initial();
    InitialKeeps();
    InitialParks(w);
    AddEventKeeps(t, fd, e, FiberTask(f), true);
    InitialBlank(fd, e);
    AddEventParks(t, fd, e, FiberTask(f), true, w);
    AddedDropped(AddEvent(t, fd, e, FiberTask(f), true).table, fd, e, f, w);
  }

  lemma InitialParks(w: Task -> nat)
    ensures Parked(Initial(), w) == 0
  {
    BlankKeeps(Extend([], 32), w);
  }

  lemma InitialBlank(fd: nat, e: Event)
    ensures fd < |Initial().contexts| ==> !Has(Initial().contexts[fd].events, e)
  {
  }

  lemma AddedDropped(t: Table, fd: nat, e: Event, f: FiberId, w: Task -> nat)
    requires Inv(t) && fd < |t.contexts| && Has(t.contexts[fd].events, e)
    requires SlotOf(t.contexts[fd], e) == Holding(FiberTask(f))
    ensures var d := DelEvent(t, fd, e, true);
            d.ok && d.woken == [] && Parked(d.table, w) + w(FiberTask(f)) == Parked(t, w)
  {
    hide Sum, Parked;
    assert ContextOk(t, fd);
    LeaveConserves(t, fd, Of(e), w);
    assert Scheduled(t.contexts[fd], Of(e)) == [FiberTask(f)];
    SumOne(FiberTask(f), w);
  }
}
