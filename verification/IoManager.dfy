/** The I/O manager's event side as the program holds it: a vector of context
    objects whose fields and slots are updated in place. Each method is tied to
    the operation of `EventTable` on the table it represents. */
module IoManagers {
  import opened Tasks
  import E = EventTable

  class FdContext {
    const fd: nat
    var events: E.Mask
    var read: E.Slot
    var write: E.Slot

    constructor (fd: nat)
      ensures Record() == E.Blank(fd)
    {
      this.fd, events, read, write := fd, E.NONE, E.EMPTY, E.EMPTY;
    }

    ghost function Record(): E.FdContext
      reads this
    {
      E.FdContext(fd, events, read, write)
    }

    method SetSlot(e: Event, s: E.Slot)
      modifies this`read, this`write
      ensures Record() == E.WithSlot(old(Record()), e, s)
    {
      if e.READ? {
        read := s;
      } else {
        write := s;
      }
    }

    /** Clear the bit and swap the continuation out into the ready queue; `aborted`
        when the assertion that the bit is set fails. */
    method TriggerEvent(e: Event, queue: seq<Task>) returns (queue': seq<Task>, aborted: bool)
      modifies this`events, this`read, this`write
      ensures aborted <==> E.TriggerEvent(old(Record()), e).Missing?
      ensures !aborted ==> Record() == E.TriggerEvent(old(Record()), e).context
      ensures !aborted ==> queue' == queue + E.TriggerEvent(old(Record()), e).woken
    {
      queue', aborted := queue, !E.Has(events, e);
      if aborted {
        return;
      }
      events := E.Minus(events, E.Of(e));
      var slot := if e.READ? then read else write;
      if slot.cb.Some? {
        queue' := queue + [CbTask(slot.cb.value)];
      } else if slot.fiber.Some? {
        queue' := queue + [FiberTask(slot.fiber.value)];
      } else {
        queue' := queue;
      }
      SetSlot(e, E.EMPTY);
    }
  }

  ghost function Records(cs: seq<FdContext>): (rs: seq<E.FdContext>)
    reads cs
    ensures |rs| == |cs| && forall i :: 0 <= i < |cs| ==> rs[i] == cs[i].Record()
  {
    seq(|cs|, i requires 0 <= i < |cs| reads cs => cs[i].Record())
  }

  ghost predicate Separate(cs: seq<FdContext>)
  {
    forall i, j :: 0 <= i < j < |cs| ==> cs[i] != cs[j]
  }

  class IoManager {
    var contexts: seq<FdContext>
    /** What epoll has registered. */
    var kernel: map<nat, E.Mask>
    var pending: int
    /** Tasks handed to the scheduler so far. */
    var queue: seq<Task>

    ghost function View(): E.Table
      reads this, contexts
    {
      E.Table(Records(contexts), kernel, pending)
    }

    function Objects(): set<FdContext>
      reads this
    {
      set c | c in contexts
    }

    /** Contexts are objects of their own, and all views of the events agree. */
    ghost predicate Valid()
      reads this, contexts
    {
      && Separate(contexts)
      && E.Inv(View())
    }

    constructor ()
      ensures Valid() && forall c :: c in contexts ==> fresh(c)
      ensures View() == E.Initial() && queue == []
    {
      contexts, kernel, pending, queue := [], map[], 0, [];
      new;
      assert Separate(contexts) && Records(contexts) == [];
      hide E.Inv, E.Extend, E.Initial, Separate;
      ContextResize(32);
      Started();
    }

    lemma Started()
      requires Records(contexts) == E.Extend([], 32) && kernel == map[] && pending == 0
      ensures View() == E.Initial() && E.Inv(View())
    {
      hide E.Inv, E.Extend;
      E.InitialKeeps();
    }

    method ContextResize(size: nat)
      requires Separate(contexts) && size >= |contexts|
      modifies this`contexts
      ensures Separate(contexts) && forall c :: c in contexts ==> c in old(contexts) || fresh(c)
      ensures Records(contexts) == E.Extend(old(Records(contexts)), size)
    {
      ghost var was := contexts;
      while |contexts| < size
        invariant |was| <= |contexts| <= size && was <= contexts
        invariant forall i :: |was| <= i < |contexts| ==> contexts[i].Record() == E.Blank(i)
        invariant Separate(contexts) && forall c :: c in contexts ==> c in was || fresh(c)
      {
        var c := new FdContext(|contexts|);
        contexts := contexts + [c];
      }
    }

    /** epoll_ctl; the precondition is what the kernel would refuse otherwise. */
    method EpollCtl(op: E.CtlOp, fd: nat, m: E.Mask, succeeds: bool) returns (rt: int)
      requires E.Legal(kernel, op, fd)
      modifies this`kernel
      ensures rt == (if succeeds then 0 else -1)
      ensures kernel == if succeeds then E.Ctl(old(kernel), op, fd, m) else old(kernel)
    {
      if !succeeds {
        return -1;
      }
      kernel := if op.DEL? then kernel - {fd} else kernel[fd := m];
      return 0;
    }

    /** The context of an fd, growing the vector by half until there is one. */
    method ContextFor(fd: nat) returns (c: FdContext)
      requires Valid()
      modifies this`contexts
      ensures Valid() && View() == E.Grow(old(View()), fd)
      ensures fd < |contexts| && c == contexts[fd]
      ensures c in old(contexts) || fresh(c)
      ensures fresh(Objects() - old(Objects()))
    {
      while |contexts| <= fd
        invariant Valid() && fresh(Objects() - old(Objects()))
        invariant E.Grow(View(), fd) == E.Grow(old(View()), fd)
        decreases fd - |contexts|
      {
        GrowByHalf(fd);
      }
      c := contexts[fd];
      assert c in Objects();
    }

    method GrowByHalf(ghost fd: nat)
      requires Valid() && |contexts| <= fd
      modifies this`contexts
      ensures Valid() && |contexts| > old(|contexts|)
      ensures E.Grow(View(), fd) == E.Grow(old(View()), fd)
      ensures fresh(Objects() - old(Objects()))
    {
      assert |View().contexts| >= 2;
      hide E.Inv, E.Extend, E.Grow;
      E.GrowRound(View(), fd);
      E.ResizeKeeps(View(), |contexts| + |contexts| / 2);
      ContextResize(|contexts| + |contexts| / 2);
    }

    /** 0 on success, -1 when epoll_ctl fails; `aborted` when the assertion that
        the event is new fails, which ends the process. */
    method AddEvent(fd: nat, e: Event, k: Task, succeeds: bool) returns (rt: int, aborted: bool)
      requires Valid()
      modifies this`contexts, this`kernel, this`pending, contexts
      ensures aborted <==> E.AddEvent(old(View()), fd, e, k, succeeds).Abort?
      ensures !aborted ==> Valid() && View() == E.AddEvent(old(View()), fd, e, k, succeeds).table
      ensures !aborted ==> rt == if succeeds then 0 else -1
      ensures fresh(Objects() - old(Objects()))
    {
      hide E.Inv, E.ContextOk, E.SlotOk, E.Grow, E.Register;
      E.AddEventKeeps(View(), fd, e, k, succeeds);
      E.GrowKeeps(View(), fd);
      var c := ContextFor(fd);
      E.KnownFd(View(), fd);
      rt, aborted := -1, E.Has(c.events, e);
      if !aborted {
        E.RegisterKeeps(View(), fd, e, k, succeeds);
        rt := Register(fd, c, e, k, succeeds);
      }
    }

    method Register(fd: nat, c: FdContext, e: Event, k: Task, succeeds: bool) returns (rt: int)
      requires Valid() && fd < |contexts| && contexts[fd] == c && !E.Has(c.events, e)
      modifies this`kernel, this`pending, c
      ensures Valid() && E.Known(old(View()), fd) && E.Register(old(View()), fd, e, k, succeeds).Effect?
      ensures View() == E.Register(old(View()), fd, e, k, succeeds).table
      ensures rt == if succeeds then 0 else -1
    {
      hide E.Inv, E.ContextOk, E.SlotOk;
      E.KnownFd(View(), fd);
      E.RegisterKeeps(View(), fd, e, k, succeeds);
      var m := E.Union(c.events, E.Of(e));
      rt := EpollCtl(if c.events != E.NONE then E.MOD else E.ADD, fd, m, succeeds);
      if rt != 0 {
        return;
      }
      pending := pending + 1;
      Occupy(fd, e, k, m);
    }

    method Occupy(fd: nat, e: Event, k: Task, m: E.Mask)
      requires Separate(contexts) && fd < |contexts|
      modifies {contexts[fd]}`events, {contexts[fd]}`read, {contexts[fd]}`write
      ensures Records(contexts) ==
              old(Records(contexts))[fd := E.WithSlot(old(contexts[fd].Record()), e, E.Holding(k)).(events := m)]
    {
      contexts[fd].events := m;
      contexts[fd].SetSlot(e, E.Holding(k));
    }

    /** Trigger the given events of an fd, reading first. */
    method TriggerAll(fd: nat, hit: E.Mask) returns (aborted: bool)
      requires Separate(contexts) && fd < |contexts|
      modifies this`pending, this`queue, {contexts[fd]}`events, {contexts[fd]}`read, {contexts[fd]}`write
      ensures aborted <==> E.TriggerBoth(old(contexts[fd].Record()), hit).Missing?
      ensures !aborted ==> var r := E.TriggerBoth(old(contexts[fd].Record()), hit);
                && Records(contexts) == old(Records(contexts))[fd := r.context]
                && pending == old(pending) - E.Bits(hit) && queue == old(queue) + r.woken
    {
      var c := contexts[fd];
      aborted := false;
      if hit.read {
        queue, aborted := c.TriggerEvent(READ, queue);
        if aborted {
          return;
        }
        pending := pending - 1;
      }
      if hit.write {
        queue, aborted := c.TriggerEvent(WRITE, queue);
        if aborted {
          return;
        }
        pending := pending - 1;
      }
    }

    /** Take registered events out of epoll and, if that succeeds, trigger them. */
    method Deregister(fd: nat, gone: E.Mask, succeeds: bool) returns (rt: int)
      requires Valid() && E.Known(View(), fd) && gone != E.NONE && E.Minus(gone, contexts[fd].events) == E.NONE
      modifies this`kernel, this`pending, this`queue, {contexts[fd]}`events, {contexts[fd]}`read, {contexts[fd]}`write
      ensures Valid() && rt == if succeeds then 0 else -1
      ensures View() == if succeeds then E.Leave(old(View()), fd, gone) else old(View())
      ensures queue == if succeeds then old(queue) + E.Scheduled(old(contexts[fd].Record()), gone) else old(queue)
    {
      hide E.Inv, E.ContextOk, E.SlotOk, E.TriggerBoth;
      E.LeaveKeeps(View(), fd, gone);
      var left := E.Minus(contexts[fd].events, gone);
      rt := EpollCtl(if left != E.NONE then E.MOD else E.DEL, fd, left, succeeds);
      if rt == 0 {
        E.LeaveTriggers(View(), fd, gone);
        var aborted := TriggerAll(fd, gone);
      }
    }

    /** Drop a registered event with its continuation. */
    method DelEvent(fd: nat, e: Event, succeeds: bool) returns (ok: bool)
      requires Valid()
      modifies this`kernel, this`pending, contexts
      ensures Valid() && View() == E.DelEvent(old(View()), fd, e, succeeds).table
      ensures ok == E.DelEvent(old(View()), fd, e, succeeds).ok
    {
      hide E.Inv, E.ContextOk, E.SlotOk;
      E.CancelsKeep(View(), fd, e, succeeds);
      if |contexts| <= fd {
        return false;
      }
      var c := contexts[fd];
      E.KnownFd(View(), fd);
      if !E.Has(c.events, e) {
        return false;
      }
      E.LeaveKeeps(View(), fd, E.Of(e));
      var left := E.Minus(c.events, E.Of(e));
      var rt := EpollCtl(if left != E.NONE then E.MOD else E.DEL, fd, left, succeeds);
      if rt != 0 {
        return false;
      }
      pending := pending - 1;
      Vacate(fd, e, left);
      return true;
    }

    /** Clear a bit and its slot without scheduling anything. */
    method Vacate(fd: nat, e: Event, left: E.Mask)
      requires Separate(contexts) && fd < |contexts|
      modifies {contexts[fd]}`events, {contexts[fd]}`read, {contexts[fd]}`write
      ensures Records(contexts) ==
              old(Records(contexts))[fd := E.WithSlot(old(contexts[fd].Record()), e, E.EMPTY).(events := left)]
    {
      contexts[fd].events := left;
      contexts[fd].SetSlot(e, E.EMPTY);
    }

    method CancelEvent(fd: nat, e: Event, succeeds: bool) returns (ok: bool)
      requires Valid()
      modifies this`kernel, this`pending, this`queue, contexts
      ensures var r := E.CancelEvent(old(View()), fd, e, succeeds);
              Valid() && View() == r.table && queue == old(queue) + r.woken && ok == r.ok
    {
      hide E.Inv, E.ContextOk, E.SlotOk;
      E.CancelsKeep(View(), fd, e, succeeds);
      if |contexts| <= fd {
        return false;
      }
      var c := contexts[fd];
      E.KnownFd(View(), fd);
      if !E.Has(c.events, e) {
        return false;
      }
      var rt := Deregister(fd, E.Of(e), succeeds);
      return rt == 0;
    }

    method CancelAll(fd: nat, succeeds: bool) returns (ok: bool)
      requires Valid()
      modifies this`kernel, this`pending, this`queue, contexts
      ensures var r := E.CancelAll(old(View()), fd, succeeds);
              Valid() && View() == r.table && queue == old(queue) + r.woken && ok == r.ok
    {
      hide E.Inv, E.ContextOk, E.SlotOk, E.TriggerBoth;
      E.CancelsKeep(View(), fd, READ, succeeds);
      if |contexts| <= fd {
        return false;
      }
      var c := contexts[fd];
      E.KnownFd(View(), fd);
      if c.events == E.NONE {
        return false;
      }
      E.LeaveKeeps(View(), fd, c.events);
      var rt := EpollCtl(E.DEL, fd, E.NONE, succeeds);
      if rt != 0 {
        return false;
      }
      E.LeaveTriggers(View(), fd, c.events);
      var aborted := TriggerAll(fd, c.events);
      return true;
    }

    /** One ready fd of the idle loop; `aborted` when triggerEvent's assertion fails. */
    method ProcessReady(fd: nat, r: E.Ready, succeeds: bool) returns (aborted: bool)
      requires Valid() && fd < |contexts|
      modifies this`kernel, this`pending, this`queue, contexts
      ensures E.Known(old(View()), fd)
      ensures aborted <==> E.ProcessReady(old(View()), fd, r, succeeds).Abort?
      ensures !aborted ==> var p := E.ProcessReady(old(View()), fd, r, succeeds);
                           Valid() && View() == p.table && queue == old(queue) + p.woken
    {
      hide E.Inv, E.ContextOk, E.SlotOk, E.TriggerBoth;
      var c := contexts[fd];
      E.KnownFd(View(), fd);
      E.ProcessReadyKeeps(View(), fd, r, succeeds);
      var hit := E.Mask(r.input, r.output);
      if r.error {
        hit := E.Union(hit, c.events);
      }
      if E.Common(c.events, hit) == E.NONE {
        return false;
      }
      var left := E.Minus(c.events, hit);
      var rt := EpollCtl(if left != E.NONE then E.MOD else E.DEL, fd, left, succeeds);
      if rt != 0 {
        return false;
      }
      aborted := TriggerAll(fd, hit);
    }
  }
}
