/** Timers and their manager as the program holds them: mutable objects in an
    ordered set, re-keyed in place. Every method is tied to the operation of
    `TimerSet` it performs on the set's contents. */
module TimerManagers {
  import opened Tasks
  import S = TimerSet

  class Timer<C(==)> {
    const addr: nat
    const recurring: bool
    /** Whether the timer was created with a callback at all. */
    ghost const callable: bool
    var ms: nat
    var next: nat
    var cb: Option<C>

    constructor (addr: nat, ms: nat, cb: Option<C>, recurring: bool, now: nat)
      ensures Record() == S.Timer(addr, S.Add64(now, ms), ms, recurring, cb)
      ensures callable == cb.Some?
    {
      this.addr, this.recurring, this.callable := addr, recurring, cb.Some?;
      this.ms, this.cb := ms, cb;
      this.next := S.Add64(now, ms);
    }

    ghost function Record(): S.Timer<C>
      reads this
    {
      S.Timer(addr, next, ms, recurring, cb)
    }
  }

  ghost function Records<C>(ts: seq<Timer<C>>): (rs: seq<S.Timer<C>>)
    reads ts
    ensures |rs| == |ts| && forall i :: 0 <= i < |ts| ==> rs[i] == ts[i].Record()
  {
    seq(|ts|, i requires 0 <= i < |ts| reads ts => ts[i].Record())
  }

  lemma Spliced<C>(ts: seq<Timer<C>>, k: nat, t: Timer<C>)
    requires k <= |ts|
    ensures Records(ts[..k] + [t] + ts[k..]) == Records(ts)[..k] + [t.Record()] + Records(ts)[k..]
    ensures forall u :: u in ts[..k] + [t] + ts[k..] <==> u == t || u in ts
  {
    forall u
      ensures u in ts[..k] + [t] + ts[k..] <==> u == t || u in ts
    {
      assert ts == ts[..k] + ts[k..];
      assert u in ts <==> u in ts[..k] || u in ts[k..];
    }
  }

  ghost function Objects<C>(ts: seq<Timer<C>>): set<Timer<C>> { set t | t in ts }

  ghost predicate Distinct<C>(ts: seq<Timer<C>>)
  {
    forall i, j :: 0 <= i < j < |ts| ==> ts[i] != ts[j]
  }

  lemma FirstObject<C>(ts: seq<Timer<C>>, i: nat)
    requires Distinct(ts) && i < |ts|
    ensures Objects(ts[i + 1..]) == Objects(ts[i..]) - {ts[i]} && ts[i] in Objects(ts[i..])
  {
    assert ts[i..] == [ts[i]] + ts[i + 1..];
  }

  lemma FirstRecord<C>(ts: seq<Timer<C>>, i: nat)
    requires i < |ts|
    ensures Records(ts[i..]) == [ts[i].Record()] + Records(ts[i + 1..])
  {
  }

  /** The set's comparator on possibly null pointers: null first, then by key,
      then by address. */
  predicate Comparator<C>(lhs: Timer?<C>, rhs: Timer?<C>)
    reads lhs, rhs
  {
    if lhs == null && rhs == null then false
    else if lhs == null then true
    else if rhs == null then false
    else if lhs.next < rhs.next then true
    else if lhs.next > rhs.next then false
    else lhs.addr < rhs.addr
  }

  /** A strict order, total up to address: what the ordered set needs. */
  lemma ComparatorIsStrictOrder<C>(a: Timer?<C>, b: Timer?<C>, c: Timer?<C>)
    ensures !Comparator(a, a)
    ensures Comparator(a, b) && Comparator(b, c) ==> Comparator(a, c)
    ensures !Comparator(a, b) && !Comparator(b, a) <==>
            a == b || (a != null && b != null && a.next == b.next && a.addr == b.addr)
  {
  }

  lemma KeyFrom(now: nat, ms: nat)
    ensures S.Add64(now, ms) == (now + ms) % S.U64
  {
  }

  lemma ShiftedKey(next: nat, was: nat, ms: nat)
    ensures S.Add64(S.Sub64(next, was), ms) == (next - was + ms) % S.U64
  {
  }

  class TimerManager<C(==)> {
    /** The ordered set, in iteration order. */
    var timers: seq<Timer<C>>
    /** Calls of on_timer_insert_at_front so far. */
    var frontInserts: nat
    /** Every timer this manager created. */
    ghost var registry: set<Timer<C>>

    ghost function View(): seq<S.Timer<C>>
      reads this, timers
    {
      Records(timers)
    }

    /** The set is ordered by its current keys and objects have addresses of
        their own, so the comparator finds every member. */
    ghost predicate Ordered()
      reads this, registry
    {
      && (forall t :: t in timers ==> t in registry)
      && (forall s, t :: s in registry && t in registry && s.addr == t.addr ==> s == t)
      && S.Sorted(View())
    }

    /** A timer created with a callback is in the set exactly while it has it. */
    ghost predicate Valid()
      reads this, registry
    {
      && Ordered()
      && (forall t :: t in registry && t.callable ==> (t in timers <==> t.cb.Some?))
      && (forall t :: t in registry && !t.callable ==> t.cb.None?)
    }

    constructor ()
      ensures Valid() && View() == [] && registry == {}
    {
      timers, frontInserts, registry := [], 0, {};
    }

    /** The set's find: first position not below the key, if it holds the key. */
    method Find(t: Timer<C>) returns (pos: Option<nat>)
      requires Ordered() && t in registry
      ensures pos == S.Find(View(), t.addr)
      ensures pos.Some? <==> t in timers
      ensures pos.Some? ==> pos.value < |timers| && timers[pos.value] == t
    {
      var k := 0;
      while k < |timers| && Comparator(timers[k], t)
        invariant k <= |timers|
        invariant forall i :: 0 <= i < k ==> Comparator(timers[i], t)
      {
        k := k + 1;
      }
      if k < |timers| && !Comparator(t, timers[k]) {
        pos := Some(k);
      } else {
        pos := None;
        forall i | 0 <= i < |timers|
          ensures timers[i] != t
        {
          if k < i {
            assert S.Less(View()[k], View()[i]);
          }
        }
      }
      FindIs(t, pos);
    }

    lemma FindIs(t: Timer<C>, pos: Option<nat>)
      requires Ordered() && t in registry
      requires pos.Some? ==> pos.value < |timers| && timers[pos.value] == t
      requires pos.None? ==> t !in timers
      ensures pos == S.Find(View(), t.addr)
    {
      var r := S.Find(View(), t.addr);
      forall i, j | 0 <= i < j < |timers|
        ensures timers[i] != timers[j]
      {
        assert S.Less(View()[i], View()[j]);
      }
      if r.Some? {
        assert View()[r.value].addr == t.addr && timers[r.value] in registry;
      } else {
        forall i | 0 <= i < |timers|
          ensures timers[i] != t
        {
          assert View()[i].addr != t.addr;
        }
      }
    }

    lemma OrderedIsInv()
      requires Ordered()
      ensures S.Inv(View())
    {
      forall i, j | 0 <= i < j < |timers|
        ensures View()[i].addr != View()[j].addr
      {
        assert S.Less(View()[i], View()[j]);
        assert timers[i] in registry && timers[j] in registry;
      }
    }

    lemma NotHeld(t: Timer<C>)
      requires Ordered() && t in registry && t !in timers
      ensures !S.Has(View(), t.addr)
    {
      forall i | 0 <= i < |timers|
        ensures View()[i].addr != t.addr
      {
        assert timers[i] in registry;
      }
    }

    /** Where the ordered set would put a new element: before the first one above it. */
    method Position(t: Timer<C>) returns (k: nat)
      ensures k == S.UpperBound(View(), t.next, t.addr)
    {
      k := 0;
      while k < |timers| && !Comparator(t, timers[k])
        invariant k <= S.UpperBound(View(), t.next, t.addr)
      {
        k := k + 1;
      }
    }

    /** Inserting a timer object and tickling when it lands first. */
    method Insert(t: Timer<C>)
      requires Ordered() && t in registry && t !in timers
      modifies this`timers, this`frontInserts
      ensures Ordered()
      ensures View() == S.Insert(old(View()), t.Record())
      ensures forall u :: u in timers <==> u == t || u in old(timers)
      ensures frontInserts == old(frontInserts) + if S.AtFront(old(View()), t.Record()) then 1 else 0
    {
      hide S.Sorted, S.DistinctAddrs, S.UpperBound, S.Has;
      OrderedIsInv();
      NotHeld(t);
      S.InsertKeeps(View(), t.Record());
      var k := Position(t);
      Spliced(timers, k, t);
      timers := timers[..k] + [t] + timers[k..];
      if k == 0 {
        frontInserts := frontInserts + 1;
      }
    }

    /** Taking out the timer at a position. */
    method Erase(ghost t: Timer<C>, pos: nat)
      requires Ordered() && pos < |timers| && timers[pos] == t
      modifies this`timers
      ensures Ordered()
      ensures View() == S.Drop(old(View()), pos)
      ensures forall u :: u in timers <==> u in old(timers) && u != t
    {
      ghost var before := View();
      ghost var was := timers;
      OrderedIsInv();
      S.DropKeeps(before, pos);
      hide S.Less;
      OnlyThere(t, pos);
      timers := timers[..pos] + timers[pos + 1..];
      assert View() == S.Drop(before, pos);
      assert was == was[..pos] + [t] + was[pos + 1..];
    }

    lemma OnlyThere(t: Timer<C>, pos: nat)
      requires Ordered() && pos < |timers| && timers[pos] == t
      ensures forall i :: 0 <= i < |timers| && i != pos ==> timers[i] != t
    {
      OrderedIsInv();
      forall i | 0 <= i < |timers| && i != pos
        ensures timers[i] != t
      {
        assert View()[i].addr != View()[pos].addr;
      }
    }

    /** A new timer object, due one period from now. */
    method AddTimer(addr: nat, ms: nat, cb: Option<C>, recurring: bool, now: nat) returns (t: Timer<C>)
      requires Valid() && forall u :: u in registry ==> u.addr != addr
      modifies this
      ensures Valid() && fresh(t) && registry == old(registry) + {t} && t.callable == cb.Some?
      ensures t.Record() == S.Timer(addr, (now + ms) % S.U64, ms, recurring, cb)
      ensures View() == S.Insert(old(View()), t.Record())
      ensures forall u :: u in timers <==> u == t || u in old(timers)
      ensures frontInserts == old(frontInserts) + if S.AtFront(old(View()), t.Record()) then 1 else 0
    {
      t := new Timer(addr, ms, cb, recurring, now);
      registry := registry + {t};
      assert View() == old(View());
      Insert(t);
    }

    /** Emptying a timer's callback, which does not disturb its place in the set. */
    method ClearCallback(t: Timer<C>)
      requires Ordered() && t in registry
      modifies t`cb
      ensures Ordered() && t.cb.None?
      ensures S.Cancel(View(), t.addr) == S.Cancel(old(View()), t.addr)
    {
      OrderedIsInv();
      ghost var before := View();
      t.cb := None;
      S.CancelIgnoresCallback(before, View(), t.addr);
    }

    method CancelTimer(t: Timer<C>) returns (ok: bool)
      requires Valid() && t in registry
      modifies this`timers, t`cb
      ensures Valid() && ok == old(t.cb.Some?) && t.cb.None?
      ensures View() == if ok then S.Cancel(old(View()), t.addr) else old(View())
      ensures (forall u :: u in timers ==> u in old(timers)) && (t.callable ==> t !in timers)
    {
      hide S.Sorted, S.Inv, S.Find, S.Drop;
      if t.cb.None? {
        return false;
      }
      ClearCallback(t);
      var pos := Find(t);
      if pos.Some? {
        Erase(t, pos.value);
      }
      return true;
    }

    /** Take a member out, give it its new key, put it back: the set's
        elements are never changed while inside. */
    method Rekey(t: Timer<C>, pos: nat, next: nat, ms: nat)
      requires Valid() && t in registry && pos < |timers| && timers[pos] == t
      modifies this`timers, this`frontInserts, t`next, t`ms
      ensures Valid() && forall u :: u in timers <==> u in old(timers)
      ensures t.next == next && t.ms == ms
      ensures View() == S.Rekey(old(View()), pos, t.Record())
      ensures frontInserts == old(frontInserts) + if S.AtFront(S.Drop(old(View()), pos), t.Record()) then 1 else 0
    {
      Erase(t, pos);
      ghost var dropped := View();
      t.next, t.ms := next, ms;
      assert View() == dropped;
      Insert(t);
    }

    method RefreshTimer(t: Timer<C>, now: nat) returns (ok: bool)
      requires Valid() && t in registry
      modifies this`timers, this`frontInserts, t`next, t`ms
      ensures Valid() && ok == (t in old(timers) && t.cb.Some?)
      ensures View() == if ok then S.RefreshAt(old(View()), t.addr, now) else old(View())
      ensures t.ms == old(t.ms) && t.next == if ok then (now + t.ms) % S.U64 else old(t.next)
      ensures forall u :: u in timers <==> u in old(timers)
    {
      hide S.Add64, S.U64, S.Rekey, S.Sorted, S.Inv;
      if t.cb.None? {
        return false;
      }
      var pos := Find(t);
      if pos.None? {
        return false;
      }
      KeyFrom(now, t.ms);
      Rekey(t, pos.value, S.Add64(now, t.ms), t.ms);
      return true;
    }

    method ResetTimer(t: Timer<C>, ms: nat, fromNow: bool, now: nat) returns (ok: bool)
      requires Valid() && t in registry
      modifies this`timers, this`frontInserts, t`next, t`ms
      ensures Valid() && ok == ((old(t.ms) == ms && !fromNow) || t in old(timers))
      ensures View() == S.ResetAt(old(View()), t.addr, ms, fromNow, now)
      // the timer itself; the others are not touched
      ensures t.ms == if ok then ms else old(t.ms)
      ensures t.next == if !ok || (old(t.ms) == ms && !fromNow) then old(t.next)
                        else if fromNow then (now + ms) % S.U64
                        else (old(t.next) - old(t.ms) + ms) % S.U64
      ensures forall u :: u in timers <==> u in old(timers)
    {
      hide S.Add64, S.Sub64, S.U64, S.Rekey, S.Sorted, S.Inv;
      FindMember(t);
      if ms == t.ms && !fromNow {
        return true;
      }
      var pos := Find(t);
      if pos.None? {
        return false;
      }
      KeyFrom(now, ms);
      ShiftedKey(t.next, t.ms, ms);
      var next := if fromNow then S.Add64(now, ms) else S.Add64(S.Sub64(t.next, t.ms), ms);
      Rekey(t, pos.value, next, ms);
      return true;
    }

    method DueLength(now: nat, probe: nat) returns (k: nat)
      ensures k == S.DueCount(View(), now, probe)
    {
      if timers == [] || timers[0].next > now {
        return 0;
      }
      k := 0;
      while k < |timers| && !S.KeyLess(now, probe, timers[k].next, timers[k].addr)
        invariant k <= S.UpperBound(View(), now, probe)
      {
        k := k + 1;
      }
      if k == 0 {
        k := 1;
      }
    }

    /** The due part of the set, taken out: up to the probe, or the head alone
        when the probe's address sorts it before a head due at this very moment. */
    method TakeDue(now: nat, probe: nat) returns (due: seq<Timer<C>>)
      requires Ordered()
      modifies this`timers
      ensures Ordered()
      ensures var n := S.DueCount(old(View()), now, probe);
              n <= old(|timers|) && due == old(timers)[..n] && timers == old(timers)[n..]
      ensures View() == old(View())[S.DueCount(old(View()), now, probe)..]
      ensures Distinct(due)
      ensures forall i :: 0 <= i < |due| ==> due[i] !in timers
    {
      ghost var before := View();
      var k := DueLength(now, probe);
      forall i, j | 0 <= i < j < |timers|
        ensures timers[i] != timers[j]
      {
        assert S.Less(before[i], before[j]);
      }
      due := timers[..k];
      timers := timers[k..];
      assert View() == before[k..];
    }

    /** Liveness of every timer but those of a batch not yet settled. */
    ghost predicate LiveExcept(unsettled: set<Timer<C>>)
      requires unsettled <= registry
      reads this, registry
    {
      && (forall t :: t in registry && t.callable && t !in unsettled ==> (t in timers <==> t.cb.Some?))
      && (forall t :: t in registry && !t.callable ==> t.cb.None?)
      && (forall t :: t in unsettled ==> t !in timers && (t.callable ==> t.cb.Some?))
    }

    /** One fired timer: back into the set if recurring, emptied otherwise. */
    method Settle(t: Timer<C>, now: nat, ghost unsettled: set<Timer<C>>)
      requires Ordered() && t in unsettled && unsettled <= registry && LiveExcept(unsettled)
      modifies this`timers, this`frontInserts, t`next, t`cb
      ensures Ordered() && LiveExcept(unsettled - {t})
      ensures View() == if t.recurring then S.Insert(old(View()), S.Refreshed(old(t.Record()), now)) else old(View())
    {
      ghost var before := View();
      if t.recurring {
        t.next := S.Add64(now, t.ms);
        assert View() == before;
        Insert(t);
      } else {
        t.cb := None;
        assert View() == before;
      }
    }

    /** A batch is half settled: the timers from i on are still out of the set. */
    ghost predicate Unsettled(due: seq<Timer<C>>, i: nat)
      requires i <= |due|
      reads this, registry
    {
      && Distinct(due) && Objects(due) <= registry
      && Objects(due[i..]) <= registry
      && Ordered() && LiveExcept(Objects(due[i..]))
    }

    method SettleNext(due: seq<Timer<C>>, i: nat, now: nat) returns (cb: Option<C>)
      requires i < |due| && Unsettled(due, i)
      modifies this`timers, this`frontInserts, {due[i]}`next, {due[i]}`cb
      ensures Unsettled(due, i + 1) && cb == old(due[i].cb)
      ensures Records(due[i + 1..]) == old(Records(due[i + 1..]))
      ensures S.Requeue(View(), old(Records(due[i + 1..])), now) == S.Requeue(old(View()), old(Records(due[i..])), now)
    {
      FirstObject(due, i);
      FirstRecord(due, i);
      cb := due[i].cb;
      Settle(due[i], now, Objects(due[i..]));
    }

    /** The rest of the batch loop: callbacks collected in order, recurring timers requeued. */
    method SettleAll(due: seq<Timer<C>>, now: nat) returns (cbs: seq<Option<C>>)
      requires Unsettled(due, 0)
      modifies this`timers, this`frontInserts, due
      ensures Valid()
      ensures var fired := old(Records(due));
              |cbs| == |fired| && forall i :: 0 <= i < |fired| ==> cbs[i] == fired[i].cb
      ensures View() == S.Requeue(old(View()), old(Records(due)), now)
    {
      hide Unsettled, S.Requeue, Valid, Ordered, View, Records;
      assert |Records(due)| == |due| by { BatchLength(due); }
      ghost var fired := Records(due);
      ghost var goal := S.Requeue(View(), fired, now);
      cbs := [];
      var i := 0;
      assert due[0..] == due;
      while i < |due|
        invariant i <= |due| && |cbs| == i && Unsettled(due, i)
        invariant Records(due[i..]) == fired[i..]
        invariant S.Requeue(View(), Records(due[i..]), now) == goal
        invariant forall k :: 0 <= k < i ==> cbs[k] == fired[k].cb
      {
        RestOfBatch(due, i, fired);
        var cb := SettleNext(due, i, now);
        cbs := cbs + [cb];
        i := i + 1;
      }
      AllSettled(due, now);
    }

    lemma BatchLength(due: seq<Timer<C>>)
      ensures |Records(due)| == |due|
    {
    }

    lemma RestOfBatch(due: seq<Timer<C>>, i: nat, fired: seq<S.Timer<C>>)
      requires i < |due| == |fired| && Records(due[i..]) == fired[i..]
      ensures Records(due[i + 1..]) == fired[i + 1..] && due[i].cb == fired[i].cb
    {
      FirstRecord(due, i);
      assert fired[i..][1..] == fired[i + 1..];
    }

    lemma AllSettled(due: seq<Timer<C>>, now: nat)
      requires Unsettled(due, |due|)
      ensures Valid() && S.Requeue(View(), Records(due[|due|..]), now) == View()
    {
      assert Objects(due[|due|..]) == {};
    }

    /** The callbacks of one batch expiry, in (next, address) order. */
    method ListExpired(now: nat, probe: nat) returns (cbs: seq<Option<C>>)
      requires Valid() && forall u :: u in registry ==> u.addr != probe
      modifies this`timers, this`frontInserts, timers
      ensures Valid()
      ensures var fired := S.Fired(old(View()), now, probe);
              |cbs| == |fired| && forall i :: 0 <= i < |fired| ==> cbs[i] == fired[i].cb
      ensures View() == S.Expire(old(View()), now, probe)
    {
      ghost var fired := S.Fired(View(), now, probe);
      var due := TakeDue(now, probe);
      assert Records(due) == fired;
      assert due[0..] == due;
      cbs := SettleAll(due, now);
    }

    lemma FindMember(t: Timer<C>)
      requires Ordered() && t in registry
      ensures var r := S.Find(View(), t.addr); r.Some? ==> View()[r.value] == t.Record()
    {
      var r := S.Find(View(), t.addr);
      if r.Some? {
        assert timers[r.value] in registry;
      }
    }

    /** Time to the earliest timer: the largest value if there is none, zero if it is due. */
    method GetNextTimeout(now: nat) returns (timeout: nat)
      requires Valid()
      ensures View() == [] ==> timeout == S.U64 - 1
      ensures View() != [] ==> timeout == if View()[0].next <= now then 0 else View()[0].next - now
      ensures forall u :: u in View() ==> View()[0].next <= u.next
    {
      if timers == [] {
        return S.U64 - 1;
      }
      ghost var view := View();
      forall u | u in view
        ensures view[0].next <= u.next
      {
        var i :| 0 <= i < |view| && view[i] == u;
        assert i > 0 ==> S.Less(view[0], view[i]);
      }
      if now >= timers[0].next {
        return 0;
      }
      return timers[0].next - now;
    }
  }
}
