/** Whole lives of timers: any sequence of additions, cancels, refreshes,
    resets, batch expiries and clock advances on one timer manager. */
module TimerRuns {
  import opened Tasks
  import opened TimerSet

  /** One callback handed out by a batch expiry. */
  datatype Firing = Firing(addr: nat, at: nat)

  /** `start` and `period` remember, for every timer object ever created, when its
      current period began and the last period it was given; `log` is everything
      that has fired, in order. */
  datatype History<C> = History(now: nat, timers: seq<Timer<C>>, start: map<nat, nat>, period: map<nat, nat>, log: seq<Firing>)

  datatype Op<+C> =
    | Add(addr: nat, ms: nat, recurring: bool, cb: C)
    | CancelTimer(addr: nat)
    | Refresh(addr: nat)
    | Reset(addr: nat, period: nat, fromNow: bool)
    | ExpireBatch(probe: nat)
    | Advance(delta: nat)

  /** New objects (timers and probes) live at addresses of their own; periods
      and clock values are 64-bit. */
  predicate Enabled<C>(s: History<C>, op: Op<C>)
  {
    match op
    case Add(addr, ms, _, _) => addr !in s.start && ms < U64
    case Reset(_, period, _) => period < U64
    case ExpireBatch(probe) => probe !in s.start
    case Advance(delta) => s.now + delta < U64
    case _ => true
  }

  function Stamp<C>(fired: seq<Timer<C>>, now: nat): seq<Firing>
  {
    if fired == [] then [] else [Firing(fired[0].addr, now)] + Stamp(fired[1..], now)
  }

  function Restart<C>(start: map<nat, nat>, fired: seq<Timer<C>>, now: nat): map<nat, nat>
  {
    map a | a in start ::
      match Find(fired, a)
      case Some(i) => if fired[i].recurring then now else start[a]
      case None => start[a]
  }

  function Apply<C>(s: History<C>, op: Op<C>): History<C>
  {
    match op
    case Add(addr, ms, recurring, cb) =>
      s.(timers := Insert(s.timers, Timer(addr, Add64(s.now, ms), ms, recurring, Some(cb))),
         start := s.start[addr := s.now], period := s.period[addr := ms])
    case CancelTimer(addr) => s.(timers := Cancel(s.timers, addr))
    case Refresh(addr) =>
      s.(timers := RefreshAt(s.timers, addr, s.now),
         start := if Find(s.timers, addr).Some? then s.start[addr := s.now] else s.start)
    case Reset(addr, period, fromNow) =>
      s.(timers := ResetAt(s.timers, addr, period, fromNow, s.now),
         start := if fromNow && Find(s.timers, addr).Some? then s.start[addr := s.now] else s.start,
         period := if Find(s.timers, addr).Some? then s.period[addr := period] else s.period)
    case ExpireBatch(probe) =>
      var fired := Fired(s.timers, s.now, probe);
      s.(timers := Expire(s.timers, s.now, probe), start := Restart(s.start, fired, s.now),
         log := s.log + Stamp(fired, s.now))
    case Advance(delta) => s.(now := s.now + delta)
  }

  ghost predicate ValidRun<C>(s: History<C>, ops: seq<Op<C>>)
    decreases |ops|
  {
    ops == [] || (Enabled(s, ops[0]) && ValidRun(Apply(s, ops[0]), ops[1..]))
  }

  function Run<C>(s: History<C>, ops: seq<Op<C>>): History<C>
    decreases |ops|
  {
    if ops == [] then s else Run(Apply(s, ops[0]), ops[1..])
  }

  /** A timer in the set has its callback and the last period it was given, and its
      key is its start plus that period, in 64-bit arithmetic. */
  ghost predicate TimerOk<C>(s: History<C>, t: Timer<C>)
  {
    && t.addr in s.start && s.start[t.addr] <= s.now
    && t.cb.Some? && t.ms < U64
    && t.addr in s.period && t.ms == s.period[t.addr]
    && t.next == Add64(s.start[t.addr], s.period[t.addr])
  }

  ghost predicate RunInv<C>(s: History<C>)
  {
    && s.now < U64
    && Inv(s.timers)
    && (forall t :: t in s.timers ==> TimerOk(s, t))
  }

  lemma HasMember<C>(ts: seq<Timer<C>>, t: Timer<C>)
    requires t in ts
    ensures Has(ts, t.addr)
  {
    var i :| 0 <= i < |ts| && ts[i] == t;
  }

  lemma UniqueAt<C>(ts: seq<Timer<C>>, i: nat, t: Timer<C>)
    requires DistinctAddrs(ts) && i < |ts| && t in ts && t.addr == ts[i].addr
    ensures t == ts[i]
  {
    var j :| 0 <= j < |ts| && ts[j] == t;
  }

  lemma NewAddress<C>(s: History<C>, addr: nat)
    requires RunInv(s) && addr !in s.start
    ensures !Has(s.timers, addr)
  {
    forall i | 0 <= i < |s.timers|
      ensures s.timers[i].addr != addr
    {
      assert s.timers[i] in s.timers;
    }
  }

  function Born<C>(s: History<C>, op: Op<C>): Timer<C>
    requires op.Add?
  {
    Timer(op.addr, Add64(s.now, op.ms), op.ms, op.recurring, Some(op.cb))
  }

  /** Where a timer found in the set after an operation comes from. */
  ghost predicate ComesFrom<C>(s: History<C>, op: Op<C>, u: Timer<C>)
  {
    match op
    case Add(_, _, _, _) => u in s.timers || u == Born(s, op)
    case CancelTimer(addr) => u in s.timers && u.addr != addr
    case Refresh(addr) => u in s.timers || (u.addr == addr && Has(s.timers, addr))
    case Reset(addr, _, _) => u in s.timers || (u.addr == addr && Has(s.timers, addr))
    case ExpireBatch(probe) =>
      var fired := Fired(s.timers, s.now, probe);
      (u in s.timers && !Has(fired, u.addr)) || Requeued(fired, s.now, u)
    case Advance(_) => u in s.timers
  }

  lemma StepMembers<C>(s: History<C>, op: Op<C>, u: Timer<C>)
    requires RunInv(s) && Enabled(s, op) && u in Apply(s, op).timers
    ensures ComesFrom(s, op, u)
  {
    var ts := s.timers;
    match op
    case Add(_, _, _, _) => InsertMembers(ts, Born(s, op));
    case CancelTimer(addr) => CancelKeeps(ts, addr);
    case Refresh(addr) =>
      var f := Find(ts, addr);
      if f.Some? { RekeyKeeps(ts, f.value, Refreshed(ts[f.value], s.now)); }
    case Reset(addr, p, b) =>
      var f := Find(ts, addr);
      if f.Some? { RekeyKeeps(ts, f.value, ResetTo(ts[f.value], p, b, s.now)); }
    case ExpireBatch(probe) => ExpireMembers(s, probe, u);
    case Advance(_) =>
  }

  lemma ExpireMembers<C>(s: History<C>, probe: nat, u: Timer<C>)
    requires RunInv(s) && probe !in s.start && u in Expire(s.timers, s.now, probe)
    ensures ComesFrom(s, ExpireBatch(probe), u)
  {
    var fired := Fired(s.timers, s.now, probe);
    NewAddress(s, probe);
    ExpireExact(s.timers, s.now, probe);
    if !Requeued(fired, s.now, u) {
      PrefixAddrs(s.timers, |fired|, u);
    }
  }

  lemma AddKeepsInv<C>(s: History<C>, op: Op<C>)
    requires RunInv(s) && Enabled(s, op) && op.Add?
    ensures RunInv(Apply(s, op))
  {
    NewAddress(s, op.addr);
    InsertKeeps(s.timers, Born(s, op));
    InsertMembers(s.timers, Born(s, op));
  }

  lemma RekeyKeepsInv<C>(s: History<C>, i: nat, t: Timer<C>, start: map<nat, nat>, period: map<nat, nat>)
    requires RunInv(s) && i < |s.timers| && t.addr == s.timers[i].addr
    requires forall a :: a in s.start && a != t.addr ==> a in start && start[a] == s.start[a]
    requires forall a :: a in s.period && a != t.addr ==> a in period && period[a] == s.period[a]
    requires TimerOk(s.(start := start, period := period), t)
    ensures RunInv(s.(timers := Rekey(s.timers, i, t), start := start, period := period))
  {
    hide Rekey, Add64, Inv;
    RekeyKeeps(s.timers, i, t);
    var r := s.(timers := Rekey(s.timers, i, t), start := start, period := period);
    forall u | u in r.timers
      ensures TimerOk(r, u)
    {
      if u != t {
        assert TimerOk(s, u);
      }
    }
  }

  /** Period changes are exact in 64-bit arithmetic even when a key wraps. */
  lemma KeyKeepsStart(start: nat, ms: nat, period: nat)
    requires ms < U64 && period < U64
    ensures Add64(Sub64(Add64(start, ms), ms), period) == Add64(start, period)
  {
    var q := (start + ms) / U64;
    assert start + ms == q * U64 + Add64(start, ms);
    assert Add64(start, ms) - ms == start - q * U64;
    ModShift(start, q);
    var r := start / U64;
    assert start == r * U64 + start % U64;
    ModShift(start + period, r);
  }

  lemma ModShift(x: nat, q: nat)
    ensures (x - q * U64) % U64 == x % U64
    decreases q
  {
    if q > 0 {
      ModShift(x, q - 1);
      assert (x - q * U64) == (x - (q - 1) * U64) - U64;
    }
  }

  lemma ExpireKeepsInv<C>(s: History<C>, probe: nat)
    requires RunInv(s) && probe !in s.start
    ensures RunInv(Apply(s, ExpireBatch(probe)))
  {
    var fired := Fired(s.timers, s.now, probe);
    NewAddress(s, probe);
    ExpireExact(s.timers, s.now, probe);
    var r := Apply(s, ExpireBatch(probe));
    forall u | u in r.timers
      ensures TimerOk(r, u)
    {
      ExpiredOk(s, probe, u);
    }
  }

  lemma ExpiredOk<C>(s: History<C>, probe: nat, u: Timer<C>)
    requires RunInv(s) && probe !in s.start && u in Expire(s.timers, s.now, probe)
    ensures TimerOk(Apply(s, ExpireBatch(probe)), u)
  {
    hide Expire, Fired, Stamp, Add64;
    var fired := Fired(s.timers, s.now, probe);
    NewAddress(s, probe);
    ExpireExact(s.timers, s.now, probe);
    ExpireMembers(s, probe, u);
    if Requeued(fired, s.now, u) {
      var t :| t in fired && t.recurring && u == Refreshed(t, s.now);
      assert t in s.timers && TimerOk(s, t);
      HasMember(fired, t);
      UniqueAt(fired, Find(fired, t.addr).value, t);
    } else {
      assert TimerOk(s, u);
    }
  }

  lemma SamePeriod<C>(s: History<C>, addr: nat)
    requires addr in s.period
    ensures s.(period := s.period[addr := s.period[addr]]) == s
  {
    assert s.period[addr := s.period[addr]] == s.period;
  }

  lemma StepKeepsInv<C>(s: History<C>, op: Op<C>)
    requires RunInv(s) && Enabled(s, op)
    ensures RunInv(Apply(s, op))
  {
    hide Expire, Fired, RefreshAt, ResetAt;
    match op
    case Add(_, _, _, _) => AddKeepsInv(s, op);
    case CancelTimer(addr) => CancelKeeps(s.timers, addr);
    case Refresh(_) => RefreshKeepsInv(s, op);
    case Reset(_, _, _) => ResetKeepsInv(s, op);
    case ExpireBatch(probe) => ExpireKeepsInv(s, probe);
    case Advance(_) =>
  }

  lemma RefreshKeepsInv<C>(s: History<C>, op: Op<C>)
    requires RunInv(s) && Enabled(s, op) && op.Refresh?
    ensures RunInv(Apply(s, op))
  {
    hide Rekey, Add64, Inv;
    var f := Find(s.timers, op.addr);
    if f.Some? {
      assert TimerOk(s, s.timers[f.value]);
      RekeyKeepsInv(s, f.value, Refreshed(s.timers[f.value], s.now), s.start[op.addr := s.now], s.period);
    }
  }

  lemma ResetKeepsInv<C>(s: History<C>, op: Op<C>)
    requires RunInv(s) && Enabled(s, op) && op.Reset?
    ensures RunInv(Apply(s, op))
  {
    hide Rekey, Add64, Sub64, Inv;
    match op
    case Reset(addr, period, fromNow) =>
      var f := Find(s.timers, addr);
      if f.Some? {
        assert TimerOk(s, s.timers[f.value]);
        SamePeriod(s, addr);
      }
      if f.Some? && (s.timers[f.value].ms != period || fromNow) {
        var t := s.timers[f.value];
        assert TimerOk(s, t);
        KeyKeepsStart(s.start[addr], t.ms, period);
        RekeyKeepsInv(s, f.value, ResetTo(t, period, fromNow, s.now),
                      if fromNow then s.start[addr := s.now] else s.start, s.period[addr := period]);
      }
  }

  /** A reset gives its timer the new period, counted from now or, however the clock
      wrapped and whatever periods came before, from the start it had; it touches no
      other timer. */
  lemma ResetKeepsStart<C>(s: History<C>, addr: nat, period: nat, fromNow: bool)
    requires RunInv(s) && period < U64
    ensures var r := Apply(s, Reset(addr, period, fromNow));
            && |r.timers| == |s.timers|
            && (forall t :: t in s.timers && t.addr != addr ==> t in r.timers)
            && (forall t :: t in s.timers && t.addr == addr ==>
                  t.addr in s.start &&
                  t.(ms := period, next := ((if fromNow then s.now else s.start[addr]) + period) % U64) in r.timers)
  {
    hide Rekey, Inv, Sub64;
    var f := Find(s.timers, addr);
    if f.Some? {
      var t := s.timers[f.value];
      assert TimerOk(s, t);
      KeyKeepsStart(s.start[addr], t.ms, period);
      var u := ResetTo(t, period, fromNow, s.now);
      RekeyKeeps(s.timers, f.value, u);
      RekeyLength(s.timers, f.value, u);
      OnlyAt(s, f.value);
    } else {
      assert forall t :: t in s.timers ==> t.addr != addr by {
        forall t | t in s.timers ensures t.addr != addr { if t.addr == addr { HasMember(s.timers, t); assert false; } }
      }
    }
  }

  lemma OnlyAt<C>(s: History<C>, i: nat)
    requires RunInv(s) && i < |s.timers|
    ensures forall t :: t in s.timers && t.addr == s.timers[i].addr ==> t == s.timers[i]
  {
    forall t | t in s.timers && t.addr == s.timers[i].addr
      ensures t == s.timers[i]
    {
      UniqueAt(s.timers, i, t);
    }
  }

  /** Over every run the set stays strictly sorted, holds callable timers only,
      and keys every timer exactly one period after its start, with the period it
      was last given. */
  lemma {:induction false} RunKeepsInv<C>(s: History<C>, ops: seq<Op<C>>)
    requires RunInv(s) && ValidRun(s, ops)
    ensures RunInv(Run(s, ops))
    decreases |ops|
  {
    if ops != [] {
      StepKeepsInv(s, ops[0]);
      RunKeepsInv(Apply(s, ops[0]), ops[1..]);
    }
  }

  // ----- no revival -----

  function Times(log: seq<Firing>, addr: nat): seq<nat>
  {
    if log == [] then []
    else (if log[0].addr == addr then [log[0].at] else []) + Times(log[1..], addr)
  }

  lemma {:induction false} TimesConcat(a: seq<Firing>, b: seq<Firing>, addr: nat)
    ensures Times(a + b, addr) == Times(a, addr) + Times(b, addr)
  {
    if a == [] {
      assert a + b == b;
    } else {
      var head := if a[0].addr == addr then [a[0].at] else [];
      assert (a + b)[1..] == a[1..] + b;
      TimesConcat(a[1..], b, addr);
      assert Times(a + b, addr) == head + (Times(a[1..], addr) + Times(b, addr));
    }
  }

  /** A batch hands out a timer's callback once if it fires and never otherwise,
      whatever its period. */
  lemma {:induction false} TimesStamp<C>(fired: seq<Timer<C>>, now: nat, addr: nat)
    requires DistinctAddrs(fired)
    ensures Times(Stamp(fired, now), addr) == if Has(fired, addr) then [now] else []
  {
    if fired != [] {
      var stamps := Stamp(fired, now);
      assert stamps[1..] == Stamp(fired[1..], now);
      assert DistinctAddrs(fired[1..]);
      TimesStamp(fired[1..], now, addr);
      if Has(fired, addr) {
        var i :| 0 <= i < |fired| && fired[i].addr == addr;
        if i > 0 {
          assert fired[1..][i - 1].addr == addr;
        }
      }
      if Has(fired[1..], addr) {
        var i :| 0 <= i < |fired[1..]| && fired[1..][i].addr == addr;
        assert fired[i + 1].addr == addr;
      }
    }
  }

  /** What one operation does to the log of one timer. */
  lemma StepTimes<C>(s: History<C>, op: Op<C>, addr: nat)
    requires RunInv(s) && Enabled(s, op)
    ensures Times(Apply(s, op).log, addr) ==
            Times(s.log, addr) +
            if op.ExpireBatch? && Has(Fired(s.timers, s.now, op.probe), addr) then [s.now] else []
  {
    if op.ExpireBatch? {
      TimesConcat(s.log, Stamp(Fired(s.timers, s.now, op.probe), s.now), addr);
      TimesStamp(Fired(s.timers, s.now, op.probe), s.now, addr);
    }
  }

  ghost predicate Dead<C>(s: History<C>, addr: nat)
  {
    addr in s.start && !Has(s.timers, addr)
  }

  lemma StaysDead<C>(s: History<C>, op: Op<C>, addr: nat)
    requires RunInv(s) && Enabled(s, op) && Dead(s, addr)
    ensures Dead(Apply(s, op), addr)
    ensures Times(Apply(s, op).log, addr) == Times(s.log, addr)
  {
    var us := Apply(s, op).timers;
    forall i | 0 <= i < |us|
      ensures us[i].addr != addr
    {
      var u := us[i];
      StepMembers(s, op, u);
      if u in s.timers {
        HasMember(s.timers, u);
      } else if op.ExpireBatch? {
        var t :| t in Fired(s.timers, s.now, op.probe) && t.recurring && u == Refreshed(t, s.now);
        HasMember(s.timers, t);
      }
    }
    StepTimes(s, op, addr);
    if op.ExpireBatch? {
      forall i | 0 <= i < |Fired(s.timers, s.now, op.probe)|
        ensures Fired(s.timers, s.now, op.probe)[i].addr != addr
      {
        assert s.timers[i].addr != addr;
      }
    }
  }

  /** No revival: once a timer object has left the set, by cancel or by firing
      once, no operation puts it back and it never fires again. */
  lemma {:induction false} NeverRevived<C>(s: History<C>, ops: seq<Op<C>>, addr: nat)
    requires RunInv(s) && ValidRun(s, ops) && Dead(s, addr)
    ensures Dead(Run(s, ops), addr)
    ensures Times(Run(s, ops).log, addr) == Times(s.log, addr)
    decreases |ops|
  {
    if ops != [] {
      StepKeepsInv(s, ops[0]);
      StaysDead(s, ops[0], addr);
      NeverRevived(Apply(s, ops[0]), ops[1..], addr);
    }
  }

  // ----- spacing of a recurring timer -----

  function Previous(birth: nat, times: seq<nat>, k: nat): nat
    requires k <= |times|
  {
    if k == 0 then birth else times[k - 1]
  }

  /** Each time is at least one period after the one before it, the first one
      period after birth. */
  ghost predicate Spaced(birth: nat, times: seq<nat>, ms: nat)
  {
    forall k :: 0 <= k < |times| ==> times[k] >= Previous(birth, times, k) + ms
  }

  function Last(birth: nat, times: seq<nat>): nat
  {
    Previous(birth, times, |times|)
  }

  /** The firings of a timer born at `birth` with period ms are spaced so far,
      and if it is still in the set the next one will be too. */
  ghost predicate OnSchedule<C>(s: History<C>, addr: nat, birth: nat, ms: nat)
  {
    && Spaced(birth, Times(s.log, addr), ms)
    && Last(birth, Times(s.log, addr)) <= s.now
    && (forall t :: t in s.timers && t.addr == addr ==>
          t.ms == ms && t.next >= Last(birth, Times(s.log, addr)) + ms)
  }

  ghost predicate Touches<C>(op: Op<C>, addr: nat)
  {
    (op.Refresh? || op.Reset? || op.Add?) && op.addr == addr
  }

  lemma FiringRekeys<C>(s: History<C>, probe: nat, u: Timer<C>)
    requires RunInv(s) && probe !in s.start
    requires Has(Fired(s.timers, s.now, probe), u.addr) && u in Expire(s.timers, s.now, probe)
    requires s.now + u.ms < U64
    ensures u.next == s.now + u.ms
  {
    ExpireMembers(s, probe, u);
  }

  lemma SpacedMore(birth: nat, times: seq<nat>, ms: nat, at: nat)
    requires Spaced(birth, times, ms) && Last(birth, times) + ms <= at
    ensures Spaced(birth, times + [at], ms) && Last(birth, times + [at]) == at
  {
    var more := times + [at];
    forall k | 0 <= k < |more|
      ensures more[k] >= Previous(birth, more, k) + ms
    {
      assert k > 0 ==> more[k - 1] == times[k - 1];
      if k < |times| {
        assert more[k] == times[k];
      }
    }
  }

  lemma FiringKeepsSchedule<C>(s: History<C>, probe: nat, addr: nat, birth: nat, ms: nat)
    requires RunInv(s) && probe !in s.start && OnSchedule(s, addr, birth, ms) && s.now + ms < U64
    requires Has(Fired(s.timers, s.now, probe), addr)
    ensures OnSchedule(Apply(s, ExpireBatch(probe)), addr, birth, ms)
  {
    var r := Apply(s, ExpireBatch(probe));
    StepTimes(s, ExpireBatch(probe), addr);
    DueOnSchedule(s, probe, addr, birth, ms);
    SpacedMore(birth, Times(s.log, addr), ms, s.now);
    forall u | u in r.timers && u.addr == addr
      ensures u.ms == ms && u.next >= s.now + ms
    {
      FiringSamePeriod(s, probe, u, ms);
      FiringRekeys(s, probe, u);
    }
  }

  lemma FiringSamePeriod<C>(s: History<C>, probe: nat, u: Timer<C>, ms: nat)
    requires RunInv(s) && probe !in s.start
    requires Has(Fired(s.timers, s.now, probe), u.addr) && u in Expire(s.timers, s.now, probe)
    requires forall t :: t in s.timers && t.addr == u.addr ==> t.ms == ms
    ensures u.ms == ms
  {
    ExpireMembers(s, probe, u);
    var t :| t in Fired(s.timers, s.now, probe) && t.recurring && u == Refreshed(t, s.now);
    assert t in s.timers;
  }

  lemma IdleKeepsSchedule<C>(s: History<C>, op: Op<C>, addr: nat, birth: nat, ms: nat)
    requires RunInv(s) && Enabled(s, op) && OnSchedule(s, addr, birth, ms) && !Touches(op, addr)
    requires op.ExpireBatch? ==> !Has(Fired(s.timers, s.now, op.probe), addr)
    ensures OnSchedule(Apply(s, op), addr, birth, ms)
  {
    StepTimes(s, op, addr);
    assert Times(Apply(s, op).log, addr) == Times(s.log, addr);
    forall u | u in Apply(s, op).timers
      ensures u.addr == addr ==> u in s.timers
    {
      StepMembers(s, op, u);
      if op.ExpireBatch? && Requeued(Fired(s.timers, s.now, op.probe), s.now, u) {
        var t :| t in Fired(s.timers, s.now, op.probe) && t.recurring && u == Refreshed(t, s.now);
        HasMember(Fired(s.timers, s.now, op.probe), t);
      }
    }
  }

  lemma ScheduleStep<C>(s: History<C>, op: Op<C>, addr: nat, birth: nat, ms: nat)
    requires RunInv(s) && Enabled(s, op) && OnSchedule(s, addr, birth, ms)
    requires !Touches(op, addr) && s.now + ms < U64
    ensures OnSchedule(Apply(s, op), addr, birth, ms)
  {
    if op.ExpireBatch? && Has(Fired(s.timers, s.now, op.probe), addr) {
      FiringKeepsSchedule(s, op.probe, addr, birth, ms);
    } else {
      IdleKeepsSchedule(s, op, addr, birth, ms);
    }
  }

  lemma DueOnSchedule<C>(s: History<C>, probe: nat, addr: nat, birth: nat, ms: nat)
    requires RunInv(s) && probe !in s.start && OnSchedule(s, addr, birth, ms)
    requires Has(Fired(s.timers, s.now, probe), addr)
    ensures Last(birth, Times(s.log, addr)) + ms <= s.now
  {
    var fired := Fired(s.timers, s.now, probe);
    NewAddress(s, probe);
    ExpireExact(s.timers, s.now, probe);
    var i :| 0 <= i < |fired| && fired[i].addr == addr;
    assert s.timers[i] == fired[i] && fired[i] in fired && s.timers[i] in s.timers;
  }

  lemma {:induction false} ScheduleRun<C>(s: History<C>, ops: seq<Op<C>>, addr: nat, birth: nat, ms: nat)
    requires RunInv(s) && ValidRun(s, ops) && OnSchedule(s, addr, birth, ms)
    requires forall op :: op in ops ==> !Touches(op, addr)
    requires Run(s, ops).now + ms < U64
    ensures OnSchedule(Run(s, ops), addr, birth, ms)
    decreases |ops|
  {
    if ops != [] {
      NowGrows(s, ops);
      StepKeepsInv(s, ops[0]);
      ScheduleStep(s, ops[0], addr, birth, ms);
      ScheduleRun(Apply(s, ops[0]), ops[1..], addr, birth, ms);
    }
  }

  lemma {:induction false} NowGrows<C>(s: History<C>, ops: seq<Op<C>>)
    ensures s.now <= Run(s, ops).now
    decreases |ops|
  {
    hide Insert, Cancel, RefreshAt, ResetAt, Expire, Fired, Stamp, Restart;
    if ops != [] {
      NowGrows(Apply(s, ops[0]), ops[1..]);
    }
  }

  lemma {:induction false} SpacedFromBirth(birth: nat, times: seq<nat>, ms: nat, k: nat)
    requires Spaced(birth, times, ms) && k < |times|
    ensures times[k] >= birth + (k + 1) * ms
  {
    if k > 0 {
      SpacedFromBirth(birth, times, ms, k - 1);
      OnePeriodMore(k, ms);
    }
  }

  lemma OnePeriodMore(k: nat, ms: nat)
    ensures (k + 1) * ms == k * ms + ms
  {
  }

  /** Recurring spacing: from its creation, however other timers are handled and
      whenever batches run, a timer that nobody refreshes or resets fires for the
      k-th time no earlier than birth + k periods, two firings being at least one
      period apart. */
  lemma RecurringSpacing<C>(s: History<C>, add: Op<C>, ops: seq<Op<C>>, k: nat)
    requires RunInv(s) && add.Add? && Enabled(s, add) && Times(s.log, add.addr) == []
    requires ValidRun(Apply(s, add), ops)
    requires forall op :: op in ops ==> !Touches(op, add.addr)
    requires Run(Apply(s, add), ops).now + add.ms < U64
    requires k < |Times(Run(Apply(s, add), ops).log, add.addr)|
    ensures Times(Run(Apply(s, add), ops).log, add.addr)[k] >= s.now + (k + 1) * add.ms
    ensures k > 0 ==> Times(Run(Apply(s, add), ops).log, add.addr)[k] >=
                      Times(Run(Apply(s, add), ops).log, add.addr)[k - 1] + add.ms
  {
    var born := Apply(s, add);
    NowGrows(born, ops);
    StepKeepsInv(s, add);
    BirthOnSchedule(s, add);
    ScheduleRun(born, ops, add.addr, s.now, add.ms);
    SpacedFromBirth(s.now, Times(Run(born, ops).log, add.addr), add.ms, k);
  }

  lemma BirthOnSchedule<C>(s: History<C>, add: Op<C>)
    requires RunInv(s) && add.Add? && Enabled(s, add) && Times(s.log, add.addr) == []
    requires s.now + add.ms < U64
    ensures OnSchedule(Apply(s, add), add.addr, s.now, add.ms)
  {
    InsertMembers(s.timers, Born(s, add));
    forall u | u in s.timers ensures u.addr != add.addr { assert TimerOk(s, u); }
  }
}
