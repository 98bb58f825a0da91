/** The ordered timer set of a timer manager, as a value: what `m_timers`
    holds, in iteration order, and what each operation makes of it. */
module TimerSet {
  import opened Tasks
  import opened Tally

  /** Clock values and periods are 64-bit unsigned. */
  const U64: nat := 0x1_0000_0000_0000_0000

  function Add64(a: nat, b: nat): nat { (a + b) % U64 }

  function Sub64(a: int, b: int): nat { (a - b) % U64 }

  lemma NoWrap(a: nat, b: nat)
    requires a + b < U64
    ensures Add64(a, b) == a + b
  {
  }

  /** A timer in the set. `addr` is the object's address, which breaks ties of
      the comparator; `cb` is None for a timer created with an empty function. */
  datatype Timer<+C> = Timer(addr: nat, next: nat, ms: nat, recurring: bool, cb: Option<C>)

  /** Strict order on (m_next, address). */
  predicate KeyLess(next1: nat, addr1: nat, next2: nat, addr2: nat)
  {
    next1 < next2 || (next1 == next2 && addr1 < addr2)
  }

  predicate Less<C>(a: Timer<C>, b: Timer<C>)
  {
    KeyLess(a.next, a.addr, b.next, b.addr)
  }

  ghost predicate Sorted<C>(ts: seq<Timer<C>>)
  {
    forall i, j :: 0 <= i < j < |ts| ==> Less(ts[i], ts[j])
  }

  ghost predicate DistinctAddrs<C>(ts: seq<Timer<C>>)
  {
    forall i, j :: 0 <= i < j < |ts| ==> ts[i].addr != ts[j].addr
  }

  ghost predicate Inv<C>(ts: seq<Timer<C>>)
  {
    Sorted(ts) && DistinctAddrs(ts)
  }

  ghost predicate Has<C>(ts: seq<Timer<C>>, addr: nat)
  {
    exists i :: 0 <= i < |ts| && ts[i].addr == addr
  }

  /** Position of the first timer whose key is above (next, addr). */
  function UpperBound<C>(ts: seq<Timer<C>>, next: nat, addr: nat): (k: nat)
    ensures k <= |ts|
    ensures forall i :: 0 <= i < k ==> !KeyLess(next, addr, ts[i].next, ts[i].addr)
    ensures k < |ts| ==> KeyLess(next, addr, ts[k].next, ts[k].addr)
  {
    if ts == [] || KeyLess(next, addr, ts[0].next, ts[0].addr) then 0
    else 1 + UpperBound(ts[1..], next, addr)
  }

  function Insert<C>(ts: seq<Timer<C>>, t: Timer<C>): seq<Timer<C>>
  {
    var k := UpperBound(ts, t.next, t.addr);
    ts[..k] + [t] + ts[k..]
  }

  /** Whether `Insert` puts the timer first, which is when the manager tickles. */
  predicate AtFront<C>(ts: seq<Timer<C>>, t: Timer<C>)
  {
    UpperBound(ts, t.next, t.addr) == 0
  }

  function Find<C>(ts: seq<Timer<C>>, addr: nat): (r: Option<nat>)
    ensures r.Some? ==> r.value < |ts| && ts[r.value].addr == addr
    ensures r.None? ==> !Has(ts, addr)
  {
    if ts == [] then None
    else if ts[0].addr == addr then Some(0)
    else match Find(ts[1..], addr)
      case Some(i) => Some(i + 1)
      case None => None
  }

  function Drop<C>(ts: seq<Timer<C>>, i: nat): seq<Timer<C>>
    requires i < |ts|
  {
    ts[..i] + ts[i + 1..]
  }

  function Cancel<C>(ts: seq<Timer<C>>, addr: nat): seq<Timer<C>>
  {
    match Find(ts, addr)
    case Some(i) => Drop(ts, i)
    case None => ts
  }

  /** The timer after `refresh` at clock value now. */
  function Refreshed<C>(t: Timer<C>, now: nat): Timer<C>
  {
    t.(next := Add64(now, t.ms))
  }

  /** The timer after `reset(ms, fromNow)`. */
  function ResetTo<C>(t: Timer<C>, ms: nat, fromNow: bool, now: nat): Timer<C>
  {
    t.(next := if fromNow then Add64(now, ms) else Add64(Sub64(t.next, t.ms), ms), ms := ms)
  }

  /** Taking a timer out and putting it back with another key. */
  function Rekey<C>(ts: seq<Timer<C>>, i: nat, t: Timer<C>): seq<Timer<C>>
    requires i < |ts|
  {
    Insert(Drop(ts, i), t)
  }

  function RefreshAt<C>(ts: seq<Timer<C>>, addr: nat, now: nat): seq<Timer<C>>
  {
    match Find(ts, addr)
    case Some(i) => Rekey(ts, i, Refreshed(ts[i], now))
    case None => ts
  }

  /** Nothing moves when the period stays and the start is kept. */
  function ResetAt<C>(ts: seq<Timer<C>>, addr: nat, ms: nat, fromNow: bool, now: nat): seq<Timer<C>>
  {
    match Find(ts, addr)
    case Some(i) => if ts[i].ms == ms && !fromNow then ts else Rekey(ts, i, ResetTo(ts[i], ms, fromNow, now))
    case None => ts
  }

  /** How many timers a batch expiry takes: the ones up to the probe
      (now, probe), or just the first when the probe sorts before it. */
  function DueCount<C>(ts: seq<Timer<C>>, now: nat, probe: nat): (n: nat)
    ensures n <= |ts|
  {
    if ts == [] || ts[0].next > now then 0
    else
      var k := UpperBound(ts, now, probe);
      if k == 0 then 1 else k
  }

  /** Recurring timers of the batch go back, keyed one period after now. */
  function Requeue<C>(rest: seq<Timer<C>>, fired: seq<Timer<C>>, now: nat): seq<Timer<C>>
    decreases |fired|
  {
    if fired == [] then rest
    else
      var t := fired[0];
      Requeue(if t.recurring then Insert(rest, Refreshed(t, now)) else rest, fired[1..], now)
  }

  function Fired<C>(ts: seq<Timer<C>>, now: nat, probe: nat): seq<Timer<C>>
  {
    ts[..DueCount(ts, now, probe)]
  }

  function Expire<C>(ts: seq<Timer<C>>, now: nat, probe: nat): seq<Timer<C>>
  {
    Requeue(ts[DueCount(ts, now, probe)..], Fired(ts, now, probe), now)
  }

  // ----- what the operations keep -----

  lemma InsertMembers<C>(ts: seq<Timer<C>>, t: Timer<C>)
    ensures forall u :: u in Insert(ts, t) <==> u == t || u in ts
  {
    var k := UpperBound(ts, t.next, t.addr);
    assert ts == ts[..k] + ts[k..];
    forall u
      ensures u in Insert(ts, t) <==> u == t || u in ts
    {
      assert u in ts <==> u in ts[..k] || u in ts[k..];
    }
  }

  lemma InsertAbove<C>(ts: seq<Timer<C>>, t: Timer<C>, i: nat)
    requires Sorted(ts) && UpperBound(ts, t.next, t.addr) <= i < |ts|
    ensures Less(t, ts[i])
  {
    var k := UpperBound(ts, t.next, t.addr);
    assert i == k || Less(ts[k], ts[i]);
  }

  lemma InsertKeeps<C>(ts: seq<Timer<C>>, t: Timer<C>)
    requires Inv(ts) && !Has(ts, t.addr)
    ensures Inv(Insert(ts, t))
  {
    var k := UpperBound(ts, t.next, t.addr);
    var us := Insert(ts, t);
    forall i, j | 0 <= i < j < |us|
      ensures Less(us[i], us[j]) && us[i].addr != us[j].addr
    {
      if i == k {
        assert us[j] == ts[j - 1];
        InsertAbove(ts, t, j - 1);
      } else if j == k {
        assert us[i] == ts[i];
      } else {
        assert us[i] == ts[if i < k then i else i - 1] && us[j] == ts[if j < k then j else j - 1];
      }
    }
  }

  lemma DropKeeps<C>(ts: seq<Timer<C>>, i: nat)
    requires Inv(ts) && i < |ts|
    ensures Inv(Drop(ts, i))
    ensures !Has(Drop(ts, i), ts[i].addr)
    ensures forall u :: u in Drop(ts, i) <==> u in ts && u.addr != ts[i].addr
  {
    var us := Drop(ts, i);
    forall j | 0 <= j < |us|
      ensures us[j] == ts[if j < i then j else j + 1] && us[j].addr != ts[i].addr
    {
    }
    forall u | u in ts && u.addr != ts[i].addr
      ensures u in us
    {
      var j :| 0 <= j < |ts| && ts[j] == u;
      assert us[if j < i then j else j - 1] == u;
    }
  }

  lemma RekeyKeeps<C>(ts: seq<Timer<C>>, i: nat, t: Timer<C>)
    requires Inv(ts) && i < |ts| && t.addr == ts[i].addr
    ensures Inv(Rekey(ts, i, t))
    ensures forall u :: u in Rekey(ts, i, t) <==> u == t || (u in ts && u.addr != t.addr)
  {
    DropKeeps(ts, i);
    InsertKeeps(Drop(ts, i), t);
    InsertMembers(Drop(ts, i), t);
  }

  lemma RekeyLength<C>(ts: seq<Timer<C>>, i: nat, t: Timer<C>)
    requires i < |ts|
    ensures |Rekey(ts, i, t)| == |ts|
  {
  }

  lemma CancelKeeps<C>(ts: seq<Timer<C>>, addr: nat)
    requires Inv(ts)
    ensures Inv(Cancel(ts, addr))
    ensures !Has(Cancel(ts, addr), addr)
    ensures forall u :: u in Cancel(ts, addr) <==> u in ts && u.addr != addr
  {
    match Find(ts, addr)
    case Some(i) => DropKeeps(ts, i);
    case None =>
  }

  /** u is a recurring timer of the batch with its next firing one period away. */
  ghost predicate Requeued<C>(fired: seq<Timer<C>>, now: nat, u: Timer<C>)
  {
    exists t :: t in fired && t.recurring && u == Refreshed(t, now)
  }

  /** Clearing the callback of one timer leaves its place in the set alone. */
  lemma CancelIgnoresCallback<C>(before: seq<Timer<C>>, after: seq<Timer<C>>, addr: nat)
    requires Inv(before) && |after| == |before|
    requires forall i :: 0 <= i < |before| ==>
               (after[i] == before[i] || (after[i].addr == addr && after[i] == before[i].(cb := None)))
    ensures Inv(after) && Find(after, addr) == Find(before, addr)
    ensures Cancel(after, addr) == Cancel(before, addr)
  {
    forall i, j | 0 <= i < j < |after|
      ensures Less(after[i], after[j]) && after[i].addr != after[j].addr
    {
      assert Less(before[i], before[j]) && before[i].addr != before[j].addr;
    }
    var f, g := Find(before, addr), Find(after, addr);
    if f.Some? {
      assert after[f.value].addr == addr;
      assert before[g.value].addr == addr;
      forall i | 0 <= i < |before| && i != f.value
        ensures after[i] == before[i]
      {
        assert before[i].addr != before[f.value].addr;
      }
      assert Drop(after, f.value) == Drop(before, f.value);
    } else {
      forall i | 0 <= i < |before|
        ensures after[i] == before[i]
      {
        assert before[i].addr != addr;
      }
    }
  }

  ghost predicate Disjoint<C>(a: seq<Timer<C>>, b: seq<Timer<C>>)
  {
    forall i, j :: 0 <= i < |a| && 0 <= j < |b| ==> a[i].addr != b[j].addr
  }

  /** The set after a batch: every timer that did not fire, unchanged, plus the
      recurring ones that did, each with its next firing one period away. */
  lemma {:induction false} RequeueKeeps<C>(rest: seq<Timer<C>>, fired: seq<Timer<C>>, now: nat)
    requires Inv(rest) && DistinctAddrs(fired) && Disjoint(rest, fired)
    ensures Inv(Requeue(rest, fired, now))
    ensures forall u :: u in Requeue(rest, fired, now) <==>
              u in rest || Requeued(fired, now, u)
    decreases |fired|
  {
    if fired != [] {
      var t := fired[0];
      var mid := if t.recurring then Insert(rest, Refreshed(t, now)) else rest;
      if t.recurring {
        InsertKeeps(rest, Refreshed(t, now));
        InsertMembers(rest, Refreshed(t, now));
        assert forall i :: 0 <= i < |mid| ==> mid[i] in mid;
      }
      assert Disjoint(mid, fired[1..]) by {
        forall i, j | 0 <= i < |mid| && 0 <= j < |fired[1..]|
          ensures mid[i].addr != fired[1..][j].addr
        {
          assert mid[i] in mid;
          assert fired[1..][j] == fired[j + 1];
        }
      }
      RequeueKeeps(mid, fired[1..], now);
      forall u
        ensures u in Requeue(rest, fired, now) <==>
          u in rest || Requeued(fired, now, u)
      {
        assert forall v :: v in fired <==> v == t || v in fired[1..];
      }
    }
  }

  /** In a set of distinct addresses a timer sits in one place only. */
  lemma PrefixMembers<C>(ts: seq<Timer<C>>, n: nat)
    requires DistinctAddrs(ts) && n <= |ts|
    ensures forall i :: 0 <= i < |ts| ==> (ts[i] in ts[..n] <==> i < n)
    ensures forall u :: u in ts[n..] <==> u in ts && u !in ts[..n]
  {
    forall i | 0 <= i < |ts|
      ensures ts[i] in ts[..n] <==> i < n
    {
      if i < n {
        assert ts[..n][i] == ts[i];
      }
    }
    forall u
      ensures u in ts[n..] <==> u in ts && u !in ts[..n]
    {
      assert ts == ts[..n] + ts[n..];
      if u in ts[n..] {
        var j :| 0 <= j < |ts[n..]| && ts[n..][j] == u;
        assert ts[n + j] == u;
      }
    }
  }

  lemma PrefixAddrs<C>(ts: seq<Timer<C>>, n: nat, u: Timer<C>)
    requires DistinctAddrs(ts) && n <= |ts| && u in ts && u !in ts[..n]
    ensures !Has(ts[..n], u.addr)
  {
    var j :| 0 <= j < |ts| && ts[j] == u;
    forall i | 0 <= i < n
      ensures ts[..n][i].addr != u.addr
    {
      assert ts[i].addr != ts[j].addr;
    }
  }

  lemma FiredExact<C>(ts: seq<Timer<C>>, now: nat, probe: nat, i: nat)
    requires Inv(ts) && !Has(ts, probe) && i < |ts|
    ensures i < DueCount(ts, now, probe) <==>
            ts[i].next <= now && (i == 0 || ts[i].next < now || ts[i].addr < probe)
  {
    var k := UpperBound(ts, now, probe);
    if i > 0 {
      assert Less(ts[0], ts[i]);
    }
    if k < i {
      assert Less(ts[k], ts[i]);
    }
    assert ts[i].addr != probe;
  }

  /** Batch expiry, exactly: with the head due, what fires is a prefix of the
      set holding the head, every timer due before now, and of the timers due at
      now those whose address is below the probe's; no timer fires twice; the set
      afterwards is what did not fire plus the re-keyed recurring timers. */
  lemma ExpireExact<C>(ts: seq<Timer<C>>, now: nat, probe: nat)
    requires Inv(ts) && !Has(ts, probe)
    ensures Inv(Expire(ts, now, probe))
    ensures Fired(ts, now, probe) <= ts && Inv(Fired(ts, now, probe))
    ensures Fired(ts, now, probe) == [] <==> ts == [] || ts[0].next > now
    ensures forall i :: 0 <= i < |ts| ==>
              (ts[i] in Fired(ts, now, probe) <==>
               ts[i].next <= now && (i == 0 || ts[i].next < now || ts[i].addr < probe))
    ensures forall u :: u in Expire(ts, now, probe) <==>
              (u in ts && u !in Fired(ts, now, probe)) ||
              Requeued(Fired(ts, now, probe), now, u)
  {
    var n := DueCount(ts, now, probe);
    PrefixMembers(ts, n);
    RequeueKeeps(ts[n..], ts[..n], now);
    forall i | 0 <= i < |ts|
      ensures ts[i] in Fired(ts, now, probe) <==>
              ts[i].next <= now && (i == 0 || ts[i].next < now || ts[i].addr < probe)
    {
      FiredExact(ts, now, probe, i);
    }
  }

  // ----- sums over the set -----

  lemma SumOfInsert<C>(ts: seq<Timer<C>>, t: Timer<C>, weight: Timer<C> -> nat)
    ensures Sum(Insert(ts, t), weight) == Sum(ts, weight) + weight(t)
  {
    SumInsert(ts, UpperBound(ts, t.next, t.addr), t, weight);
  }

  lemma {:induction false} SumOfRequeue<C>(rest: seq<Timer<C>>, fired: seq<Timer<C>>, now: nat, weight: Timer<C> -> nat)
    requires forall t :: t in fired && t.recurring ==> weight(Refreshed(t, now)) == 0
    ensures Sum(Requeue(rest, fired, now), weight) == Sum(rest, weight)
    decreases |fired|
  {
    if fired != [] {
      var t := fired[0];
      if t.recurring {
        assert t in fired;
        SumOfInsert(rest, Refreshed(t, now), weight);
      }
      var mid := if t.recurring then Insert(rest, Refreshed(t, now)) else rest;
      SumOfRequeue(mid, fired[1..], now, weight);
    }
  }

  lemma SumOfExpire<C>(ts: seq<Timer<C>>, now: nat, probe: nat, weight: Timer<C> -> nat)
    requires forall t :: t in ts && t.recurring ==> weight(Refreshed(t, now)) == 0
    ensures Sum(Expire(ts, now, probe), weight) + Sum(Fired(ts, now, probe), weight) == Sum(ts, weight)
  {
    var n := DueCount(ts, now, probe);
    assert ts == ts[..n] + ts[n..];
    SumConcat(ts[..n], ts[n..], weight);
    SumOfRequeue(ts[n..], ts[..n], now, weight);
  }
}
