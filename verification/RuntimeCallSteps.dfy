/** Every step keeps what calls, timers and callbacks know about each other. */
module RuntimeCallSteps {
  import opened Tasks
  import opened Runtime
  import opened RuntimeCalls
  import E = EventTable
  import T = TimerSet

  // ----- calls and owners -----

  /** The call-related part of where a fiber is. */
  ghost predicate SameStage(a: Pc, b: Pc)
  {
    CallOf(a) == CallOf(b) && HoldsTimer(a) == HoldsTimer(b) && a.Checking? == b.Checking?
  }

  /** Time, firings and fibers moving on outside their calls do not disturb calls. */
  lemma CallsStay(s: State, r: State)
    requires CallsOk(s) && r.calls == s.calls && s.now <= r.now && s.expired <= r.expired
    requires |s.fibers| <= |r.fibers|
    requires forall f :: 0 <= f < |s.fibers| ==> SameStage(s.fibers[f].pc, r.fibers[f].pc)
    requires forall f :: |s.fibers| <= f < |r.fibers| ==> r.fibers[f].pc.User?
    ensures CallsOk(r)
  {
    forall c | 0 <= c < |r.calls|
      ensures CallOk(r, r.calls[c], c)
    {
      assert CallOk(s, s.calls[c], c);
    }
    forall f | 0 <= f < |r.fibers|
      ensures PcOk(r, f)
    {
      assert f < |s.fibers| ==> PcOk(s, f);
    }
  }

  /** One call and its owner moving on do not disturb the others. */
  lemma OneCallMoves(s: State, r: State, f: FiberId, c: CallId)
    requires CallsOk(s) && r.now == s.now && r.expired == s.expired
    requires f < |s.fibers| && c < |s.calls| && CallOf(s.fibers[f].pc) == Some(c)
    requires |r.fibers| == |s.fibers| && r.fibers == s.fibers[f := r.fibers[f]]
    requires |r.calls| == |s.calls| && r.calls == s.calls[c := r.calls[c]]
    requires r.calls[c].owner == f && CallOk(r, r.calls[c], c) && PcOk(r, f)
    ensures CallsOk(r)
  {
    assert PcOk(s, f);
    forall d | 0 <= d < |r.calls|
      ensures CallOk(r, r.calls[d], d)
    {
      assert CallOk(s, s.calls[d], d);
    }
    forall g | 0 <= g < |r.fibers|
      ensures PcOk(r, g)
    {
      assert PcOk(s, g);
    }
  }

  /** The running fiber's call: unfinished, its own, and in order. */
  lemma CurrentCall(s: State, w: nat)
    requires CallsOk(s) && Runs(s, w) && CallOf(CurrentPc(s, w)).Some?
    ensures var c := CallOf(CurrentPc(s, w)).value;
            c < |s.calls| && s.calls[c].owner == Current(s, w) && s.calls[c].outcome == Running && CallOk(s, s.calls[c], c)
  {
    assert PcOk(s, Current(s, w));
  }

  lemma BeginCalls(s: State, w: nat, kind: Kind, fd: nat, timeout: Option<nat>)
    requires CallsOk(s) && Runs(s, w) && CurrentPc(s, w).User?
    ensures CallsOk(DoBegin(s, w, kind, fd, timeout))
  {
    var r := DoBegin(s, w, kind, fd, timeout);
    forall c | 0 <= c < |r.calls|
      ensures CallOk(r, r.calls[c], c)
    {
      assert c < |s.calls| ==> CallOk(s, s.calls[c], c);
    }
    forall f | 0 <= f < |r.fibers|
      ensures PcOk(r, f)
    {
      assert PcOk(s, f);
    }
  }

  lemma UnsettledMore(kind: Kind, raws: seq<Raw>, raw: Raw)
    requires Unsettled(kind, raws) && Judge(kind, raw) != Return
    ensures Unsettled(kind, raws + [raw])
  {
  }

  lemma WaitedMore(kind: Kind, raws: seq<Raw>, raw: Raw)
    ensures HasWaited(kind, raws + [raw]) <==> HasWaited(kind, raws) || WouldBlock(kind, raw)
  {
    assert (raws + [raw])[|raws|] == raw;
    assert forall i :: 0 <= i < |raws| ==> (raws + [raw])[i] == raws[i];
  }

  lemma RawCalls(s: State, w: nat, raw: Raw, addr: nat)
    requires CallsOk(s) && Runs(s, w) && CurrentPc(s, w).Trying?
    ensures CallsOk(DoRawCall(s, w, raw, addr))
  {
    hide DoRawCall, CallsOk, CallOk;
    var r := DoRawCall(s, w, raw, addr);
    var c := CurrentPc(s, w).call;
    CurrentCall(s, w);
    RawKeepsCall(s, w, raw, addr);
    OneCallMoves(s, r, Current(s, w), c);
  }

  lemma RawKeepsCall(s: State, w: nat, raw: Raw, addr: nat)
    requires CallsOk(s) && Runs(s, w) && CurrentPc(s, w).Trying?
    ensures var r := DoRawCall(s, w, raw, addr); var c := CurrentPc(s, w).call;
            c < |r.calls| && CallOk(r, r.calls[c], c)
  {
    hide DoRawCall, CallsOk, OutcomeOk, HasWaited;
    var c := CurrentPc(s, w).call;
    CurrentCall(s, w);
    var call := s.calls[c];
    WaitedMore(call.kind, call.raws, raw);
    RawOutcome(call, raw, s.now, addr);
  }

  lemma RawOutcome(call: Call, raw: Raw, now: nat, addr: nat)
    requires call.outcome == Running && OutcomeOk(call)
    ensures OutcomeOk(AfterRaw(call, raw, now, addr))
  {
    hide Unsettled;
    if Judge(call.kind, raw) != Return {
      UnsettledMore(call.kind, call.raws, raw);
    } else {
      assert (call.raws + [raw])[..|call.raws|] == call.raws;
    }
  }

  lemma RegisterCalls(s: State, w: nat, ctl: bool)
    requires CallsOk(s) && Enabled(s, RegisterWait(w, ctl))
    ensures CallsOk(DoRegister(s, w, ctl))
  {
    hide E.AddEvent, CallsOk, DoRegister;
    if ctl {
      RegisteredCalls(s, w);
    } else {
      UnregisteredCalls(s, w);
    }
  }

  lemma RegisteredCalls(s: State, w: nat)
    requires CallsOk(s) && Enabled(s, RegisterWait(w, true))
    ensures CallsOk(DoRegister(s, w, true))
  {
    hide E.AddEvent, Unsettled, HasWaited, CallsOk, LastWaits;
    var r := DoRegister(s, w, true);
    var c := CurrentPc(s, w).call;
    CurrentCall(s, w);
    assert r.calls == s.calls[c := r.calls[c]];
    OneCallMoves(s, r, Current(s, w), c);
  }

  lemma UnregisteredCalls(s: State, w: nat)
    requires CallsOk(s) && Enabled(s, RegisterWait(w, false))
    ensures CallsOk(DoRegister(s, w, false))
  {
    hide E.AddEvent, DropHandle, T.Cancel, Unsettled, HasWaited, CallsOk, LastWaits;
    var r := DoRegister(s, w, false);
    var c := CurrentPc(s, w).call;
    CurrentCall(s, w);
    if s.calls[c].kind.IoCall? {
      assert r.calls == s.calls[c := s.calls[c].(handle := None, outcome := AddFailed)];
    } else {
      assert r.calls == s.calls[c := s.calls[c].(handle := None)];
    }
    OneCallMoves(s, r, Current(s, w), c);
  }

  lemma AfterWaitCalls(s: State, w: nat)
    requires CallsOk(s) && Runs(s, w) && CurrentPc(s, w).Woken?
    ensures CallsOk(DoAfterWait(s, w))
  {
    hide DropHandle, Unsettled, HasWaited;
    var r := DoAfterWait(s, w);
    var c := CurrentPc(s, w).call;
    CurrentCall(s, w);
    assert r.calls == s.calls[c := r.calls[c]];
    assert CallOk(r, r.calls[c], c);
    OneCallMoves(s, r, Current(s, w), c);
  }

  lemma CheckCalls(s: State, w: nat, errno: int)
    requires CallsOk(s) && Runs(s, w) && CurrentPc(s, w).Checking?
    ensures CallsOk(DoCheckSocket(s, w, errno))
  {
    var r := DoCheckSocket(s, w, errno);
    var c := CurrentPc(s, w).call;
    CurrentCall(s, w);
    assert r.calls == s.calls[c := r.calls[c]];
    assert CallOk(r, r.calls[c], c);
    OneCallMoves(s, r, Current(s, w), c);
  }
}
