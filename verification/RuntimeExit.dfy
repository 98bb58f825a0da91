/** When idle fibers end and workers exit: exactly when nothing is left to do, and
    then they can. */
module RuntimeExit {
  import opened Tally
  import opened Runtime
  import opened RuntimeTokens
  import opened RuntimeIdle
  import opened RuntimeTheorems
  import C = RuntimeCalls
  import K = RuntimeTasks
  import Q = ReadyQueue

  /** Stop was called, nothing is queued, timed or pending, and no worker is inside a
      fiber or a callback. */
  ghost predicate NothingLeft(s: State)
  {
    && s.stopped && s.timers == [] && s.table.pending == 0 && s.queue == []
    && forall v :: 0 <= v < |s.workers| ==>
         !s.workers[v].place.InFiber? && !s.workers[v].place.InCallback? && !s.workers[v].place.InCancel?
  }

  lemma NobodyActive(s: State)
    requires CountersInv(s)
    ensures s.active == 0 <==>
            forall v :: 0 <= v < |s.workers| ==>
              !s.workers[v].place.InFiber? && !s.workers[v].place.InCallback? && !s.workers[v].place.InCancel?
  {
    if s.active == 0 {
      forall v | 0 <= v < |s.workers|
        ensures !s.workers[v].place.InFiber? && !s.workers[v].place.InCallback? && !s.workers[v].place.InCancel?
      {
        SumMember(s.workers, v, BusyWeight());
      }
    } else if forall v :: 0 <= v < |s.workers| ==> Busy(s.workers[v]) == 0 {
      SumZero(s.workers, BusyWeight());
    }
  }

  /** The check of an idle fiber ends it exactly when nothing is left to do; otherwise
      it goes on to wait. */
  lemma IdleEndsIff(n: nat, steps: seq<Step>, w: nat)
    requires ValidRun(Start(n), steps) && Enabled(Run(Start(n), steps), IdleCheck(w))
    ensures var s := Run(Start(n), steps); var r := Apply(s, IdleCheck(w));
            && |r.workers| == |s.workers|
            && (r.workers[w].idleDone <==> NothingLeft(s))
            && (if NothingLeft(s) then r.workers[w].place.AtTop? else r.workers[w].place.IdleWait?)
  {
    hide Run, ValidRun, Start, TablesInv, HandlesInv, RunsInv, FibersInv, Linear, C.CallsInv, ExitInv, WaitsInv, WatchInv,
         K.TakenInv, Accounted, CountersInv;
    ReachedIsSound(n, steps);
    var s := Run(Start(n), steps);
    assert DoneOk(s, s.workers[w]);
    NobodyActive(s);
  }

  /** A worker leaves its loop exactly if there is nothing it may take and its idle
      fiber has ended. */
  lemma ExitsIff(s: State, w: nat)
    requires Enabled(s, Dispatch(w))
    ensures var r := Apply(s, Dispatch(w));
            w < |r.workers| && (r.workers[w].place.Exited? <==> NextTaken(s, w).None? && s.workers[w].idleDone)
  {
    hide Executing, Q.Take, Scanned;
    ScannedFrame(s, w);
  }

  // ----- the way out -----

  /** Stopped, with every worker at the top of its loop or gone, and nothing left. */
  ghost predicate Calm(s: State)
  {
    Quiet(s) && s.stopped && s.active == 0
  }

  function Leaves(s: State, w: nat): State
    requires w < |s.workers|
  {
    s.(workers := s.workers[w := Worker(Exited, true)])
  }

  lemma {:induction false} Joined(s: State, first: seq<Step>, second: seq<Step>)
    requires ValidRun(s, first) && ValidRun(Run(s, first), second)
    ensures ValidRun(s, first + second) && Run(s, first + second) == Run(Run(s, first), second)
    decreases |first|
  {
    hide Enabled, Apply;
    if first == [] {
      assert first + second == second;
    } else {
      assert (first + second)[1..] == first[1..] + second;
      Joined(Apply(s, first[0]), first[1..], second);
    }
  }

  lemma FindsNothing(s: State, w: nat)
    requires Calm(s) && w < |s.workers| && s.workers[w].place.AtTop?
    ensures Apply(s, Dispatch(w)) ==
            if s.workers[w].idleDone then Leaves(s, w)
            else s.(workers := s.workers[w := Worker(IdleEnter, false)], idle := s.idle + 1)
  {
    hide Executing;
    assert Q.Take(s.queue, w, Executing(s)).rest == s.queue;
    assert s.taken + [] == s.taken;
  }

  lemma EndsIdle(s: State, w: nat)
    requires Calm(s) && w < |s.workers|
    ensures var m := s.(workers := s.workers[w := Worker(IdleEnter, false)], idle := s.idle + 1);
            Enabled(m, IdleCheck(w)) && Apply(m, IdleCheck(w)) == s.(workers := s.workers[w := Worker(AtTop, true)])
  {
    var m := s.(workers := s.workers[w := Worker(IdleEnter, false)], idle := s.idle + 1);
    assert m.workers[w := Worker(AtTop, true)] == s.workers[w := Worker(AtTop, true)];
  }

  lemma OneStep(s: State, step: Step)
    requires Enabled(s, step)
    ensures ValidRun(s, [step]) && Run(s, [step]) == Apply(s, step)
  {
    hide Enabled, Apply;
    assert [step][1..] == [];
  }

  /** A worker that finds nothing exits by its next dispatch, or ends its idle fiber
      first. */
  lemma WorkerExits(s: State, w: nat) returns (steps: seq<Step>)
    requires Calm(s) && w < |s.workers| && s.workers[w].place.AtTop?
    ensures ValidRun(s, steps) && Run(s, steps) == Leaves(s, w) && Calm(Leaves(s, w))
  {
    hide Apply, ValidRun, Run, Stopping;
    FindsNothing(s, w);
    OneStep(s, Dispatch(w));
    steps := [Dispatch(w)];
    if !s.workers[w].idleDone {
      var m := Apply(s, Dispatch(w));
      EndsIdle(s, w);
      OneStep(m, IdleCheck(w));
      Joined(s, steps, [IdleCheck(w)]);
      var d := Apply(m, IdleCheck(w));
      FindsNothing(d, w);
      OneStep(d, Dispatch(w));
      Joined(s, steps + [IdleCheck(w)], [Dispatch(w)]);
      steps := steps + [IdleCheck(w)] + [Dispatch(w)];
      assert d.workers[w := Worker(Exited, true)] == s.workers[w := Worker(Exited, true)];
    }
  }

  /** From such a state every worker can exit, without anybody acting from outside. */
  lemma {:induction false} PoolExits(s: State, k: nat) returns (steps: seq<Step>)
    requires Calm(s) && k <= |s.workers| && forall w :: k <= w < |s.workers| ==> s.workers[w].place.Exited?
    ensures ValidRun(s, steps)
    ensures var r := Run(s, steps);
            r == s.(workers := r.workers) && |r.workers| == |s.workers| && forall w :: 0 <= w < |r.workers| ==> r.workers[w].place.Exited?
    decreases k
  {
    hide ValidRun, Run;
    if k == 0 {
      steps := [];
      NoSteps(s);
    } else if s.workers[k - 1].place.Exited? {
      steps := PoolExits(s, k - 1);
    } else {
      var first := WorkerExits(s, k - 1);
      var more := PoolExits(Leaves(s, k - 1), k - 1);
      Joined(s, first, more);
      steps := first + more;
    }
  }

  lemma NoSteps(s: State)
    ensures ValidRun(s, []) && Run(s, []) == s
  {
  }
}
