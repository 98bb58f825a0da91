/** Concrete runs, told as the states they go through and the step from each to the
    next. */
module Stories {
  import opened Tasks
  import opened Runtime
  import opened RuntimeDelivery
  import E = EventTable

  ghost predicate Leads(s: State, step: Step, r: State)
  {
    Enabled(s, step) && Apply(s, step) == r
  }

  ghost predicate Reaches(n: nat, steps: seq<Step>, s: State)
  {
    ValidRun(Start(n), steps) && Run(Start(n), steps) == s
  }

  lemma StartReaches(n: nat)
    ensures Reaches(n, [], Start(n)) && NoFailedCancel([])
  {
  }

  lemma {:induction false} RunOn(s: State, steps: seq<Step>, step: Step)
    requires ValidRun(s, steps) && Enabled(Run(s, steps), step)
    ensures ValidRun(s, steps + [step]) && Run(s, steps + [step]) == Apply(Run(s, steps), step)
    decreases |steps|
  {
    hide Enabled, Apply;
    if steps == [] {
      assert steps + [step] == [step];
      assert [step][1..] == [];
    } else {
      assert (steps + [step])[1..] == steps[1..] + [step];
      RunOn(Apply(s, steps[0]), steps[1..], step);
    }
  }

  lemma Goes(n: nat, steps: seq<Step>, s: State, step: Step, r: State) returns (longer: seq<Step>)
    requires Reaches(n, steps, s) && Leads(s, step, r)
    ensures Reaches(n, longer, r)
    ensures NoFailedCancel(longer) <==> NoFailedCancel(steps) && (step.RunCancel? ==> step.ctl)
  {
    hide Enabled, Apply, ValidRun, Run;
    RunOn(Start(n), steps, step);
    longer := steps + [step];
    assert longer[|steps|] == step;
    assert forall i :: 0 <= i < |steps| ==> longer[i] == steps[i];
  }

  // ----- how each story begins -----

  /** The first of n workers somewhere, the others still where they started. */
  function One(n: nat, place: Place): seq<Worker>
    requires n >= 1
  {
    Start(n).workers[0 := Worker(place, false)]
  }

  /** A callback is posted from outside. */
  function Posted(n: nat): State
    requires n >= 1
  {
    Start(n).(queue := [Entry(CbTask(UserCb(0)), -1)], accepted := [CbTask(UserCb(0))])
  }

  function Running0(pc: Pc): Fiber { Fiber(EXEC, pc, Some(0), 1, 0) }

  /** It runs as fiber 0 on the first worker. */
  function Started(n: nat): State
    requires n >= 1
  {
    Posted(n).(queue := [], taken := [CbTask(UserCb(0))], fibers := [Running0(User)], workers := One(n, InFiber(0)), active := 1)
  }

  lemma PostsTask(n: nat)
    requires n >= 1
    ensures Leads(Start(n), Act(None, PostCallback(0, -1)), Posted(n))
  {
  }

  lemma StartsFiber(n: nat)
    requires n >= 1
    ensures Leads(Posted(n), Dispatch(0), Started(n))
  {
  }

  lemma StartedReached(n: nat) returns (steps: seq<Step>)
    requires n >= 1
    ensures Reaches(n, steps, Started(n)) && NoFailedCancel(steps)
  {
    hide Leads, Reaches, NoFailedCancel, Start;
    StartReaches(n);
    PostsTask(n);
    steps := Goes(n, [], Start(n), Act(None, PostCallback(0, -1)), Posted(n));
    StartsFiber(n);
    steps := Goes(n, steps, Posted(n), Dispatch(0), Started(n));
  }

  /** The table of a new manager with continuations waiting on fd 5. */
  function Waiting(read: E.Slot, write: E.Slot): E.Table
  {
    var m := E.Mask(read != E.EMPTY, write != E.EMPTY);
    E.Table(E.Initial().contexts[5 := E.FdContext(5, m, read, write)], map[5 := m], E.Bits(m))
  }
}
