/** Every interleaving of the parallel runner ends: a measure that each step of a goroutine decreases, and a step for
    as long as one has not finished. */
module Progress {
  import opened Types
  import opened Executor
  import opened Parallel

  /** An upper bound on the steps one goroutine has left. */
  function Left(setup: Setup, i: nat, pc: Pc): int
    requires i < |setup.tasks|
  {
    var limit := Limit(setup, i);
    match pc
    case Idle => 3 * (limit + 1) + 5
    case Ready(made) => 3 * (limit + 1 - |made|) + 4
    case InAttempt(made) => 3 * (limit + 1 - |made|) + 3
    case Waiting(made) => 3 * (limit + 1 - |made|) + 5
    case Concluding(_) => 3
    case Reporting(_) => 2
    case Reported(_) => 1
    case Done(_) => 0
  }

  function Measure(setup: Setup, pcs: seq<Pc>): int
    requires |pcs| <= |setup.tasks|
  {
    if pcs == [] then 0
    else Measure(setup, pcs[..|pcs| - 1]) + Left(setup, |pcs| - 1, pcs[|pcs| - 1])
  }

  lemma {:induction false} MeasureReplace(setup: Setup, pcs: seq<Pc>, i: nat, pc: Pc)
    requires |pcs| <= |setup.tasks| && i < |pcs|
    ensures Measure(setup, pcs[i := pc]) == Measure(setup, pcs) - Left(setup, i, pcs[i]) + Left(setup, i, pc)
  {
    var last, other := |pcs| - 1, pcs[i := pc];
    if i == last {
      assert other[..last] == pcs[..last];
    } else {
      assert other[..last] == pcs[..last][i := pc];
      MeasureReplace(setup, pcs[..last], i, pc);
    }
  }

  lemma LeftNonNegative(setup: Setup, s: State, i: nat)
    requires Inv(setup, s) && i < |s.pcs|
    ensures Left(setup, i, s.pcs[i]) >= 0 && (Left(setup, i, s.pcs[i]) == 0 <==> s.pcs[i].Done?)
  {
    assert TaskOk(setup, s.runs, s.attempts, i, s.pcs[i]);
  }

  lemma {:induction false} MeasureNonNegative(setup: Setup, s: State, n: nat)
    requires Inv(setup, s) && n <= |s.pcs|
    ensures Measure(setup, s.pcs[..n]) >= 0
  {
    if n == 0 {
    } else {
      MeasureNonNegative(setup, s, n - 1);
      assert s.pcs[..n][..n - 1] == s.pcs[..n - 1];
      LeftNonNegative(setup, s, n - 1);
    }
  }

  lemma OwnStepDecreases(setup: Setup, s: State, a: Step)
    requires Inv(setup, s) && Enabled(setup, s, a) && !a.ParentEnds?
    ensures |Apply(setup, s, a).pcs| == |s.pcs|
    ensures Left(setup, a.i, Apply(setup, s, a).pcs[a.i]) < Left(setup, a.i, s.pcs[a.i])
  {
    assert TaskOk(setup, s.runs, s.attempts, a.i, s.pcs[a.i]);
    match a
    case Go(i) => GoDecreases(setup, s, i);
    case Timer(i) =>
    case Interrupt(i) =>
  }

  lemma GoDecreases(setup: Setup, s: State, i: nat)
    requires Inv(setup, s) && Enabled(setup, s, Go(i))
    ensures |Apply(setup, s, Go(i)).pcs| == |s.pcs|
    ensures Left(setup, i, Apply(setup, s, Go(i)).pcs[i]) < Left(setup, i, s.pcs[i])
  {
    assert TaskOk(setup, s.runs, s.attempts, i, s.pcs[i]);
    if s.pcs[i].InAttempt? {
      AttemptDecreases(setup, i, s.pcs[i].made);
    } else {
      PlainDecreases(setup, s, i);
    }
  }

  lemma PlainDecreases(setup: Setup, s: State, i: nat)
    requires |s.pcs| == |setup.tasks| && i < |s.pcs| && Enabled(setup, s, Go(i)) && !s.pcs[i].InAttempt?
    ensures |Apply(setup, s, Go(i)).pcs| == |s.pcs|
    ensures Left(setup, i, Apply(setup, s, Go(i)).pcs[i]) < Left(setup, i, s.pcs[i])
  {
  }

  lemma AttemptDecreases(setup: Setup, i: nat, made: seq<AttemptReport>)
    requires i < |setup.tasks| && |made| <= Limit(setup, i)
    ensures var all := made + [ReportOf(|made|, setup.result(i, |made|))];
            Left(setup, i, AfterAttempt(setup, i, all)) < Left(setup, i, InAttempt(made))
  {
  }

  lemma StepDecreases(setup: Setup, s: State, a: Step)
    requires Inv(setup, s) && Enabled(setup, s, a) && !a.ParentEnds?
    ensures |Apply(setup, s, a).pcs| == |setup.tasks|
    ensures Measure(setup, Apply(setup, s, a).pcs) < Measure(setup, s.pcs)
  {
    var s' := Apply(setup, s, a);
    PcFrame(setup, s, a);
    OwnStepDecreases(setup, s, a);
    MeasureReplace(setup, s.pcs, a.i, s'.pcs[a.i]);
  }

  /** The steps of goroutines among the first n. */
  function OwnSteps(steps: seq<Step>, n: nat): nat
    requires n <= |steps|
  {
    if n == 0 then 0 else OwnSteps(steps, n - 1) + if steps[n - 1].ParentEnds? then 0 else 1
  }

  lemma {:induction false} StepsAndMeasure(setup: Setup, states: seq<State>, steps: seq<Step>, i: nat)
    requires IsRun(setup, states, steps) && i < |states|
    ensures Inv(setup, states[i])
    ensures OwnSteps(steps, i) + Measure(setup, states[i].pcs) <= Measure(setup, states[0].pcs)
  {
    RunInv(setup, states, steps, i);
    if i == 0 {
    } else {
      StepsAndMeasure(setup, states, steps, i - 1);
      assert Enabled(setup, states[i - 1], steps[i - 1]);
      if !steps[i - 1].ParentEnds? { StepDecreases(setup, states[i - 1], steps[i - 1]); }
    }
  }

  /** What the tasks' retry limits allow: three steps for each attempt, and five more. */
  function StepLimit(setup: Setup, n: nat): int
    requires n <= |setup.tasks|
  {
    if n == 0 then 0 else StepLimit(setup, n - 1) + 3 * (Limit(setup, n - 1) + 1) + 5
  }

  lemma {:induction false} IdleMeasure(setup: Setup, n: nat)
    requires n <= |setup.tasks|
    ensures Measure(setup, seq(n, _ => Idle)) == StepLimit(setup, n)
  {
    if n == 0 {
    } else {
      IdleMeasure(setup, n - 1);
      assert seq(n, _ => Idle)[..n - 1] == seq(n - 1, _ => Idle);
    }
  }

  /** In every interleaving the goroutines take a bounded number of steps. */
  lemma EveryRunIsBounded(setup: Setup, states: seq<State>, steps: seq<Step>, i: nat)
    requires IsRun(setup, states, steps) && i < |states|
    ensures OwnSteps(steps, i) <= StepLimit(setup, |setup.tasks|)
  {
    StepsAndMeasure(setup, states, steps, i);
    assert states[i].pcs[..|states[i].pcs|] == states[i].pcs;
    MeasureNonNegative(setup, states[i], |states[i].pcs|);
    IdleMeasure(setup, |setup.tasks|);
    assert states[0].pcs == seq(|setup.tasks|, _ => Idle);
  }

  /** And until all have finished, one of them can take a step: a run that can go no further has every report. */
  lemma NeverStuck(setup: Setup, states: seq<State>, steps: seq<Step>, i: nat)
    requires IsRun(setup, states, steps) && i < |states|
    ensures |states[i].pcs| == |setup.tasks|
    ensures (exists a :: Enabled(setup, states[i], a) && !a.ParentEnds?)
            <==> exists k :: 0 <= k < |states[i].pcs| && !states[i].pcs[k].Done?
  {
    RunInv(setup, states, steps, i);
    var s := states[i];
    if k :| 0 <= k < |s.pcs| && !s.pcs[k].Done? {
      var a := if s.pcs[k].Waiting? then Timer(k) else Go(k);
      assert Enabled(setup, s, a) && !a.ParentEnds?;
    }
  }
}
