/**
 * The simulated analysis run of v0_design/app/analyze/page.tsx. Starting an
 * analysis marks every step pending and starts step 0; each timer callback
 * finishes the current step and starts the next, until all five steps are
 * complete. Progress is `Math.round` of a percentage, computed here with
 * integers. The timer delay is left out: a callback is the explicit step
 * `TimerFires`.
 */
module AnalyzeFlow {
  import opened Text

  datatype Status = Idle | Running | Complete

  datatype StepStatus = StepPending | StepRunning | StepComplete

  /** The number of analysis steps (`defaultSteps.length`). */
  const STEP_COUNT := 5

  // ---------------------------------------------------------------------------
  // The per-step status mappings and the progress percentages
  // ---------------------------------------------------------------------------

  /**
   * `prev.map(...)` over `n` steps while step `c` runs: earlier steps
   * complete, `c` running, the rest pending. The map ignores the previous
   * statuses, so only their number matters.
   */
  function WhileRunning(n: nat, c: nat): (r: seq<StepStatus>)
    ensures |r| == n
    ensures forall i :: 0 <= i < |r| ==> (r[i] == StepComplete <==> i < c) && (r[i] == StepRunning <==> i == c)
  {
    seq(n, i requires 0 <= i < n => if i < c then StepComplete else if i == c then StepRunning else StepPending)
  }

  /** `prev.map(...)` over `n` steps when step `c` finishes: steps up to `c` complete, `c + 1` running, the rest pending. */
  function AfterFinishing(n: nat, c: nat): (r: seq<StepStatus>)
    ensures |r| == n
    ensures forall i :: 0 <= i < |r| ==> (r[i] == StepComplete <==> i <= c) && (r[i] == StepRunning <==> i == c + 1)
  {
    seq(n, i requires 0 <= i < n => if i <= c then StepComplete else if i == c + 1 then StepRunning else StepPending)
  }

  /** Finishing step `c` shows exactly what running step `c + 1` shows. */
  lemma FinishingStartsNext(n: nat, c: nat)
    ensures AfterFinishing(n, c) == WhileRunning(n, c + 1)
  {
  }

  function Rank(s: StepStatus): nat {
    match s
    case StepComplete => 2
    case StepRunning => 1
    case StepPending => 0
  }

  /** Complete steps, then at most one running step, then pending steps. */
  predicate WellOrdered(steps: seq<StepStatus>) {
    && (forall i, j :: 0 <= i < j < |steps| ==> Rank(steps[i]) >= Rank(steps[j]))
    && (forall i, j :: 0 <= i < j < |steps| && steps[i] == StepRunning ==> steps[j] != StepRunning)
  }

  /** Every status display the run produces is well ordered. */
  lemma RunningWellOrdered(n: nat, c: nat)
    ensures WellOrdered(WhileRunning(n, c))
    ensures WellOrdered(AfterFinishing(n, c))
  {
    FinishingStartsNext(n, c);
  }

  /** `Math.round(100 * num / den)`: the nearest integer, halves rounded up. */
  function RoundPercent(num: nat, den: nat): (r: nat)
    requires den > 0
    ensures den * (2 * r) <= 200 * num + den < den * (2 * r + 2)
  {
    (200 * num + den) / (2 * den)
  }

  /** `Math.round(((c + 0.5) / totalSteps) * 100)`. */
  function RunningProgress(c: nat): nat {
    RoundPercent(2 * c + 1, 2 * STEP_COUNT)
  }

  /** `Math.round(((c + 1) / totalSteps) * 100)`. */
  function FinishedProgress(c: nat): nat {
    RoundPercent(c + 1, STEP_COUNT)
  }

  /** With five steps, step `c` shows `20c + 10` while it runs and `20c + 20` once it is done. */
  lemma ProgressValues(c: nat)
    requires c < STEP_COUNT
    ensures RunningProgress(c) == 20 * c + 10
    ensures FinishedProgress(c) == 20 * c + 20
  {
    assert 200 * (2 * c + 1) + 10 == 20 * (20 * c + 10) + 10;
    assert 200 * (c + 1) + 5 == 10 * (20 * c + 20) + 5;
  }

  /** Progress only grows: running, then finished, then the next step running, up to 100. */
  lemma ProgressIncreases(c: nat)
    requires c < STEP_COUNT
    ensures RunningProgress(c) < FinishedProgress(c) <= 100
    ensures c + 1 < STEP_COUNT ==> FinishedProgress(c) < RunningProgress(c + 1)
    ensures c + 1 == STEP_COUNT ==> FinishedProgress(c) == 100
  {
    ProgressValues(c);
    if c + 1 < STEP_COUNT {
      ProgressValues(c + 1);
    }
  }

  // ---------------------------------------------------------------------------
  // The page
  // ---------------------------------------------------------------------------

  class AnalyzePage {
    var script: string
    var status: Status
    var progress: nat
    var steps: seq<StepStatus>
    /** `currentStep` of the run's closure. */
    var currentStep: nat
    /** Whether a `setTimeout` callback is pending. */
    var timerArmed: bool

    ghost predicate Valid()
      reads this
    {
      && |steps| == STEP_COUNT
      && WellOrdered(steps)
      && progress <= 100
      && (timerArmed <==> status == Running)
      && (status == Running ==>
            currentStep < STEP_COUNT && steps == WhileRunning(STEP_COUNT, currentStep) &&
            progress == RunningProgress(currentStep))
      && (status == Complete ==> progress == 100)
    }

    constructor ()
      ensures Valid()
      ensures script == "" && status == Idle && progress == 0 && !timerArmed
      ensures steps == seq(STEP_COUNT, i => StepPending)
    {
      script := "";
      status := Idle;
      progress := 0;
      steps := seq(STEP_COUNT, i => StepPending);
      currentStep := 0;
      timerArmed := false;
    }

    /** The script editor's `onChange`. */
    method SetScript(value: string)
      requires Valid()
      modifies this`script
      ensures Valid() && script == value
    {
      script := value;
    }

    /** The start button is disabled exactly when starting would do nothing or a run is already going. */
    predicate IsDisabled()
      requires Valid()
      reads this
      ensures !IsDisabled() <==> !Blank(script) && !timerArmed
    {
      Blank(script) || status == Running
    }

    /**
     * `startAnalysis`: nothing for a blank script; otherwise a fresh run
     * whose step 0 is running at once. Called from the start button only,
     * so never during a run.
     */
    method StartAnalysis()
      requires Valid() && status != Running
      modifies this
      ensures Valid()
      ensures Blank(old(script)) ==> unchanged(this)
      ensures !Blank(old(script)) ==>
        && script == old(script) && status == Running && currentStep == 0 && timerArmed
        && steps == WhileRunning(STEP_COUNT, 0) && progress == RunningProgress(0)
    {
      if Blank(script) {
        return;
      }
      status := Running;
      progress := 0;
      steps := seq(STEP_COUNT, i => StepPending);
      currentStep := 0;
      AdvanceStep();
    }

    /** `advanceStep`: show step `currentStep` running and arm the timer, or finish the run. */
    method AdvanceStep()
      requires status == Running && !timerArmed && |steps| == STEP_COUNT && currentStep <= STEP_COUNT
      requires currentStep == STEP_COUNT ==> steps == seq(STEP_COUNT, i => StepComplete)
      modifies this`steps, this`progress, this`timerArmed, this`status
      ensures Valid()
      ensures old(currentStep) < STEP_COUNT ==>
        status == Running && timerArmed && steps == WhileRunning(STEP_COUNT, currentStep) &&
        progress == RunningProgress(currentStep)
      ensures old(currentStep) == STEP_COUNT ==> status == Complete && progress == 100 && steps == old(steps)
    {
      if currentStep < STEP_COUNT {
        steps := WhileRunning(STEP_COUNT, currentStep);
        RunningWellOrdered(STEP_COUNT, currentStep);
        progress := RunningProgress(currentStep);
        ProgressIncreases(currentStep);
        timerArmed := true;
      } else {
        status := Complete;
        progress := 100;
        assert WellOrdered(steps);
      }
    }

    /** The timer callback: finish the current step, move on, and advance again. */
    method TimerFires()
      requires Valid() && timerArmed
      modifies this
      ensures Valid()
      ensures script == old(script) && currentStep == old(currentStep) + 1
      ensures progress > old(progress)
      ensures currentStep < STEP_COUNT ==>
        status == Running && timerArmed && steps == WhileRunning(STEP_COUNT, currentStep) &&
        progress == RunningProgress(currentStep)
      ensures currentStep == STEP_COUNT ==>
        status == Complete && !timerArmed && progress == 100 && steps == seq(STEP_COUNT, i => StepComplete)
    {
      ProgressIncreases(currentStep);
      steps := AfterFinishing(STEP_COUNT, currentStep);
      FinishingStartsNext(STEP_COUNT, currentStep);
      progress := FinishedProgress(currentStep);
      currentStep := currentStep + 1;
      timerArmed := false;
      AdvanceStep();
    }
  }
}
