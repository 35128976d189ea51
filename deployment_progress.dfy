/** DeploymentProgress.tsx: the simulated deployment screen. A half-second
    interval advances a clock; every tick recomputes the overall progress,
    the remaining time and each step's status from the cumulative step
    durations, and the last tick stops the timer and schedules completion.
    Time is counted in integer half-second ticks. */
module DeploymentProgress {
  import opened Wrappers
  import opened Text

  datatype StepStatus = Pending | Running | Completed | Error

  /** A step of the deployment; `duration` is in seconds. */
  datatype DeploymentStep = DeploymentStep(id: string, title: string, description: string, duration: nat)

  /** The five steps, in order; the domain step names the domain. */
  function Steps(domain: string): (r: seq<DeploymentStep>)
    ensures |r| == 5
    ensures forall i, j :: 0 <= i < j < |r| ==> r[i].id != r[j].id
    ensures r[3].id == "domain" && |domain| <= |r[3].description|
    ensures r[3].description[|r[3].description| - |domain|..] == domain
  {
    [ DeploymentStep("infrastructure", "Setting up Infrastructure", "Provisioning servers and network configuration", 8),
      DeploymentStep("security", "Configuring Security", "Setting up SSL certificates and firewall rules", 6),
      DeploymentStep("database", "Initializing Database", "Creating database schema and initial data", 10),
      DeploymentStep("domain", "Configuring Domain", "Setting up DNS routing for " + domain, 12),
      DeploymentStep("deployment", "Deploying Application", "Building and deploying your application", 9) ]
  }

  /** The step durations in ticks (two ticks per second). */
  function TickDurations(steps: seq<DeploymentStep>): (r: seq<nat>)
    ensures |r| == |steps| && forall i :: 0 <= i < |steps| ==> r[i] == 2 * steps[i].duration
  {
    seq(|steps|, i requires 0 <= i < |steps| => 2 * steps[i].duration)
  }

  /** `steps.reduce((sum, step) => sum + step.duration, 0)`, in seconds. */
  function SumDurations(steps: seq<DeploymentStep>): nat
    decreases |steps|
  {
    if steps == [] then 0 else SumDurations(steps[..|steps| - 1]) + steps[|steps| - 1].duration
  }

  const DURATIONS: seq<nat> := [16, 12, 20, 24, 18]
  const TOTAL_TICKS: nat := 90
  const TOTAL_SECONDS: real := 45.0

  // ----- step windows over any durations -----

  /** The tick at which step `i` starts: the sum of the durations before it. */
  function StartOf(ds: seq<nat>, i: nat): nat
    requires i <= |ds|
    decreases i
  {
    if i == 0 then 0 else StartOf(ds, i - 1) + ds[i - 1]
  }

  function Total(ds: seq<nat>): nat
  {
    StartOf(ds, |ds|)
  }

  /** The status of a step whose window is `[start, start + duration)` at
      tick `t`. */
  function StatusAt(start: nat, duration: nat, t: nat): StepStatus
  {
    if t < start then Pending else if t < start + duration then Running else Completed
  }

  /** The status of every step at tick `t`. */
  function Statuses(ds: seq<nat>, t: nat): (r: seq<StepStatus>)
    ensures |r| == |ds|
  {
    seq(|ds|, i requires 0 <= i < |ds| => StatusAt(StartOf(ds, i), ds[i], t))
  }

  /** Pending, running, completed, in the order a step passes through them. */
  function Rank(s: StepStatus): nat
  {
    match s
    case Pending => 0
    case Running => 1
    case Completed => 2
    case Error => 3
  }

  lemma {:induction false} StartMonotone(ds: seq<nat>, i: nat, j: nat)
    requires i <= j <= |ds|
    ensures StartOf(ds, i) <= StartOf(ds, j)
    decreases j
  {
    if i < j {
      StartMonotone(ds, i, j - 1);
    }
  }

  /** At every tick the statuses read completed*, then running*, then
      pending*: a later step is never further along than an earlier one. */
  lemma StatusesOrdered(ds: seq<nat>, t: nat, i: nat, j: nat)
    requires i < j < |ds|
    ensures Rank(Statuses(ds, t)[i]) >= Rank(Statuses(ds, t)[j])
    ensures Statuses(ds, t)[j] != Pending ==> Statuses(ds, t)[i] == Completed
  {
    var si, sj := StartOf(ds, i), StartOf(ds, j);
    assert si + ds[i] <= sj by {
      StartMonotone(ds, i + 1, j);
    }
    var a, b := Statuses(ds, t)[i], Statuses(ds, t)[j];
    assert a == StatusAt(si, ds[i], t);
    assert b == StatusAt(sj, ds[j], t);
    WindowsOrdered(si, ds[i], sj, ds[j], t);
  }

  /** Of two windows, the first ending before the second starts, the first is
      always at least as far along. */
  lemma WindowsOrdered(s1: nat, d1: nat, s2: nat, d2: nat, t: nat)
    requires s1 + d1 <= s2
    ensures Rank(StatusAt(s1, d1, t)) >= Rank(StatusAt(s2, d2, t))
    ensures StatusAt(s2, d2, t) != Pending ==> StatusAt(s1, d1, t) == Completed
  {
  }

  /** At most one step is running. */
  lemma AtMostOneRunning(ds: seq<nat>, t: nat, i: nat, j: nat)
    requires i < |ds| && j < |ds|
    requires Statuses(ds, t)[i] == Running && Statuses(ds, t)[j] == Running
    ensures i == j
  {
    if i < j {
      StatusesOrdered(ds, t, i, j);
    } else if j < i {
      StatusesOrdered(ds, t, j, i);
    }
  }

  /** The index of the last step among the first `k` that has started by
      tick `t` (the first step when none has). */
  function IndexAt(ds: seq<nat>, t: nat, k: nat): (r: nat)
    requires 0 < k <= |ds|
    ensures r < k
    decreases k
  {
    if k == 1 || StartOf(ds, k - 1) <= t then k - 1 else IndexAt(ds, t, k - 1)
  }

  lemma {:induction false} IndexAtWindow(ds: seq<nat>, t: nat, k: nat)
    requires 0 < k <= |ds| && t < StartOf(ds, k)
    ensures StartOf(ds, IndexAt(ds, t, k)) <= t < StartOf(ds, IndexAt(ds, t, k) + 1)
    decreases k
  {
    if k > 1 && StartOf(ds, k - 1) > t {
      IndexAtWindow(ds, t, k - 1);
    }
  }

  /** Before the end exactly one step is running, and it is `IndexAt`. */
  lemma RunningBeforeEnd(ds: seq<nat>, t: nat)
    requires |ds| > 0 && t < Total(ds)
    ensures Statuses(ds, t)[IndexAt(ds, t, |ds|)] == Running
    ensures forall i :: 0 <= i < |ds| && Statuses(ds, t)[i] == Running ==> i == IndexAt(ds, t, |ds|)
  {
    IndexAtWindow(ds, t, |ds|);
    forall i | 0 <= i < |ds| && Statuses(ds, t)[i] == Running
      ensures i == IndexAt(ds, t, |ds|)
    {
      AtMostOneRunning(ds, t, i, IndexAt(ds, t, |ds|));
    }
  }

  /** From the end on, every step is completed. */
  lemma AllCompletedAtEnd(ds: seq<nat>, t: nat)
    requires t >= Total(ds)
    ensures forall i :: 0 <= i < |ds| ==> Statuses(ds, t)[i] == Completed
  {
    forall i | 0 <= i < |ds| ensures Statuses(ds, t)[i] == Completed {
      StartMonotone(ds, i + 1, |ds|);
      assert StartOf(ds, i + 1) == StartOf(ds, i) + ds[i] <= t;
      assert Statuses(ds, t)[i] == StatusAt(StartOf(ds, i), ds[i], t);
    }
  }

  /** No status ever moves backwards as time passes, and `Error` is never
      produced. */
  lemma StatusesMonotone(ds: seq<nat>, t: nat, t': nat, i: nat)
    requires t <= t' && i < |ds|
    ensures Rank(Statuses(ds, t)[i]) <= Rank(Statuses(ds, t')[i])
    ensures Statuses(ds, t)[i] != Error
  {
  }

  /** The five steps take 90 ticks, 45 seconds, and the last one starts at
      tick 72. */
  lemma DurationsFacts(domain: string)
    ensures TickDurations(Steps(domain)) == DURATIONS
    ensures Total(DURATIONS) == TOTAL_TICKS && TOTAL_TICKS as real / 2.0 == TOTAL_SECONDS
    ensures StartOf(DURATIONS, 4) == 72
  {
    assert StartOf(DURATIONS, 1) == 16;
    assert StartOf(DURATIONS, 2) == 28;
    assert StartOf(DURATIONS, 3) == 48;
  }

  /** The durations add up to 45 seconds. */
  lemma StepsSum(domain: string)
    ensures SumDurations(Steps(domain)) as real == TOTAL_SECONDS
  {
    var s := Steps(domain);
    assert s[..1][..0] == [];
    assert SumDurations(s[..1]) == 8;
    assert s[..2][..1] == s[..1];
    assert SumDurations(s[..2]) == 14;
    assert s[..3][..2] == s[..2];
    assert SumDurations(s[..3]) == 24;
    assert s[..4][..3] == s[..3];
    assert SumDurations(s[..4]) == 36;
    assert s[..5][..4] == s[..4] && s[..5] == s;
  }

  // ----- the loop of one tick -----

  /** `steps.map(...)` with its running accumulator: the status of every
      step, and the index last passed to `setCurrentStepIndex` (None when no
      step is running). */
  method ComputeStatuses(ds: seq<nat>, t: nat) returns (statuses: seq<StepStatus>, current: Option<nat>)
    ensures statuses == Statuses(ds, t)
    ensures forall i :: 0 <= i < |ds| ==> (statuses[i] == Running <==> current == Some(i))
    ensures current.Some? ==> current.value < |ds|
  {
    var accumulatedTime: nat := 0;
    statuses := [];
    current := None;
    var index := 0;
    while index < |ds|
      invariant 0 <= index <= |ds|
      invariant accumulatedTime == StartOf(ds, index)
      invariant statuses == Statuses(ds, t)[..index]
      invariant forall i :: 0 <= i < index ==> (statuses[i] == Running <==> current == Some(i))
      invariant current.Some? ==> current.value < index
    {
      var stepStartTime := accumulatedTime;
      var stepEndTime := accumulatedTime + ds[index];
      accumulatedTime := accumulatedTime + ds[index];
      var status: StepStatus;
      if t < stepStartTime {
        status := Pending;
      } else if stepStartTime <= t < stepEndTime {
        NoneRunningBefore(ds, t, index);
        current := Some(index);
        status := Running;
      } else {
        status := Completed;
      }
      assert status == Statuses(ds, t)[index];
      assert Statuses(ds, t)[..index + 1] == Statuses(ds, t)[..index] + [status];
      statuses := statuses + [status];
      index := index + 1;
    }
  }

  /** While step `j` is running, no step before it is. */
  lemma NoneRunningBefore(ds: seq<nat>, t: nat, j: nat)
    requires j < |ds| && StatusAt(StartOf(ds, j), ds[j], t) == Running
    ensures forall i :: 0 <= i < j ==> Statuses(ds, t)[i] != Running
  {
    forall i | 0 <= i < j ensures Statuses(ds, t)[i] != Running {
      StatusesOrdered(ds, t, i, j);
    }
  }

  // ----- progress and time -----

  function Min(a: real, b: real): real { if a <= b then a else b }
  function Max(a: real, b: real): real { if a >= b then a else b }

  function Seconds(t: nat): real { t as real / 2.0 }

  /** `Math.min((currentTime / totalDuration) * 100, 100)`. */
  function Progress(t: nat): real
  {
    Min(Seconds(t) / TOTAL_SECONDS * 100.0, 100.0)
  }

  /** `Math.max(totalDuration - currentTime, 0)`. */
  function Remaining(t: nat): real
  {
    Max(TOTAL_SECONDS - Seconds(t), 0.0)
  }

  /** Progress never decreases and stays in [0, 100]; the remaining time
      never increases and is never negative; both reach their end exactly at
      the last tick. */
  lemma ProgressMonotone(t: nat, t': nat)
    requires t <= t'
    ensures 0.0 <= Progress(t) <= Progress(t') <= 100.0
    ensures Remaining(t) >= Remaining(t') >= 0.0
    ensures Progress(t) == 100.0 <==> t >= TOTAL_TICKS
    ensures Remaining(t) == 0.0 <==> t >= TOTAL_TICKS
    ensures Progress(t) + Remaining(t) * 100.0 / TOTAL_SECONDS == 100.0 || t > TOTAL_TICKS
  {
  }

  // ----- formatTime -----

  function Pad2(n: nat): (r: string)
    requires n < 100
    ensures |r| == 2 && (forall k :: 0 <= k < 2 ==> IsDigit(r[k])) && DecimalValue(r) == n
  {
    if n < 10 then
      assert DecimalValue(['0', DigitChar(n)][..1]) == 0;
      ['0', DigitChar(n)]
    else
      assert DecimalValue([DigitChar(n / 10), DigitChar(n % 10)][..1]) == n / 10;
      [DigitChar(n / 10), DigitChar(n % 10)]
  }

  /** `formatTime(seconds)`: whole minutes, a colon, then the whole seconds
      of the remainder, padded to two digits. */
  function FormatTime(seconds: real): (r: string)
    requires seconds >= 0.0
    ensures exists mins: nat, secs: nat ::
      secs < 60 && mins * 60 + secs == seconds.Floor && r == Decimal(mins) + ":" + Pad2(secs)
  {
    var mins := (seconds / 60.0).Floor;
    var secs := (seconds - 60.0 * mins as real).Floor;
    FloorFacts(seconds);
    Decimal(mins) + ":" + Pad2(secs)
  }

  lemma FloorFacts(seconds: real)
    requires seconds >= 0.0
    ensures var mins := (seconds / 60.0).Floor; var secs := (seconds - 60.0 * mins as real).Floor;
      mins >= 0 && 0 <= secs < 60 && mins * 60 + secs == seconds.Floor
  {
    var mins := (seconds / 60.0).Floor;
    var rest := seconds - 60.0 * mins as real;
    assert mins as real <= seconds / 60.0 < mins as real + 1.0;
    assert 0.0 <= rest < 60.0;
    var secs := rest.Floor;
    assert (mins * 60 + secs) as real <= seconds < (mins * 60 + secs) as real + 1.0;
  }

  /** The minutes and the seconds can be read back from the text. */
  lemma FormatTimeRoundTrip(seconds: real)
    requires seconds >= 0.0
    ensures var r := FormatTime(seconds); var colon := |r| - 3;
      && |r| >= 4 && r[colon] == ':'
      && (forall k :: 0 <= k < colon ==> IsDigit(r[k]))
      && (forall k :: colon < k < |r| ==> IsDigit(r[k]))
      && DecimalValue(r[..colon]) * 60 + DecimalValue(r[colon + 1..]) == seconds.Floor
      && DecimalValue(r[colon + 1..]) < 60
  {
    var mins := (seconds / 60.0).Floor;
    var secs := (seconds - 60.0 * mins as real).Floor;
    FloorFacts(seconds);
    var r := FormatTime(seconds);
    assert r == Decimal(mins) + ":" + Pad2(secs);
    var colon := |r| - 3;
    assert r[..colon] == Decimal(mins);
    assert r[colon + 1..] == Pad2(secs);
    DecimalRoundTrip(mins);
  }

  /** What a tick computes from the summed durations is the progress and the
      remaining time; the timer stops exactly at the last tick. */
  lemma TimesAt(total: nat, t: nat)
    requires total as real == TOTAL_SECONDS
    ensures Min(Seconds(t) / (total as real) * 100.0, 100.0) == Progress(t)
    ensures Max(total as real - Seconds(t), 0.0) == Remaining(t)
    ensures Seconds(t) >= total as real <==> t >= TOTAL_TICKS
  {
  }

  /** The index the component shows after a tick: the running step's when
      one runs, else the one shown before, which after the last tick is the
      last step's. */
  lemma CurrentAfterTick(t: nat, statuses: seq<StepStatus>, current: Option<nat>, previous: nat)
    requires 1 <= t <= TOTAL_TICKS && statuses == Statuses(DURATIONS, t)
    requires forall i :: 0 <= i < 5 ==> (statuses[i] == Running <==> current == Some(i))
    requires current.Some? ==> current.value < 5
    requires t == 1 ==> previous == 0
    requires t > 1 ==> previous == IndexAt(DURATIONS, t - 1, 5)
    ensures var shown := if current.Some? then current.value else previous;
      && shown == IndexAt(DURATIONS, t, 5)
      && (t < TOTAL_TICKS ==> statuses[shown] == Running)
      && (t == TOTAL_TICKS ==> shown == 4)
  {
    if t < TOTAL_TICKS {
      RunningBeforeEnd(DURATIONS, t);
    } else {
      AllCompletedAtEnd(DURATIONS, t);
      assert IndexAt(DURATIONS, t, 5) == 4;
      assert IndexAt(DURATIONS, t - 1, 5) == 4;
    }
  }

  // ----- the component -----

  class DeploymentProgress {
    const domain: string
    const email: string
    const steps: seq<DeploymentStep>
    var currentStepIndex: nat
    var stepsState: seq<StepStatus>
    var progress: real
    var timeElapsed: real
    var estimatedTimeRemaining: real
    /** The effect's `currentTime`, in ticks. */
    var ticks: nat
    /** The interval is active. */
    var timerRunning: bool
    /** The one-second timeout that calls `onComplete` is pending. */
    var completionPending: bool
    /** How many times `onComplete` has been called. */
    var completions: nat

    ghost predicate Valid()
      reads this
    {
      && TickDurations(steps) == DURATIONS && SumDurations(steps) as real == TOTAL_SECONDS
      && ticks <= TOTAL_TICKS
      && (timerRunning ==> ticks < TOTAL_TICKS)
      && (ticks == 0 ==> stepsState == seq(5, i => Pending) && progress == 0.0 && timeElapsed == 0.0
                         && estimatedTimeRemaining == TOTAL_SECONDS && currentStepIndex == 0)
      && (ticks > 0 ==> stepsState == Statuses(DURATIONS, ticks) && progress == Progress(ticks)
                        && timeElapsed == Seconds(ticks) && estimatedTimeRemaining == Remaining(ticks)
                        && currentStepIndex == IndexAt(DURATIONS, ticks, 5))
      && completions + (if completionPending then 1 else 0) == (if ticks == TOTAL_TICKS then 1 else 0)
    }

    /** Mounting: all steps pending, 45 seconds remaining, the interval
        started. */
    constructor(domain: string, email: string)
      ensures Valid() && this.domain == domain && this.email == email && steps == Steps(domain)
      ensures ticks == 0 && timerRunning && !completionPending && completions == 0
      ensures stepsState == seq(5, i => Pending) && currentStepIndex == 0
    {
      this.domain := domain;
      this.email := email;
      steps := Steps(domain);
      DurationsFacts(domain);
      StepsSum(domain);
      currentStepIndex := 0;
      stepsState := seq(5, i => Pending);
      progress := 0.0;
      timeElapsed := 0.0;
      estimatedTimeRemaining := 45.0;
      ticks := 0;
      timerRunning := true;
      completionPending := false;
      completions := 0;
    }

    /** One firing of the interval. */
    method Tick()
      requires Valid() && timerRunning
      modifies this
      ensures Valid()
      ensures ticks == old(ticks) + 1
      ensures stepsState == Statuses(DURATIONS, ticks)
      ensures progress == Progress(ticks) && timeElapsed == Seconds(ticks) && estimatedTimeRemaining == Remaining(ticks)
      ensures ticks < TOTAL_TICKS ==> stepsState[currentStepIndex] == Running
      ensures ticks == TOTAL_TICKS ==> currentStepIndex == 4
      ensures timerRunning <==> ticks < TOTAL_TICKS
      ensures completionPending <==> ticks == TOTAL_TICKS
      ensures completions == 0
    {
      var totalDuration := SumDurations(steps);
      ghost var previous := currentStepIndex;
      ticks := ticks + 1;
      timeElapsed := Seconds(ticks);
      progress := Min(Seconds(ticks) / (totalDuration as real) * 100.0, 100.0);
      estimatedTimeRemaining := Max(totalDuration as real - Seconds(ticks), 0.0);
      var newStepsState, current := ComputeStatuses(TickDurations(steps), ticks);
      if current.Some? {
        currentStepIndex := current.value;
      }
      stepsState := newStepsState;
      CurrentAfterTick(ticks, stepsState, current, previous);
      TimesAt(totalDuration, ticks);
      if Seconds(ticks) >= totalDuration as real {
        timerRunning := false;
        completionPending := true;
      }
    }

    /** The timeout scheduled by the last tick calls `onComplete`. */
    method FireCompletion()
      requires Valid() && completionPending
      modifies this
      ensures Valid() && !completionPending && completions == 1 && ticks == TOTAL_TICKS
      ensures timerRunning == old(timerRunning) && stepsState == old(stepsState) && ticks == old(ticks)
    {
      completionPending := false;
      completions := completions + 1;
    }

    /** The effect's cleanup on unmount clears the interval (the completion
        timeout, once scheduled, is not cleared). */
    method Unmount()
      requires Valid()
      modifies this
      ensures Valid() && !timerRunning
      ensures ticks == old(ticks) && completionPending == old(completionPending) && completions == old(completions)
      ensures stepsState == old(stepsState)
    {
      timerRunning := false;
    }
  }

  /** Driving the interval from mount: the timer stops on the 90th tick and
      completion is signalled exactly once. */
  method RunToCompletion(domain: string, email: string) returns (component: DeploymentProgress, tickCount: nat)
    ensures component.Valid() && component.domain == domain && component.email == email
    ensures tickCount == TOTAL_TICKS && component.ticks == TOTAL_TICKS
    ensures component.completions == 1 && !component.timerRunning && !component.completionPending
    ensures forall i :: 0 <= i < 5 ==> component.stepsState[i] == Completed
    ensures component.progress == 100.0 && component.estimatedTimeRemaining == 0.0
  {
    component := new DeploymentProgress(domain, email);
    tickCount := 0;
    while component.timerRunning
      invariant component.Valid() && component.ticks == tickCount
      invariant component.ticks < TOTAL_TICKS ==> component.timerRunning
      invariant !component.timerRunning ==> component.ticks == TOTAL_TICKS && component.completionPending
      invariant component.completions == 0
      decreases TOTAL_TICKS - component.ticks
    {
      component.Tick();
      tickCount := tickCount + 1;
    }
    AllCompletedAtEnd(DURATIONS, component.ticks);
    DurationsFacts(domain);
    component.FireCompletion();
  }
}
