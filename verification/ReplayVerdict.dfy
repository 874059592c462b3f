/** Replaying a case: the cycle and index loop, its receipts, and the verdict
    that is published with them. The device is an oracle that says how each
    attempted action goes. */
module ReplayVerdict {
  import opened TouchTimeline
  import R = ActionReceipts

  datatype StepId = StepId(cycle: nat, index: nat)

  /** How one attempt at an action goes: the session was cancelled while waiting
      for its time, the target was not in front, the action failed, or it ran; a
      screenshot then lies at some distance from its reference. */
  datatype Attempt = Cancelled | NotForeground | ExecutionError | Ran(distance: nat)

  datatype Device = Device(
    displayKnown: bool,
    attempt: StepId -> Attempt,
    pause: nat -> Attempt)             // between cycles: Ran means it went on

  /** A verified case and where to start it; loops below zero means forever. */
  datatype Config = Config(actions: seq<Action>, fingerprint: string, resumeFrom: nat, loops: int)
  {
    predicate Valid() { resumeFrom <= |actions| && (loops == -1 || 1 <= loops <= 50) && fingerprint != "" }
    function Start(cycle: nat): nat { if cycle == 1 then resumeFrom else 0 }
    predicate HasAssertions() { exists i :: 0 <= i < |actions| && actions[i].AssertScreenshot? }
  }

  datatype Reason = Completed | Stopped | SafetyStop | InputFailed | AssertionFailed | DisplayUnavailable

  datatype Report = Report(running: bool, reason: Reason, failed: bool, completed: nat, cycle: nat)

  datatype Verdict = Passed | Refuted | NotTested

  /** The action ran, and if it is a checkpoint the screenshot was close enough. */
  predicate Succeeds(a: Action, attempt: Attempt) {
    attempt.Ran? && (a.AssertScreenshot? ==> attempt.distance <= a.maxDistance)
  }

  function Steps(cycle: nat, from: nat, to: nat): (steps: seq<StepId>)
    requires from <= to
    ensures |steps| == to - from
    ensures forall i :: 0 <= i < |steps| ==> steps[i] == StepId(cycle, from + i)
  {
    seq(to - from, i requires 0 <= i => StepId(cycle, from + i))
  }

  lemma StepsSnoc(done: seq<StepId>, cycle: nat, from: nat, to: nat)
    requires from <= to
    ensures (done + Steps(cycle, from, to)) + [StepId(cycle, to)] == done + Steps(cycle, from, to + 1)
  {
    assert Steps(cycle, from, to + 1) == Steps(cycle, from, to) + [StepId(cycle, to)];
  }

  /** Everything a replay of n full cycles executes, in order. */
  function AllSteps(config: Config, n: nat): seq<StepId>
    requires config.Valid()
  {
    if n == 0 then [] else AllSteps(config, n - 1) + Steps(n, config.Start(n), |config.actions|)
  }

  ghost predicate AllSucceed(config: Config, device: Device, steps: seq<StepId>) {
    forall i :: 0 <= i < |steps| ==>
      steps[i].index < |config.actions| && Succeeds(config.actions[steps[i].index], device.attempt(steps[i]))
  }

  // ----- Where a replay ends --------------------------------------------------

  /** Every action of the cycle before `to` goes well. */
  ghost predicate GoesWell(config: Config, device: Device, cycle: nat, to: nat)
    requires config.Valid() && to <= |config.actions|
  {
    forall i :: config.Start(cycle) <= i < to ==> Succeeds(config.actions[i], device.attempt(StepId(cycle, i)))
  }

  /** Everything before step (cycle, index) has gone well: every action of the
      cycles before and of this one so far, and every pause between them. */
  ghost predicate Reaches(config: Config, device: Device, cycle: nat, index: nat)
    requires config.Valid()
  {
    && device.displayKnown && cycle >= 1 && (config.loops >= 1 ==> cycle <= config.loops)
    && config.Start(cycle) <= index <= |config.actions|
    && (forall c :: 1 <= c < cycle ==> GoesWell(config, device, c, |config.actions|) && device.pause(c).Ran?)
    && GoesWell(config, device, cycle, index)
  }

  /** Why a replay stops at an action that goes this way, if it does. */
  predicate StopsAt(a: Action, attempt: Attempt, reason: Reason) {
    match reason
    case Stopped => attempt == Cancelled
    case SafetyStop => attempt == NotForeground
    case InputFailed => !a.AssertScreenshot? && attempt == ExecutionError
    case AssertionFailed =>
      a.AssertScreenshot? && (attempt == ExecutionError || (attempt.Ran? && attempt.distance > a.maxDistance))
    case _ => false
  }

  /** Why it stops between two cycles. */
  predicate StopsBetween(pause: Attempt, reason: Reason) {
    (reason == Stopped && pause == Cancelled)
    || (reason == SafetyStop && (pause == NotForeground || pause == ExecutionError))
  }

  /** What the device did lets the replay end for this reason. */
  ghost predicate EndsFor(config: Config, device: Device, reason: Reason)
    requires config.Valid()
  {
    || (reason == DisplayUnavailable && !device.displayKnown)
    || (reason == Completed && config.loops >= 1 && Reaches(config, device, config.loops, |config.actions|))
    || (exists c: nat, i: nat :: Reaches(config, device, c, i) && i < |config.actions|
          && StopsAt(config.actions[i], device.attempt(StepId(c, i)), reason))
    || (exists c: nat :: Reaches(config, device, c, |config.actions|) && c != config.loops
          && StopsBetween(device.pause(c), reason))
  }

  lemma StepEnds(config: Config, device: Device, c: nat, i: nat, reason: Reason)
    requires config.Valid() && Reaches(config, device, c, i) && i < |config.actions|
    requires StopsAt(config.actions[i], device.attempt(StepId(c, i)), reason)
    ensures EndsFor(config, device, reason)
  {
  }

  lemma PauseEnds(config: Config, device: Device, c: nat, reason: Reason)
    requires config.Valid() && Reaches(config, device, c, |config.actions|) && c != config.loops
    requires StopsBetween(device.pause(c), reason)
    ensures EndsFor(config, device, reason)
  {
  }

  /** A place where the replay stops: index |actions| stands for the pause. */
  ghost predicate StopsHere(config: Config, device: Device, c: nat, i: nat)
    requires config.Valid()
  {
    && Reaches(config, device, c, i)
    && if i < |config.actions| then !Succeeds(config.actions[i], device.attempt(StepId(c, i)))
       else c != config.loops && !device.pause(c).Ran?
  }

  lemma EarlierCyclesGoWell(config: Config, device: Device, c: nat, i: nat, d: nat, j: nat)
    requires config.Valid() && Reaches(config, device, c, i) && Reaches(config, device, d, j) && d > c
    ensures i < |config.actions| ==> Succeeds(config.actions[i], device.attempt(StepId(c, i)))
    ensures device.pause(c).Ran?
  {
    assert GoesWell(config, device, c, |config.actions|);
  }

  lemma NothingBeyondAStop(config: Config, device: Device, c: nat, i: nat, d: nat, j: nat)
    requires config.Valid() && StopsHere(config, device, c, i) && Reaches(config, device, d, j)
    ensures d < c || (d == c && j <= i)
  {
    if d > c { EarlierCyclesGoWell(config, device, c, i, d, j); }
  }

  ghost function Stop(config: Config, device: Device, reason: Reason): (stop: (nat, nat))
    requires config.Valid() && EndsFor(config, device, reason) && reason != DisplayUnavailable && reason != Completed
    ensures StopsHere(config, device, stop.0, stop.1)
    ensures if stop.1 < |config.actions|
            then StopsAt(config.actions[stop.1], device.attempt(StepId(stop.0, stop.1)), reason)
            else StopsBetween(device.pause(stop.0), reason)
  {
    if exists c: nat, i: nat :: Reaches(config, device, c, i) && i < |config.actions|
         && StopsAt(config.actions[i], device.attempt(StepId(c, i)), reason) then
      var c: nat, i: nat :| Reaches(config, device, c, i) && i < |config.actions|
        && StopsAt(config.actions[i], device.attempt(StepId(c, i)), reason);
      (c, i)
    else
      var c: nat :| Reaches(config, device, c, |config.actions|) && c != config.loops
        && StopsBetween(device.pause(c), reason);
      (c, |config.actions|)
  }

  lemma OneStop(config: Config, device: Device, c: nat, i: nat, d: nat, j: nat)
    requires config.Valid() && StopsHere(config, device, c, i) && StopsHere(config, device, d, j)
    ensures c == d && i == j
  {
    NothingBeyondAStop(config, device, c, i, d, j);
    NothingBeyondAStop(config, device, d, j, c, i);
  }

  lemma StopBeforeTheEnd(config: Config, device: Device, reason: Reason)
    requires config.Valid() && config.loops >= 1 && Reaches(config, device, config.loops, |config.actions|)
    requires reason != DisplayUnavailable && reason != Completed
    ensures !EndsFor(config, device, reason)
  {
    if EndsFor(config, device, reason) {
      var stop := Stop(config, device, reason);
      NothingBeyondAStop(config, device, stop.0, stop.1, config.loops, |config.actions|);
    }
  }

  /** What the device does determines the reason. */
  lemma OneReason(config: Config, device: Device, first: Reason, second: Reason)
    requires config.Valid() && EndsFor(config, device, first) && EndsFor(config, device, second)
    ensures first == second
  {
    if !device.displayKnown || first == second {
    } else if first == Completed {
      StopBeforeTheEnd(config, device, second);
    } else if second == Completed {
      StopBeforeTheEnd(config, device, first);
    } else {
      var stop := Stop(config, device, first);
      var other := Stop(config, device, second);
      OneStop(config, device, stop.0, stop.1, other.0, other.1);
    }
  }

  /** Every action succeeds in every cycle and nobody interrupts. */
  ghost predicate Cooperates(config: Config, device: Device) {
    && device.displayKnown
    && (forall c, i :: 0 <= i < |config.actions| ==> Succeeds(config.actions[i], device.attempt(StepId(c, i))))
    && (forall c :: device.pause(c).Ran?)
  }

  lemma CooperationCompletes(config: Config, device: Device, reason: Reason)
    requires config.Valid() && Cooperates(config, device) && EndsFor(config, device, reason)
    ensures reason == Completed
  {
    if reason != Completed {
      var stop := Stop(config, device, reason);
    }
  }

  /** The verdict of a finished, persisted replay. */
  function VerdictOf(config: Config, report: Report, receipts: nat): Verdict {
    if report.reason == AssertionFailed then Refuted
    else if report.reason != Completed || report.failed then NotTested
    else if config.HasAssertions() && receipts == |config.actions| then Passed
    else NotTested
  }

  /** The state in which a replay was found completed. */
  ghost predicate CompletedWith(config: Config, device: Device, report: Report, executed: seq<StepId>) {
    && config.Valid() && config.loops >= 1
    && report.reason == Completed && !report.failed
    && executed == AllSteps(config, config.loops)
    && AllSucceed(config, device, executed)
  }

  class Replay {
    const config: Config
    const device: Device
    const receipts: R.ReceiptStore<StepId>
    var report: Report
    ghost var executed: seq<StepId>

    constructor (config: Config, device: Device)
      requires config.Valid()
      ensures this.config == config && this.device == device && fresh(receipts)
      ensures report.running && !report.failed && executed == [] && receipts.receipts == map[]
    {
      this.config, this.device := config, device;
      receipts := new R.ReceiptStore();
      report := Report(true, Completed, false, config.resumeFrom, 1);
      executed := [];
    }

    /** Receipts and executed steps agree, and all lie before (cycle, index). */
    ghost predicate Consistent(cycle: nat, index: nat)
      reads this, receipts
    {
      && config.Valid()
      && |receipts.receipts| == |executed|
      && (forall k :: k in receipts.receipts ==> k.cycle < cycle || (k.cycle == cycle && k.index < index))
      && (forall k :: k in receipts.receipts ==> receipts.receipts[k].status == R.Executed)
      && AllSucceed(config, device, executed)
    }

    method Finish(reason: Reason, failed: bool)
      requires report.running
      modifies this`report
      ensures report == old(report).(running := false, reason := reason, failed := failed)
    {
      report := report.(running := false, reason := reason, failed := failed);
    }

    /** The replay ends at this step. */
    method FinishAt(cycle: nat, index: nat, reason: Reason)
      requires report.running && config.Valid() && index < |config.actions| && Reaches(config, device, cycle, index)
      requires StopsAt(config.actions[index], device.attempt(StepId(cycle, index)), reason)
      modifies this`report
      ensures Ended() && report.reason == reason
    {
      StepEnds(config, device, cycle, index, reason);
      Finish(reason, reason != Stopped);
    }

    method Execute(cycle: nat, index: nat) returns (ok: bool)
      requires report.running && Consistent(cycle, index) && index < |config.actions|
      requires Reaches(config, device, cycle, index)
      modifies this, receipts
      ensures ok <==> Succeeds(config.actions[index], device.attempt(StepId(cycle, index)))
      ensures ok ==> Consistent(cycle, index + 1) && executed == old(executed) + [StepId(cycle, index)]
      ensures report.running <==> ok
      ensures ok ==> report == old(report).(completed := index + 1)
      ensures ok ==> Reaches(config, device, cycle, index + 1)
      ensures !ok ==> executed == old(executed) && Ended()
      ensures !ok ==> StopsAt(config.actions[index], device.attempt(StepId(cycle, index)), report.reason)
    {
      var id := StepId(cycle, index);
      var action := config.actions[index];
      // the observation id and the digest of the encoded action are never empty
      var answer := receipts.Accept(id, R.Claim(true, "case:", config.fingerprint, "sha256"));
      assert answer.New?;
      match device.attempt(id)
      case Cancelled =>
        FinishAt(cycle, index, Stopped);
        return false;
      case NotForeground =>
        FinishAt(cycle, index, SafetyStop);
        return false;
      case ExecutionError =>
        var _ := receipts.Finish(id, R.Failed);
        FinishAt(cycle, index, if action.AssertScreenshot? then AssertionFailed else InputFailed);
        return false;
      case Ran(distance) =>
        if action.AssertScreenshot? && distance > action.maxDistance {
          var _ := receipts.Finish(id, R.Failed);
          FinishAt(cycle, index, AssertionFailed);
          return false;
        }
        var _ := receipts.Finish(id, R.Executed);
        executed := executed + [id];
        report := report.(completed := index + 1);
        return true;
    }

    method RunCycle(cycle: nat) returns (ok: bool)
      requires report.running && !report.failed && config.Valid() && cycle >= 1
      requires Consistent(cycle, config.Start(cycle)) && Reaches(config, device, cycle, config.Start(cycle))
      modifies this, receipts
      ensures ok ==> Consistent(cycle + 1, 0) && Reaches(config, device, cycle, |config.actions|)
      ensures ok ==> executed == old(executed) + Steps(cycle, config.Start(cycle), |config.actions|)
      ensures report.running <==> ok
      ensures ok ==> !report.failed
      ensures !ok ==> Ended() && report.reason != Completed
    {
      var index := config.Start(cycle);
      while index < |config.actions|
        invariant config.Start(cycle) <= index <= |config.actions|
        invariant report.running && !report.failed && Consistent(cycle, index)
        invariant executed == old(executed) + Steps(cycle, config.Start(cycle), index)
        invariant Reaches(config, device, cycle, index)
      {
        var done := Execute(cycle, index);
        if !done { return false; }
        StepsSnoc(old(executed), cycle, config.Start(cycle), index);
        index := index + 1;
      }
      return true;
    }

    method Pause(cycle: nat) returns (ok: bool)
      requires report.running && !report.failed
      requires config.Valid() && Reaches(config, device, cycle, |config.actions|) && cycle != config.loops
      modifies this`report
      ensures ok <==> device.pause(cycle).Ran?
      ensures ok ==> report == old(report) && Reaches(config, device, cycle + 1, 0)
      ensures !ok ==> Ended() && report.reason != Completed
    {
      if !device.pause(cycle).Ran? {
        PauseEnds(config, device, cycle, if device.pause(cycle) == Cancelled then Stopped else SafetyStop);
      }
      match device.pause(cycle)
      case Cancelled =>
        Finish(Stopped, false);
        return false;
      case Ran(_) =>
        return true;
      case _ =>
        Finish(SafetyStop, true);
        return false;
    }

    /** The replay is over, for the reason that the device gave. */
    ghost predicate Ended()
      reads this
    {
      && config.Valid() && !report.running && EndsFor(config, device, report.reason)
      && report.failed == (report.reason != Completed && report.reason != Stopped)
    }

    /** What holds of a replay that finished as completed. */
    ghost predicate Done()
      reads this, receipts
    {
      && CompletedWith(config, device, report, executed)
      && |receipts.receipts| == |executed|
      && (forall k :: k in receipts.receipts ==> receipts.receipts[k].status == R.Executed)
    }

    /** A cycle is about to begin: everything before it has gone well. */
    ghost predicate Begins(cycle: nat)
      reads this, receipts
    {
      && config.Valid() && cycle >= 1 && report.running && !report.failed
      && Consistent(cycle, config.Start(cycle)) && executed == AllSteps(config, cycle - 1)
      && Reaches(config, device, cycle, config.Start(cycle))
    }

    /** One turn of the outer loop: a cycle, then the end or the pause. */
    method Turn(cycle: nat) returns (more: bool)
      requires Begins(cycle)
      modifies this, receipts
      ensures more ==> Begins(cycle + 1)
      ensures !more ==> Ended() && (report.reason == Completed ==> Done())
    {
      report := report.(cycle := cycle);
      var done := RunCycle(cycle);
      if !done { return false; }
      if config.loops > 0 && cycle == config.loops {
        Finish(Completed, false);
        return false;
      }
      more := Pause(cycle);
    }

    /** The display of the device cannot be told. */
    method EndWithoutDisplay()
      requires report.running && config.Valid() && !device.displayKnown
      modifies this`report
      ensures Ended() && report.reason == DisplayUnavailable
    {
      Finish(DisplayUnavailable, true);
      assert EndsFor(config, device, DisplayUnavailable);
    }

    /** The replay, watched for at most `horizon` cycles: a replay that loops
        forever is still running then. */
    method Run(horizon: nat)
      requires report.running && !report.failed && config.Valid() && executed == [] && receipts.receipts == map[]
      modifies this, receipts
      ensures !report.running && report.reason == Completed ==> Done()
      ensures !report.running ==> Ended()
      ensures report.running ==>
                (config.loops < 0 || horizon < config.loops) && Reaches(config, device, horizon + 1, config.Start(horizon + 1))
      ensures 1 <= config.loops <= horizon ==> !report.running
    {
      if !device.displayKnown {
        EndWithoutDisplay();
      } else {
        RunCycles(horizon);
      }
    }

    /** Cycle after cycle, until one ends the replay or the horizon is reached. */
    method RunCycles(horizon: nat)
      requires Begins(1)
      modifies this, receipts
      ensures report.running || (Ended() && (report.reason == Completed ==> Done()))
      ensures report.running ==> Begins(horizon + 1) && (config.loops < 0 || horizon < config.loops)
    {
      var cycle, more := 1, true;
      while more && (config.loops < 0 || cycle <= config.loops) && cycle <= horizon
        invariant cycle <= horizon + 1
        invariant if more then Begins(cycle) else Ended() && (report.reason == Completed ==> Done())
        decreases horizon + 1 - cycle, more
      {
        more := Turn(cycle);
        if more { cycle := cycle + 1; }
      }
    }
  }

  // ----- What a verdict means ------------------------------------------------

  lemma {:induction false} StepCount(config: Config, n: nat)
    requires config.Valid() && n >= 1
    ensures |AllSteps(config, n)| == (|config.actions| - config.resumeFrom) + (n - 1) * |config.actions|
    decreases n
  {
    if n == 1 {
      assert AllSteps(config, 0) == [];
    } else {
      StepCount(config, n - 1);
    }
  }

  /** Counting receipts: as many as the case has actions only if the replay ran
      the case exactly once, from its start. */
  lemma CountsOnce(config: Config, n: nat)
    requires config.Valid() && n >= 1 && |config.actions| > 0
    ensures |AllSteps(config, n)| == |config.actions| <==>
              (n == 1 && config.resumeFrom == 0) || (n == 2 && config.resumeFrom == |config.actions|)
    ensures |AllSteps(config, n)| == |config.actions| ==> AllSteps(config, n) == Steps(n, 0, |config.actions|)
  {
    StepCount(config, n);
    var a, r := |config.actions|, config.resumeFrom;
    if n >= 3 {
      assert (n - 1) * a >= 2 * a;
    }
    if n == 1 {
      assert AllSteps(config, 0) == [];
    } else if n == 2 && r == a {
      assert AllSteps(config, 0) == [];
      assert AllSteps(config, 1) == [];
    }
  }

  /** A passed verdict means that one full cycle executed every action of the
      case, in order and nothing else, every screenshot within its distance. */
  lemma PassedMeansFullCycle(config: Config, device: Device, report: Report, executed: seq<StepId>)
    requires CompletedWith(config, device, report, executed)
    requires VerdictOf(config, report, |executed|) == Passed
    ensures executed == Steps(config.loops, 0, |config.actions|)
    ensures forall i :: 0 <= i < |config.actions| ==>
              Succeeds(config.actions[i], device.attempt(StepId(config.loops, i)))
    ensures exists i :: 0 <= i < |config.actions| && config.actions[i].AssertScreenshot?
  {
    CountsOnce(config, config.loops);
    forall i | 0 <= i < |config.actions|
      ensures Succeeds(config.actions[i], device.attempt(StepId(config.loops, i)))
    {
      assert executed[i] == StepId(config.loops, i);
    }
  }

  /** Exactly which completed replays pass: in particular a case that succeeds in
      two or more full cycles does not, for all its checkpoints. */
  lemma PassesExactlyWhen(config: Config, device: Device, report: Report, executed: seq<StepId>)
    requires CompletedWith(config, device, report, executed)
    ensures VerdictOf(config, report, |executed|) == Passed <==>
              (exists i :: 0 <= i < |config.actions| && config.actions[i].AssertScreenshot?)
              && ((config.loops == 1 && config.resumeFrom == 0)
                  || (config.loops == 2 && config.resumeFrom == |config.actions|))
  {
    if config.HasAssertions() {
      CountsOnce(config, config.loops);
    }
  }

  /** Runs a replay and publishes its verdict; `persisted` says whether the
      artifacts could be written. */
  method ReplayCase(config: Config, device: Device, horizon: nat, persisted: bool)
    returns (verdict: Verdict, report: Report)
    requires config.Valid()
    ensures verdict == Passed ==>
              && persisted && !report.running && config.loops >= 1
              && (exists i :: 0 <= i < |config.actions| && config.actions[i].AssertScreenshot?)
              && forall i :: 0 <= i < |config.actions| ==>
                   Succeeds(config.actions[i], device.attempt(StepId(config.loops, i)))
    ensures persisted && !report.running && report.reason == Completed ==>
              (verdict == Passed <==>
                (exists i :: 0 <= i < |config.actions| && config.actions[i].AssertScreenshot?)
                && ((config.loops == 1 && config.resumeFrom == 0)
                    || (config.loops == 2 && config.resumeFrom == |config.actions|)))
    ensures !report.running ==> forall reason :: report.reason == reason <==> EndsFor(config, device, reason)
    ensures verdict == Refuted <==> persisted && !report.running && EndsFor(config, device, AssertionFailed)
    ensures Cooperates(config, device) && 1 <= config.loops <= horizon ==> report.reason == Completed && !report.running
  {
    var replay := new Replay(config, device);
    replay.Run(horizon);
    report := replay.report;
    if !report.running {
      if Cooperates(config, device) { CooperationCompletes(config, device, report.reason); }
      forall reason | EndsFor(config, device, reason) ensures reason == report.reason {
        OneReason(config, device, reason, report.reason);
      }
    }
    if report.running || !persisted { return NotTested, report; }
    verdict := VerdictOf(config, report, |replay.receipts.receipts|);
    if report.reason == Completed {
      PassesExactlyWhen(config, device, report, replay.executed);
      if verdict == Passed {
        PassedMeansFullCycle(config, device, report, replay.executed);
      }
    }
  }
}
