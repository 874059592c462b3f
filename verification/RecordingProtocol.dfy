/** Starting, stopping, saving and recovering recordings.  Every step below is
    one critical section of the record-and-replay manager, or one return of the
    file write between two of them, so a sequence of steps is one interleaving
    of stop callers, capture goroutines, finalizers, draft recovery and replay. */
module RecordingProtocol {
  import opened Options
  import opened TouchTimeline

  /** Where a stop caller waits: for the capture goroutine whose done channel
      it read, if any, or for a finalizer. */
  datatype StopCaller = AwaitingCapture(done: Option<nat>) | AwaitingFinalizer

  /** Writing the files, files written, result recorded in the manager. */
  datatype Phase = Writing | Written | Recorded

  datatype Finalizer = Finalizer(identity: nat, actions: seq<Action>, phase: Phase)

  datatype State = State(
    running: bool, stopping: bool, finalizing: bool,
    saved: bool,                        // recording.Path is set
    current: Option<seq<Action>>,       // the case in memory
    generation: nat,
    identity: nat,                      // session identity, 0 before the first
    captureDone: Option<nat>,           // recordDone: closed when that capture ends
    persisting: bool,
    replayRunning: bool, replayStopping: bool, replayFinalizing: bool,
    // goroutines
    capturing: set<nat>,                // generations whose capture has not ended
    callers: map<nat, StopCaller>,
    finalizers: map<nat, Finalizer>,
    spawned: nat,
    // history
    recorded: seq<seq<Action>>,         // what each identity accumulated while running
    published: seq<(nat, seq<Action>)>) // successful writes, in order
  {
    predicate Pending() { current.Some? && !saved }
    predicate Busy() {
      running || stopping || finalizing || replayRunning || replayStopping || replayFinalizing
    }
    predicate RefusesNewSession() { (!running && Pending()) || Busy() }
  }

  const Initial := State(
    false, false, false, false, None, 0, 0, None, false, false, false, false,
    {}, map[], map[], 0, [], [])

  datatype Step =
    | StartRecording
    | Append(generation: nat, extend: seq<Action> -> seq<Action>)
    | CaptureEnd(generation: nat)
    | StopBegin(caller: nat)
    | StopDecide(caller: nat)
    | StopReturn(caller: nat)
    | RecoverDraft(actions: seq<Action>)
    | WriteFails(finalizer: nat)
    | WriteSucceeds(finalizer: nat)
    | RecordResult(finalizer: nat)
    | FinalizerLeaves(finalizer: nat)
    | StartReplay
    | StopReplay
    | ReplayFinishes
    | ReplayLeaves

  /** Program counters: which steps can be taken at all. */
  predicate Enabled(s: State, step: Step) {
    match step
    case CaptureEnd(g) => g in s.capturing
    case StopBegin(c) => c !in s.callers
    case StopDecide(c) =>
      c in s.callers && s.callers[c].AwaitingCapture?
      && (s.callers[c].done.Some? ==> s.callers[c].done.value !in s.capturing)
    case StopReturn(c) => c in s.callers
    case WriteFails(f) => f in s.finalizers && s.finalizers[f].phase == Writing
    case WriteSucceeds(f) => f in s.finalizers && s.finalizers[f].phase == Writing
    case RecordResult(f) => f in s.finalizers && s.finalizers[f].phase == Written
    case FinalizerLeaves(f) => f in s.finalizers && s.finalizers[f].phase == Recorded
    case ReplayFinishes => s.replayRunning
    case ReplayLeaves => s.replayFinalizing
    case _ => true
  }

  function Start(s: State): State {
    if s.RefusesNewSession() then s
    else s.(running := true, stopping := false, finalizing := false, saved := false,
            current := Some([]), generation := s.generation + 1, identity := |s.recorded| + 1,
            captureDone := Some(s.generation + 1), persisting := false,
            capturing := s.capturing + {s.generation + 1}, recorded := s.recorded + [[]])
  }

  function Extend(s: State, g: nat, extend: seq<Action> -> seq<Action>): State {
    if g != s.generation || !s.running || s.current.None? || s.recorded == [] then s
    else
      var actions := extend(s.current.value);
      s.(current := Some(actions), recorded := s.recorded[..|s.recorded| - 1] + [actions])
  }

  function EndCapture(s: State, g: nat): State {
    if g != s.generation then s.(capturing := s.capturing - {g})
    else s.(running := false, stopping := false, finalizing := true, capturing := s.capturing - {g})
  }

  function BeginStop(s: State, c: nat): State {
    s.(stopping := s.stopping || s.running, callers := s.callers[c := AwaitingCapture(s.captureDone)])
  }

  function DecideStop(s: State, c: nat): State {
    if s.current.None? || s.saved then s.(callers := s.callers - {c})
    else if s.persisting then s.(callers := s.callers[c := AwaitingFinalizer])
    else s.(running := false, stopping := false, finalizing := true, persisting := true,
            callers := s.callers[c := AwaitingFinalizer],
            finalizers := s.finalizers[s.spawned := Finalizer(s.identity, s.current.value, Writing)],
            spawned := s.spawned + 1)
  }

  function Recover(s: State, actions: seq<Action>): State {
    if s.Busy() || s.Pending() then s
    else s.(running := false, stopping := false, finalizing := false, saved := false,
            current := Some(actions), generation := s.generation + 1,
            identity := |s.recorded| + 1, recorded := s.recorded + [actions])
  }

  function FailWrite(s: State, f: nat): State
    requires f in s.finalizers
  {
    var cleared := s.(finalizers := s.finalizers - {f});
    if s.identity != s.finalizers[f].identity then cleared
    else cleared.(finalizing := false, captureDone := None, persisting := false)
  }

  function FinishWrite(s: State, f: nat): State
    requires f in s.finalizers
  {
    s.(published := s.published + [(s.finalizers[f].identity, s.finalizers[f].actions)],
       finalizers := s.finalizers[f := s.finalizers[f].(phase := Written)])
  }

  function Settle(s: State, f: nat): State
    requires f in s.finalizers
  {
    var moved := s.(finalizers := s.finalizers[f := s.finalizers[f].(phase := Recorded)]);
    if s.identity != s.finalizers[f].identity then moved
    else moved.(current := Some(s.finalizers[f].actions), running := false, stopping := false,
                saved := true, captureDone := None)
  }

  function Leave(s: State, f: nat): State
    requires f in s.finalizers
  {
    var cleared := s.(finalizers := s.finalizers - {f});
    if s.identity != s.finalizers[f].identity then cleared
    else cleared.(finalizing := false, persisting := false)
  }

  function BeginReplay(s: State): State {
    if s.RefusesNewSession() then s
    else s.(replayRunning := true, replayStopping := false, replayFinalizing := false)
  }

  function Apply(s: State, step: Step): State
    requires Enabled(s, step)
  {
    match step
    case StartRecording => Start(s)
    case Append(g, extend) => Extend(s, g, extend)
    case CaptureEnd(g) => EndCapture(s, g)
    case StopBegin(c) => BeginStop(s, c)
    case StopDecide(c) => DecideStop(s, c)
    case StopReturn(c) => s.(callers := s.callers - {c})
    case RecoverDraft(actions) => Recover(s, actions)
    case WriteFails(f) => FailWrite(s, f)
    case WriteSucceeds(f) => FinishWrite(s, f)
    case RecordResult(f) => Settle(s, f)
    case FinalizerLeaves(f) => Leave(s, f)
    case StartReplay => BeginReplay(s)
    case StopReplay => s.(replayStopping := s.replayStopping || s.replayRunning)
    case ReplayFinishes => s.(replayRunning := false, replayStopping := false, replayFinalizing := true)
    case ReplayLeaves => s.(replayFinalizing := false)
  }

  ghost predicate IsRun(s: State, steps: seq<Step>)
    decreases |steps|
  {
    steps == [] || (Enabled(s, steps[0]) && IsRun(Apply(s, steps[0]), steps[1..]))
  }

  ghost function Run(s: State, steps: seq<Step>): State
    requires IsRun(s, steps)
    decreases |steps|
  {
    if steps == [] then s else Run(Apply(s, steps[0]), steps[1..])
  }

  // ----- What every interleaving keeps ---------------------------------------

  ghost predicate FinalizerFits(s: State, f: Finalizer) {
    && s.persisting && s.finalizing && !s.running
    && f.identity == s.identity
    && s.current == Some(f.actions)
    && (f.phase == Recorded <==> s.saved)
  }

  /** Identity i+1 is published at most once, with exactly the actions it
      accumulated while running, and in the order the sessions began. */
  ghost predicate PublishedInOrder(s: State) {
    && |s.published| <= |s.recorded|
    && forall i :: 0 <= i < |s.published| ==> s.published[i] == (i + 1, s.recorded[i])
  }

  /** Every session before the current one has been published, and the current
      one has been if its result is written or recorded. */
  ghost predicate HistoryInv(s: State) {
    && PublishedInOrder(s)
    && s.identity == |s.recorded|
    && (s.current.Some? <==> s.recorded != [])
    && (s.current.Some? ==> s.current.value == s.recorded[|s.recorded| - 1])
    && (s.saved ==> s.current.Some?)
    && |s.published| + 1 >= |s.recorded|
    && (|s.published| == |s.recorded| <==> s.current.None? || s.saved || ResultWritten(s))
  }

  ghost predicate ResultWritten(s: State) {
    exists f :: f in s.finalizers && s.finalizers[f].phase == Written
  }

  /** One finalizer in flight at most, and it works for the current session. */
  ghost predicate FlightInv(s: State) {
    && (forall f, g :: f in s.finalizers && g in s.finalizers ==> f == g)
    && (forall f :: f in s.finalizers ==> f < s.spawned && FinalizerFits(s, s.finalizers[f]))
    && (s.persisting ==> s.finalizers.Keys != {})
  }

  /** Recording and replay exclude each other. */
  ghost predicate FlagInv(s: State) {
    && (s.running ==> s.Pending() && !s.persisting)
    && (s.stopping ==> s.running)
    && (s.replayRunning || s.replayStopping || s.replayFinalizing ==>
          !s.running && !s.Pending() && s.finalizers == map[])
    && (s.replayStopping ==> s.replayRunning)
  }

  /** A stop caller never waits for a capture that nobody will end. */
  ghost predicate ChannelInv(s: State) {
    && (forall g :: g in s.capturing ==> 1 <= g <= s.generation)
    && (s.generation > 0 || s.finalizing ==> s.current.Some?)
    && (s.captureDone.Some? ==> s.captureDone.value <= s.generation && s.Pending())
    && (s.running ==> s.captureDone == Some(s.generation))
    && (s.Pending() && !s.running && !s.persisting && s.captureDone.Some? ==>
          s.captureDone.value !in s.capturing)
  }

  ghost predicate Inv(s: State) {
    HistoryInv(s) && FlightInv(s) && FlagInv(s) && ChannelInv(s)
  }

  lemma NothingInFlight(s: State)
    requires FlightInv(s) && !(s.persisting && s.finalizing && !s.running)
    ensures s.finalizers == map[] && !ResultWritten(s) && !s.persisting
  {
    assert forall f :: f in s.finalizers ==> FinalizerFits(s, s.finalizers[f]);
    assert s.finalizers.Keys == {};
  }

  lemma StartKeepsInv(s: State)
    requires Inv(s)
    ensures Inv(Start(s))
  {
    if !s.RefusesNewSession() { NothingInFlight(s); }
  }

  lemma ExtendKeepsInv(s: State, g: nat, extend: seq<Action> -> seq<Action>)
    requires Inv(s)
    ensures Inv(Extend(s, g, extend))
  {
    if s.running { NothingInFlight(s); }
  }

  lemma EndCaptureKeepsInv(s: State, g: nat)
    requires Inv(s) && g in s.capturing
    ensures Inv(EndCapture(s, g))
  {
    assert ResultWritten(EndCapture(s, g)) <==> ResultWritten(s);
  }

  lemma BeginStopKeepsInv(s: State, c: nat)
    requires Inv(s)
    ensures Inv(BeginStop(s, c))
  {
    assert ResultWritten(BeginStop(s, c)) <==> ResultWritten(s);
  }

  lemma DecideStopKeepsInv(s: State, c: nat)
    requires Inv(s) && Enabled(s, StopDecide(c))
    ensures Inv(DecideStop(s, c))
  {
    var t := DecideStop(s, c);
    if s.current.None? || s.saved || s.persisting {
      assert ResultWritten(t) <==> ResultWritten(s);
    } else {
      NothingInFlight(s);
      assert s.spawned in t.finalizers;
    }
  }

  lemma RecoverKeepsInv(s: State, actions: seq<Action>)
    requires Inv(s)
    ensures Inv(Recover(s, actions))
  {
    if !s.Busy() && !s.Pending() { NothingInFlight(s); }
  }

  lemma FailWriteKeepsInv(s: State, f: nat)
    requires Inv(s) && Enabled(s, WriteFails(f))
    ensures Inv(FailWrite(s, f))
  {
    assert FinalizerFits(s, s.finalizers[f]);
    assert FailWrite(s, f).finalizers == map[];
  }

  lemma FinishWriteKeepsInv(s: State, f: nat)
    requires Inv(s) && Enabled(s, WriteSucceeds(f))
    ensures Inv(FinishWrite(s, f))
  {
    assert FinalizerFits(s, s.finalizers[f]);
    assert FinishWrite(s, f).finalizers[f].phase == Written;
    assert !ResultWritten(s);
  }

  lemma SettleKeepsInv(s: State, f: nat)
    requires Inv(s) && Enabled(s, RecordResult(f))
    ensures Inv(Settle(s, f))
  {
    assert FinalizerFits(s, s.finalizers[f]);
    assert ResultWritten(s);
    assert f in Settle(s, f).finalizers;
  }

  lemma LeaveKeepsInv(s: State, f: nat)
    requires Inv(s) && Enabled(s, FinalizerLeaves(f))
    ensures Inv(Leave(s, f))
  {
    assert FinalizerFits(s, s.finalizers[f]);
    assert Leave(s, f).finalizers == map[];
  }

  lemma BeginReplayKeepsInv(s: State)
    requires Inv(s)
    ensures Inv(BeginReplay(s))
  {
    if !s.RefusesNewSession() { NothingInFlight(s); }
  }

  lemma ReplayStepKeepsInv(s: State, step: Step)
    requires Inv(s) && Enabled(s, step)
    requires step.StopReplay? || step.ReplayFinishes? || step.ReplayLeaves? || step.StopReturn?
    ensures Inv(Apply(s, step))
  {
    assert ResultWritten(Apply(s, step)) <==> ResultWritten(s);
  }

  lemma StepKeepsInv(s: State, step: Step)
    requires Inv(s) && Enabled(s, step)
    ensures Inv(Apply(s, step))
  {
    match step
    case StartRecording => StartKeepsInv(s);
    case Append(g, extend) => ExtendKeepsInv(s, g, extend);
    case CaptureEnd(g) => EndCaptureKeepsInv(s, g);
    case StopBegin(c) => BeginStopKeepsInv(s, c);
    case StopDecide(c) => DecideStopKeepsInv(s, c);
    case RecoverDraft(actions) => RecoverKeepsInv(s, actions);
    case WriteFails(f) => FailWriteKeepsInv(s, f);
    case WriteSucceeds(f) => FinishWriteKeepsInv(s, f);
    case RecordResult(f) => SettleKeepsInv(s, f);
    case FinalizerLeaves(f) => LeaveKeepsInv(s, f);
    case StartReplay => BeginReplayKeepsInv(s);
    case _ => ReplayStepKeepsInv(s, step);
  }

  lemma {:induction false} RunKeepsInv(s: State, steps: seq<Step>)
    requires Inv(s) && IsRun(s, steps)
    ensures Inv(Run(s, steps))
    decreases |steps|
  {
    if steps != [] {
      StepKeepsInv(s, steps[0]);
      RunKeepsInv(Apply(s, steps[0]), steps[1..]);
    }
  }

  // ----- The flags, one by one -----------------------------------------------

  /** The step begins a session, by recording or from a draft. */
  predicate Begins(s: State, step: Step) {
    (step.StartRecording? || step.RecoverDraft?) && !s.Pending() && !s.Busy()
  }

  /** A stop caller decides on an unsaved case that nobody is saving yet. */
  predicate BeginsToSave(s: State, step: Step) {
    step.StopDecide? && s.current.Some? && !s.saved && !s.persisting
  }

  predicate EndsSaving(step: Step) { step.WriteFails? || step.FinalizerLeaves? }

  /** A recording runs from its start until its own capture ends or a stop caller
      begins to save it; it is stopping once a stop has begun; it is finalizing
      from then until the write has failed or its finalizer leaves. */
  lemma RecordingFlagsFollowSteps(s: State, step: Step)
    requires Inv(s) && Enabled(s, step)
    ensures var t, ownEnd := Apply(s, step), step == CaptureEnd(s.generation);
            var started := Begins(s, step) && step.StartRecording?;
            && (t.running <==> started || (s.running && !ownEnd && !BeginsToSave(s, step)))
            && (t.stopping <==> t.running && !started && (s.stopping || step.StopBegin?))
            && (t.finalizing <==> ownEnd || BeginsToSave(s, step) || (s.finalizing && !EndsSaving(step)))
            && (t.persisting <==> BeginsToSave(s, step) || (s.persisting && !EndsSaving(step)))
            && (t.saved <==> step.RecordResult? || (s.saved && !Begins(s, step)))
  {
    if !(s.persisting && s.finalizing && !s.running) { NothingInFlight(s); }
    if step.WriteFails? || step.RecordResult? || step.FinalizerLeaves? {
      assert FinalizerFits(s, s.finalizers[step.finalizer]);
    }
  }

  /** Who waits for what: a stop caller for the capture that was current when it
      came, then for a finalizer if the case was unsaved when it decided. */
  lemma WaitsFollowSteps(s: State, step: Step)
    requires Enabled(s, step)
    ensures Apply(s, step).callers ==
              if step.StopBegin? then s.callers[step.caller := AwaitingCapture(s.captureDone)]
              else if step.StopDecide? && s.Pending() then s.callers[step.caller := AwaitingFinalizer]
              else if step.StopDecide? || step.StopReturn? then s.callers - {step.caller} else s.callers
  {
    match step
    case StopBegin(_) =>
    case StopDecide(_) =>
    case StopReturn(_) =>
    case _ => OthersWaitOn(s, step);
  }

  lemma OthersWaitOn(s: State, step: Step)
    requires Enabled(s, step) && !step.StopBegin? && !step.StopDecide? && !step.StopReturn?
    ensures Apply(s, step).callers == s.callers
  {
    match step
    case WriteFails(f) => FailureKeepsCallers(s, f);
    case WriteSucceeds(f) => assert FinishWrite(s, f).callers == s.callers;
    case RecordResult(f) => SettlingKeepsCallers(s, f);
    case FinalizerLeaves(f) => LeavingKeepsCallers(s, f);
    case _ =>
  }

  lemma FailureKeepsCallers(s: State, f: nat)
    requires f in s.finalizers
    ensures FailWrite(s, f).callers == s.callers
  {
  }

  lemma SettlingKeepsCallers(s: State, f: nat)
    requires f in s.finalizers
    ensures Settle(s, f).callers == s.callers
  {
  }

  lemma LeavingKeepsCallers(s: State, f: nat)
    requires f in s.finalizers
    ensures Leave(s, f).callers == s.callers
  {
  }

  /** Which captures are on, and which one a stop has to wait for. */
  lemma CapturesFollowSteps(s: State, step: Step)
    requires Inv(s) && Enabled(s, step)
    ensures var t := Apply(s, step);
            var started := Begins(s, step) && step.StartRecording?;
            && t.captureDone == (if started then Some(t.generation)
                                 else if step.WriteFails? || step.RecordResult? then None else s.captureDone)
            && t.capturing == (if started then s.capturing + {t.generation}
                               else if step.CaptureEnd? then s.capturing - {step.generation} else s.capturing)
            && t.generation == s.generation + (if Begins(s, step) then 1 else 0)
  {
    if step.WriteFails? || step.RecordResult? || step.FinalizerLeaves? {
      assert FinalizerFits(s, s.finalizers[step.finalizer]);
    }
  }

  /** A replay runs from its start until it finishes, is stopping once a stop has
      come, and is finalizing until it leaves. */
  lemma ReplayFlagsFollowSteps(s: State, step: Step)
    requires Inv(s) && Enabled(s, step)
    ensures var t := Apply(s, step);
            var started := step.StartReplay? && !s.Pending() && !s.Busy();
            && (t.replayRunning <==> started || (s.replayRunning && !step.ReplayFinishes?))
            && (t.replayStopping <==> t.replayRunning && !started && (s.replayStopping || step.StopReplay?))
            && (t.replayFinalizing <==> step.ReplayFinishes? || (s.replayFinalizing && !step.ReplayLeaves?))
  {
  }

  // ----- What is published ---------------------------------------------------

  /** What a session with generation `g` begins with: nothing, or the draft it
      recovers. A session begins with the step that moves the generation to `g`. */
  ghost function Opening(s: State, steps: seq<Step>, g: nat): seq<Action>
    requires IsRun(s, steps)
    decreases |steps|
  {
    if steps == [] then []
    else
      var t := Apply(s, steps[0]);
      if s.generation != g && t.generation == g then
        (if steps[0].RecoverDraft? then steps[0].actions else [])
      else Opening(t, steps[1..], g)
  }

  /** The extensions that arrive for generation `g` while its session runs. */
  ghost function Extensions(s: State, steps: seq<Step>, g: nat): seq<seq<Action> -> seq<Action>>
    requires IsRun(s, steps)
    decreases |steps|
  {
    if steps == [] then []
    else
      var rest := Extensions(Apply(s, steps[0]), steps[1..], g);
      if steps[0].Append? && steps[0].generation == g && s.generation == g && s.running
      then [steps[0].extend] + rest else rest
  }

  ghost function Extended(actions: seq<Action>, extensions: seq<seq<Action> -> seq<Action>>): seq<Action>
    decreases |extensions|
  {
    if extensions == [] then actions else Extended(extensions[0](actions), extensions[1..])
  }

  /** What a run brings to the session with generation `g`, told from the steps
      and from when that session was running. */
  ghost function Arrived(steps: seq<Step>, g: nat): seq<Action>
    requires IsRun(Initial, steps)
  {
    Extended(Opening(Initial, steps, g), Extensions(Initial, steps, g))
  }

  /** Sessions, identities and generations are numbered alike. */
  ghost predicate Numbered(s: State) { s.generation == s.identity == |s.recorded| }

  lemma StepKeepsNumbers(s: State, step: Step)
    requires Inv(s) && Numbered(s) && Enabled(s, step)
    ensures var t := Apply(s, step); Numbered(t) && s.generation <= t.generation <= s.generation + 1
  {
    match step
    case StartRecording =>
    case RecoverDraft(_) =>
    case Append(_, _) =>
    case _ => assert Apply(s, step).recorded == s.recorded && Apply(s, step).generation == s.generation;
  }

  /** One step extends the running session's actions, or opens the next session,
      or leaves what has been recorded alone. */
  lemma StepRecords(s: State, step: Step, g: nat)
    requires Inv(s) && Numbered(s) && Enabled(s, step) && 1 <= g <= Apply(s, step).generation
    ensures Numbered(Apply(s, step))
    ensures Apply(s, step).recorded[g - 1] ==
              if g > s.generation then (if step.RecoverDraft? then step.actions else [])
              else if step.Append? && step.generation == g == s.generation && s.running
                then step.extend(s.recorded[g - 1])
              else s.recorded[g - 1]
  {
    StepKeepsNumbers(s, step);
  }

  lemma {:induction false} GenerationsGrow(s: State, steps: seq<Step>)
    requires Inv(s) && Numbered(s) && IsRun(s, steps)
    ensures Inv(Run(s, steps)) && Numbered(Run(s, steps)) && s.generation <= Run(s, steps).generation
    decreases |steps|
  {
    if steps != [] {
      StepKeepsInv(s, steps[0]);
      StepKeepsNumbers(s, steps[0]);
      GenerationsGrow(Apply(s, steps[0]), steps[1..]);
    }
  }

  lemma {:induction false} SessionsAccumulate(s: State, steps: seq<Step>, g: nat)
    requires Inv(s) && Numbered(s) && IsRun(s, steps) && 1 <= g <= Run(s, steps).generation
    ensures Numbered(Run(s, steps))
    ensures Run(s, steps).recorded[g - 1] ==
              Extended(if g <= s.generation then s.recorded[g - 1] else Opening(s, steps, g), Extensions(s, steps, g))
    decreases |steps|
  {
    if steps != [] {
      var t := Apply(s, steps[0]);
      StepKeepsInv(s, steps[0]);
      StepKeepsNumbers(s, steps[0]);
      SessionsAccumulate(t, steps[1..], g);
      if g <= t.generation {
        StepRecords(s, steps[0], g);
      }
    }
  }

  /** Every published case, and the one in memory, holds the actions its session
      opened with, extended by exactly the captures and entries that arrived
      while it was running. */
  lemma PublishedIsWhatArrived(steps: seq<Step>)
    requires IsRun(Initial, steps)
    ensures var s := Run(Initial, steps);
            && (forall i :: 0 <= i < |s.published| ==> s.published[i] == (i + 1, Arrived(steps, i + 1)))
            && (s.current.Some? ==> s.current.value == Arrived(steps, s.generation))
  {
    var s := Run(Initial, steps);
    GenerationsGrow(Initial, steps);
    forall i | 0 <= i < |s.published|
      ensures s.published[i] == (i + 1, Arrived(steps, i + 1))
    {
      SessionsAccumulate(Initial, steps, i + 1);
    }
    if s.current.Some? {
      SessionsAccumulate(Initial, steps, s.generation);
    }
  }

  // ----- Every interleaving -------------------------------------------------

  /** In every interleaving: at most one write is in flight; identity i+1 is
      published at most once and with exactly what arrived while it was running,
      and the case in memory is what arrived for the current session;
      every session but the current one has been published; and while the
      current one is unsaved no recording, recovery or replay can begin. */
  lemma EveryInterleaving(steps: seq<Step>)
    requires IsRun(Initial, steps)
    ensures var s := Run(Initial, steps);
            && |s.finalizers| <= 1
            && PublishedInOrder(s)
            && (forall i :: 0 <= i < |s.published| ==> s.published[i] == (i + 1, Arrived(steps, i + 1)))
            && (s.current.Some? ==> s.current.value == Arrived(steps, s.generation))
            && |s.recorded| - 1 <= |s.published| <= |s.recorded|
            && (s.running ==> !s.replayRunning && !s.replayStopping && !s.replayFinalizing)
            && (s.Pending() ==> Start(s) == s && BeginReplay(s) == s && forall draft :: Recover(s, draft) == s)
  {
    var s := Run(Initial, steps);
    RunKeepsInv(Initial, steps);
    PublishedIsWhatArrived(steps);
    if s.finalizers.Keys != {} {
      var f :| f in s.finalizers;
      assert s.finalizers.Keys == {f};
    }
    assert |s.finalizers| == |s.finalizers.Keys|;
  }

  /** Actions enter the accumulated history only while their own session runs;
      what an earlier session accumulated never changes. */
  lemma OnlyRunningSessionsAccumulate(s: State, step: Step)
    requires Inv(s) && Enabled(s, step)
    ensures var before, after := s.recorded, Apply(s, step).recorded;
            || after == before
            || (|after| == |before| + 1 && after[..|before|] == before)
            || (step.Append? && s.running && step.generation == s.generation && |after| == |before|
                && after[..|after| - 1] == before[..|before| - 1])
  {
    match step
    case StartRecording =>
    case Append(_, _) =>
    case RecoverDraft(_) =>
    case _ => assert Apply(s, step).recorded == s.recorded;
  }

  /** After any number of failed writes the unsaved case can still be saved: a
      stop caller that comes along finds nothing to wait for and starts a new
      write of the same actions. */
  lemma UnsavedCaseCanBeRetried(s: State, caller: nat)
    requires Inv(s) && s.Pending() && !s.running && !s.persisting && caller !in s.callers
    ensures IsRun(s, [StopBegin(caller), StopDecide(caller)])
    ensures var t := Run(s, [StopBegin(caller), StopDecide(caller)]);
            t.finalizers == map[s.spawned := Finalizer(s.identity, s.current.value, Writing)]
  {
    NothingInFlight(s);
    var u := BeginStop(s, caller);
    assert Enabled(u, StopDecide(caller));
    var t := DecideStop(u, caller);
    assert [StopBegin(caller), StopDecide(caller)][1..] == [StopDecide(caller)];
    assert IsRun(t, []) && Run(t, []) == t;
    assert IsRun(u, [StopDecide(caller)]) && Run(u, [StopDecide(caller)]) == t;
  }

  // ----- A stop that is overtaken --------------------------------------------

  /** Saved, nobody left to clear Finalizing, and yet Finalizing. */
  predicate Stuck(s: State) {
    s.saved && s.finalizing && s.finalizers == map[]
  }

  /** Exactly one step can wedge the manager: the capture goroutine of the
      current session ending after that session has already been saved. */
  lemma StuckExactlyWhen(s: State, step: Step)
    requires Inv(s) && Enabled(s, step) && !Stuck(s)
    ensures Stuck(Apply(s, step)) <==>
              s.saved && s.finalizers == map[] && step == CaptureEnd(s.generation)
  {
    match step
    case WriteFails(f) => assert FinalizerFits(s, s.finalizers[f]);
    case WriteSucceeds(f) => assert f in FinishWrite(s, f).finalizers;
    case RecordResult(f) => assert f in Settle(s, f).finalizers;
    case FinalizerLeaves(f) => assert FinalizerFits(s, s.finalizers[f]);
    case StopDecide(c) => assert s.spawned in DecideStop(s, c).finalizers || DecideStop(s, c).finalizers == s.finalizers;
    case _ =>
  }

  /** And nothing un-wedges it: no later recording, replay or recovery begins. */
  lemma {:induction false} StuckForever(s: State, steps: seq<Step>)
    requires Inv(s) && Stuck(s) && IsRun(s, steps)
    ensures var t := Run(s, steps);
            Stuck(t) && Start(t) == t && BeginReplay(t) == t && forall draft :: Recover(t, draft) == t
    decreases |steps|
  {
    if steps != [] {
      StepKeepsInv(s, steps[0]);
      StuckForever(Apply(s, steps[0]), steps[1..]);
    }
  }

  /** A stop caller decides in an orderly way when the current session's capture
      goroutine has ended: the done channel it waited for was the current one. */
  predicate Orderly(s: State, step: Step) {
    step.StopDecide? ==> s.generation !in s.capturing
  }

  ghost predicate IsOrderlyRun(s: State, steps: seq<Step>)
    decreases |steps|
  {
    steps == [] ||
    (Enabled(s, steps[0]) && Orderly(s, steps[0]) && IsOrderlyRun(Apply(s, steps[0]), steps[1..]))
  }

  /** Once saved, or being saved, a session has no capture goroutine left. */
  ghost predicate CaptureOver(s: State) {
    (s.saved || s.finalizers != map[] ==> s.generation !in s.capturing)
    && !Stuck(s)
  }

  lemma RefusesOnlyForAReason(s: State)
    requires Inv(s) && CaptureOver(s)
    ensures s.RefusesNewSession() <==>
              s.Pending() || s.finalizers != map[] || s.replayRunning || s.replayStopping || s.replayFinalizing
  {
    assert forall f :: f in s.finalizers ==> FinalizerFits(s, s.finalizers[f]);
  }

  /** When stop callers are orderly the manager is never wedged, and a new
      recording begins exactly when nothing is unsaved or being written and no
      replay is on. */
  lemma {:induction false} OrderlyRunsNeverStick(s: State, steps: seq<Step>)
    requires Inv(s) && CaptureOver(s) && IsOrderlyRun(s, steps)
    ensures IsRun(s, steps)
    ensures var t := Run(s, steps);
            && Inv(t) && CaptureOver(t)
            && (t.RefusesNewSession() <==>
                  t.Pending() || t.finalizers != map[] || t.replayRunning || t.replayStopping || t.replayFinalizing)
            && (Start(t) != t <==> !t.RefusesNewSession())
    decreases |steps|
  {
    if steps == [] {
      RefusesOnlyForAReason(s);
    } else {
      StepKeepsInv(s, steps[0]);
      StuckExactlyWhen(s, steps[0]);
      assert CaptureOver(Apply(s, steps[0])) by { OrderlyStep(s, steps[0]); }
      OrderlyRunsNeverStick(Apply(s, steps[0]), steps[1..]);
    }
  }

  lemma OrderlyStep(s: State, step: Step)
    requires Inv(s) && CaptureOver(s) && Enabled(s, step) && Orderly(s, step)
    ensures var t := Apply(s, step); t.saved || t.finalizers != map[] ==> t.generation !in t.capturing
  {
    if !s.Busy() { NothingInFlight(s); }
  }

  ghost predicate Reaches(s: State, steps: seq<Step>, t: State) {
    IsRun(s, steps) && Run(s, steps) == t
  }

  lemma {:induction false} ReachesFirst(s: State, step: Step, rest: seq<Step>, t: State)
    requires Enabled(s, step) && Reaches(Apply(s, step), rest, t)
    ensures Reaches(s, [step] + rest, t)
  {
    assert ([step] + rest)[1..] == rest;
  }

  lemma {:induction false} ReachesThen(s: State, first: seq<Step>, t: State, second: seq<Step>, u: State)
    requires Reaches(s, first, t) && Reaches(t, second, u)
    ensures Reaches(s, first + second, u)
    decreases |first|
  {
    if first == [] {
      assert first + second == second;
    } else {
      ReachesThen(Apply(s, first[0]), first[1..], t, second, u);
      ReachesFirst(s, first[0], first[1..] + second, u);
      assert first + second == [first[0]] + (first[1..] + second);
    }
  }

  ghost function Saved(s: State, caller: nat): State
    requires s.current.Some?
  {
    s.(running := false, stopping := false, finalizing := false, saved := true, captureDone := None,
       persisting := false, callers := s.callers[caller := AwaitingFinalizer], finalizers := map[],
       spawned := s.spawned + 1, published := s.published + [(s.identity, s.current.value)])
  }

  function Save(caller: nat, finalizer: nat): seq<Step> {
    [StopDecide(caller), WriteSucceeds(finalizer), RecordResult(finalizer), FinalizerLeaves(finalizer)]
  }

  ghost predicate CanDecide(s: State, caller: nat) {
    Enabled(s, StopDecide(caller)) && s.Pending() && !s.persisting && s.finalizers == map[]
  }

  lemma SaveComputes(s: State, caller: nat)
    requires CanDecide(s, caller)
    ensures var s1 := DecideStop(s, caller);
            var f := s.spawned;
            && Enabled(s1, WriteSucceeds(f)) && Enabled(FinishWrite(s1, f), RecordResult(f))
            && Enabled(Settle(FinishWrite(s1, f), f), FinalizerLeaves(f))
            && Leave(Settle(FinishWrite(s1, f), f), f) == Saved(s, caller)
  {
    assert Leave(Settle(FinishWrite(DecideStop(s, caller), s.spawned), s.spawned), s.spawned).finalizers == map[];
  }

  /** Saving the session that a stop caller decides on, start to end. */
  lemma SaveReaches(s: State, caller: nat)
    requires CanDecide(s, caller)
    ensures Reaches(s, Save(caller, s.spawned), Saved(s, caller))
  {
    var f := s.spawned;
    SaveComputes(s, caller);
    var s1 := DecideStop(s, caller);
    var s2 := FinishWrite(s1, f);
    var s3 := Settle(s2, f);
    var s4 := Leave(s3, f);
    assert Reaches(s4, [], s4);
    ReachesFirst(s3, FinalizerLeaves(f), [], s4);
    ReachesFirst(s2, RecordResult(f), [FinalizerLeaves(f)], s4);
    ReachesFirst(s1, WriteSucceeds(f), [RecordResult(f), FinalizerLeaves(f)], s4);
    ReachesFirst(s, StopDecide(caller), [WriteSucceeds(f), RecordResult(f), FinalizerLeaves(f)], s4);
  }

  /** Any decision taken while the current capture still runs can end wedged. */
  lemma DisorderlyDecisionCanStick(s: State, caller: nat)
    requires CanDecide(s, caller) && s.generation in s.capturing
    ensures exists steps, t :: Reaches(s, steps, t) && Stuck(t)
  {
    var saved := Saved(s, caller);
    var t := EndCapture(saved, s.generation);
    SaveReaches(s, caller);
    assert Reaches(t, [], t);
    ReachesFirst(saved, CaptureEnd(s.generation), [], t);
    ReachesThen(s, Save(caller, s.spawned), saved, [CaptureEnd(s.generation)], t);
    assert Stuck(t);
  }

  ghost function TwoStopsPending(): State {
    BeginStop(BeginStop(Start(Initial), 1), 2)
  }

  lemma FirstRecordingSaved()
    ensures var s := Saved(EndCapture(TwoStopsPending(), 1), 2);
            exists steps :: Reaches(Initial, steps, s)
  {
    var s1 := Start(Initial);
    var s2 := BeginStop(s1, 1);
    var s3 := BeginStop(s2, 2);
    var s4 := EndCapture(s3, 1);
    SaveReaches(s4, 2);
    var save := Save(2, 0);
    var s5 := Saved(s4, 2);
    ReachesFirst(s3, CaptureEnd(1), save, s5);
    ReachesFirst(s2, StopBegin(2), [CaptureEnd(1)] + save, s5);
    ReachesFirst(s1, StopBegin(1), [StopBegin(2)] + ([CaptureEnd(1)] + save), s5);
    ReachesFirst(Initial, StartRecording, [StopBegin(1)] + ([StopBegin(2)] + ([CaptureEnd(1)] + save)), s5);
  }

  /** It does happen: two callers stop the first recording, one of them is
      delayed until a second recording runs, and decides on that one. */
  lemma OvertakenStopSticks()
    ensures exists steps, t :: Reaches(Initial, steps, t) && Stuck(t)
  {
    FirstRecordingSaved();
    var s := Saved(EndCapture(TwoStopsPending(), 1), 2);
    var first :| Reaches(Initial, first, s);
    var again := Start(s);
    assert CanDecide(again, 1) && again.generation in again.capturing;
    DisorderlyDecisionCanStick(again, 1);
    var second, t :| Reaches(again, second, t) && Stuck(t);
    ReachesFirst(s, StartRecording, second, t);
    ReachesThen(Initial, first, s, [StartRecording] + second, t);
  }
}
