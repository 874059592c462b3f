/** The life of an exploration session: started once per request, owning the
    device until its release step, ended exactly once.  Steps are the critical
    sections of Start, Stop and the run goroutine with its deferred clean-up,
    interleaved with the other users of the device. */
module SessionLifecycle {
  import opened Options
  import D = DeviceOwnership

  datatype Phase = Running | Finalizing | Idle

  /** What one session went through. */
  datatype Session = Session(
    request: string, identity: D.Identity, phases: seq<Phase>, stopAccepted: bool, reason: string)

  /** Where the run goroutine is: exploring, writing artifacts, device released. */
  datatype Pc = Exploring | Persisting | Released

  datatype Flags = Flags(running: bool, stopping: bool, finalizing: bool)
  {
    predicate Active() { running || stopping || finalizing }
  }

  datatype State = State(
    flags: Flags,
    request: string,
    fingerprint: string,
    started: bool,                       // StartedAt is set
    reason: string,
    stopRequested: bool,
    identity: Option<D.Identity>,
    device: D.State,
    goroutine: Option<Pc>,
    sessions: seq<Session>)              // history

  const Initial := State(Flags(false, false, false), "", "", false, "", false, None, D.Idle, None, [])

  datatype StartOutcome = Existing | Conflict | AlreadyActive | DeviceOwned | Created

  function StartOutcomeOf(s: State, request: string, fingerprint: string): StartOutcome {
    if s.request == request && (s.flags.Active() || s.started) then
      if fingerprint != s.fingerprint then Conflict else Existing
    else if s.flags.Active() then AlreadyActive
    else if s.device.active.Some? then DeviceOwned
    else Created
  }

  function StartSession(s: State, request: string, fingerprint: string, token: string): State {
    if !StartOutcomeOf(s, request, fingerprint).Created? then s
    else
      var (device, outcome) := D.Apply(s.device, D.Acquire("exploration", request, token));
      var id := outcome.identity;
      State(Flags(true, false, false), request, fingerprint, true, "", false, Some(id), device, Some(Exploring),
            s.sessions + [Session(request, id, [Running], false, "")])
  }

  function Amend(sessions: seq<Session>, phase: Phase, reason: string): seq<Session> {
    if sessions == [] then []
    else
      var last := sessions[|sessions| - 1];
      sessions[..|sessions| - 1] + [last.(phases := last.phases + [phase], reason := reason)]
  }

  /** finishLocked: the first caller decides the reason, unless a stop did. */
  function Finish(s: State, reason: string): State {
    if !s.flags.running then s
    else
      var why := if s.stopRequested then "stopped" else reason;
      s.(flags := Flags(false, false, true), reason := why, sessions := Amend(s.sessions, Finalizing, why))
  }

  function AcceptStop(s: State): State {
    if !s.flags.running then s
    else
      s.(flags := s.flags.(stopping := true), stopRequested := true,
         sessions := if s.sessions == [] then [] else
           s.sessions[..|s.sessions| - 1] + [s.sessions[|s.sessions| - 1].(stopAccepted := true)])
  }

  /** The run loop has returned; its first deferred section. */
  function Return(s: State): State {
    Finish(s, "stopped").(goroutine := Some(Persisting))
  }

  function ReleaseDevice(s: State): State {
    if s.identity.None? then s
    else s.(device := D.Apply(s.device, D.Release(s.identity.value)).0, goroutine := Some(Released))
  }

  function Leave(s: State): State {
    s.(flags := s.flags.(finalizing := false), goroutine := None, sessions := Amend(s.sessions, Idle, s.reason))
  }

  datatype Step =
    | StartRequest(request: string, fingerprint: string, token: string)
    | StopRequest
    | RunFinishes(reason: string)
    | RunReturns
    | RunReleases
    | RunLeaves
    | Elsewhere(op: D.Operation)

  /** Other users of the device hold their own identities, not this session's;
      the device has granted fewer than 2^64 sessions. */
  predicate Enabled(s: State, step: Step) {
    && s.device.generation + 1 < D.GENERATIONS
    && match step
       case StartRequest(_, _, _) => true
       case StopRequest => true
       case RunFinishes(_) => s.goroutine == Some(Exploring)
       case RunReturns => s.goroutine == Some(Exploring)
       case RunReleases => s.goroutine == Some(Persisting)
       case RunLeaves => s.goroutine == Some(Released)
       case Elsewhere(op) => op.Release? ==> !D.SameOwner(s.identity, op.identity)
  }

  function Apply(s: State, step: Step): State {
    match step
    case StartRequest(request, fingerprint, token) => StartSession(s, request, fingerprint, token)
    case StopRequest => AcceptStop(s)
    case RunFinishes(reason) => Finish(s, reason)
    case RunReturns => Return(s)
    case RunReleases => ReleaseDevice(s)
    case RunLeaves => Leave(s)
    case Elsewhere(op) => s.(device := D.Apply(s.device, op).0)
  }

  ghost predicate IsRun(s: State, steps: seq<Step>)
    decreases |steps|
  {
    steps == [] || (Enabled(s, steps[0]) && IsRun(Apply(s, steps[0]), steps[1..]))
  }

  function Run(s: State, steps: seq<Step>): State
    decreases |steps|
  {
    if steps == [] then s else Run(Apply(s, steps[0]), steps[1..])
  }

  // ----- What every run keeps ------------------------------------------------

  function PhasesSoFar(flags: Flags): seq<Phase> {
    if flags.running then [Running]
    else if flags.finalizing then [Running, Finalizing]
    else [Running, Finalizing, Idle]
  }

  /** The goroutine owns the device until its release step, and the flags say
      where it is. */
  ghost predicate OwnerInv(s: State) {
    && D.Inv(s.device)
    && (s.goroutine.None? ==> !s.flags.Active())
    && (s.goroutine.Some? ==> s.identity.Some? && s.sessions != [] && (s.flags.running || s.flags.finalizing))
    && (s.flags.running ==> s.goroutine == Some(Exploring) && !s.flags.finalizing)
    && (s.flags.stopping ==> s.flags.running)
    && (s.flags.running && s.stopRequested ==> s.flags.stopping)
    && (s.goroutine == Some(Exploring) || s.goroutine == Some(Persisting) ==> s.device.active == s.identity)
  }

  ghost predicate Finished(session: Session) {
    session.phases == [Running, Finalizing, Idle] && (session.stopAccepted ==> session.reason == "stopped")
  }

  /** Every earlier session ran, was finalized and went idle, once and in that
      order; the last one is where the flags say; a session whose stop was
      accepted while it ran ends as "stopped"; neighbours differ in request. */
  ghost predicate HistoryInv(s: State) {
    && (s.started <==> s.sessions != [])
    && (forall i :: 0 <= i < |s.sessions| - 1 ==> Finished(s.sessions[i]))
    && (s.sessions != [] ==>
          var last := s.sessions[|s.sessions| - 1];
          && last.phases == PhasesSoFar(s.flags)
          && last.request == s.request && s.identity == Some(last.identity)
          && (last.stopAccepted ==> s.stopRequested)
          && (!s.flags.running ==> last.reason == s.reason && (last.stopAccepted ==> s.reason == "stopped")))
    && (forall i :: 0 < i < |s.sessions| ==> s.sessions[i].request != s.sessions[i - 1].request)
  }

  ghost predicate Inv(s: State) { OwnerInv(s) && HistoryInv(s) }

  lemma StartKeepsInv(s: State, request: string, fingerprint: string, token: string)
    requires Inv(s) && s.device.generation + 1 < D.GENERATIONS
    ensures Inv(StartSession(s, request, fingerprint, token))
  {
    if StartOutcomeOf(s, request, fingerprint).Created? {
      D.StepKeepsInv(s.device, D.Acquire("exploration", request, token));
      var t := StartSession(s, request, fingerprint, token);
      forall i | 0 <= i < |t.sessions| - 1 ensures Finished(t.sessions[i]) {
        assert t.sessions[i] == s.sessions[i];
      }
    }
  }

  lemma FinishKeepsInv(s: State, reason: string)
    requires Inv(s) && s.goroutine == Some(Exploring)
    ensures Inv(Finish(s, reason))
  {
  }

  lemma AcceptStopKeepsInv(s: State)
    requires Inv(s)
    ensures Inv(AcceptStop(s))
  {
  }

  lemma ReturnKeepsInv(s: State)
    requires Inv(s) && s.goroutine == Some(Exploring)
    ensures Inv(Return(s))
  {
    FinishKeepsInv(s, "stopped");
  }

  lemma ReleaseKeepsInv(s: State)
    requires Inv(s) && s.goroutine == Some(Persisting)
    ensures Inv(ReleaseDevice(s))
    ensures ReleaseDevice(s).device.active.None?
  {
  }

  lemma LeaveKeepsInv(s: State)
    requires Inv(s) && s.goroutine == Some(Released)
    ensures Inv(Leave(s))
  {
  }

  lemma ElsewhereKeepsInv(s: State, op: D.Operation)
    requires Inv(s) && Enabled(s, Elsewhere(op))
    ensures Inv(Apply(s, Elsewhere(op)))
  {
    D.StepKeepsInv(s.device, op);
  }

  lemma StepKeepsInv(s: State, step: Step)
    requires Inv(s) && Enabled(s, step)
    ensures Inv(Apply(s, step))
  {
    match step
    case StartRequest(request, fingerprint, token) => StartKeepsInv(s, request, fingerprint, token);
    case StopRequest => AcceptStopKeepsInv(s);
    case RunFinishes(reason) => FinishKeepsInv(s, reason);
    case RunReturns => ReturnKeepsInv(s);
    case RunReleases => ReleaseKeepsInv(s);
    case RunLeaves => LeaveKeepsInv(s);
    case Elsewhere(op) => ElsewhereKeepsInv(s, op);
  }

  lemma {:induction false} RunKeepsInv(s: State, steps: seq<Step>)
    requires Inv(s) && IsRun(s, steps)
    ensures Inv(Run(s, steps))
    decreases |steps|
  {
    if steps != [] {
      StepKeepsInv(s, steps[0]);
      RunKeepsInv(Apply(s, steps[0]), steps[1..]);
    }
  }

  /** In every run: the session owns the device from Start until its release
      step; each session passes Running, Finalizing, idle once and in order; an
      accepted stop makes it end as "stopped"; no two sessions in a row answer
      the same request. */
  lemma EveryRun(steps: seq<Step>)
    requires IsRun(Initial, steps)
    ensures var s := Run(Initial, steps);
            && (s.goroutine == Some(Exploring) || s.goroutine == Some(Persisting) ==>
                  s.identity.Some? && D.Registered(s.device, s.identity.value))
            && (forall i :: 0 <= i < |s.sessions| ==> s.sessions[i].phases <= [Running, Finalizing, Idle])
            && (forall i :: 0 <= i < |s.sessions| ==>
                  s.sessions[i].stopAccepted && |s.sessions[i].phases| > 1 ==> s.sessions[i].reason == "stopped")
            && (forall i :: 0 < i < |s.sessions| ==> s.sessions[i].request != s.sessions[i - 1].request)
  {
    RunKeepsInv(Initial, steps);
    var s := Run(Initial, steps);
    forall i | 0 <= i < |s.sessions| - 1 ensures Finished(s.sessions[i]) {}
  }

  /** A start creates a session exactly when none is active, the device is free,
      and the request is not the one of the latest session. */
  lemma StartCreatesExactlyWhen(s: State, request: string, fingerprint: string, token: string)
    requires Inv(s)
    ensures |StartSession(s, request, fingerprint, token).sessions| == |s.sessions| + 1 <==>
              !s.flags.Active() && s.device.active.None?
              && (s.sessions == [] || s.sessions[|s.sessions| - 1].request != request)
    ensures |StartSession(s, request, fingerprint, token).sessions| != |s.sessions| + 1 ==>
              StartSession(s, request, fingerprint, token) == s
  {
  }

  /** The answer to a start: the same request again is told apart by whether its
      configuration is the same; any other is refused while a session is active
      or somebody else has the device. */
  lemma StartIsAnsweredExactlyWhen(s: State, request: string, fingerprint: string)
    ensures var outcome := StartOutcomeOf(s, request, fingerprint);
            var active := s.flags.running || s.flags.stopping || s.flags.finalizing;
            var again := s.request == request && (active || s.started);
            && (outcome.Existing? <==> again && s.fingerprint == fingerprint)
            && (outcome.Conflict? <==> again && s.fingerprint != fingerprint)
            && (outcome.AlreadyActive? <==> !again && active)
            && (outcome.DeviceOwned? <==> !again && !active && s.device.active.Some?)
            && (outcome.Created? <==> !again && !active && s.device.active.None?)
  {
  }

  /** A session runs from its start until its run finishes or returns, is stopping
      once a stop has come, and is finalizing from then until it leaves. */
  lemma FlagsFollowSteps(s: State, step: Step)
    requires Inv(s) && Enabled(s, step)
    ensures var t, ends := Apply(s, step), step.RunFinishes? || step.RunReturns?;
            var created := step.StartRequest? && StartOutcomeOf(s, step.request, step.fingerprint).Created?;
            && (t.flags.running <==> created || (s.flags.running && !ends))
            && (t.flags.stopping <==> t.flags.running && !created && (s.flags.stopping || step.StopRequest?))
            && (t.flags.finalizing <==> (s.flags.running && ends) || (s.flags.finalizing && !step.RunLeaves?))
            && (created ==> t.request == step.request && t.fingerprint == step.fingerprint)
            && (!created ==> t.request == s.request && t.fingerprint == s.fingerprint && t.identity == s.identity)
  {
  }

  // ----- How a session ends --------------------------------------------------

  /** The reason a running session ends with, told from the steps that follow:
      the first finish decides, and any stop before it wins. */
  function Ending(steps: seq<Step>, stopped: bool): Option<string>
    decreases |steps|
  {
    if steps == [] then None
    else
      match steps[0]
      case StopRequest => Ending(steps[1..], true)
      case RunFinishes(reason) => Some(if stopped then "stopped" else reason)
      case RunReturns => Some("stopped")
      case _ => Ending(steps[1..], stopped)
  }

  lemma StepKeepsReasons(s: State, step: Step, n: nat)
    requires Inv(s) && Enabled(s, step) && n < |s.sessions|
    requires n < |s.sessions| - 1 || !s.flags.running
    ensures var t := Apply(s, step);
            && n < |t.sessions| && t.sessions[n].reason == s.sessions[n].reason
            && (n < |t.sessions| - 1 || !t.flags.running)
  {
  }

  /** Once a session has ended nothing changes why. */
  lemma {:induction false} ReasonsStay(s: State, steps: seq<Step>, n: nat)
    requires Inv(s) && IsRun(s, steps) && n < |s.sessions|
    requires n < |s.sessions| - 1 || !s.flags.running
    ensures var t := Run(s, steps); n < |t.sessions| && t.sessions[n].reason == s.sessions[n].reason
    decreases |steps|
  {
    if steps != [] {
      StepKeepsInv(s, steps[0]);
      StepKeepsReasons(s, steps[0], n);
      ReasonsStay(Apply(s, steps[0]), steps[1..], n);
    }
  }

  /** A running session runs on until its run finishes or returns, and then ends
      for the reason told by the steps, for good. */
  lemma {:induction false} SessionEndsAsTold(s: State, steps: seq<Step>)
    requires Inv(s) && s.flags.running && IsRun(s, steps)
    ensures var t, n, ending := Run(s, steps), |s.sessions| - 1, Ending(steps, s.stopRequested);
            if ending.None? then t.flags.running && |t.sessions| == |s.sessions|
            else |t.sessions| > n && t.sessions[n].reason == ending.value
    decreases |steps|
  {
    if steps != [] {
      var t := Apply(s, steps[0]);
      StepKeepsInv(s, steps[0]);
      if t.flags.running {
        SessionEndsAsTold(t, steps[1..]);
      } else {
        ReasonsStay(t, steps[1..], |s.sessions| - 1);
      }
    }
  }

  function Undisturbed(request: string): seq<Step> {
    [StartRequest(request, "", ""), RunReturns, RunReleases, RunLeaves]
  }

  ghost function Completed(s: State, request: string): State {
    Leave(ReleaseDevice(Return(StartSession(s, request, "", ""))))
  }

  lemma CompletedIsIdleAgain(s: State, request: string)
    requires Inv(s) && s.goroutine.None? && s.device.active.None? && s.request != request
    requires s.device.generation + 2 < D.GENERATIONS
    ensures var t := Completed(s, request);
            && Inv(t) && t.goroutine.None? && t.device.active.None? && t.request == request
            && |t.sessions| == |s.sessions| + 1
            && t.sessions[..|s.sessions|] == s.sessions && t.sessions[|s.sessions|].request == request
            && t.device.generation == s.device.generation + 1
  {
    var s1 := StartSession(s, request, "", "");
    StartKeepsInv(s, request, "", "");
    ReturnKeepsInv(s1);
    ReleaseKeepsInv(Return(s1));
    LeaveKeepsInv(ReleaseDevice(Return(s1)));
  }

  lemma RunFirst(s: State, first: Step, rest: seq<Step>)
    requires Enabled(s, first) && IsRun(Apply(s, first), rest)
    ensures IsRun(s, [first] + rest) && Run(s, [first] + rest) == Run(Apply(s, first), rest)
  {
    assert ([first] + rest)[1..] == rest;
  }

  lemma RunFour(s: State, a: Step, b: Step, c: Step, d: Step)
    requires Enabled(s, a) && Enabled(Apply(s, a), b) && Enabled(Apply(Apply(s, a), b), c)
    requires Enabled(Apply(Apply(Apply(s, a), b), c), d)
    ensures IsRun(s, [a, b, c, d])
    ensures Run(s, [a, b, c, d]) == Apply(Apply(Apply(Apply(s, a), b), c), d)
  {
    var s1 := Apply(s, a);
    var s2 := Apply(s1, b);
    var s3 := Apply(s2, c);
    var s4 := Apply(s3, d);
    assert IsRun(s4, []) && Run(s4, []) == s4;
    RunFirst(s3, d, []);
    assert [d] + [] == [d] && [c] + [d] == [c, d] && [b] + [c, d] == [b, c, d] && [a] + [b, c, d] == [a, b, c, d];
    RunFirst(s2, c, [d]);
    RunFirst(s1, b, [c, d]);
    RunFirst(s, a, [b, c, d]);
  }

  lemma UndisturbedCompletes(s: State, request: string)
    requires Inv(s) && s.goroutine.None? && s.device.active.None? && s.request != request
    requires s.device.generation + 2 < D.GENERATIONS
    ensures IsRun(s, Undisturbed(request))
    ensures Run(s, Undisturbed(request)) == Completed(s, request)
  {
    RunFour(s, StartRequest(request, "", ""), RunReturns, RunReleases, RunLeaves);
  }

  /** A session from Start to idle, when nobody else interferes. */
  lemma WholeSession(s: State, request: string)
    requires Inv(s) && s.goroutine.None? && s.device.active.None? && s.request != request
    requires s.device.generation + 2 < D.GENERATIONS
    ensures IsRun(s, Undisturbed(request))
    ensures var t := Run(s, Undisturbed(request));
            && Inv(t) && t.goroutine.None? && t.device.active.None? && t.request == request
            && |t.sessions| == |s.sessions| + 1
            && t.sessions[..|s.sessions|] == s.sessions && t.sessions[|s.sessions|].request == request
            && t.device.generation == s.device.generation + 1
  {
    UndisturbedCompletes(s, request);
    CompletedIsIdleAgain(s, request);
  }

  lemma {:induction false} RunConcat(s: State, first: seq<Step>, second: seq<Step>)
    requires IsRun(s, first) && IsRun(Run(s, first), second)
    ensures IsRun(s, first + second) && Run(s, first + second) == Run(Run(s, first), second)
    decreases |first|
  {
    if first == [] {
      assert first + second == second;
    } else {
      RunConcat(Apply(s, first[0]), first[1..], second);
      assert (first + second)[1..] == first[1..] + second;
    }
  }

  /** At rest, after sessions for these requests. */
  ghost predicate Rests(s: State, requests: seq<string>) {
    && Inv(s) && s.goroutine.None? && s.device.active.None?
    && s.device.generation == |s.sessions| == |requests|
    && (forall i :: 0 <= i < |requests| ==> s.sessions[i].request == requests[i])
    && s.request == if requests == [] then "" else requests[|requests| - 1]
  }

  /** One more request, different from the last one, is one more session. */
  lemma AnotherRequest(steps: seq<Step>, requests: seq<string>, request: string)
    requires IsRun(Initial, steps) && Rests(Run(Initial, steps), requests)
    requires request != (if requests == [] then "" else requests[|requests| - 1])
    requires |requests| + 2 < D.GENERATIONS
    ensures IsRun(Initial, steps + Undisturbed(request))
    ensures Rests(Run(Initial, steps + Undisturbed(request)), requests + [request])
  {
    var s := Run(Initial, steps);
    WholeSession(s, request);
    RunConcat(Initial, steps, Undisturbed(request));
    var t := Run(s, Undisturbed(request));
    forall i | 0 <= i < |requests| ensures t.sessions[i].request == requests[i] {
      assert t.sessions[..|s.sessions|][i] == s.sessions[i];
    }
  }

  /** "Never a second session for a request" holds for repeats in a row only: a
      session for another request in between makes the manager forget. */
  lemma ForgottenRequestRunsAgain()
    ensures exists steps :: IsRun(Initial, steps) && Rests(Run(Initial, steps), ["a", "b", "a"])
  {
    var a, b := Undisturbed("a"), Undisturbed("b");
    assert [] + ["a"] == ["a"] && ["a"] + ["b"] == ["a", "b"] && ["a", "b"] + ["a"] == ["a", "b", "a"];
    AnotherRequest([], [], "a");
    AnotherRequest([] + a, ["a"], "b");
    AnotherRequest([] + a + b, ["a", "b"], "a");
  }

  // ----- The manager ---------------------------------------------------------

  datatype Report = Report(flags: Flags, request: string, started: bool, reason: string)

  /** Start, Stop and the run goroutine's clean-up. The coordinator is shared
      with the other users of the device. */
  class Manager {
    var report: Report
    var requestFingerprint: string
    var stopRequested: bool
    var identity: Option<D.Identity>
    const coordinator: D.Coordinator
    ghost var goroutine: Option<Pc>
    ghost var sessions: seq<Session>

    ghost function View(): State
      reads this, coordinator
    {
      State(report.flags, report.request, requestFingerprint, report.started, report.reason,
            stopRequested, identity, coordinator.View(), goroutine, sessions)
    }

    constructor (coordinator: D.Coordinator)
      requires coordinator.View() == D.Idle
      ensures this.coordinator == coordinator && View() == Initial
    {
      report := Report(Flags(false, false, false), "", false, "");
      requestFingerprint, stopRequested, identity := "", false, None;
      this.coordinator := coordinator;
      goroutine, sessions := None, [];
    }

    method Start(request: string, fingerprint: string, token: string) returns (outcome: StartOutcome)
      modifies this, coordinator
      ensures outcome == StartOutcomeOf(old(View()), request, fingerprint)
      ensures View() == StartSession(old(View()), request, fingerprint, token)
    {
      if report.flags.Active() {
        if report.request == request {
          if fingerprint != requestFingerprint { return Conflict; }
          return Existing;
        }
        return AlreadyActive;
      }
      if report.request == request && report.started {
        if fingerprint != requestFingerprint { return Conflict; }
        return Existing;
      }
      var acquired := coordinator.Acquire("exploration", request, token);
      if !acquired.Granted? { return DeviceOwned; }
      requestFingerprint := fingerprint;
      stopRequested := false;
      identity := Some(acquired.identity);
      report := Report(Flags(true, false, false), request, true, "");
      goroutine := Some(Exploring);
      sessions := sessions + [Session(request, acquired.identity, [Running], false, "")];
      return Created;
    }

    method FinishLocked(reason: string)
      modifies this
      ensures View() == Finish(old(View()), reason)
    {
      if !report.flags.running { return; }
      var why := if stopRequested then "stopped" else reason;
      report := report.(flags := Flags(false, false, true), reason := why);
      sessions := Amend(sessions, Finalizing, why);
    }

    method StopLocked()
      modifies this
      ensures View() == AcceptStop(old(View()))
    {
      if !report.flags.Active() { return; }
      if report.flags.running {
        stopRequested := true;
        report := report.(flags := report.flags.(stopping := true));
        if sessions != [] {
          sessions := sessions[..|sessions| - 1] + [sessions[|sessions| - 1].(stopAccepted := true)];
        }
      }
    }

    /** The deferred sections of run, in order. */
    method RunReturns()
      modifies this
      ensures View() == Return(old(View()))
    {
      FinishLocked("stopped");
      goroutine := Some(Persisting);
    }

    method RunReleases()
      requires identity.Some?
      modifies this, coordinator
      ensures View() == ReleaseDevice(old(View()))
    {
      var released := coordinator.Release(identity.value);
      goroutine := Some(Released);
    }

    method RunLeaves()
      modifies this
      ensures View() == Leave(old(View()))
    {
      report := report.(flags := report.flags.(finalizing := false));
      goroutine := None;
      sessions := Amend(sessions, Idle, report.reason);
    }
  }
}
