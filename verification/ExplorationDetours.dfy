/** Detours of a session: special scenes, foreign packages and restarts. What is
    decided in each case, told from the scene, the counts and the clock. */
module ExplorationDetours {
  import opened Options
  import opened ExplorationTypes
  import opened ExplorationModel
  import opened ExplorationProofs
  import opened ExplorationTheorems

  // ----- Special scenes ------------------------------------------------------

  /** Attempts are shared by ads of one encounter in one activity, by failures to
      load or to buy in one activity, and otherwise by scenes on one page. */
  predicate ShareAttempts(a: Scene, inActivity: string, b: Scene, otherActivity: string) {
    && a.kind == b.kind
    && if a.kind == Ad || a.kind == LoadFailure || a.kind == PurchaseFailure then inActivity == otherActivity
       else a.fingerprint == b.fingerprint
  }

  lemma AttemptsAreSharedExactlyWhen(d: Detours, a: Scene, inActivity: string, b: Scene, otherActivity: string)
    ensures KeyOf(d, a, inActivity) == KeyOf(d, b, otherActivity) <==> ShareAttempts(a, inActivity, b, otherActivity)
  {
  }

  /** A new encounter with an ad starts counting anew. */
  lemma EncountersAreCountedApart(d: Detours, e: Detours, scene: Scene, activity: string)
    ensures KeyOf(d, scene, activity) == KeyOf(e, scene, activity) <==> scene.kind != Ad || d.adEncounter == e.adEncounter
  {
  }

  /** Before any scene is dealt with: foreign visits are forgiven on the target, an
      ad that was not there before is a new encounter, an ad that is gone on the
      target is over, and scrolling is allowed again unless a load failure shows. */
  lemma EnteringNotes(d: Detours, found: Option<Scene>, onTarget: bool)
    ensures var ad := found.Some? && found.value.kind == Ad;
            var t := EnterScene(d, found, onTarget);
            t == d.(externalAttempts := if onTarget then map[] else d.externalAttempts,
                    adActive := ad || (d.adActive && !onTarget),
                    adEncounter := d.adEncounter + if ad && !d.adActive then 1 else 0,
                    suppressScroll := d.suppressScroll && found.Some? && found.value.kind == LoadFailure)
  {
  }

  function Attempts(s: State, scene: Scene, activity: string): nat {
    var key := KeyOf(s.detours, scene, activity);
    if key in s.detours.sceneAttempts then s.detours.sceneAttempts[key] else 0
  }

  predicate StuckOnboarding(s: State, scene: Scene, activity: string) {
    scene.kind == Onboarding && s.loop.stuck.ready && s.loop.stuck.activity == activity
  }

  /** An onboarding page that has been given up, and a page that would not load twice. */
  predicate PassedBy(s: State, scene: Scene, activity: string) {
    || StuckOnboarding(s, scene, activity)
    || (scene.kind == LoadFailure && Attempts(s, scene, activity) >= 2)
  }

  /** A scene that asks to wait is waited for up to its own limit, or else the
      configured one, from when it was first seen waiting. */
  predicate Waits(s: State, config: Config, scene: Scene, activity: string, now: int) {
    var key := KeyOf(s.detours, scene, activity);
    var since := if key in s.detours.waitStarted then s.detours.waitStarted[key] else now;
    scene.outcome == Waiting && now - since < if scene.waitLimit <= 0 then config.adMaxWait else scene.waitLimit
  }

  /** The fallback once waiting is over or something has been tried, else the
      action of a scene that offers one. */
  function Remedy(s: State, scene: Scene, activity: string): Option<Action> {
    if scene.fallback.Some? && (scene.outcome == Waiting || Attempts(s, scene, activity) > 0) then scene.fallback
    else if scene.outcome == Acting then scene.action else None
  }

  /** The edge of the pending tap, unless it is a visible back control. */
  function PendingEdge(s: State): set<EdgeKey> {
    if s.loop.pending.None? || s.loop.pending.value >= |s.graph.steps| then {}
    else
      var step := s.graph.steps[s.loop.pending.value];
      if step.action.kind != Tap || step.action.IsVisibleBackControl() then {}
      else {(SemanticOf(s.graph, step.from), Keyed(step.action.Key()))}
  }

  lemma BlockingPendingTap(s: State)
    ensures var t := BlockPendingTap(s);
            && t == s.(cover := t.cover, counters := s.counters.(blockedEdges := t.counters.blockedEdges))
            && t.cover == s.cover.(blocked := s.cover.blocked + PendingEdge(s))
  {
    BlockPendingBlocks(s);
  }

  /** The state in which a scene that is not passed by is dealt with. */
  ghost function Noticed(s: State, scene: Scene, activity: string, now: int): State {
    var key := KeyOf(s.detours, scene, activity);
    var waits := s.detours.waitStarted;
    s.(loop := s.loop.(purchaseBlocked := s.loop.purchaseBlocked || scene.kind == PurchaseFailure),
       detours := s.detours.(waitStarted :=
         if scene.outcome != Waiting then waits - {key} else if key in waits then waits else waits[key := now]))
  }

  lemma DecisionFollowsPlan(s: State, config: Config, scene: Scene, activity: string, now: int, elapsed: bool)
    requires !PassedBy(s, scene, activity)
    ensures var key, noticed := KeyOf(s.detours, scene, activity), Noticed(s, scene, activity, now);
            DecideScene(s, config, scene, activity, now, elapsed)
            == if Waits(s, config, scene, activity, now) then (noticed, SceneWait)
               else FollowPlan(noticed, config, key, scene.kind, activity, PlanOf(Attempts(s, scene, activity), scene), elapsed)
  {
  }

  lemma PlanIsRemedy(s: State, scene: Scene, activity: string)
    ensures var plan, remedy := PlanOf(Attempts(s, scene, activity), scene), Remedy(s, scene, activity);
            && (plan.Do? <==> remedy.Some?) && (plan.Do? ==> remedy == Some(plan.action))
            && (plan == Leave <==> remedy.None? && scene.outcome == Exploring)
            && (plan == AskPolicy <==> remedy.None? && scene.outcome == PolicyRequired)
  {
  }

  lemma PlanIsFollowed(s: State, config: Config, key: SceneKey, kind: SceneKind, activity: string, plan: Plan, elapsed: bool)
    ensures var (t, signal) := FollowPlan(s, config, key, kind, activity, plan, elapsed);
            var n := if key in s.detours.sceneAttempts then s.detours.sceneAttempts[key] else 0;
            && (signal.SceneAct? <==> plan.Do? && n < config.maxSceneAttempts)
            && (signal.SceneAct? ==> signal == SceneAct(key, plan.action))
            && t.detours == (if signal.SceneAct?
                 then s.detours.(sceneAttempts := s.detours.sceneAttempts[key := n + 1]) else s.detours)
            && t.loop == s.loop.(
                 coldStart := s.loop.coldStart || (signal == SceneRestart && !(kind == PurchaseFailure && plan.Do?)),
                 stuck := if kind == Onboarding && plan.Do? && signal == SceneNext
                          then s.loop.stuck.(activity := activity, ready := true) else s.loop.stuck)
            && t.cover.blocked == s.cover.blocked + if kind == PurchaseFailure && plan.Do? then PendingEdge(s) else {}
  {
    BlockingPendingTap(s);
    assert s.cover.blocked + {} == s.cover.blocked;
  }

  /** A scene is acted on exactly when it is not passed by or waited for, there is
      a remedy, and attempts are left; one more attempt is then counted. */
  lemma SceneIsActedOnExactlyWhen(s: State, config: Config, scene: Scene, activity: string, now: int, elapsed: bool)
    ensures var (t, signal) := DecideScene(s, config, scene, activity, now, elapsed);
            var key, n := KeyOf(s.detours, scene, activity), Attempts(s, scene, activity);
            && (signal.SceneAct? <==>
                  && !PassedBy(s, scene, activity) && !Waits(s, config, scene, activity, now)
                  && Remedy(s, scene, activity).Some? && n < config.maxSceneAttempts)
            && (signal.SceneAct? ==> signal.key == key && Some(signal.action) == Remedy(s, scene, activity))
            && t.detours.sceneAttempts == if signal.SceneAct? then s.detours.sceneAttempts[key := n + 1] else s.detours.sceneAttempts
  {
    if !PassedBy(s, scene, activity) {
      var key, noticed := KeyOf(s.detours, scene, activity), Noticed(s, scene, activity, now);
      DecisionFollowsPlan(s, config, scene, activity, now, elapsed);
      PlanIsRemedy(s, scene, activity);
      PlanIsFollowed(noticed, config, key, scene.kind, activity, PlanOf(Attempts(s, scene, activity), scene), elapsed);
    }
  }

  lemma SceneIsWaitedForExactlyWhen(s: State, config: Config, scene: Scene, activity: string, now: int, elapsed: bool)
    ensures DecideScene(s, config, scene, activity, now, elapsed).1 == SceneWait
            <==> !PassedBy(s, scene, activity) && Waits(s, config, scene, activity, now)
  {
  }

  /** A scene that is over is passed by; one that needs a policy ends the session;
      one without a remedy, or tried in vain, restarts the target, or ends the
      session when its time is up. A page that could be bought nothing on always
      restarts, and an onboarding page is left to the ways out of a stuck page. */
  lemma SceneIsLeft(s: State, config: Config, scene: Scene, activity: string, now: int, elapsed: bool)
    ensures var signal := DecideScene(s, config, scene, activity, now, elapsed).1;
            var remedy := Remedy(s, scene, activity);
            var inVain := remedy.Some? && Attempts(s, scene, activity) >= config.maxSceneAttempts;
            && (PassedBy(s, scene, activity) ==> signal == SceneNext)
            && (!PassedBy(s, scene, activity) && !Waits(s, config, scene, activity, now) ==>
                  && (remedy.None? && scene.outcome == Exploring ==> signal == SceneNext)
                  && (remedy.None? && scene.outcome == PolicyRequired ==> signal == SceneStop)
                  && (remedy.None? && scene.outcome != Exploring && scene.outcome != PolicyRequired ==>
                        signal == if elapsed then SceneStop else SceneRestart)
                  && (inVain && scene.kind == Onboarding ==> signal == SceneNext)
                  && (inVain && scene.kind == PurchaseFailure ==> signal == SceneRestart)
                  && (inVain && scene.kind != Onboarding && scene.kind != PurchaseFailure ==>
                        signal == if elapsed then SceneStop else SceneRestart))
  {
  }

  /** What deciding marks: purchases are barred after a failed one, which also
      blocks the tap that led there; an onboarding page tried in vain is stuck;
      every other restart may be a cold one; load failures stop scrolling. */
  lemma DecidingMarks(s: State, config: Config, scene: Scene, activity: string, now: int, elapsed: bool)
    ensures var (t, signal) := DecideScene(s, config, scene, activity, now, elapsed);
            var given, remedy := PassedBy(s, scene, activity), Remedy(s, scene, activity);
            if given then
              t == s.(detours := s.detours.(suppressScroll :=
                s.detours.suppressScroll || scene.kind == LoadFailure))
            else
              var noticed := Noticed(s, scene, activity, now);
              && t.loop == noticed.loop.(
                   coldStart := s.loop.coldStart
                                || (signal == SceneRestart && !(scene.kind == PurchaseFailure && remedy.Some?)),
                   stuck := if scene.kind == Onboarding && remedy.Some? && signal == SceneNext
                            then s.loop.stuck.(activity := activity, ready := true) else s.loop.stuck)
              && t.detours == noticed.detours.(sceneAttempts := t.detours.sceneAttempts)
              && t.cover.blocked == s.cover.blocked
                   + if scene.kind == PurchaseFailure && remedy.Some? && signal != SceneWait then PendingEdge(s) else {}
  {
    if !PassedBy(s, scene, activity) {
      var key, noticed := KeyOf(s.detours, scene, activity), Noticed(s, scene, activity, now);
      DecisionFollowsPlan(s, config, scene, activity, now, elapsed);
      PlanIsRemedy(s, scene, activity);
      PlanIsFollowed(noticed, config, key, scene.kind, activity, PlanOf(Attempts(s, scene, activity), scene), elapsed);
      assert s.cover.blocked + {} == s.cover.blocked;
    }
  }

  // ----- Acting on a scene ---------------------------------------------------

  /** An act on a scene never becomes the pending step. Executed, it is a step
      from the scene under its own receipt; when it never reached the device its
      attempt is taken back. */
  lemma ActOnSceneLeaves(s: State, key: SceneKey, fingerprint: string, a: Action, outcome: Outcome)
    requires ReceiptInv(s)
    ensures var t, id := HandleSpecial(s, key, fingerprint, a, outcome), Ordinary(s.loop.attemptNumber + 1);
            var n := if key in s.detours.sceneAttempts then s.detours.sceneAttempts[key] else 0;
            && t.loop.pending == s.loop.pending && t.loop.attemptNumber == s.loop.attemptNumber + 1
            && t.receipts == (match outcome
                 case ReceiptRefused => s.receipts
                 case StaleObservation => s.receipts[id := Rejected]
                 case InputFailed => s.receipts[id := Failed]
                 case Done => s.receipts[id := Executed])
            && t.graph == (if outcome == Done
                 then s.graph.(steps := s.graph.steps + [Step(id, FromPage(fingerprint), a, None)]) else s.graph)
            && t.detours == (if outcome == StaleObservation
                 then s.detours.(sceneAttempts := s.detours.sceneAttempts[key := if n > 0 then n - 1 else 0]) else s.detours)
            && t.counters.recoveries == s.counters.recoveries + (if outcome == Done then 1 else 0)
            && (outcome == Done ==> t.loop.exhaustedPage == "" && t.loop.exhaustedCaptures == 0)
            && t.cover == s.cover
  {
  }

  // ----- Off the target ------------------------------------------------------

  function Visits(s: State, package: string): nat {
    if package in s.detours.externalAttempts then s.detours.externalAttempts[package] else 0
  }

  predicate GoingBack(s: State) {
    s.loop.pending.Some? && s.loop.pending.value < |s.graph.steps| && s.graph.steps[s.loop.pending.value].action.backtrack
  }

  /** On the launcher the target is resumed at most every eight seconds; that
      drops what was pending. */
  lemma HomeIsLeft(s: State, foreground: string, now: int, elapsed: bool, ok: bool)
    ensures var t := LeaveTarget(s, foreground, true, now, elapsed, ok);
            if now < s.detours.homeResumeAfter then t == s
            else t == s.(detours := s.detours.(homeResumeAfter := now + 8),
                         loop := s.loop.(pending := if ok then None else s.loop.pending),
                         counters := s.counters.(recoveries := s.counters.recoveries + if ok then 1 else 0))
  {
  }

  /** A return that went too far, and a package that has been visited three times,
      are answered by starting the target again; no edge is blamed for it. */
  lemma OvershotOrBarredIsRestarted(s: State, foreground: string, now: int, elapsed: bool, ok: bool)
    requires GoingBack(s) || Visits(s, foreground) >= 3
    ensures var t := LeaveTarget(s, foreground, false, now, elapsed, ok);
            if !ok || (!GoingBack(s) && elapsed) then t == s
            else t == s.(loop := s.loop.(pending := None, exhaustedPage := "", exhaustedCaptures := 0),
                         counters := s.counters.(recoveries := s.counters.recoveries + 1),
                         detours := if GoingBack(s) then s.detours
                                    else s.detours.(externalAttempts := map[], escapeActivity := "", escapeAttempts := 0))
  {
  }

  /** Any other foreign package is one more visit: the edge that led there is
      blocked, its step ends outside, and the engine goes back. */
  lemma ForeignPackageIsBlamed(s: State, foreground: string, now: int, elapsed: bool, ok: bool)
    requires !GoingBack(s) && Visits(s, foreground) < 3
    ensures var t := LeaveTarget(s, foreground, false, now, elapsed, ok);
            var blamed := s.loop.pending.Some? && s.loop.pending.value < |s.graph.steps|;
            && t.detours == s.detours.(externalAttempts := s.detours.externalAttempts[foreground := Visits(s, foreground) + 1])
            && t.cover == s.cover.(blocked := s.cover.blocked + LedOutside(s))
            && t.graph == (if !blamed then s.graph
                 else
                   var i := s.loop.pending.value;
                   s.graph.(steps := s.graph.steps[i := s.graph.steps[i].(destination := Some("external:" + foreground))]))
            && t.counters.external == s.counters.external + (if blamed then 1 else 0)
            && t.counters.recoveries == s.counters.recoveries + 1
            && t.loop == if ok then s.loop.(pending := None, exhaustedPage := "", exhaustedCaptures := 0) else s.loop
  {
    BlameIs(CountVisit(s, foreground), foreground);
  }

  lemma BlameIs(s: State, foreign: string)
    ensures var t := BlameStep(s, foreign);
            var blamed := s.loop.pending.Some? && s.loop.pending.value < |s.graph.steps|;
            && t == s.(cover := t.cover, graph := t.graph, counters := s.counters.(
                 blockedEdges := t.counters.blockedEdges, external := s.counters.external + if blamed then 1 else 0))
            && t.cover == s.cover.(blocked := s.cover.blocked + LedOutside(s))
            && t.graph == if !blamed then s.graph
                 else
                   var i := s.loop.pending.value;
                   s.graph.(steps := s.graph.steps[i := s.graph.steps[i].(destination := Some("external:" + foreign))])
  {
    assert s.cover.blocked + {} == s.cover.blocked;
  }

  /** The edge of the pending step, if it left a page of the graph. */
  function LedOutside(s: State): set<EdgeKey> {
    if s.loop.pending.None? || s.loop.pending.value >= |s.graph.steps| then {}
    else
      var step := s.graph.steps[s.loop.pending.value];
      if step.from.FromPage? && step.from.fingerprint in s.graph.nodes
      then {(s.graph.nodes[step.from.fingerprint].semantic, Keyed(step.action.Key()))} else {}
  }

  /** A surface handed over to another app is left; the tap that led there is
      blocked whether or not the device does as it is told. */
  lemma HandoffIsLeft(s: State, config: Config, ok: bool)
    ensures var t := Apply(s, config, Handoff(ok));
            && t.cover == s.cover.(blocked := s.cover.blocked + PendingEdge(s))
            && t == s.(cover := t.cover, counters := s.counters.(
                 blockedEdges := t.counters.blockedEdges, recoveries := s.counters.recoveries + if ok then 1 else 0))
  {
    BlockingPendingTap(s);
  }

  // ----- Restarts ------------------------------------------------------------

  /** The target was stopped and launched again: scenes and escapes count anew. */
  predicate StartsOver(s: State, t: State) {
    && t.detours == s.detours.(sceneAttempts := map[], adActive := false, adEncounter := s.detours.adEncounter + 1,
                               escapeActivity := "", escapeAttempts := 0)
    && t.counters == s.counters.(recoveries := s.counters.recoveries + 1)
    && t.loop == s.loop.(exhaustedPage := "", exhaustedCaptures := 0, stuck := t.loop.stuck, ladderCoolUntil := t.loop.ladderCoolUntil)
  }

  /** Escapes that count against this activity. */
  function EscapesHere(s: State, activity: string): nat {
    if s.detours.escapeActivity == activity then s.detours.escapeAttempts else 0
  }

  /** A page the engine is stuck on is relaunched once it has been asked for. */
  lemma StuckPageIsRelaunched(s: State, activity: string, coldAllowed: bool, now: int, ok: bool)
    requires s.loop.stuck.relaunch
    ensures var t := RestartTarget(s, activity, coldAllowed, now, ok);
            && t.loop.stuck == s.loop.stuck.(relaunch := false) && t.loop.ladderCoolUntil == s.loop.ladderCoolUntil
            && if ok then StartsOver(s, t) else t == s.(loop := s.loop.(stuck := s.loop.stuck.(relaunch := false)))
  {
  }

  /** Where no cold start is allowed: one step back, then one relaunch, and then
      nothing for thirty seconds. */
  lemma ShellIsRelaunchedOnce(s: State, activity: string, now: int, ok: bool)
    requires !s.loop.stuck.relaunch && !s.loop.coldStart
    ensures var t := RestartTarget(s, activity, false, now, ok);
            var here := s.detours.(escapeActivity := activity, escapeAttempts := EscapesHere(s, activity));
            if now < s.loop.ladderCoolUntil then t == s.(detours := here)
            else if EscapesHere(s, activity) == 0 then
              t == s.(detours := here.(escapeAttempts := 1),
                      counters := s.counters.(recoveries := s.counters.recoveries + if ok then 1 else 0))
            else
              && t.loop.ladderCoolUntil == now + 30 && t.loop.stuck == s.loop.stuck
              && if ok then StartsOver(s, t)
                 else t == s.(detours := here.(escapeAttempts := 0), loop := s.loop.(ladderCoolUntil := now + 30))
  {
  }

  /** Elsewhere: four gestures to escape, then a relaunch. */
  lemma LadderIsClimbed(s: State, activity: string, coldAllowed: bool, now: int, ok: bool)
    requires !s.loop.stuck.relaunch && (s.loop.coldStart || coldAllowed)
    ensures var t, n := RestartTarget(s, activity, coldAllowed, now, ok), EscapesHere(s, activity);
            if n < 4 then
              t == s.(detours := s.detours.(escapeActivity := activity, escapeAttempts := n + 1),
                      counters := s.counters.(recoveries := s.counters.recoveries + if ok then 1 else 0))
            else if ok then StartsOver(s, t) && t.loop.stuck == s.loop.stuck && t.loop.ladderCoolUntil == s.loop.ladderCoolUntil
            else t == s.(detours := s.detours.(escapeActivity := "", escapeAttempts := 0))
  {
  }

  // ----- A whole session -----------------------------------------------------

  /** No package is visited more than three times before it is left for good, and
      no activity is escaped from more than four times before a relaunch. */
  ghost predicate Bounded(d: Detours) {
    (forall package :: package in d.externalAttempts ==> d.externalAttempts[package] <= 3) && d.escapeAttempts <= 4
  }

  lemma VisitKeepsDetours(s: State, config: Config, page: Page, advice: Advice, outcome: Outcome)
    requires Inv(s, config) && WellFormedPage(page) && WellFormedAdvice(advice)
    ensures Apply(s, config, Visit(page, advice, outcome)).detours == s.detours
  {
    RecordPageFrames(s, page, advice.now);
    RecordPageKeepsInv(s, config, page, advice.now);
    ChoosingKeepsDetours(RecordPage(s, page, advice.now), config, page, advice, outcome);
  }

  lemma SceneKeepsBounds(s: State, config: Config, e: Event)
    requires Bounded(s.detours) && e.SpecialScene?
    ensures Bounded(Apply(s, config, e).detours)
  {
    var s1 := s.(detours := EnterScene(s.detours, e.found, e.onTarget));
    EnteringNotes(s.detours, e.found, e.onTarget);
    if e.found.Some? {
      var (s2, signal) := DecideScene(s1, config, e.found.value, e.activity, e.now, e.elapsed);
      DecidingKeepsVisits(s1, config, e.found.value, e.activity, e.now, e.elapsed);
      if signal.SceneAct? { ActingKeepsVisits(s2, signal.key, e.found.value.fingerprint, signal.action, e.outcome); }
    }
  }

  lemma DecidingKeepsVisits(s: State, config: Config, scene: Scene, activity: string, now: int, elapsed: bool)
    ensures var t := DecideScene(s, config, scene, activity, now, elapsed).0;
            t.detours.externalAttempts == s.detours.externalAttempts && t.detours.escapeAttempts == s.detours.escapeAttempts
  {
    if !PassedBy(s, scene, activity) {
      var key, noticed := KeyOf(s.detours, scene, activity), Noticed(s, scene, activity, now);
      DecisionFollowsPlan(s, config, scene, activity, now, elapsed);
      PlanIsFollowed(noticed, config, key, scene.kind, activity, PlanOf(Attempts(s, scene, activity), scene), elapsed);
    }
  }

  lemma ActingKeepsVisits(s: State, key: SceneKey, fingerprint: string, a: Action, outcome: Outcome)
    ensures var t := HandleSpecial(s, key, fingerprint, a, outcome);
            t.detours.externalAttempts == s.detours.externalAttempts && t.detours.escapeAttempts == s.detours.escapeAttempts
  {
  }

  lemma LeavingKeepsBounds(s: State, foreground: string, home: bool, now: int, elapsed: bool, ok: bool)
    requires Bounded(s.detours)
    ensures Bounded(LeaveTarget(s, foreground, home, now, elapsed, ok).detours)
  {
    if home {
      HomeIsLeft(s, foreground, now, elapsed, ok);
    } else if GoingBack(s) || Visits(s, foreground) >= 3 {
      OvershotOrBarredIsRestarted(s, foreground, now, elapsed, ok);
    } else {
      ForeignPackageIsBlamed(s, foreground, now, elapsed, ok);
    }
  }

  lemma RestartKeepsBounds(s: State, activity: string, coldAllowed: bool, now: int, ok: bool)
    requires Bounded(s.detours)
    ensures Bounded(RestartTarget(s, activity, coldAllowed, now, ok).detours)
  {
    if s.loop.stuck.relaunch {
      StuckPageIsRelaunched(s, activity, coldAllowed, now, ok);
    } else if s.loop.coldStart || coldAllowed {
      LadderIsClimbed(s, activity, coldAllowed, now, ok);
    } else {
      ShellIsRelaunchedOnce(s, activity, now, ok);
    }
  }

  lemma StepKeepsBounds(s: State, config: Config, e: Event)
    requires Inv(s, config) && WellFormed(e) && Bounded(s.detours)
    ensures Bounded(Apply(s, config, e).detours)
  {
    match e
    case LastPage(page, now) => RecordPageFrames(s, page, now);
    case Visit(page, advice, outcome) => VisitKeepsDetours(s, config, page, advice, outcome);
    case SpecialScene(_, _, _, _, _, _) => SceneKeepsBounds(s, config, e);
    case SessionStep(_, _) =>
    case OffTarget(foreground, home, now, elapsed, ok) => LeavingKeepsBounds(s, foreground, home, now, elapsed, ok);
    case Handoff(_) => BlockPendingBlocks(s);
    case Restarting(activity, coldAllowed, now, ok) => RestartKeepsBounds(s, activity, coldAllowed, now, ok);
  }

  lemma {:induction false} BoundsFrom(s: State, config: Config, events: seq<Event>)
    requires Inv(s, config) && WellFormedRun(events) && Bounded(s.detours)
    ensures Bounded(Run(s, config, events).detours)
    decreases |events|
  {
    if events != [] {
      StepKeepsBounds(s, config, events[0]);
      StepKeepsInv(s, config, events[0]);
      BoundsFrom(Apply(s, config, events[0]), config, events[1..]);
    }
  }

  /** In every session. */
  lemma DetoursAreBounded(config: Config, events: seq<Event>)
    requires WellFormedRun(events)
    ensures Bounded(Run(Initial, config, events).detours)
  {
    InitialInv(config);
    BoundsFrom(Initial, config, events);
  }
}
