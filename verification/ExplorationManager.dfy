/** The exploration engine in place: maps, counters and the run loop are fields
    that its methods update, each method proved against ExplorationModel. */
module ExplorationManager {
  import opened Options
  import opened ExplorationTypes
  import opened ExplorationModel
  import M = ExplorationModel
  import C = CycleDetection

  class Manager {
    const config: Config
    const cycles: C.CycleGuard
    var graph: Graph
    var cover: Cover
    var receipts: map<StepId, Receipt>
    var counters: Counters
    var loop: Loop
    var detours: Detours
    ghost var log: seq<Logged>
    ghost var roundSteps: nat

    ghost function View(): State
      reads this, cycles
    {
      State(graph, cover, cycles.trace, receipts, counters, loop, detours, log, roundSteps)
    }

    constructor (config: Config)
      ensures fresh(cycles) && cycles.Valid() && View() == Initial
    {
      this.config := config;
      cycles := new C.CycleGuard();
      graph := Graph(map[], [], [], [], map[], map[], map[]);
      cover := Cover({}, {}, {}, {});
      receipts, counters, loop, detours, log, roundSteps := map[], NoCounters, FreshLoop, NoDetours, [], 0;
    }

    method BlockEdge(semantic: string, action: EdgeAction)
      modifies this`cover, this`counters
      ensures View() == M.BlockEdge(old(View()), semantic, action)
    {
      if (semantic, action) !in cover.blocked {
        cover := cover.(blocked := cover.blocked + {(semantic, action)});
        counters := counters.(blockedEdges := counters.blockedEdges + 1);
      }
    }

    method BlockSamples(samples: seq<Sample>)
      modifies this`cover, this`counters
      ensures View() == M.BlockSamples(old(View()), samples)
    {
      for i := 0 to |samples|
        invariant View() == M.BlockSamples(old(View()), samples[..i])
      {
        assert samples[..i + 1][..i] == samples[..i];
        BlockEdge(samples[i].blockFrom, samples[i].action);
      }
      assert samples[..|samples|] == samples;
    }

    // ----- Settling ----------------------------------------------------------

    method NoteSemantic(semantic: string)
      requires cycles.Valid()
      modifies this`cover, cycles
      ensures cycles.Valid() && View() == M.NoteSemantic(old(View()), semantic)
    {
      if semantic !in cover.seenSemantic {
        if cover.seenSemantic != {} {
          cycles.ResetProgressWindow();
        }
        cover := cover.(seenSemantic := cover.seenSemantic + {semantic});
      }
    }

    method Discover(page: Page)
      modifies this`graph
      ensures View() == M.Discover(old(View()), page)
    {
      if page.fingerprint !in graph.nodes {
        var node := Node(page.actions, page.activity, page.semantic, {}, map[], 0);
        graph := graph.(nodes := graph.nodes[page.fingerprint := node],
                        discovered := graph.discovered + [page.fingerprint]);
      } else if page.activity != "" && graph.nodes[page.fingerprint].activity == "" {
        var node := graph.nodes[page.fingerprint].(activity := page.activity);
        graph := graph.(nodes := graph.nodes[page.fingerprint := node]);
      }
    }

    method CloseStep(pending: nat, page: Page)
      requires pending < |graph.steps|
      modifies this`graph, this`receipts, this`counters
      ensures View() == M.CloseStep(old(View()), pending, page)
    {
      var step := graph.steps[pending];
      graph := graph.(steps := graph.steps[pending := step.(destination := Some(page.fingerprint))],
                      edges := graph.edges + [Edge(step.from, step.action.id, page.fingerprint)]);
      if step.id in receipts {
        receipts := receipts[step.id := Executed];
      }
      if step.action.kind == Swipe && !step.action.backtrack {
        if step.from == FromPage(page.fingerprint) {
          counters := counters.(scrollStalls := counters.scrollStalls + 1);
        } else {
          counters := counters.(scrollProgress := counters.scrollProgress + 1);
        }
      }
    }

    method NoteIneffective(pending: nat, from: string)
      requires pending < |graph.steps|
      modifies this`cover, this`counters, this`loop
      ensures View() == M.NoteIneffective(old(View()), pending, from)
    {
      var action := graph.steps[pending].action;
      counters := counters.(ineffective := counters.ineffective + 1);
      if action.IsVisibleBackControl() && pending > 0 {
        var previous := graph.steps[pending - 1].action;
        if previous.kind == Tap && !previous.IsVisibleBackControl() {
          BlockEdge(from, Keyed(previous.Key()));
        }
      }
      if action.kind == Swipe && !action.backtrack {
        var stall := (from, Keyed(action.Key()));
        var n := Lookup(loop.samePageSwipes, stall) + 1;
        loop := loop.(samePageSwipes := loop.samePageSwipes[stall := n]);
        if n >= MAX_SCROLL_ATTEMPTS {
          BlockEdge(from, Keyed(action.Key()));
        }
      }
    }

    /** Blocks what a verdict of the cycle guard names, from its window. */
    method BlockVerdict(verdict: nat, edge: EdgeKey)
      requires cycles.Valid()
      modifies this`cover, this`counters
      ensures View() == M.BlockVerdict(old(View()), verdict, edge)
    {
      if verdict <= C.MAX_PERIOD { C.WindowEndsTrace(cycles.trace, verdict); }
      if verdict <= C.MAX_PERIOD && |cycles.history| >= verdict {
        BlockSamples(cycles.history[|cycles.history| - verdict..]);
      } else {
        BlockEdge(edge.0, edge.1);
      }
    }

    method ReactToVerdict(verdict: nat, edge: EdgeKey, semantic: string, now: int)
      requires cycles.Valid()
      modifies this`cover, this`counters, this`loop
      ensures View() == M.ReactToVerdict(old(View()), verdict, edge, semantic, now)
    {
      if verdict == 0 { return; }
      counters := counters.(cycleDetections := counters.cycleDetections + 1);
      BlockVerdict(verdict, edge);
      if ArmsEscalation(loop, semantic, now) {
        loop := loop.(escalationArmed := semantic);
      }
    }

    method ObserveCycle(step: Step, from: string, page: Page, now: int)
      requires cycles.Valid()
      modifies this`cover, this`counters, this`loop, cycles
      ensures cycles.Valid() && View() == M.ObserveCycle(old(View()), step, from, page, now)
    {
      var sample := SampleOf(graph, step, from, page);
      if !Observed(step.action, sample) { return; }
      var verdict := cycles.Observe(sample.from, sample.action, sample.to, sample.blockFrom);
      assert cycles.trace == old(cycles.trace) + [sample];
      ReactToVerdict(verdict, (from, step.action.StepKey()), page.semantic, now);
    }

    method NoteEffect(pending: nat, from: string, to: string)
      requires pending < |graph.steps|
      modifies this`cover, this`counters, this`loop
      ensures View() == M.NoteEffect(old(View()), pending, from, to)
    {
      if from == to {
        NoteIneffective(pending, from);
      } else {
        counters := counters.(effective := counters.effective + 1);
      }
    }

    method NoteBacktrack(step: Step, from: string, page: Page)
      modifies this`cover, this`counters
      ensures View() == M.NoteBacktrack(old(View()), step, from, page)
    {
      if step.action.backtrack {
        var expected := if step.from.FromPage? && step.from.fingerprint in graph.parents
                        then Some(graph.parents[step.from.fingerprint]) else None;
        if expected != Some(FromPage(page.fingerprint)) {
          BlockEdge(from, Backtracking);
        }
      }
    }

    method Adopt(step: Step, page: Page, isNew: bool)
      modifies this`graph
      ensures View() == M.Adopt(old(View()), step, page, isNew)
    {
      if !step.action.backtrack && isNew && step.from != FromPage(page.fingerprint) {
        var back := InverseAction(step.action, page.fingerprint, step.from);
        graph := graph.(parents := graph.parents[page.fingerprint := step.from],
                        returnActions := graph.returnActions[page.fingerprint := back]);
      }
    }

    method SettleStep(pending: nat, page: Page, isNew: bool, now: int)
      requires cycles.Valid() && pending < |graph.steps|
      modifies this, cycles
      ensures cycles.Valid() && View() == M.SettleStep(old(View()), pending, page, isNew, now)
    {
      var step := graph.steps[pending];
      var from := SemanticOf(graph, step.from);
      CloseStep(pending, page);
      NoteEffect(pending, from, page.semantic);
      loop := loop.(stuck := NoteProgress(loop.stuck, page.semantic, page.activity, from != page.semantic));
      NoteBacktrack(step, from, page);
      ObserveCycle(step, from, page, now);
      Adopt(step, page, isNew);
      loop := loop.(pending := None);
    }

    method RecordPage(page: Page, now: int)
      requires cycles.Valid()
      modifies this, cycles
      ensures cycles.Valid() && View() == M.RecordPage(old(View()), page, now)
    {
      var isNew := page.fingerprint !in graph.nodes;
      NoteSemantic(page.semantic);
      Discover(page);
      if loop.pending.Some? && loop.pending.value < |graph.steps| {
        SettleStep(loop.pending.value, page, isNew, now);
      }
    }

    // ----- Choosing ----------------------------------------------------------

    method ResetSelectableRound()
      modifies this
      ensures View() == ResetRound(old(View()))
    {
      var left := graph.nodes.Keys;
      var nodes := graph.nodes;
      while left != {}
        invariant View() == old(View())
        invariant left <= nodes.Keys == graph.nodes.Keys
        invariant forall fp :: fp in nodes ==>
          nodes[fp] == if fp in left then graph.nodes[fp]
                       else graph.nodes[fp].(tried := {}, attempts := map[], nonScroll := 0)
        decreases left
      {
        var fp :| fp in left;
        nodes := nodes[fp := nodes[fp].(tried := {}, attempts := map[], nonScroll := 0)];
        left := left - {fp};
      }
      assert nodes == ResetNodes(graph.nodes);
      graph := graph.(nodes := nodes, returnAttempts := map[]);
      cover := cover.(inputTried := {});
      roundSteps := 0;
    }

    method MarkTap(activity: string, a: Action)
      modifies this`cover
      ensures View() == M.MarkTap(old(View()), activity, a)
    {
      if a.kind == Tap {
        cover := cover.(seenTaps := cover.seenTaps + {(activity, a.Key())});
      }
    }

    method SelectCoverage(page: Page, node: Node, advice: Advice) returns (r: Option<Action>)
      ensures r == CoverageChoice(loop, cover, config, page.activity, node, advice)
    {
      r := SelectAction(node, config, ExcludedFirst(loop, cover, node, page.activity, advice), advice.rank);
      if r.None? {
        r := SelectAction(node, config, Excluded(loop, cover, node, page.activity, advice), advice.rank);
      }
    }

    method ChooseLanguage(page: Page, semantic: string, advice: Advice) returns (r: Option<Action>)
      ensures r == LanguageChoice(View(), page, semantic, advice)
    {
      if !advice.languageSurface || PageIsStuck(loop.stuck, page.activity, semantic) || advice.preferred.None? {
        return None;
      }
      var preferred := advice.preferred.value;
      if (page.activity, preferred.Key()) !in cover.seenTaps { return Some(preferred); }
      if page.activity in loop.accepted && loop.accepted[page.activity] == preferred.Key() {
        if advice.confirm.Some? && (page.activity, advice.confirm.value.Key()) !in cover.seenTaps {
          return advice.confirm;
        }
      }
      return None;
    }

    method LeaveStuck(page: Page, semantic: string, now: int) returns (choice: Choice)
      modifies this`loop
      ensures (View(), choice) == M.LeaveStuck(old(View()), page, semantic, now)
    {
      if loop.stuck.backSent != semantic {
        loop := loop.(stuck := loop.stuck.(backSent := semantic));
        var back := FindVisibleBack(page.actions);
        return Take(if back.Some? then back.value else SystemBack, Escape);
      }
      if loop.coolState == semantic && now < loop.coolUntil { return Again; }
      loop := loop.(coolState := semantic, coolUntil := now + ESCALATION_COOLDOWN,
                    stuck := loop.stuck.(relaunch := true));
      return Restart;
    }

    method NewRound(page: Page, advice: Advice) returns (choice: Choice)
      requires page.fingerprint in graph.nodes
      modifies this
      ensures (View(), choice) == M.NewRound(old(View()), config, page, advice)
    {
      ResetSelectableRound();
      loop := loop.(exhaustedPage := "", exhaustedCaptures := 0);
      var node := graph.nodes[page.fingerprint];
      var again := SelectAction(node, config, Excluded(loop, cover, node, page.activity, advice), advice.rankAfterReset);
      if again.Some? {
        MarkTap(page.activity, again.value);
        return Take(again.value, Coverage);
      }
      var back := FindVisibleBack(page.actions);
      if back.Some? && loop.backEscapeState != node.semantic {
        loop := loop.(backEscapeState := node.semantic);
        return Take(back.value, Escape);
      }
      loop := loop.(coldStart := false);
      return Restart;
    }

    method ChooseExhausted(page: Page, advice: Advice) returns (choice: Choice)
      requires page.fingerprint in graph.nodes
      modifies this
      ensures (View(), choice) == M.ChooseExhausted(old(View()), config, page, advice)
    {
      var semantic := graph.nodes[page.fingerprint].semantic;
      if loop.escalationArmed == semantic {
        loop := CoolEscalation(loop, semantic, advice.now);
      }
      loop := NoteExhausted(loop, page.fingerprint);
      if PageIsStuck(loop.stuck, page.activity, semantic) {
        if advice.elapsed { return Stop; }
        choice := LeaveStuck(page, semantic, advice.now);
        return;
      }
      if loop.exhaustedCaptures < EXHAUSTED_CAPTURES { return Again; }
      if advice.elapsed { return Stop; }
      if advice.now < loop.ladderCoolUntil { return Again; }
      choice := NewRound(page, advice);
    }

    method ChooseReturn(page: Page, semantic: string, now: int) returns (r: Option<Action>)
      requires page.fingerprint in graph.nodes && semantic == graph.nodes[page.fingerprint].semantic
      modifies this`loop, this`graph
      ensures var s := old(View());
              var armed := s.loop.escalationArmed == semantic;
              var untaken := (semantic, Backtracking) !in s.cover.blocked
                             && Lookup(s.graph.returnAttempts, page.fingerprint) == 0;
              if MayReturn(s, config, page) && (untaken || armed) then
                && r == Some(s.graph.returnActions[page.fingerprint])
                && View() == TakeReturn(
                     s.(loop := if armed then CoolEscalation(s.loop, semantic, now) else s.loop), page)
              else r.None? && View() == s
    {
      if !config.enableBacktrack || page.fingerprint !in graph.returnActions
         || counters.backtracks >= config.maxBacktracks { return None; }
      var attempts := Lookup(graph.returnAttempts, page.fingerprint);
      var armed := loop.escalationArmed == semantic;
      if ((semantic, Backtracking) in cover.blocked || attempts != 0) && !armed { return None; }
      if armed {
        loop := CoolEscalation(loop, semantic, now);
      }
      graph := graph.(returnAttempts := graph.returnAttempts[page.fingerprint := attempts + 1]);
      return Some(graph.returnActions[page.fingerprint]);
    }

    method ChooseAction(page: Page, advice: Advice) returns (choice: Choice)
      requires page.fingerprint in graph.nodes
      modifies this
      ensures (View(), choice) == Choose(old(View()), config, page, advice)
    {
      var node := graph.nodes[page.fingerprint];
      var language := ChooseLanguage(page, node.semantic, advice);
      if language.Some? {
        MarkTap(page.activity, language.value);
        return Take(language.value, Language);
      }
      var coverage := SelectCoverage(page, node, advice);
      if coverage.Some? {
        MarkTap(page.activity, coverage.value);
        return Take(coverage.value, Coverage);
      }
      var back := ChooseReturn(page, node.semantic, advice.now);
      if back.Some? { return Take(back.value, Return); }
      choice := ChooseExhausted(page, advice);
    }

    // ----- Executing ---------------------------------------------------------

    /** Counts a try of a coverage action at its page. */
    method CountTry(page: Page, a: Action)
      modifies this`graph, this`cover
      ensures cover == if a.kind == Input
                       then old(cover).(inputTried := old(cover).inputTried + {(page.activity, a.id)}) else old(cover)
      ensures var g := old(graph);
              graph == if page.fingerprint !in g.nodes then g
                       else g.(nodes := g.nodes[page.fingerprint := M.TryAction(g.nodes[page.fingerprint], a)])
    {
      if page.fingerprint in graph.nodes {
        var node := graph.nodes[page.fingerprint];
        var n := Lookup(node.attempts, a.id) + 1;
        node := node.(attempts := node.attempts[a.id := n]);
        if a.kind != Swipe || n >= MAX_SCROLL_ATTEMPTS {
          node := node.(tried := node.tried + {a.id});
        }
        node := node.(nonScroll := if a.kind == Swipe then 0 else node.nonScroll + 1);
        graph := graph.(nodes := graph.nodes[page.fingerprint := node]);
      }
      if a.kind == Input {
        cover := cover.(inputTried := cover.inputTried + {(page.activity, a.id)});
      }
    }

    /** The bookkeeping after the device has executed an action. */
    method RecordStep(page: Page, a: Action, path: Path, id: StepId)
      modifies this
      ensures View() == M.RecordStep(old(View()), page, a, path, id)
    {
      if !a.backtrack { CountTry(page, a); }
      loop := loop.(pending := Some(|graph.steps|));
      graph := graph.(steps := graph.steps + [Step(id, FromPage(page.fingerprint), a, None)]);
      counters := CountAction(counters, a);
      roundSteps := roundSteps + if path == Coverage then 1 else 0;
    }

    method ExecuteChosen(page: Page, a: Action, path: Path, advice: Advice, outcome: Outcome)
      modifies this
      ensures View() == Execute(old(View()), page, a, path, advice, outcome)
    {
      loop := loop.(exhaustedPage := "", exhaustedCaptures := 0, attemptNumber := loop.attemptNumber + 1);
      var id := Ordinary(loop.attemptNumber);
      if outcome == ReceiptRefused || id in receipts { return; }
      match outcome
      case StaleObservation =>
        receipts := receipts[id := Rejected];
        counters := counters.(staleActions := counters.staleActions + 1);
      case InputFailed =>
        receipts := receipts[id := Failed];
      case Done =>
        loop := NoteAccepted(loop, page, a, advice);
        receipts := receipts[id := Executed];
        RecordStep(page, a, path, id);
    }

    /** The bookkeeping of every capture, before any scene is dealt with. */
    method EnterScene(found: Option<Scene>, onTarget: bool)
      modifies this`detours
      ensures View() == old(View()).(detours := M.EnterScene(old(detours), found, onTarget))
    {
      if onTarget { detours := detours.(externalAttempts := map[]); }
      if found.Some? && found.value.kind == Ad {
        if !detours.adActive {
          detours := detours.(adActive := true, adEncounter := detours.adEncounter + 1);
        }
      } else if detours.adActive && onTarget {
        detours := detours.(adActive := false);
      }
      if found.None? || found.value.kind != LoadFailure {
        detours := detours.(suppressScroll := false);
      }
    }

    /** The attempts under this key are used up: leave the scene another way. */
    method GiveUpScene(kind: SceneKind, activity: string, elapsed: bool) returns (signal: SceneSignal)
      modifies this`loop, this`cover, this`counters
      ensures (View(), signal) == SceneExhausted(old(View()), kind, activity, elapsed)
    {
      if kind == Onboarding {
        loop := loop.(stuck := loop.stuck.(activity := activity, ready := true));
        return SceneNext;
      }
      if kind == PurchaseFailure {
        BlockPendingTap();
        return SceneRestart;
      }
      if elapsed { return SceneStop; }
      loop := loop.(coldStart := true);
      return SceneRestart;
    }

    method FollowScenePlan(key: SceneKey, kind: SceneKind, activity: string, plan: Plan, elapsed: bool)
      returns (signal: SceneSignal)
      modifies this`loop, this`cover, this`counters, this`detours
      ensures (View(), signal) == FollowPlan(old(View()), config, key, kind, activity, plan, elapsed)
    {
      match plan
      case Leave => return SceneNext;
      case AskPolicy => return SceneStop;
      case GiveUp =>
        if elapsed { return SceneStop; }
        loop := loop.(coldStart := true);
        return SceneRestart;
      case Do(a) =>
        if Lookup(detours.sceneAttempts, key) >= config.maxSceneAttempts {
          signal := GiveUpScene(kind, activity, elapsed);
          return;
        }
        if kind == PurchaseFailure { BlockPendingTap(); }
        var attempts := Lookup(detours.sceneAttempts, key) + 1;
        detours := detours.(sceneAttempts := detours.sceneAttempts[key := attempts]);
        return SceneAct(key, a);
    }

    method DecideScene(scene: Scene, activity: string, now: int, elapsed: bool) returns (signal: SceneSignal)
      modifies this`loop, this`cover, this`counters, this`detours
      ensures (View(), signal) == M.DecideScene(old(View()), config, scene, activity, now, elapsed)
    {
      if scene.kind == Onboarding && loop.stuck.ready && loop.stuck.activity == activity { return SceneNext; }
      var key := KeyOf(detours, scene, activity);
      if scene.kind == PurchaseFailure { loop := loop.(purchaseBlocked := true); }
      if scene.kind == LoadFailure && Lookup(detours.sceneAttempts, key) >= LOAD_FAILURE_ATTEMPTS {
        detours := detours.(suppressScroll := true);
        return SceneNext;
      }
      if scene.outcome == Waiting {
        if key !in detours.waitStarted {
          detours := detours.(waitStarted := detours.waitStarted[key := now]);
        }
        var limit := if scene.waitLimit <= 0 then config.adMaxWait else scene.waitLimit;
        if now - detours.waitStarted[key] < limit { return SceneWait; }
      } else {
        detours := detours.(waitStarted := detours.waitStarted - {key});
      }
      signal := FollowScenePlan(key, scene.kind, activity, PlanOf(Lookup(detours.sceneAttempts, key), scene), elapsed);
    }

    /** The step, receipt and counters of one act on a scene. */
    method ActOnScene(key: SceneKey, fingerprint: string, a: Action, outcome: Outcome)
      modifies this
      ensures View() == HandleSpecial(old(View()), key, fingerprint, a, outcome)
    {
      loop := loop.(attemptNumber := loop.attemptNumber + 1);
      var id := Ordinary(loop.attemptNumber);
      if outcome == ReceiptRefused || id in receipts { return; }
      match outcome
      case StaleObservation =>
        receipts := receipts[id := Rejected];
        counters := counters.(staleActions := counters.staleActions + 1);
        detours := Refund(detours, key);
      case InputFailed =>
        receipts := receipts[id := Failed];
      case Done =>
        receipts := receipts[id := Executed];
        loop := loop.(exhaustedPage := "", exhaustedCaptures := 0);
        graph := graph.(steps := graph.steps + [Step(id, FromPage(fingerprint), a, None)]);
        counters := counters.(recoveries := counters.recoveries + 1, specialActions := counters.specialActions + 1);
    }

    method HandleSpecialScene(found: Option<Scene>, onTarget: bool, activity: string, now: int, elapsed: bool,
                              outcome: Outcome)
      returns (signal: SceneSignal)
      modifies this
      ensures View() == SceneStep(old(View()), config, found, onTarget, activity, now, elapsed, outcome)
    {
      EnterScene(found, onTarget);
      if found.None? { return SceneNext; }
      signal := DecideScene(found.value, activity, now, elapsed);
      if signal.SceneAct? {
        ActOnScene(signal.key, found.value.fingerprint, signal.action, outcome);
      }
    }

    // ----- Restarts ----------------------------------------------------------

    method ColdStart()
      modifies this`loop, this`counters, this`detours
      ensures View() == ColdStarted(old(View()))
    {
      counters := counters.(recoveries := counters.recoveries + 1);
      loop := loop.(exhaustedPage := "", exhaustedCaptures := 0);
      detours := detours.(sceneAttempts := map[], adActive := false, adEncounter := detours.adEncounter + 1,
                          escapeActivity := "", escapeAttempts := 0);
    }

    /** restartExhaustedTarget: one more gesture, or a relaunch. */
    method RestartExhaustedTarget(activity: string, coldAllowed: bool, now: int, ok: bool)
      modifies this`loop, this`counters, this`detours
      ensures View() == RestartTarget(old(View()), activity, coldAllowed, now, ok)
    {
      if loop.stuck.relaunch {
        loop := loop.(stuck := loop.stuck.(relaunch := false));
        if ok { ColdStart(); }
        return;
      }
      if detours.escapeActivity != activity {
        detours := detours.(escapeActivity := activity, escapeAttempts := 0);
      }
      if !loop.coldStart && !coldAllowed {
        if now < loop.ladderCoolUntil { return; }
        if detours.escapeAttempts == 0 {
          detours := detours.(escapeAttempts := 1);
          if ok { counters := counters.(recoveries := counters.recoveries + 1); }
          return;
        }
        detours := detours.(escapeAttempts := 0);
        loop := loop.(ladderCoolUntil := now + SHELL_RELAUNCH_COOLDOWN);
        if ok { ColdStart(); }
        return;
      }
      if detours.escapeAttempts >= MAX_ESCAPES {
        detours := detours.(escapeActivity := "", escapeAttempts := 0);
        if ok { ColdStart(); }
        return;
      }
      detours := detours.(escapeAttempts := detours.escapeAttempts + 1);
      if ok { counters := counters.(recoveries := counters.recoveries + 1); }
    }

    method RecordSessionAction(activity: string, a: Action)
      modifies this
      ensures View() == SessionAction(old(View()), activity, a)
    {
      var number := |graph.steps| + 1;
      graph := graph.(steps := graph.steps + [Step(OfSession(number), FromActivity(activity), a, None)]);
      loop := loop.(pending := Some(|graph.steps| - 1));
      if a.kind == Swipe {
        counters := counters.(scrolls := counters.scrolls + 1, scrollAttempts := counters.scrollAttempts + 1);
      }
    }

    /** The pending step is blamed for leaving the target. */
    method Blame(foreground: string)
      modifies this`graph, this`cover, this`counters
      ensures View() == BlameStep(old(View()), foreground)
    {
      if loop.pending.None? || loop.pending.value >= |graph.steps| { return; }
      var pending := loop.pending.value;
      var step := graph.steps[pending];
      if step.from.FromPage? && step.from.fingerprint in graph.nodes {
        BlockEdge(graph.nodes[step.from.fingerprint].semantic, Keyed(step.action.Key()));
      }
      graph := graph.(steps := graph.steps[pending := step.(destination := Some("external:" + foreground))]);
      counters := counters.(external := counters.external + 1);
    }

    method DismissForeign(foreground: string, ok: bool)
      modifies this`graph, this`cover, this`counters, this`loop, this`detours
      ensures View() == LeaveForeign(old(View()), foreground, ok)
    {
      var visits := Lookup(detours.externalAttempts, foreground);
      detours := detours.(externalAttempts := detours.externalAttempts[foreground := visits + 1]);
      Blame(foreground);
      counters := counters.(recoveries := counters.recoveries + 1);
      if ok { loop := loop.(pending := None, exhaustedPage := "", exhaustedCaptures := 0); }
    }

    method RecoverOffTarget(foreground: string, home: bool, now: int, elapsed: bool, ok: bool)
      modifies this
      ensures View() == LeaveTarget(old(View()), foreground, home, now, elapsed, ok)
    {
      if home {
        if now < detours.homeResumeAfter { return; }
        detours := detours.(homeResumeAfter := now + HOME_RESUME_COOLDOWN);
        if !ok { return; }
        loop := loop.(pending := None);
        counters := counters.(recoveries := counters.recoveries + 1);
        return;
      }
      if loop.pending.Some? && loop.pending.value < |graph.steps| && graph.steps[loop.pending.value].action.backtrack {
        if !ok { return; }
        loop := loop.(pending := None, exhaustedPage := "", exhaustedCaptures := 0);
        counters := counters.(recoveries := counters.recoveries + 1);
        return;
      }
      if Lookup(detours.externalAttempts, foreground) >= MAX_EXTERNAL {
        if elapsed || !ok { return; }
        counters := counters.(recoveries := counters.recoveries + 1);
        detours := detours.(externalAttempts := map[], escapeActivity := "", escapeAttempts := 0);
        loop := loop.(pending := None, exhaustedPage := "", exhaustedCaptures := 0);
        return;
      }
      DismissForeign(foreground, ok);
    }

    /** A surface handed over to another app is left by going back. */
    method LeaveHandoff(ok: bool)
      modifies this`cover, this`counters
      ensures View() == Apply(old(View()), config, Handoff(ok))
    {
      BlockPendingTap();
      if ok { counters := counters.(recoveries := counters.recoveries + 1); }
    }

    method BlockPendingTap()
      modifies this`cover, this`counters
      ensures View() == M.BlockPendingTap(old(View()))
    {
      if loop.pending.None? || loop.pending.value >= |graph.steps| { return; }
      var step := graph.steps[loop.pending.value];
      if step.action.kind != Tap || step.action.IsVisibleBackControl() { return; }
      BlockEdge(SemanticOf(graph, step.from), Keyed(step.action.Key()));
    }

    /** One turn of the loop on a stable page. */
    method VisitPage(page: Page, advice: Advice, outcome: Outcome)
      requires cycles.Valid()
      modifies this, cycles
      ensures cycles.Valid() && View() == Apply(old(View()), config, Visit(page, advice, outcome))
    {
      RecordPage(page, advice.now);
      if page.fingerprint in graph.nodes {
        var semantic := graph.nodes[page.fingerprint].semantic;
        var choice := ChooseAction(page, advice);
        if choice.Take? {
          log := log + [Logged(page.activity, semantic, choice.action, choice.path)];
          ExecuteChosen(page, choice.action, choice.path, advice, outcome);
        }
      }
    }
  }

  method Keep(actions: seq<Action>, keep: Action -> bool) returns (kept: seq<Action>)
    ensures kept == Filter(actions, keep)
  {
    kept := [];
    for i := 0 to |actions|
      invariant kept == Filter(actions[..i], keep)
    {
      assert actions[..i + 1][..i] == actions[..i];
      if keep(actions[i]) {
        kept := kept + [actions[i]];
      }
    }
    assert actions[..|actions|] == actions;
  }

  method SelectAction(node: Node, config: Config, excluded: Action -> bool, rank: Action -> int)
    returns (r: Option<Action>)
    ensures r == Select(node, config, excluded, rank)
  {
    var candidates := Keep(node.actions, Candidates(node, config, excluded));
    if config.recoverPopups {
      var recovery := Keep(candidates, IsRecovery);
      if |recovery| > 0 {
        candidates := recovery;
      }
    }
    if node.nonScroll >= SELECTIONS_BEFORE_SCROLL {
      var scrolls := Keep(candidates, IsSwipe);
      if |scrolls| > 0 {
        candidates := scrolls;
      }
    }
    if |candidates| == 0 { return None; }
    var best := First(candidates, rank);
    return Some(best);
  }

  /** The first of the candidates in the order of their ranks. */
  method First(candidates: seq<Action>, rank: Action -> int) returns (best: Action)
    requires candidates != []
    ensures best == LeastRanked(candidates, rank)
  {
    best := candidates[0];
    for i := 1 to |candidates|
      invariant best == LeastRanked(candidates[..i], rank)
    {
      assert candidates[..i + 1][..i] == candidates[..i];
      if rank(candidates[i]) < rank(best) {
        best := candidates[i];
      }
    }
    assert candidates[..|candidates|] == candidates;
  }

  method FindVisibleBack(actions: seq<Action>) returns (r: Option<Action>)
    ensures r == VisibleBack(actions)
  {
    for i := 0 to |actions|
      invariant VisibleBack(actions) == VisibleBack(actions[i..])
    {
      if actions[i].IsVisibleBackControl() { return Some(actions[i]); }
      assert actions[i..][1..] == actions[i + 1..];
    }
    return None;
  }
}
