/** What executing a chosen action leaves behind, and what the action counters
    say of a whole session. */
module ExplorationExecution {
  import opened Options
  import opened ExplorationTypes
  import opened ExplorationModel
  import opened ExplorationProofs
  import opened ExplorationSettling
  import opened ExplorationTheorems

  // ----- One execution -------------------------------------------------------

  /** One more try: a swipe is used up by its third, anything else by its first;
      a swipe resets the count of other selections. */
  predicate TriedOnce(before: Node, after: Node, a: Action) {
    var n := if a.id in before.attempts then before.attempts[a.id] else 0;
    && after.actions == before.actions && after.activity == before.activity && after.semantic == before.semantic
    && after.attempts == before.attempts[a.id := n + 1]
    && after.tried == (if a.kind == Swipe && n < 2 then before.tried else before.tried + {a.id})
    && after.nonScroll == if a.kind == Swipe then 0 else before.nonScroll + 1
  }

  function One(b: bool): nat { if b then 1 else 0 }

  /** The attempt has a number of its own, and the page counts as new again. */
  function Attempted(l: Loop): Loop {
    l.(attemptNumber := l.attemptNumber + 1, exhaustedPage := "", exhaustedCaptures := 0)
  }

  /** An attempt that does not reach the device is counted and leaves a receipt
      that says how it failed, unless the claim was refused. */
  lemma FailedAttemptLeaves(s: State, page: Page, a: Action, path: Path, advice: Advice, outcome: Outcome)
    requires ReceiptInv(s) && outcome != Done
    ensures var t, id := Execute(s, page, a, path, advice, outcome), Ordinary(s.loop.attemptNumber + 1);
            && t == s.(loop := Attempted(s.loop), receipts := t.receipts,
                       counters := s.counters.(staleActions :=
                         s.counters.staleActions + if outcome == StaleObservation then 1 else 0))
            && (outcome == ReceiptRefused ==> t.receipts == s.receipts)
            && (outcome == StaleObservation ==> t.receipts == s.receipts[id := Rejected])
            && (outcome == InputFailed ==> t.receipts == s.receipts[id := Failed])
  {
  }

  /** An executed action is the new pending step, from this page and under its
      own receipt; unless it goes back, its page has one more try. */
  lemma ExecutionLeaves(s: State, page: Page, a: Action, path: Path, advice: Advice)
    requires ReceiptInv(s) && page.fingerprint in s.graph.nodes
    ensures var t, id, g := Execute(s, page, a, path, advice, Done), Ordinary(s.loop.attemptNumber + 1), s.graph;
            && t.receipts == s.receipts[id := Executed]
            && t.graph == g.(nodes := t.graph.nodes, steps := g.steps + [Step(id, FromPage(page.fingerprint), a, None)])
            && t.graph.nodes.Keys == g.nodes.Keys
            && (forall fp :: fp in g.nodes && (fp != page.fingerprint || a.backtrack) ==> t.graph.nodes[fp] == g.nodes[fp])
            && (!a.backtrack ==> TriedOnce(g.nodes[page.fingerprint], t.graph.nodes[page.fingerprint], a))
            && t.cover == s.cover.(inputTried :=
                 s.cover.inputTried + if a.kind == Input && !a.backtrack then {(page.activity, a.id)} else {})
            && t.counters == s.counters.(
                 backtracks := s.counters.backtracks + One(a.backtrack), inputs := s.counters.inputs + One(a.kind == Input),
                 scrolls := s.counters.scrolls + One(a.kind == Swipe),
                 scrollAttempts := s.counters.scrollAttempts + One(a.kind == Swipe),
                 recoveries := s.counters.recoveries + One(a.kind == Tap && a.recovery))
            && t.log == s.log && t.detours == s.detours && t.trace == s.trace
            && t.roundSteps == s.roundSteps + if path == Coverage then 1 else 0
  {
    assert s.cover.inputTried + {} == s.cover.inputTried;
  }

  lemma ExecutionLoops(s: State, page: Page, a: Action, path: Path, advice: Advice)
    requires ReceiptInv(s)
    ensures var t := Execute(s, page, a, path, advice, Done);
            var known := advice.languageSurface && advice.preferred.Some? && advice.preferred.value.Key() == a.Key();
            t.loop == Attempted(s.loop).(
              pending := Some(|s.graph.steps|),
              accepted := if known then s.loop.accepted[page.activity := a.Key()] else s.loop.accepted)
  {
  }

  // ----- A whole session -----------------------------------------------------

  /** What the action counters count. */
  datatype Acts = Acts(steps: nat, backs: nat, swipes: nat, attempts: nat, inputs: nat, stale: nat, special: nat)

  ghost function ActsOfState(s: State): Acts {
    Acts(|s.graph.steps|, s.counters.backtracks, s.counters.scrolls, s.counters.scrollAttempts,
         s.counters.inputs, s.counters.staleActions, s.counters.specialActions)
  }

  function Performed(t: Acts, a: Action): Acts {
    t.(steps := t.steps + 1, backs := t.backs + One(a.backtrack), swipes := t.swipes + One(a.kind == Swipe),
       attempts := t.attempts + One(a.kind == Swipe), inputs := t.inputs + One(a.kind == Input))
  }

  /** What one step of the engine adds, told from what it chose and how it went. */
  ghost function Perform(s: State, config: Config, e: Event, t: Acts): Acts {
    match e
    case Visit(page, advice, outcome) =>
      var s1 := RecordPage(s, page, advice.now);
      if page.fingerprint !in s1.graph.nodes then t
      else
        var choice := Choose(s1, config, page, advice).1;
        if !choice.Take? then t
        else if outcome == Done then Performed(t, choice.action)
        else t.(stale := t.stale + One(outcome == StaleObservation))
    case SpecialScene(found, onTarget, activity, now, elapsed, outcome) =>
      if found.None? then t
      else
        var s1 := s.(detours := EnterScene(s.detours, found, onTarget));
        if !DecideScene(s1, config, found.value, activity, now, elapsed).1.SceneAct? then t
        else if outcome == Done then t.(steps := t.steps + 1, special := t.special + 1)
        else t.(stale := t.stale + One(outcome == StaleObservation))
    case SessionStep(_, a) => 
      t.(steps := t.steps + 1, swipes := t.swipes + One(a.kind == Swipe), attempts := t.attempts + One(a.kind == Swipe))
    case _ => t
  }

  ghost function PerformAll(s: State, config: Config, events: seq<Event>, t: Acts): Acts
    decreases |events|
  {
    if events == [] then t
    else PerformAll(Apply(s, config, events[0]), config, events[1..], Perform(s, config, events[0], t))
  }

  lemma RecordingPerformsNothing(s: State, page: Page, now: int)
    requires PendingInv(s)
    ensures ActsOfState(RecordPage(s, page, now)) == ActsOfState(s)
  {
    if Settles(s) {
      RecordPageSettles(s, page, now);
      RecordPageLinks(s, page, now);
    } else {
      RecordPageArrives(s, page, now);
    }
  }

  lemma VisitPerforms(s: State, config: Config, e: Event)
    requires Inv(s, config) && WellFormed(e) && e.Visit?
    ensures ActsOfState(Apply(s, config, e)) == Perform(s, config, e, ActsOfState(s))
  {
    var s1 := RecordPage(s, e.page, e.advice.now);
    RecordingPerformsNothing(s, e.page, e.advice.now);
    RecordPageKeepsInv(s, config, e.page, e.advice.now);
    ChoosingPerforms(s1, config, e.page, e.advice, e.outcome);
  }

  lemma ChoosingPerforms(s: State, config: Config, page: Page, advice: Advice, outcome: Outcome)
    requires ReceiptInv(s) && page.fingerprint in s.graph.nodes && WellFormedAdvice(advice)
    ensures var choice := Choose(s, config, page, advice).1;
            ActsOfState(ChooseAndExecute(s, config, page, advice, outcome))
            == if !choice.Take? then ActsOfState(s)
               else if outcome == Done then Performed(ActsOfState(s), choice.action)
               else ActsOfState(s).(stale := s.counters.staleActions + One(outcome == StaleObservation))
  {
    var (s1, choice) := Choose(s, config, page, advice);
    ChooseFits(s, config, page, advice);
    var s2 := LogChoice(s1, page, s.graph.nodes[page.fingerprint].semantic, choice);
    if choice.Take? {
      assert ReceiptInv(s2) && ActsOfState(s2) == ActsOfState(s);
      ExecutingPerforms(s2, page, choice.action, choice.path, advice, outcome);
    }
  }

  lemma ExecutingPerforms(s: State, page: Page, a: Action, path: Path, advice: Advice, outcome: Outcome)
    requires ReceiptInv(s)
    ensures ActsOfState(Execute(s, page, a, path, advice, outcome))
         == if outcome == Done then Performed(ActsOfState(s), a)
            else ActsOfState(s).(stale := s.counters.staleActions + One(outcome == StaleObservation))
  {
  }

  lemma DecidingPerformsNothing(s: State, t: State)
    requires ReceiptInv(s) && Decides(s, t)
    ensures ReceiptInv(t) && ActsOfState(t) == ActsOfState(s)
  {
    BlockPendingBlocks(s);
  }

  lemma ScenePerforms(s: State, config: Config, e: Event)
    requires ReceiptInv(s) && e.SpecialScene?
    ensures ActsOfState(Apply(s, config, e)) == Perform(s, config, e, ActsOfState(s))
  {
    if e.found.Some? {
      var s1 := s.(detours := EnterScene(s.detours, e.found, e.onTarget));
      var (s2, signal) := DecideScene(s1, config, e.found.value, e.activity, e.now, e.elapsed);
      DecideSceneDecides(s1, config, e.found.value, e.activity, e.now, e.elapsed);
      DecidingPerformsNothing(s1, s2);
      if signal.SceneAct? { ActingPerforms(s2, signal.key, e.found.value.fingerprint, signal.action, e.outcome); }
    }
  }

  lemma ActingPerforms(s: State, key: SceneKey, fingerprint: string, a: Action, outcome: Outcome)
    requires ReceiptInv(s)
    ensures ActsOfState(HandleSpecial(s, key, fingerprint, a, outcome))
         == if outcome == Done
            then ActsOfState(s).(steps := |s.graph.steps| + 1, special := s.counters.specialActions + 1)
            else ActsOfState(s).(stale := s.counters.staleActions + One(outcome == StaleObservation))
  {
  }

  lemma LeavingPerformsNothing(s: State, foreground: string, home: bool, now: int, elapsed: bool, ok: bool)
    ensures ActsOfState(LeaveTarget(s, foreground, home, now, elapsed, ok)) == ActsOfState(s)
  {
  }

  lemma StepPerforms(s: State, config: Config, e: Event)
    requires Inv(s, config) && WellFormed(e)
    ensures ActsOfState(Apply(s, config, e)) == Perform(s, config, e, ActsOfState(s))
  {
    match e
    case LastPage(page, now) => RecordingPerformsNothing(s, page, now);
    case Visit(_, _, _) => VisitPerforms(s, config, e);
    case SpecialScene(_, _, _, _, _, _) => ScenePerforms(s, config, e);
    case SessionStep(_, _) =>
    case OffTarget(foreground, home, now, elapsed, ok) => LeavingPerformsNothing(s, foreground, home, now, elapsed, ok);
    case Handoff(_) => BlockPendingBlocks(s);
    case Restarting(activity, coldAllowed, now, ok) => RestartIsMinor(s, activity, coldAllowed, now, ok);
  }

  lemma {:induction false} ActsFrom(s: State, config: Config, events: seq<Event>)
    requires Inv(s, config) && WellFormedRun(events)
    ensures ActsOfState(Run(s, config, events)) == PerformAll(s, config, events, ActsOfState(s))
    decreases |events|
  {
    if events != [] {
      StepPerforms(s, config, events[0]);
      StepKeepsInv(s, config, events[0]);
      ActsFrom(Apply(s, config, events[0]), config, events[1..]);
    }
  }

  /** In every session the steps are the actions that reached the device, and the
      counters of returns, swipes, inputs, stale and special actions count
      exactly those. */
  lemma ActionsAreCounted(config: Config, events: seq<Event>)
    requires WellFormedRun(events)
    ensures ActsOfState(Run(Initial, config, events)) == PerformAll(Initial, config, events, Acts(0, 0, 0, 0, 0, 0, 0))
  {
    InitialInv(config);
    ActsFrom(Initial, config, events);
  }
}
