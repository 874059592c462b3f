/** The session-wide claims, for every sequence of engine steps. */
module ExplorationTheorems {
  import opened Options
  import opened ExplorationTypes
  import opened ExplorationModel
  import opened ExplorationProofs
  import opened ExplorationSettling

  ghost predicate WellFormedRun(events: seq<Event>) {
    forall i :: 0 <= i < |events| ==> WellFormed(events[i])
  }

  lemma InitialInv(config: Config)
    ensures Inv(Initial, config)
  {
  }

  /** Counters. */
  lemma CountersAddUp(config: Config, events: seq<Event>)
    requires WellFormedRun(events)
    ensures var s := Run(Initial, config, events);
            && |s.graph.edges| == s.counters.effective + s.counters.ineffective <= |s.graph.steps|
            && s.counters.scrollProgress + s.counters.scrollStalls <= s.counters.scrollAttempts
            && s.counters.backtracks <= config.maxBacktracks
            && s.counters.blockedEdges == |s.cover.blocked|
  {
    InitialInv(config);
    RunKeepsInv(Initial, config, events);
  }

  /** Receipts: step ids are pairwise distinct, and every step that is not of
      the session itself carries an executed receipt. */
  lemma StepsAreAccountedFor(config: Config, events: seq<Event>)
    requires WellFormedRun(events)
    ensures var s := Run(Initial, config, events);
            && (forall i, j :: 0 <= i < j < |s.graph.steps| ==> s.graph.steps[i].id != s.graph.steps[j].id)
            && (forall i :: 0 <= i < |s.graph.steps| && s.graph.steps[i].id.Ordinary? ==>
                  s.graph.steps[i].id in s.receipts && s.receipts[s.graph.steps[i].id] == Executed)
  {
    InitialInv(config);
    RunKeepsInv(Initial, config, events);
  }

  predicate SameTap(l: Logged, m: Logged) {
    l.action.kind == Tap && m.action.kind == Tap && l.activity == m.activity && l.action.Key() == m.action.Key()
  }

  predicate EscapeTap(l: Logged) { l.path == Escape && l.action.IsVisibleBackControl() }

  /** No tap is chosen twice in one activity, whatever rounds and captures come
      between, except a visible back control taken to escape. */
  lemma NoTapIsChosenTwice(config: Config, events: seq<Event>)
    requires WellFormedRun(events)
    ensures var log := Run(Initial, config, events).log;
            forall i, j :: 0 <= i < j < |log| && SameTap(log[i], log[j]) ==> EscapeTap(log[i]) || EscapeTap(log[j])
  {
    InitialInv(config);
    RunKeepsInv(Initial, config, events);
  }

  /** A selection round executes at most taps + inputs + 3 * swipes coverage
      actions over the pages discovered so far. */
  lemma RoundIsBounded(config: Config, events: seq<Event>)
    requires WellFormedRun(events)
    ensures var s := Run(Initial, config, events);
            Covers(s.graph.nodes, s.graph.discovered)
            && s.roundSteps <= TotalAllowance(s.graph.nodes, s.graph.discovered)
  {
    InitialInv(config);
    RunKeepsInv(Initial, config, events);
    var s := Run(Initial, config, events);
    SpentWithinAllowance(s.graph.nodes, s.graph.discovered);
  }

  // ----- Growth --------------------------------------------------------------

  lemma SettleGrows(s: State, pending: nat, page: Page, isNew: bool, now: int)
    requires pending < |s.graph.steps| && (isNew ==> page.fingerprint !in s.graph.parents)
    ensures Grows(s, SettleStep(s, pending, page, isNew, now))
  {
    SettleFrames(s, pending, page, isNew, now);
    SettleCloses(s, pending, page, isNew, now);
  }

  lemma ArriveGrows(s: State, page: Page)
    ensures Grows(s, Discover(NoteSemantic(s, page.semantic), page))
  {
  }

  lemma RecordPageGrows(s: State, page: Page, now: int)
    requires GraphInv(s.graph) && PendingInv(s)
    ensures Grows(s, RecordPage(s, page, now))
  {
    ArriveFrames(s, page);
    ArriveGrows(s, page);
    var s1 := Discover(NoteSemantic(s, page.semantic), page);
    if s1.loop.pending.Some? {
      var i, isNew := s1.loop.pending.value, page.fingerprint !in s.graph.nodes;
      SettleGrows(s1, i, page, isNew, now);
      GrowsTransitive(s, s1, SettleStep(s1, i, page, isNew, now));
    }
  }

  lemma ChooseGrows(s: State, config: Config, page: Page, advice: Advice)
    requires page.fingerprint in s.graph.nodes && WellFormedAdvice(advice)
    ensures var (s1, choice) := Choose(s, config, page, advice);
            Grows(s, LogChoice(s1, page, s.graph.nodes[page.fingerprint].semantic, choice))
  {
    ChooseFits(s, config, page, advice);
  }

  lemma ExecuteGrows(s: State, page: Page, a: Action, path: Path, advice: Advice, outcome: Outcome)
    ensures Grows(s, Execute(s, page, a, path, advice, outcome))
    ensures Execute(s, page, a, path, advice, outcome).log == s.log
  {
  }

  lemma VisitGrows(s: State, config: Config, page: Page, advice: Advice, outcome: Outcome)
    requires page.fingerprint in s.graph.nodes && WellFormedAdvice(advice)
    ensures Grows(s, ChooseAndExecute(s, config, page, advice, outcome))
  {
    var (s1, choice) := Choose(s, config, page, advice);
    var s2 := LogChoice(s1, page, s.graph.nodes[page.fingerprint].semantic, choice);
    ChooseGrows(s, config, page, advice);
    if choice.Take? {
      ExecuteGrows(s2, page, choice.action, choice.path, advice, outcome);
      GrowsTransitive(s, s2, Execute(s2, page, choice.action, choice.path, advice, outcome));
    }
  }

  /** A step that adds to the list of steps and to the blocked edges at most. */
  ghost predicate Quiet(s: State, t: State) {
    && t.graph == s.graph.(steps := t.graph.steps) && |s.graph.steps| <= |t.graph.steps|
    && t.log == s.log
    && t.cover == s.cover.(blocked := t.cover.blocked) && s.cover.blocked <= t.cover.blocked
  }

  lemma QuietTransitive(s: State, t: State, u: State)
    requires Quiet(s, t) && Quiet(t, u)
    ensures Quiet(s, u)
  {
  }

  lemma SceneIsQuiet(s: State, config: Config, found: Option<Scene>, onTarget: bool, activity: string,
                     now: int, elapsed: bool, outcome: Outcome)
    ensures Quiet(s, SceneStep(s, config, found, onTarget, activity, now, elapsed, outcome))
  {
    var s1 := s.(detours := EnterScene(s.detours, found, onTarget));
    if found.Some? {
      var (s2, signal) := DecideScene(s1, config, found.value, activity, now, elapsed);
      DecideSceneDecides(s1, config, found.value, activity, now, elapsed);
      DecidesIsQuiet(s1, s2);
      if signal.SceneAct? {
        SpecialIsQuiet(s2, signal.key, found.value.fingerprint, signal.action, outcome);
        QuietTransitive(s1, s2, HandleSpecial(s2, signal.key, found.value.fingerprint, signal.action, outcome));
      }
    }
  }

  lemma DecidesIsQuiet(s: State, t: State)
    requires Decides(s, t)
    ensures Quiet(s, t)
  {
    BlockPendingBlocks(s);
  }

  lemma SpecialIsQuiet(s: State, key: SceneKey, fingerprint: string, a: Action, outcome: Outcome)
    ensures Quiet(s, HandleSpecial(s, key, fingerprint, a, outcome))
  {
  }

  lemma LeavingIsQuiet(s: State, foreground: string, home: bool, now: int, elapsed: bool, ok: bool)
    ensures Quiet(s, LeaveTarget(s, foreground, home, now, elapsed, ok))
  {
    var t := LeaveTarget(s, foreground, home, now, elapsed, ok);
    LeavingDrops(s, foreground, home, now, elapsed, ok);
    if !Minor(s, t) && !Minor(DropPending(s), t) {
      BlameIsQuiet(CountVisit(s, foreground), foreground);
      QuietTransitive(s, CountVisit(s, foreground), BlameStep(CountVisit(s, foreground), foreground));
    }
  }

  lemma BlameIsQuiet(s: State, foreign: string)
    ensures Quiet(s, BlameStep(s, foreign))
  {
    if s.loop.pending.Some? && s.loop.pending.value < |s.graph.steps| {
      var s1 := BlockSource(s, s.graph.steps[s.loop.pending.value]);
      assert MoreBlocked(s, s1);
    }
  }

  lemma StepIsQuiet(s: State, config: Config, e: Event)
    requires !e.Visit? && !e.LastPage?
    ensures Quiet(s, Apply(s, config, e))
  {
    match e
    case SpecialScene(found, onTarget, activity, now, elapsed, outcome) =>
      SceneIsQuiet(s, config, found, onTarget, activity, now, elapsed, outcome);
    case SessionStep(_, _) =>
    case OffTarget(foreground, home, now, elapsed, ok) => LeavingIsQuiet(s, foreground, home, now, elapsed, ok);
    case Handoff(_) => BlockPendingBlocks(s);
    case Restarting(activity, coldAllowed, now, ok) => RestartIsMinor(s, activity, coldAllowed, now, ok);
  }

  lemma QuietStepGrows(s: State, config: Config, e: Event)
    requires !e.Visit? && !e.LastPage?
    ensures Grows(s, Apply(s, config, e)) && Apply(s, config, e).log == s.log
  {
    StepIsQuiet(s, config, e);
  }

  lemma StepGrows(s: State, config: Config, e: Event)
    requires Inv(s, config) && WellFormed(e)
    ensures Grows(s, Apply(s, config, e))
  {
    match e
    case LastPage(page, now) => RecordPageGrows(s, page, now);
    case Visit(page, advice, outcome) =>
      var s1 := RecordPage(s, page, advice.now);
      RecordPageKeepsInv(s, config, page, advice.now);
      RecordPageGrows(s, page, advice.now);
      VisitGrows(s1, config, page, advice, outcome);
      GrowsTransitive(s, s1, ChooseAndExecute(s1, config, page, advice, outcome));
    case _ => QuietStepGrows(s, config, e);
  }

  /** Blocked edges stay blocked, chosen taps stay marked, and a page keeps the
      parent it was given, for the rest of the session. */
  lemma {:induction false} SessionGrows(s: State, config: Config, events: seq<Event>)
    requires Inv(s, config) && WellFormedRun(events)
    ensures Grows(s, Run(s, config, events))
    decreases |events|
  {
    if events != [] {
      var t := Apply(s, config, events[0]);
      StepGrows(s, config, events[0]);
      StepKeepsInv(s, config, events[0]);
      SessionGrows(t, config, events[1..]);
      GrowsTransitive(s, t, Run(t, config, events[1..]));
    }
  }

  // ----- Effects -------------------------------------------------------------

  /** Settled steps that changed the semantic state, that did not, and that the
      cycle guard reported. */
  datatype Tally = Tally(moved: nat, unmoved: nat, cycles: nat)

  ghost function Judge(s: State, e: Event, t: Tally): Tally {
    if !(e.LastPage? || e.Visit?) || !Settles(s) then t
    else
      var cycles := if VerdictAfter(s, e.page) > 0 then t.cycles + 1 else t.cycles;
      if Unmoved(s, e.page) then Tally(t.moved, t.unmoved + 1, cycles) else Tally(t.moved + 1, t.unmoved, cycles)
  }

  ghost function JudgeAll(s: State, config: Config, events: seq<Event>, t: Tally): Tally
    decreases |events|
  {
    if events == [] then t else JudgeAll(Apply(s, config, events[0]), config, events[1..], Judge(s, events[0], t))
  }

  ghost function TallyOf(c: Counters): Tally { Tally(c.effective, c.ineffective, c.cycleDetections) }

  lemma RecordingIsJudged(s: State, e: Event, now: int)
    requires PendingInv(s) && (e.LastPage? || e.Visit?)
    ensures TallyOf(RecordPage(s, e.page, now).counters) == Judge(s, e, TallyOf(s.counters))
  {
    if Settles(s) { RecordPageSettles(s, e.page, now); } else { RecordPageArrives(s, e.page, now); }
  }

  lemma ChoosingIsNotJudged(s: State, config: Config, page: Page, advice: Advice, outcome: Outcome)
    requires page.fingerprint in s.graph.nodes && WellFormedAdvice(advice)
    ensures TallyOf(ChooseAndExecute(s, config, page, advice, outcome).counters) == TallyOf(s.counters)
  {
    ChooseFits(s, config, page, advice);
  }

  lemma SceneIsNotJudged(s: State, config: Config, e: Event)
    requires e.SpecialScene?
    ensures TallyOf(Apply(s, config, e).counters) == TallyOf(s.counters)
  {
    var s1 := s.(detours := EnterScene(s.detours, e.found, e.onTarget));
    if e.found.Some? {
      var (s2, signal) := DecideScene(s1, config, e.found.value, e.activity, e.now, e.elapsed);
      DecideSceneDecides(s1, config, e.found.value, e.activity, e.now, e.elapsed);
      DecisionIsNotJudged(s1, s2);
    }
  }

  lemma DecisionIsNotJudged(s: State, t: State)
    requires Decides(s, t)
    ensures TallyOf(t.counters) == TallyOf(s.counters)
  {
    BlockPendingBlocks(s);
  }

  lemma LeavingIsNotJudged(s: State, foreground: string, home: bool, now: int, elapsed: bool, ok: bool)
    ensures TallyOf(LeaveTarget(s, foreground, home, now, elapsed, ok).counters) == TallyOf(s.counters)
  {
  }

  lemma StepIsJudged(s: State, config: Config, e: Event)
    requires Inv(s, config) && WellFormed(e)
    ensures TallyOf(Apply(s, config, e).counters) == Judge(s, e, TallyOf(s.counters))
  {
    match e
    case LastPage(page, now) => RecordingIsJudged(s, e, now);
    case Visit(page, advice, outcome) =>
      RecordingIsJudged(s, e, advice.now);
      RecordPageKeepsInv(s, config, page, advice.now);
      ChoosingIsNotJudged(RecordPage(s, page, advice.now), config, page, advice, outcome);
    case SpecialScene(_, _, _, _, _, _) => SceneIsNotJudged(s, config, e);
    case OffTarget(foreground, home, now, elapsed, ok) => LeavingIsNotJudged(s, foreground, home, now, elapsed, ok);
    case Handoff(_) => BlockPendingBlocks(s);
    case Restarting(activity, coldAllowed, now, ok) => RestartIsMinor(s, activity, coldAllowed, now, ok);
    case SessionStep(_, _) =>
  }

  lemma {:induction false} EffectsFrom(s: State, config: Config, events: seq<Event>)
    requires Inv(s, config) && WellFormedRun(events)
    ensures TallyOf(Run(s, config, events).counters) == JudgeAll(s, config, events, TallyOf(s.counters))
    decreases |events|
  {
    if events != [] {
      StepIsJudged(s, config, events[0]);
      StepKeepsInv(s, config, events[0]);
      EffectsFrom(Apply(s, config, events[0]), config, events[1..]);
    }
  }

  /** In every session the effective and the ineffective actions are the settled
      steps that did and did not change the semantic state, and the detected
      cycles are the steps whose settling the guard reported. */
  lemma EffectsAreCounted(config: Config, events: seq<Event>)
    requires WellFormedRun(events)
    ensures TallyOf(Run(Initial, config, events).counters) == JudgeAll(Initial, config, events, Tally(0, 0, 0))
  {
    InitialInv(config);
    EffectsFrom(Initial, config, events);
  }

  // ----- Blocked edges -------------------------------------------------------

  /** None of these choices is a selection of that edge. */
  ghost predicate Avoids(log: seq<Logged>, edge: EdgeKey) {
    forall i :: 0 <= i < |log| && log[i].path == Coverage ==> (log[i].semantic, Keyed(log[i].action.Key())) != edge
  }

  lemma VisitAvoids(s: State, config: Config, page: Page, advice: Advice, outcome: Outcome, edge: EdgeKey)
    requires page.fingerprint in s.graph.nodes && WellFormedAdvice(advice) && edge in s.cover.blocked
    ensures var t := ChooseAndExecute(s, config, page, advice, outcome);
            s.log <= t.log && Avoids(t.log[|s.log|..], edge)
  {
    var (s1, choice) := Choose(s, config, page, advice);
    ChooseFits(s, config, page, advice);
    if choice.Take? {
      var s2 := LogChoice(s1, page, s.graph.nodes[page.fingerprint].semantic, choice);
      ExecuteGrows(s2, page, choice.action, choice.path, advice, outcome);
    }
  }

  lemma StepAvoids(s: State, config: Config, e: Event, edge: EdgeKey)
    requires Inv(s, config) && WellFormed(e) && edge in s.cover.blocked
    ensures s.log <= Apply(s, config, e).log && Avoids(Apply(s, config, e).log[|s.log|..], edge)
  {
    match e
    case LastPage(page, now) => RecordPageFrames(s, page, now);
    case Visit(page, advice, outcome) =>
      RecordPageFrames(s, page, advice.now);
      RecordPageKeepsInv(s, config, page, advice.now);
      VisitAvoids(RecordPage(s, page, advice.now), config, page, advice, outcome, edge);
    case _ => QuietStepGrows(s, config, e);
  }

  lemma AvoidsConcat(a: seq<Logged>, b: seq<Logged>, c: seq<Logged>, edge: EdgeKey)
    requires a <= b <= c && Avoids(b[|a|..], edge) && Avoids(c[|b|..], edge)
    ensures a <= c && Avoids(c[|a|..], edge)
  {
    var late := c[|a|..];
    forall i | 0 <= i < |late| && late[i].path == Coverage
      ensures (late[i].semantic, Keyed(late[i].action.Key())) != edge
    {
      if i < |b| - |a| {
        assert late[i] == b[|a|..][i];
      } else {
        assert late[i] == c[|b|..][i - (|b| - |a|)];
      }
    }
  }

  /** Once an edge is blocked, no selection pass takes it again. */
  lemma {:induction false} BlockedEdgeIsNeverSelected(s: State, config: Config, events: seq<Event>, edge: EdgeKey)
    requires Inv(s, config) && WellFormedRun(events) && edge in s.cover.blocked
    ensures var t := Run(s, config, events); s.log <= t.log && Avoids(t.log[|s.log|..], edge)
    decreases |events|
  {
    if events != [] {
      var t := Apply(s, config, events[0]);
      StepGrows(s, config, events[0]);
      StepKeepsInv(s, config, events[0]);
      StepAvoids(s, config, events[0], edge);
      BlockedEdgeIsNeverSelected(t, config, events[1..], edge);
      AvoidsConcat(s.log, t.log, Run(t, config, events[1..]).log, edge);
    }
  }

  /** The step that records the page blocks what the guard's verdict names, and
      its own choice already avoids it. */
  lemma ReportingStepBlocks(s: State, config: Config, e: Event, edge: EdgeKey)
    requires Inv(s, config) && WellFormed(e) && (e.LastPage? || e.Visit?) && edge in Reported(s, e.page)
    ensures var t := Apply(s, config, e);
            edge in t.cover.blocked && s.log <= t.log && Avoids(t.log[|s.log|..], edge)
  {
    var now := if e.Visit? then e.advice.now else e.now;
    var u := RecordPage(s, e.page, now);
    RecordingBlocks(s, e.page, now, edge);
    RecordPageKeepsInv(s, config, e.page, now);
    if e.Visit? {
      VisitAvoids(u, config, e.page, e.advice, e.outcome, edge);
      VisitGrows(u, config, e.page, e.advice, e.outcome);
    }
  }

  lemma RecordingBlocks(s: State, page: Page, now: int, edge: EdgeKey)
    requires PendingInv(s) && edge in Reported(s, page)
    ensures edge in RecordPage(s, page, now).cover.blocked && RecordPage(s, page, now).log == s.log
  {
    RecordPageSettles(s, page, now);
  }

  /** Once the guard has reported a cycle in a session, every edge it named is
      blocked for the rest of the session and never selected again. */
  lemma ReportedCycleStaysBlocked(config: Config, before: seq<Event>, e: Event, after: seq<Event>)
    requires WellFormedRun(before) && WellFormed(e) && (e.LastPage? || e.Visit?) && WellFormedRun(after)
    ensures var s := Run(Initial, config, before);
            var t := Run(Apply(s, config, e), config, after);
            s.log <= t.log && forall edge :: edge in Reported(s, e.page) ==>
                                edge in t.cover.blocked && Avoids(t.log[|s.log|..], edge)
  {
    InitialInv(config);
    RunKeepsInv(Initial, config, before);
    var s := Run(Initial, config, before);
    var u := Apply(s, config, e);
    StepKeepsInv(s, config, e);
    StepGrows(s, config, e);
    SessionGrows(u, config, after);
    forall edge | edge in Reported(s, e.page)
      ensures var t := Run(u, config, after); edge in t.cover.blocked && Avoids(t.log[|s.log|..], edge)
    {
      ReportingStepBlocks(s, config, e, edge);
      BlockedEdgeIsNeverSelected(u, config, after, edge);
      AvoidsConcat(s.log, u.log, Run(u, config, after).log, edge);
    }
  }

  // ----- The way back --------------------------------------------------------

  ghost function Rank(pages: seq<string>, fp: string): (r: nat)
    requires fp in pages
    ensures r < |pages| && pages[r] == fp
  {
    var r :| 0 <= r < |pages| && pages[r] == fp; r
  }

  lemma ParentHasLowerRank(g: Graph, fp: string)
    requires GraphInv(g) && fp in g.parents && g.parents[fp].FromPage?
    ensures g.parents[fp].fingerprint in g.nodes
    ensures fp in g.discovered && g.parents[fp].fingerprint in g.discovered
            && Rank(g.discovered, g.parents[fp].fingerprint) < Rank(g.discovered, fp)
  {
    var i := Rank(g.discovered, fp);
    var parent := g.parents[fp].fingerprint;
    var j :| 0 <= j < i && g.discovered[j] == parent;
    assert g.discovered[Rank(g.discovered, parent)] == parent;
  }

  /** Each page of the chain was discovered before the one it is reached from. */
  ghost predicate Descends(pages: seq<string>, fp: string, chain: seq<string>)
    decreases |chain|
  {
    chain == [] ||
    (fp in pages && chain[0] in pages && Rank(pages, chain[0]) < Rank(pages, fp)
     && Descends(pages, chain[0], chain[1..]))
  }

  /** Following parents until there is none, or until an action of the session
      itself; that this ends is the point of the decreases clause. */
  ghost function Ancestors(g: Graph, fp: string): (chain: seq<string>)
    requires GraphInv(g) && fp in g.nodes
    ensures Descends(g.discovered, fp, chain)
    decreases Rank(g.discovered, fp)
  {
    if fp !in g.parents || g.parents[fp].FromActivity? then []
    else
      ParentHasLowerRank(g, fp);
      var parent := g.parents[fp].fingerprint;
      var chain := [parent] + Ancestors(g, parent);
      assert chain[1..] == Ancestors(g, parent);
      chain
  }

  lemma {:induction false} DescentIsShort(pages: seq<string>, fp: string, chain: seq<string>)
    requires fp in pages && Descends(pages, fp, chain)
    ensures |chain| <= Rank(pages, fp)
    decreases |chain|
  {
    if chain != [] {
      DescentIsShort(pages, chain[0], chain[1..]);
    }
  }

  /** In every session a return action exists for exactly the pages that have a
      parent, and every discovered page has a finite way back. */
  lemma EveryPageHasAWayBack(config: Config, events: seq<Event>, fp: string)
    requires WellFormedRun(events) && fp in Run(Initial, config, events).graph.nodes
    ensures var g := Run(Initial, config, events).graph;
            && GraphInv(g)
            && (fp in g.returnActions <==> fp in g.parents)
            && Descends(g.discovered, fp, Ancestors(g, fp))
            && |Ancestors(g, fp)| < |g.discovered|
  {
    InitialInv(config);
    RunKeepsInv(Initial, config, events);
    var g := Run(Initial, config, events).graph;
    DescentIsShort(g.discovered, fp, Ancestors(g, fp));
  }

  // ----- The way back undoes a step ------------------------------------------

  /** Step i led from the parent of the page to the page, and the return action
      undoes it; it is no longer pending. */
  ghost predicate Leads(s: State, i: nat, fp: string) {
    && fp in s.graph.parents && fp in s.graph.returnActions
    && i < |s.graph.steps| && s.loop.pending != Some(i)
    && var step := s.graph.steps[i];
       && step.from == s.graph.parents[fp] && step.destination == Some(fp) && !step.action.backtrack
       && Reverses(s.graph.returnActions[fp], step.action)
  }

  ghost predicate WaysBack(s: State) {
    forall fp :: fp in s.graph.returnActions ==> exists i :: Leads(s, i, fp)
  }

  /** Links and settled steps stay; what is pending is new, or was, or is dropped. */
  ghost predicate KeepsSteps(s: State, t: State) {
    && t.graph.parents == s.graph.parents && t.graph.returnActions == s.graph.returnActions
    && |s.graph.steps| <= |t.graph.steps|
    && (forall i :: 0 <= i < |s.graph.steps| && s.loop.pending != Some(i) ==> t.graph.steps[i] == s.graph.steps[i])
    && (t.loop.pending == s.loop.pending || t.loop.pending.None? || t.loop.pending.value >= |s.graph.steps|)
  }

  lemma KeepsStepsTransitive(s: State, t: State, u: State)
    requires KeepsSteps(s, t) && KeepsSteps(t, u)
    ensures KeepsSteps(s, u)
  {
  }

  lemma KeptStepsLead(s: State, t: State)
    requires WaysBack(s) && KeepsSteps(s, t)
    ensures WaysBack(t)
  {
    forall fp | fp in t.graph.returnActions ensures exists i :: Leads(t, i, fp) {
      var i :| Leads(s, i, fp);
      assert Leads(t, i, fp);
    }
  }

  /** The step that is settled leads to the page if it is new; all others still
      lead where they led. */
  lemma SettlingLeads(s: State, t: State, page: Page)
    requires WaysBack(s) && Settles(s) && t.loop.pending.None?
    requires t.graph.steps == s.graph.steps[s.loop.pending.value := Settling(s).(destination := Some(page.fingerprint))]
    requires var fp, g := page.fingerprint, s.graph;
             (t.graph.parents == g.parents && t.graph.returnActions == g.returnActions)
             || (!Settling(s).action.backtrack && t.graph.parents == g.parents[fp := Settling(s).from]
                 && exists back :: Reverses(back, Settling(s).action) && t.graph.returnActions == g.returnActions[fp := back])
    ensures WaysBack(t)
  {
    forall fp | fp in t.graph.returnActions ensures exists i :: Leads(t, i, fp) {
      if fp != page.fingerprint
         || (t.graph.returnActions == s.graph.returnActions && t.graph.parents == s.graph.parents) {
        assert fp in s.graph.returnActions;
        var i :| Leads(s, i, fp);
        assert Leads(t, i, fp);
      } else {
        assert Leads(t, s.loop.pending.value, fp);
      }
    }
  }

  lemma RecordingLeads(s: State, page: Page, now: int)
    requires WaysBack(s) && PendingInv(s)
    ensures WaysBack(RecordPage(s, page, now))
  {
    var t := RecordPage(s, page, now);
    if Settles(s) {
      RecordPageSettles(s, page, now);
      RecordPageLinks(s, page, now);
      SettlingLeads(s, t, page);
    } else {
      RecordPageArrives(s, page, now);
      KeptStepsLead(s, t);
    }
  }

  lemma VisitKeepsSteps(s: State, config: Config, page: Page, advice: Advice, outcome: Outcome)
    requires page.fingerprint in s.graph.nodes && WellFormedAdvice(advice)
    ensures KeepsSteps(s, ChooseAndExecute(s, config, page, advice, outcome))
  {
    ChooseFits(s, config, page, advice);
  }

  lemma DecisionKeepsSteps(s: State, t: State)
    requires Decides(s, t)
    ensures KeepsSteps(s, t)
  {
    BlockPendingBlocks(s);
  }

  lemma SpecialKeepsSteps(s: State, key: SceneKey, fingerprint: string, a: Action, outcome: Outcome)
    ensures KeepsSteps(s, HandleSpecial(s, key, fingerprint, a, outcome))
  {
  }

  lemma SceneKeepsSteps(s: State, config: Config, e: Event)
    requires e.SpecialScene?
    ensures KeepsSteps(s, Apply(s, config, e))
  {
    var s1 := s.(detours := EnterScene(s.detours, e.found, e.onTarget));
    if e.found.Some? {
      var (s2, signal) := DecideScene(s1, config, e.found.value, e.activity, e.now, e.elapsed);
      DecideSceneDecides(s1, config, e.found.value, e.activity, e.now, e.elapsed);
      DecisionKeepsSteps(s1, s2);
      if signal.SceneAct? {
        SpecialKeepsSteps(s2, signal.key, e.found.value.fingerprint, signal.action, e.outcome);
        KeepsStepsTransitive(s1, s2, Apply(s, config, e));
      }
    }
  }

  lemma LeavingKeepsSteps(s: State, foreground: string, home: bool, now: int, elapsed: bool, ok: bool)
    ensures KeepsSteps(s, LeaveTarget(s, foreground, home, now, elapsed, ok))
  {
    BlameKeepsSteps(CountVisit(s, foreground), foreground);
  }

  lemma BlameKeepsSteps(s: State, foreign: string)
    ensures KeepsSteps(s, BlameStep(s, foreign)) && BlameStep(s, foreign).loop == s.loop
  {
  }

  lemma StepLeads(s: State, config: Config, e: Event)
    requires Inv(s, config) && WellFormed(e) && WaysBack(s)
    ensures WaysBack(Apply(s, config, e))
  {
    match e
    case LastPage(page, now) => RecordingLeads(s, page, now);
    case Visit(page, advice, outcome) =>
      RecordingLeads(s, page, advice.now);
      RecordPageKeepsInv(s, config, page, advice.now);
      var s1 := RecordPage(s, page, advice.now);
      VisitKeepsSteps(s1, config, page, advice, outcome);
      KeptStepsLead(s1, Apply(s, config, e));
    case _ =>
      QuietKeepsSteps(s, config, e);
      KeptStepsLead(s, Apply(s, config, e));
  }

  lemma QuietKeepsSteps(s: State, config: Config, e: Event)
    requires !e.Visit? && !e.LastPage?
    ensures KeepsSteps(s, Apply(s, config, e))
  {
    match e
    case SpecialScene(_, _, _, _, _, _) => SceneKeepsSteps(s, config, e);
    case SessionStep(_, _) =>
    case OffTarget(foreground, home, now, elapsed, ok) => LeavingKeepsSteps(s, foreground, home, now, elapsed, ok);
    case Handoff(_) => BlockPendingBlocks(s);
    case Restarting(activity, coldAllowed, now, ok) => RestartIsMinor(s, activity, coldAllowed, now, ok);
  }

  lemma {:induction false} WaysBackFrom(s: State, config: Config, events: seq<Event>)
    requires Inv(s, config) && WellFormedRun(events) && WaysBack(s)
    ensures WaysBack(Run(s, config, events))
    decreases |events|
  {
    if events != [] {
      StepLeads(s, config, events[0]);
      StepKeepsInv(s, config, events[0]);
      WaysBackFrom(Apply(s, config, events[0]), config, events[1..]);
    }
  }

  /** In every session the return action of a page undoes a step that led to the
      page from its parent. */
  lemma ReturnActionsUndoSteps(config: Config, events: seq<Event>, fp: string)
    requires WellFormedRun(events) && fp in Run(Initial, config, events).graph.returnActions
    ensures var g := Run(Initial, config, events).graph;
            && fp in g.parents
            && exists i :: 0 <= i < |g.steps| && g.steps[i].from == g.parents[fp] && g.steps[i].destination == Some(fp)
                 && !g.steps[i].action.backtrack && Reverses(g.returnActions[fp], g.steps[i].action)
  {
    InitialInv(config);
    WaysBackFrom(Initial, config, events);
    var s := Run(Initial, config, events);
    var i: nat :| Leads(s, i, fp);
    assert s.graph.steps[i].from == s.graph.parents[fp];
  }

  // ----- Where parents come from ---------------------------------------------

  /** Where the step came from that is still to be settled, unless it goes back. */
  ghost function PendingOrigin(s: State): Option<Origin> {
    if s.loop.pending.None? || s.loop.pending.value >= |s.graph.steps| then None
    else
      var step := s.graph.steps[s.loop.pending.value];
      if step.action.backtrack then None else Some(step.from)
  }

  lemma DiscoveryGivesNoParent(s: State, page: Page)
    ensures var g := Discover(s, page).graph;
            g.parents == s.graph.parents && g.nodes.Keys == s.graph.nodes.Keys + {page.fingerprint}
  {
  }

  lemma SettlingGivesOrigin(s: State, pending: nat, page: Page, isNew: bool, now: int)
    requires pending < |s.graph.steps|
    ensures var g, step := SettleStep(s, pending, page, isNew, now).graph, s.graph.steps[pending];
            && g.nodes == s.graph.nodes && g.discovered == s.graph.discovered
            && g.parents == if isNew && !step.action.backtrack && step.from != FromPage(page.fingerprint)
                            then s.graph.parents[page.fingerprint := step.from] else s.graph.parents
  {
    SettleCloses(s, pending, page, isNew, now);
  }

  /** Recording a page gives it a parent exactly when it is new and a step is
      pending that does not go back; the parent is that step's origin, and no
      other page's parent changes. */
  lemma ParentIsPendingOrigin(s: State, page: Page, now: int)
    requires PendingInv(s)
    ensures var g := RecordPage(s, page, now).graph;
            && g.nodes.Keys == s.graph.nodes.Keys + {page.fingerprint}
            && g.discovered == Discover(s, page).graph.discovered
            && g.parents == if page.fingerprint !in s.graph.nodes && PendingOrigin(s).Some?
                            then s.graph.parents[page.fingerprint := PendingOrigin(s).value] else s.graph.parents
  {
    ArriveFrames(s, page);
    DiscoveryGivesNoParent(s, page);
    var s1 := Discover(NoteSemantic(s, page.semantic), page);
    if s1.loop.pending.Some? {
      SettlingGivesOrigin(s1, s1.loop.pending.value, page, page.fingerprint !in s.graph.nodes, now);
    }
  }

  /** Pages that are known keep the parent they have, or have not. */
  ghost predicate KeepsParents(s: State, t: State) {
    && s.graph.nodes.Keys <= t.graph.nodes.Keys
    && forall fp :: fp in s.graph.nodes ==>
         (fp in t.graph.parents <==> fp in s.graph.parents)
         && (fp in s.graph.parents ==> t.graph.parents[fp] == s.graph.parents[fp])
  }

  lemma KeepsParentsTransitive(s: State, t: State, u: State)
    requires KeepsParents(s, t) && KeepsParents(t, u)
    ensures KeepsParents(s, u)
  {
  }

  lemma ChoosingKeepsParents(s: State, config: Config, page: Page, advice: Advice, outcome: Outcome)
    requires GraphInv(s.graph) && s.loop.pending.None? && page.fingerprint in s.graph.nodes && WellFormedAdvice(advice)
    ensures var t := ChooseAndExecute(s, config, page, advice, outcome);
            t.graph.nodes.Keys == s.graph.nodes.Keys && t.graph.parents == s.graph.parents
  {
    var (s1, choice) := Choose(s, config, page, advice);
    ChooseFits(s, config, page, advice);
    assert s1.graph.nodes.Keys == s.graph.nodes.Keys;
    if choice.Take? {
      var s2 := LogChoice(s1, page, s.graph.nodes[page.fingerprint].semantic, choice);
      ExecutionTriesAtMostOne(s2, page, choice.action, choice.path, advice, outcome);
      ExecuteKeepsParents(s2, page, choice.action, choice.path, advice, outcome);
    }
  }

  lemma ExecuteKeepsParents(s: State, page: Page, a: Action, path: Path, advice: Advice, outcome: Outcome)
    ensures Execute(s, page, a, path, advice, outcome).graph.parents == s.graph.parents
  {
  }

  /** The page a step records, if any. */
  function Recorded(e: Event): Option<string> {
    match e
    case LastPage(page, _) => Some(page.fingerprint)
    case Visit(page, _, _) => Some(page.fingerprint)
    case _ => None
  }

  lemma StepParents(s: State, config: Config, e: Event)
    requires Inv(s, config) && WellFormed(e)
    ensures var g, fp := Apply(s, config, e).graph, Recorded(e);
            && g.nodes.Keys == s.graph.nodes.Keys + (if fp.Some? then {fp.value} else {})
            && g.parents == if fp.Some? && fp.value !in s.graph.nodes && PendingOrigin(s).Some?
                            then s.graph.parents[fp.value := PendingOrigin(s).value] else s.graph.parents
  {
    match e
    case LastPage(page, now) => ParentIsPendingOrigin(s, page, now);
    case Visit(page, advice, outcome) =>
      ParentIsPendingOrigin(s, page, advice.now);
      RecordPageKeepsInv(s, config, page, advice.now);
      ChoosingKeepsParents(RecordPage(s, page, advice.now), config, page, advice, outcome);
    case _ => StepIsQuiet(s, config, e);
  }

  lemma {:induction false} SessionKeepsParents(s: State, config: Config, events: seq<Event>)
    requires Inv(s, config) && WellFormedRun(events)
    ensures KeepsParents(s, Run(s, config, events))
    decreases |events|
  {
    if events != [] {
      var t := Apply(s, config, events[0]);
      StepKeepsParents(s, config, events[0]);
      SessionKeepsParents(t, config, events[1..]);
      KeepsParentsTransitive(s, t, Run(t, config, events[1..]));
    }
  }

  lemma StepKeepsParents(s: State, config: Config, e: Event)
    requires Inv(s, config) && WellFormed(e)
    ensures KeepsParents(s, Apply(s, config, e)) && Inv(Apply(s, config, e), config)
  {
    StepParents(s, config, e);
    StepKeepsInv(s, config, e);
  }

  /** The step that was pending, and did not go back, when the page was first
      recorded. */
  ghost function BirthOrigin(s: State, config: Config, events: seq<Event>, fp: string): Option<Origin>
    decreases |events|
  {
    if events == [] then None
    else if Recorded(events[0]) == Some(fp) && fp !in s.graph.nodes then PendingOrigin(s)
    else BirthOrigin(Apply(s, config, events[0]), config, events[1..], fp)
  }

  lemma {:induction false} ParentsAreBirthOriginsFrom(s: State, config: Config, events: seq<Event>, fp: string)
    requires Inv(s, config) && WellFormedRun(events)
    requires fp !in s.graph.nodes && fp in Run(s, config, events).graph.nodes
    ensures var g, origin := Run(s, config, events).graph, BirthOrigin(s, config, events, fp);
            && (fp in g.parents <==> origin.Some?)
            && (origin.Some? ==> g.parents[fp] == origin.value)
    decreases |events|
  {
    if Recorded(events[0]) == Some(fp) {
      BornWithOrigin(s, config, events, fp);
    } else {
      NotRecordedIsNotKnown(s, config, events[0], fp);
      ParentsAreBirthOriginsFrom(Apply(s, config, events[0]), config, events[1..], fp);
    }
  }

  lemma NotRecordedIsNotKnown(s: State, config: Config, e: Event, fp: string)
    requires Inv(s, config) && WellFormed(e) && fp !in s.graph.nodes && Recorded(e) != Some(fp)
    ensures Inv(Apply(s, config, e), config) && fp !in Apply(s, config, e).graph.nodes
  {
    StepParents(s, config, e);
    StepKeepsInv(s, config, e);
  }

  lemma BornWithOrigin(s: State, config: Config, events: seq<Event>, fp: string)
    requires Inv(s, config) && WellFormedRun(events)
    requires events != [] && Recorded(events[0]) == Some(fp) && fp !in s.graph.nodes
    ensures var g, origin := Run(s, config, events).graph, PendingOrigin(s);
            && (fp in g.parents <==> origin.Some?)
            && (origin.Some? ==> g.parents[fp] == origin.value)
  {
    StepParents(s, config, events[0]);
    StepKeepsInv(s, config, events[0]);
    SessionKeepsParents(Apply(s, config, events[0]), config, events[1..]);
  }

  /** In every session a page has a parent exactly when it was first recorded
      while a step was pending that did not go back, and its parent is where that
      step came from: a page, or an activity for an action of the session. */
  lemma ParentsAreBirthOrigins(config: Config, events: seq<Event>, fp: string)
    requires WellFormedRun(events) && fp in Run(Initial, config, events).graph.nodes
    ensures var g, origin := Run(Initial, config, events).graph, BirthOrigin(Initial, config, events, fp);
            && (fp in g.parents <==> origin.Some?)
            && (origin.Some? ==> g.parents[fp] == origin.value)
  {
    InitialInv(config);
    ParentsAreBirthOriginsFrom(Initial, config, events, fp);
  }

  predicate OfPageOrigin(origin: Option<Origin>) { origin.Some? && origin.value.FromPage? }

  /** The page at which following parents ends. */
  ghost function ChainEnd(g: Graph, fp: string): (end: string)
    requires GraphInv(g) && fp in g.nodes
    ensures end in g.nodes
    decreases Rank(g.discovered, fp)
  {
    if fp !in g.parents || g.parents[fp].FromActivity? then fp
    else
      ParentHasLowerRank(g, fp);
      ChainEnd(g, g.parents[fp].fingerprint)
  }

  lemma ChainEndHasNoPage(g: Graph, fp: string)
    requires GraphInv(g) && fp in g.nodes
    ensures var end := ChainEnd(g, fp); end in g.parents ==> g.parents[end].FromActivity?
    decreases Rank(g.discovered, fp)
  {
    if fp in g.parents && g.parents[fp].FromPage? {
      ParentHasLowerRank(g, fp);
      ChainEndHasNoPage(g, g.parents[fp].fingerprint);
    }
  }

  /** A chain ends exactly where it meets a page that no page led to: one that was
      first recorded with nothing pending, with a return pending, or after an
      action of the session; it then ends at an activity in the last case only. */
  lemma ChainEndsExactlyWhere(config: Config, events: seq<Event>, fp: string)
    requires WellFormedRun(events) && fp in Run(Initial, config, events).graph.nodes
    ensures var g := Run(Initial, config, events).graph;
            && GraphInv(g)
            && var end := ChainEnd(g, fp);
               var origin := BirthOrigin(Initial, config, events, end);
               && !OfPageOrigin(origin)
               && (end in g.parents <==> origin.Some?)
               && (end == fp <==> !OfPageOrigin(BirthOrigin(Initial, config, events, fp)))
  {
    InitialInv(config);
    RunKeepsInv(Initial, config, events);
    var g := Run(Initial, config, events).graph;
    ChainEndHasNoPage(g, fp);
    ParentsAreBirthOrigins(config, events, fp);
    ParentsAreBirthOrigins(config, events, ChainEnd(g, fp));
    if fp in g.parents && g.parents[fp].FromPage? {
      ParentHasLowerRank(g, fp);
      EndRanksNoHigher(g, g.parents[fp].fingerprint);
    }
  }

  lemma EndRanksNoHigher(g: Graph, fp: string)
    requires GraphInv(g) && fp in g.nodes
    ensures ChainEnd(g, fp) in g.discovered && fp in g.discovered
    ensures Rank(g.discovered, ChainEnd(g, fp)) <= Rank(g.discovered, fp)
    decreases Rank(g.discovered, fp)
  {
    if fp in g.parents && g.parents[fp].FromPage? {
      ParentHasLowerRank(g, fp);
      EndRanksNoHigher(g, g.parents[fp].fingerprint);
    }
  }

  /** Every chain ends at the first page exactly when a page led to every other. */
  lemma ChainsEndAtFirstPageExactlyWhen(config: Config, events: seq<Event>)
    requires WellFormedRun(events) && Run(Initial, config, events).graph.discovered != []
    ensures var g := Run(Initial, config, events).graph;
            && GraphInv(g)
            && ((forall fp :: fp in g.nodes ==> ChainEnd(g, fp) == g.discovered[0]) <==>
                (forall fp :: fp in g.nodes && fp != g.discovered[0] ==>
                  OfPageOrigin(BirthOrigin(Initial, config, events, fp))))
  {
    InitialInv(config);
    RunKeepsInv(Initial, config, events);
    var g := Run(Initial, config, events).graph;
    forall fp | fp in g.nodes
      ensures ChainEnd(g, fp) in g.nodes && !OfPageOrigin(BirthOrigin(Initial, config, events, ChainEnd(g, fp)))
      ensures ChainEnd(g, fp) == fp <==> !OfPageOrigin(BirthOrigin(Initial, config, events, fp))
    {
      ChainEndsExactlyWhere(config, events, fp);
    }
  }

  lemma SessionActionIsOrigin(s: State, activity: string, a: Action)
    requires !a.backtrack
    ensures var t := SessionAction(s, activity, a);
            && PendingInv(t) && PendingOrigin(t) == Some(FromActivity(activity))
            && t.graph.nodes == s.graph.nodes && t.graph.parents == s.graph.parents
            && t.graph.discovered == s.graph.discovered
  {
  }

  lemma RunTwo(s: State, config: Config, first: Event, second: Event)
    ensures Run(s, config, [first, second]) == Apply(Apply(s, config, first), config, second)
  {
    var t := Apply(s, config, first);
    assert [first, second][1..] == [second] && [second][1..] == [];
    assert Run(t, config, [second]) == Run(Apply(t, config, second), config, []);
  }

  /** A chain may end at an activity instead of the first page: a session action
      on the very first capture becomes the parent of the first page. */
  lemma FirstPageMayHaveAParent(config: Config, page: Page, a: Action, now: int)
    requires !a.backtrack
    ensures var g := Run(Initial, config, [SessionStep(page.activity, a), LastPage(page, now)]).graph;
            g.discovered == [page.fingerprint] && page.fingerprint in g.parents
            && g.parents[page.fingerprint] == FromActivity(page.activity)
  {
    var s1 := SessionAction(Initial, page.activity, a);
    SessionActionIsOrigin(Initial, page.activity, a);
    RunTwo(Initial, config, SessionStep(page.activity, a), LastPage(page, now));
    ParentIsPendingOrigin(s1, page, now);
  }

  /** And a chain may end at a second root: two pages in a row with no step
      between them leave the second one without a parent. */
  lemma SecondPageMayBeARoot(config: Config, first: Page, second: Page, now: int)
    requires WellFormedPage(first) && WellFormedPage(second) && first.fingerprint != second.fingerprint
    ensures var g := Run(Initial, config, [LastPage(first, now), LastPage(second, now)]).graph;
            && GraphInv(g) && second.fingerprint in g.nodes
            && second.fingerprint !in g.parents && ChainEnd(g, second.fingerprint) == second.fingerprint
  {
    var events := [LastPage(first, now), LastPage(second, now)];
    InitialInv(config);
    RunKeepsInv(Initial, config, events);
    RunTwo(Initial, config, events[0], events[1]);
    RecordPageKeepsInv(Initial, config, first, now);
    ParentIsPendingOrigin(Initial, first, now);
    ParentIsPendingOrigin(RecordPage(Initial, first, now), second, now);
  }

  // ----- Special scenes ------------------------------------------------------

  /** Whether a restart stops and launches the target. */
  predicate ColdStarts(s: State, e: Event) {
    e.Restarting? && e.ok
    && if s.loop.stuck.relaunch then true
       else
         var escapes := EscapeFrom(s.detours, e.activity).escapeAttempts;
         if !s.loop.coldStart && !e.coldAllowed then e.now >= s.loop.ladderCoolUntil && escapes != 0
         else escapes >= MAX_ESCAPES
  }

  /** Whether a step acts on a scene under the key and is not refunded. */
  predicate ActsOn(s: State, config: Config, e: Event, key: SceneKey) {
    e.SpecialScene? && e.found.Some? &&
    var s1 := s.(detours := EnterScene(s.detours, e.found, e.onTarget));
    var (s2, signal) := DecideScene(s1, config, e.found.value, e.activity, e.now, e.elapsed);
    signal.SceneAct? && signal.key == key && !Refunded(s2, e.outcome)
  }

  /** The acts on scenes under a key since the target was last started. */
  ghost function ActsSinceStart(s: State, config: Config, events: seq<Event>, key: SceneKey, n: nat): nat
    decreases |events|
  {
    if events == [] then n
    else
      var m := if ColdStarts(s, events[0]) then 0 else if ActsOn(s, config, events[0], key) then n + 1 else n;
      ActsSinceStart(Apply(s, config, events[0]), config, events[1..], key, m)
  }

  predicate WithinBudget(d: Detours, config: Config) {
    forall k :: k in d.sceneAttempts ==> d.sceneAttempts[k] <= config.maxSceneAttempts
  }

  lemma PlanCounts(s: State, config: Config, key: SceneKey, kind: SceneKind, activity: string, plan: Plan, elapsed: bool)
    ensures var (t, signal) := FollowPlan(s, config, key, kind, activity, plan, elapsed);
            && t.detours.sceneAttempts ==
                 (if signal.SceneAct?
                  then s.detours.sceneAttempts[signal.key := Lookup(s.detours.sceneAttempts, signal.key) + 1]
                  else s.detours.sceneAttempts)
            && (signal.SceneAct? ==> Lookup(s.detours.sceneAttempts, signal.key) < config.maxSceneAttempts)
  {
    BlockPendingBlocks(s);
  }

  /** A decision to act counts one attempt, and is taken below the limit only. */
  lemma DecisionCounts(s: State, config: Config, scene: Scene, activity: string, now: int, elapsed: bool)
    ensures var (t, signal) := DecideScene(s, config, scene, activity, now, elapsed);
            && t.detours.sceneAttempts ==
                 (if signal.SceneAct?
                  then s.detours.sceneAttempts[signal.key := Lookup(s.detours.sceneAttempts, signal.key) + 1]
                  else s.detours.sceneAttempts)
            && (signal.SceneAct? ==> Lookup(s.detours.sceneAttempts, signal.key) < config.maxSceneAttempts)
  {
    var s1 := if scene.kind == PurchaseFailure then s.(loop := s.loop.(purchaseBlocked := true)) else s;
    ResolutionCounts(s1, config, KeyOf(s.detours, scene, activity), scene, activity, now, elapsed);
  }

  lemma ResolutionCounts(s: State, config: Config, key: SceneKey, scene: Scene, activity: string, now: int, elapsed: bool)
    ensures var (t, signal) := ResolveScene(s, config, key, scene, activity, now, elapsed);
            && t.detours.sceneAttempts ==
                 (if signal.SceneAct?
                  then s.detours.sceneAttempts[signal.key := Lookup(s.detours.sceneAttempts, signal.key) + 1]
                  else s.detours.sceneAttempts)
            && (signal.SceneAct? ==> Lookup(s.detours.sceneAttempts, signal.key) < config.maxSceneAttempts)
  {
    var s1 := s.(detours := NoteWait(s.detours, key, scene, now));
    assert s1.detours.sceneAttempts == s.detours.sceneAttempts;
    PlanCounts(s1, config, key, scene.kind, activity, PlanOf(Lookup(s.detours.sceneAttempts, key), scene), elapsed);
  }

  predicate Refunded(s: State, outcome: Outcome) {
    outcome == StaleObservation && Ordinary(s.loop.attemptNumber + 1) !in s.receipts
  }

  lemma SpecialRefunds(s: State, key: SceneKey, fingerprint: string, a: Action, outcome: Outcome)
    ensures HandleSpecial(s, key, fingerprint, a, outcome).detours
            == if Refunded(s, outcome) then Refund(s.detours, key) else s.detours
  {
  }

  lemma CountAndRefund(d: Detours, e: Detours, config: Config, key: SceneKey, other: SceneKey, refunded: bool)
    requires WithinBudget(d, config) && Lookup(d.sceneAttempts, key) < config.maxSceneAttempts
    requires e.sceneAttempts == d.sceneAttempts[key := Lookup(d.sceneAttempts, key) + 1]
    ensures var f := if refunded then Refund(e, key) else e;
            && WithinBudget(f, config)
            && Lookup(f.sceneAttempts, other)
               == Lookup(d.sceneAttempts, other) + (if key == other && !refunded then 1 else 0)
  {
  }

  lemma SceneCounts(s: State, config: Config, e: Event, key: SceneKey)
    requires e.SpecialScene? && WithinBudget(s.detours, config)
    ensures var d := Apply(s, config, e).detours;
            && WithinBudget(d, config)
            && Lookup(d.sceneAttempts, key)
               == Lookup(s.detours.sceneAttempts, key) + (if ActsOn(s, config, e, key) then 1 else 0)
  {
    var s1 := s.(detours := EnterScene(s.detours, e.found, e.onTarget));
    EnteringCountsNothing(s.detours, e.found, e.onTarget);
    if e.found.Some? {
      var (s2, signal) := DecideScene(s1, config, e.found.value, e.activity, e.now, e.elapsed);
      DecisionCounts(s1, config, e.found.value, e.activity, e.now, e.elapsed);
      SceneDetours(s, config, e, s2, signal);
      if signal.SceneAct? {
        CountAndRefund(s.detours, s2.detours, config, signal.key, key, Refunded(s2, e.outcome));
      }
    }
  }

  lemma EnteringCountsNothing(d: Detours, found: Option<Scene>, onTarget: bool)
    ensures EnterScene(d, found, onTarget).sceneAttempts == d.sceneAttempts
  {
  }

  lemma SceneDetours(s: State, config: Config, e: Event, s2: State, signal: SceneSignal)
    requires e.SpecialScene? && e.found.Some?
    requires var s1 := s.(detours := EnterScene(s.detours, e.found, e.onTarget));
             (s2, signal) == DecideScene(s1, config, e.found.value, e.activity, e.now, e.elapsed)
    ensures Apply(s, config, e).detours
            == if signal.SceneAct? && Refunded(s2, e.outcome) then Refund(s2.detours, signal.key) else s2.detours
  {
    if signal.SceneAct? {
      SpecialRefunds(s2, signal.key, e.found.value.fingerprint, signal.action, e.outcome);
    }
  }

  lemma RestartCounts(s: State, config: Config, e: Event)
    requires e.Restarting?
    ensures Apply(s, config, e).detours.sceneAttempts == if ColdStarts(s, e) then map[] else s.detours.sceneAttempts
  {
    ShellCounts(s, e.activity, e.now, e.ok);
    LadderCounts(s, e.activity, e.ok);
  }

  lemma ShellCounts(s: State, activity: string, now: int, ok: bool)
    ensures var cold := ok && now >= s.loop.ladderCoolUntil && EscapeFrom(s.detours, activity).escapeAttempts != 0;
            RestartShell(s, activity, now, ok).detours.sceneAttempts == if cold then map[] else s.detours.sceneAttempts
  {
  }

  lemma LadderCounts(s: State, activity: string, ok: bool)
    ensures var cold := ok && EscapeFrom(s.detours, activity).escapeAttempts >= MAX_ESCAPES;
            RestartLadder(s, activity, ok).detours.sceneAttempts == if cold then map[] else s.detours.sceneAttempts
  {
  }

  lemma OthersCountNothing(s: State, config: Config, e: Event)
    requires Inv(s, config) && WellFormed(e) && !e.SpecialScene? && !e.Restarting?
    ensures Apply(s, config, e).detours.sceneAttempts == s.detours.sceneAttempts
  {
    match e
    case LastPage(page, now) => RecordPageFrames(s, page, now);
    case Visit(page, advice, outcome) =>
      RecordPageFrames(s, page, advice.now);
      RecordPageKeepsInv(s, config, page, advice.now);
      ChoosingKeepsDetours(RecordPage(s, page, advice.now), config, page, advice, outcome);
    case OffTarget(foreground, home, now, elapsed, ok) => LeavingKeepsAttempts(s, foreground, home, now, elapsed, ok);
    case Handoff(_) => BlockPendingBlocks(s);
    case SessionStep(_, _) =>
  }

  lemma ChoosingKeepsDetours(s: State, config: Config, page: Page, advice: Advice, outcome: Outcome)
    requires page.fingerprint in s.graph.nodes && WellFormedAdvice(advice)
    ensures ChooseAndExecute(s, config, page, advice, outcome).detours == s.detours
  {
    ChooseFits(s, config, page, advice);
    var (s1, choice) := Choose(s, config, page, advice);
    if choice.Take? {
      var s2 := LogChoice(s1, page, s.graph.nodes[page.fingerprint].semantic, choice);
      ExecuteKeepsDetours(s2, page, choice.action, choice.path, advice, outcome);
    }
  }

  lemma ExecuteKeepsDetours(s: State, page: Page, a: Action, path: Path, advice: Advice, outcome: Outcome)
    ensures Execute(s, page, a, path, advice, outcome).detours == s.detours
  {
  }

  lemma LeavingKeepsAttempts(s: State, foreground: string, home: bool, now: int, elapsed: bool, ok: bool)
    ensures LeaveTarget(s, foreground, home, now, elapsed, ok).detours.sceneAttempts == s.detours.sceneAttempts
  {
    DismissingKeepsAttempts(s, foreground, ok);
  }

  lemma DismissingKeepsAttempts(s: State, foreground: string, ok: bool)
    ensures LeaveForeign(s, foreground, ok).detours.sceneAttempts == s.detours.sceneAttempts
  {
    BlameKeepsDetours(CountVisit(s, foreground), foreground);
  }

  lemma BlameKeepsDetours(s: State, foreign: string)
    ensures BlameStep(s, foreign).detours == s.detours
  {
  }

  lemma StepCounts(s: State, config: Config, e: Event, key: SceneKey)
    requires Inv(s, config) && WellFormed(e) && WithinBudget(s.detours, config)
    ensures var d := Apply(s, config, e).detours;
            && WithinBudget(d, config)
            && Lookup(d.sceneAttempts, key)
               == if ColdStarts(s, e) then 0
                  else Lookup(s.detours.sceneAttempts, key) + (if ActsOn(s, config, e, key) then 1 else 0)
  {
    if e.SpecialScene? {
      SceneCounts(s, config, e, key);
    } else if e.Restarting? {
      RestartCounts(s, config, e);
    } else {
      OthersCountNothing(s, config, e);
    }
  }

  lemma {:induction false} AttemptsCountActs(s: State, config: Config, events: seq<Event>, key: SceneKey)
    requires Inv(s, config) && WellFormedRun(events) && WithinBudget(s.detours, config)
    ensures var d := Run(s, config, events).detours;
            && WithinBudget(d, config)
            && Lookup(d.sceneAttempts, key)
               == ActsSinceStart(s, config, events, key, Lookup(s.detours.sceneAttempts, key))
    decreases |events|
  {
    if events != [] {
      StepKeepsInv(s, config, events[0]);
      StepCounts(s, config, events[0], key);
      AttemptsCountActs(Apply(s, config, events[0]), config, events[1..], key);
    }
  }

  /** In every session a special scene is acted on at most as often as the limit
      says, from one start of the target to the next. */
  lemma ScenesAreActedOnWithinLimit(config: Config, events: seq<Event>, key: SceneKey)
    requires WellFormedRun(events)
    ensures ActsSinceStart(Initial, config, events, key, 0) <= config.maxSceneAttempts
  {
    InitialInv(config);
    AttemptsCountActs(Initial, config, events, key);
  }
}
