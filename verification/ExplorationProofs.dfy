/** What every exploration run keeps. The steps of ExplorationModel are first
    summarized by what they leave alone; the invariants follow from that. */
module ExplorationProofs {
  import opened Options
  import opened ExplorationTypes
  import opened ExplorationModel
  import C = CycleDetection

  // ----- Frames --------------------------------------------------------------

  /** t is s with more edges blocked, and the counter says how many more. */
  ghost predicate MoreBlocked(s: State, t: State) {
    && t == s.(cover := s.cover.(blocked := t.cover.blocked),
               counters := s.counters.(blockedEdges := t.counters.blockedEdges))
    && s.cover.blocked <= t.cover.blocked
    && t.counters.blockedEdges - s.counters.blockedEdges == |t.cover.blocked| - |s.cover.blocked|
  }

  lemma BlockEdgeBlocks(s: State, semantic: string, action: EdgeAction)
    ensures MoreBlocked(s, BlockEdge(s, semantic, action))
    ensures (semantic, action) in BlockEdge(s, semantic, action).cover.blocked
  {
  }

  lemma MoreBlockedTransitive(s: State, t: State, u: State)
    requires MoreBlocked(s, t) && MoreBlocked(t, u)
    ensures MoreBlocked(s, u)
  {
  }

  lemma BlockSamplesBlocks(s: State, samples: seq<Sample>)
    ensures MoreBlocked(s, BlockSamples(s, samples))
    ensures forall i :: 0 <= i < |samples| ==>
              (samples[i].blockFrom, samples[i].action) in BlockSamples(s, samples).cover.blocked
  {
    if samples != [] {
      var init, last := samples[..|samples| - 1], samples[|samples| - 1];
      BlockSamplesBlocks(s, init);
      var t := BlockSamples(s, init);
      BlockEdgeBlocks(t, last.blockFrom, last.action);
      MoreBlockedTransitive(s, t, BlockEdge(t, last.blockFrom, last.action));
      forall i | 0 <= i < |samples|
        ensures (samples[i].blockFrom, samples[i].action) in BlockSamples(s, samples).cover.blocked
      {
        if i < |init| { assert samples[i] == init[i]; }
      }
    }
  }

  /** What settling a step may touch besides the graph: blocked edges, the trace,
      and counters and loop fields that no later claim depends on. */
  ghost predicate SideEffects(s: State, t: State) {
    && t.graph == s.graph && t.receipts == s.receipts && t.log == s.log && t.roundSteps == s.roundSteps
    && t.cover == s.cover.(blocked := t.cover.blocked)
    && s.cover.blocked <= t.cover.blocked
    && t.counters.blockedEdges - s.counters.blockedEdges == |t.cover.blocked| - |s.cover.blocked|
    && t.counters == s.counters.(blockedEdges := t.counters.blockedEdges,
         effective := t.counters.effective, ineffective := t.counters.ineffective,
         cycleDetections := t.counters.cycleDetections)
    && t.loop.pending == s.loop.pending && t.loop.attemptNumber == s.loop.attemptNumber
    && t.detours == s.detours
  }

  lemma SideEffectsCompose(s: State, t: State, u: State)
    requires SideEffects(s, t) && SideEffects(t, u)
    ensures SideEffects(s, u)
  {
  }

  lemma DeadEndSideEffects(s: State, pending: nat, from: string)
    requires pending < |s.graph.steps|
    ensures SideEffects(s, BlockDeadEnd(s, pending, from)) && MoreBlocked(s, BlockDeadEnd(s, pending, from))
  {
    if pending > 0 { BlockEdgeBlocks(s, from, Keyed(s.graph.steps[pending - 1].action.Key())); }
  }

  lemma StallSideEffects(s: State, action: Action, from: string)
    ensures var t := NoteStall(s, action, from);
            SideEffects(s, t)
            && t.counters.effective == s.counters.effective && t.counters.ineffective == s.counters.ineffective
  {
    var stall := (from, Keyed(action.Key()));
    var n := Lookup(s.loop.samePageSwipes, stall) + 1;
    var s1 := s.(loop := s.loop.(samePageSwipes := s.loop.samePageSwipes[stall := n]));
    assert SideEffects(s, s1);
    BlockEdgeBlocks(s1, from, Keyed(action.Key()));
    BlockingSideEffects(s1, BlockEdge(s1, from, Keyed(action.Key())));
  }

  lemma BlockingSideEffects(s: State, t: State)
    requires MoreBlocked(s, t)
    ensures SideEffects(s, t)
    ensures t.counters.effective == s.counters.effective && t.counters.ineffective == s.counters.ineffective
  {
  }

  lemma IneffectiveSideEffects(s: State, pending: nat, from: string)
    requires pending < |s.graph.steps|
    ensures var t := NoteIneffective(s, pending, from);
            SideEffects(s, t) && t.counters.effective == s.counters.effective
            && t.counters.ineffective == s.counters.ineffective + 1
  {
    var s1 := s.(counters := s.counters.(ineffective := s.counters.ineffective + 1));
    var s2 := BlockDeadEnd(s1, pending, from);
    DeadEndSideEffects(s1, pending, from);
    StallSideEffects(s2, s.graph.steps[pending].action, from);
    SideEffectsCompose(s1, s2, NoteIneffective(s, pending, from));
  }

  lemma EffectSideEffects(s: State, pending: nat, from: string, to: string)
    requires pending < |s.graph.steps|
    ensures var t := NoteEffect(s, pending, from, to);
            SideEffects(s, t)
            && t.counters.effective + t.counters.ineffective == s.counters.effective + s.counters.ineffective + 1
  {
    IneffectiveSideEffects(s, pending, from);
  }

  lemma BlockVerdictBlocks(s: State, verdict: nat, edge: EdgeKey)
    ensures MoreBlocked(s, BlockVerdict(s, verdict, edge))
  {
    if verdict <= C.MAX_PERIOD && verdict <= |s.trace| {
      BlockSamplesBlocks(s, s.trace[|s.trace| - verdict..]);
    } else {
      BlockEdgeBlocks(s, edge.0, edge.1);
    }
  }

  lemma ReactionSideEffects(s: State, verdict: nat, edge: EdgeKey, semantic: string, now: int)
    ensures var t := ReactToVerdict(s, verdict, edge, semantic, now);
            SideEffects(s, t)
            && t.counters.effective == s.counters.effective && t.counters.ineffective == s.counters.ineffective
  {
    var s1 := s.(counters := s.counters.(cycleDetections := s.counters.cycleDetections + 1));
    BlockVerdictBlocks(s1, verdict, edge);
  }

  lemma CycleSideEffects(s: State, step: Step, from: string, page: Page, now: int)
    ensures var t := ObserveCycle(s, step, from, page, now);
            SideEffects(s, t)
            && t.counters.effective == s.counters.effective && t.counters.ineffective == s.counters.ineffective
  {
    var s1 := s.(trace := s.trace + [SampleOf(s.graph, step, from, page)]);
    ReactionSideEffects(s1, C.Verdict(C.Keys(s1.trace)), (from, step.action.StepKey()), page.semantic, now);
    assert SideEffects(s, s1);
  }

  /** Everything between closing the step and adopting the page. */
  ghost function Consequences(s1: State, pending: nat, from: string, step: Step, page: Page, now: int): State
    requires pending < |s1.graph.steps|
  {
    var s2 := NoteEffect(s1, pending, from, page.semantic);
    var s3 := s2.(loop := s2.loop.(stuck :=
      NoteProgress(s2.loop.stuck, page.semantic, page.activity, from != page.semantic)));
    ObserveCycle(NoteBacktrack(s3, step, from, page), step, from, page, now)
  }

  lemma ConsequencesSideEffects(s1: State, pending: nat, from: string, step: Step, page: Page, now: int)
    requires pending < |s1.graph.steps|
    ensures var t := Consequences(s1, pending, from, step, page, now);
            SideEffects(s1, t)
            && t.counters.effective + t.counters.ineffective == s1.counters.effective + s1.counters.ineffective + 1
  {
    EffectSideEffects(s1, pending, from, page.semantic);
    var s2 := NoteEffect(s1, pending, from, page.semantic);
    var s3 := s2.(loop := s2.loop.(stuck :=
      NoteProgress(s2.loop.stuck, page.semantic, page.activity, from != page.semantic)));
    assert SideEffects(s2, s3);
    SideEffectsCompose(s1, s2, s3);
    var s4 := NoteBacktrack(s3, step, from, page);
    assert SideEffects(s3, s4);
    SideEffectsCompose(s1, s3, s4);
    var s5 := ObserveCycle(s4, step, from, page, now);
    CycleSideEffects(s4, step, from, page, now);
    SideEffectsCompose(s1, s4, s5);
  }

  lemma SettleIs(s: State, pending: nat, page: Page, isNew: bool, now: int)
    requires pending < |s.graph.steps|
    ensures var step := s.graph.steps[pending];
            var s5 := Consequences(CloseStep(s, pending, page), pending, SemanticOf(s.graph, step.from), step, page, now);
            var s6 := Adopt(s5, step, page, isNew);
            SettleStep(s, pending, page, isNew, now) == s6.(loop := s6.loop.(pending := None))
  {
  }

  // ----- The invariants ------------------------------------------------------

  function Open(s: State): nat { if s.loop.pending.Some? then 1 else 0 }

  predicate OpenScroll(s: State) {
    s.loop.pending.Some? && s.loop.pending.value < |s.graph.steps| &&
    var a := s.graph.steps[s.loop.pending.value].action;
    a.kind == Swipe && !a.backtrack
  }

  /** Edges are the judged steps and never outnumber the steps; every judged
      scroll was attempted; the limits and the blocked-edge counter hold. */
  ghost predicate CountInv(s: State, config: Config) {
    && (s.loop.pending.Some? ==> s.loop.pending.value < |s.graph.steps|)
    && |s.graph.edges| == s.counters.effective + s.counters.ineffective
    && |s.graph.edges| + Open(s) <= |s.graph.steps|
    && s.counters.scrollProgress + s.counters.scrollStalls + (if OpenScroll(s) then 1 else 0)
       <= s.counters.scrollAttempts
    && s.counters.backtracks <= config.maxBacktracks
    && s.counters.blockedEdges == |s.cover.blocked|
  }

  /** Step ids never repeat, and a step that is not of the session itself was
      executed under its receipt. */
  ghost predicate ReceiptInv(s: State) {
    && (forall id :: id in s.receipts ==> id.Ordinary? && 1 <= id.number <= s.loop.attemptNumber)
    && (forall i :: 0 <= i < |s.graph.steps| ==>
          var id := s.graph.steps[i].id;
          if id.Ordinary? then id in s.receipts && s.receipts[id] == Executed else id.number == i + 1)
    && (forall i, j :: 0 <= i < j < |s.graph.steps| ==>
          s.graph.steps[i].id.Ordinary? && s.graph.steps[j].id.Ordinary? ==>
            s.graph.steps[i].id.number < s.graph.steps[j].id.number)
  }

  ghost predicate Known(g: Graph, origin: Origin) {
    origin.FromPage? ==> origin.fingerprint in g.nodes
  }

  ghost predicate NoRepeats(s: seq<string>) {
    forall i, j :: 0 <= i < j < |s| ==> s[i] != s[j]
  }

  ghost predicate ParentsEarlier(discovered: seq<string>, parents: map<string, Origin>) {
    forall i :: 0 <= i < |discovered| && discovered[i] in parents && parents[discovered[i]].FromPage? ==>
      exists j :: 0 <= j < i && discovered[j] == parents[discovered[i]].fingerprint
  }

  ghost predicate PagesFit(nodes: map<string, Node>, discovered: seq<string>) {
    && NoRepeats(discovered)
    && (forall fp :: fp in nodes <==> fp in discovered)
    && (forall fp :: fp in nodes ==> forall a :: a in nodes[fp].actions ==> !a.backtrack)
  }

  ghost predicate ReturnsFit(backs: map<string, Action>) {
    forall fp :: fp in backs ==> backs[fp].backtrack && backs[fp].kind != Tap
  }

  /** Parents were discovered before their children; a return action exists for
      exactly the pages with a parent and is never a tap. */
  ghost predicate GraphInv(g: Graph) {
    && PagesFit(g.nodes, g.discovered)
    && g.parents.Keys <= g.nodes.Keys
    && g.parents.Keys == g.returnActions.Keys
    && ParentsEarlier(g.discovered, g.parents)
    && ReturnsFit(g.returnActions)
  }

  ghost predicate PendingInv(s: State) {
    s.loop.pending.Some? ==> s.loop.pending.value < |s.graph.steps|
                             && Known(s.graph, s.graph.steps[s.loop.pending.value].from)
  }

  predicate Marked(l: Logged) { (l.path == Language || l.path == Coverage) && l.action.kind == Tap }

  /** No tap is chosen twice in an activity, except a visible back control on an
      escape path; returns are never taps. */
  ghost predicate TapInv(s: State) {
    && (forall i :: 0 <= i < |s.log| && Marked(s.log[i]) ==>
          (s.log[i].activity, s.log[i].action.Key()) in s.cover.seenTaps)
    && (forall i, j :: 0 <= i < j < |s.log| && Marked(s.log[i]) && Marked(s.log[j]) ==>
          s.log[i].activity != s.log[j].activity || s.log[i].action.Key() != s.log[j].action.Key())
    && (forall i :: 0 <= i < |s.log| && s.log[i].path == Escape ==>
          s.log[i].action == SystemBack || s.log[i].action.IsVisibleBackControl())
    && (forall i :: 0 <= i < |s.log| && s.log[i].path == Return ==> s.log[i].action.kind != Tap)
  }

  // ----- Settling keeps them -------------------------------------------------

  /** What settling leaves alone, and how it may grow. */
  ghost predicate Framed(s: State, t: State) {
    && t.log == s.log && t.roundSteps == s.roundSteps
    && t.cover.seenTaps == s.cover.seenTaps && t.cover.inputTried == s.cover.inputTried
    && s.cover.seenSemantic <= t.cover.seenSemantic
    && s.cover.blocked <= t.cover.blocked
    && t.counters.blockedEdges - s.counters.blockedEdges == |t.cover.blocked| - |s.cover.blocked|
    && t.counters.backtracks == s.counters.backtracks
    && t.counters.scrollAttempts == s.counters.scrollAttempts
    && t.loop.attemptNumber == s.loop.attemptNumber && t.detours == s.detours
  }

  ghost predicate Closes(s: State, t: State, pending: nat, page: Page)
    requires pending < |s.graph.steps|
  {
    var step := s.graph.steps[pending];
    var scroll := step.action.kind == Swipe && !step.action.backtrack;
    && t.loop.pending.None?
    && t.graph.steps == s.graph.steps[pending := step.(destination := Some(page.fingerprint))]
    && t.graph.edges == s.graph.edges + [Edge(step.from, step.action.id, page.fingerprint)]
    && t.receipts == (if step.id in s.receipts then s.receipts[step.id := Executed] else s.receipts)
    && t.counters.effective + t.counters.ineffective == s.counters.effective + s.counters.ineffective + 1
    && t.counters.scrollProgress + t.counters.scrollStalls
       == s.counters.scrollProgress + s.counters.scrollStalls + (if scroll then 1 else 0)
  }

  ghost predicate Adopts(g: Graph, h: Graph, step: Step, page: Page, isNew: bool) {
    && h.nodes == g.nodes && h.discovered == g.discovered && h.returnAttempts == g.returnAttempts
    && if step.action.backtrack || !isNew || step.from == FromPage(page.fingerprint)
       then h.parents == g.parents && h.returnActions == g.returnActions
       else h.parents == g.parents[page.fingerprint := step.from]
            && h.returnActions == g.returnActions[
                 page.fingerprint := InverseAction(step.action, page.fingerprint, step.from)]
  }

  lemma SettleFrames(s: State, pending: nat, page: Page, isNew: bool, now: int)
    requires pending < |s.graph.steps|
    ensures Framed(s, SettleStep(s, pending, page, isNew, now))
  {
    var step := s.graph.steps[pending];
    ConsequencesSideEffects(CloseStep(s, pending, page), pending, SemanticOf(s.graph, step.from), step, page, now);
    SettleIs(s, pending, page, isNew, now);
  }

  lemma SettleCloses(s: State, pending: nat, page: Page, isNew: bool, now: int)
    requires pending < |s.graph.steps|
    ensures Closes(s, SettleStep(s, pending, page, isNew, now), pending, page)
    ensures Adopts(s.graph, SettleStep(s, pending, page, isNew, now).graph, s.graph.steps[pending], page, isNew)
  {
    var step := s.graph.steps[pending];
    ConsequencesSideEffects(CloseStep(s, pending, page), pending, SemanticOf(s.graph, step.from), step, page, now);
    SettleIs(s, pending, page, isNew, now);
  }

  lemma ClosesKeepsCounts(s: State, t: State, config: Config, pending: nat, page: Page)
    requires CountInv(s, config) && s.loop.pending == Some(pending)
    requires Framed(s, t) && Closes(s, t, pending, page)
    ensures CountInv(t, config)
  {
  }

  lemma ClosesKeepsReceipts(s: State, t: State, pending: nat, page: Page)
    requires ReceiptInv(s) && pending < |s.graph.steps|
    requires Framed(s, t) && Closes(s, t, pending, page)
    ensures ReceiptInv(t)
  {
    assert forall i :: 0 <= i < |s.graph.steps| ==> t.graph.steps[i].id == s.graph.steps[i].id;
  }

  lemma FramedKeepsTaps(s: State, t: State)
    requires TapInv(s) && Framed(s, t)
    ensures TapInv(t)
  {
  }

  /** The graph after the page has been added, before its parent is. */
  ghost predicate JustDiscovered(g: Graph, fp: string) {
    && GraphInv(g) && g.discovered != [] && g.discovered[|g.discovered| - 1] == fp && fp !in g.parents
  }

  lemma DiscoverKeepsGraph(s: State, page: Page)
    requires GraphInv(s.graph) && forall a :: a in page.actions ==> !a.backtrack
    ensures var g := Discover(s, page).graph;
            && GraphInv(g) && page.fingerprint in g.nodes
            && (page.fingerprint !in s.graph.nodes ==> JustDiscovered(g, page.fingerprint))
            && s.graph.nodes.Keys <= g.nodes.Keys
  {
    var g, h := s.graph, Discover(s, page).graph;
    if page.fingerprint !in g.nodes {
      forall i | 0 <= i < |h.discovered| && h.discovered[i] in h.parents && h.parents[h.discovered[i]].FromPage?
        ensures exists j :: 0 <= j < i && h.discovered[j] == h.parents[h.discovered[i]].fingerprint
      {
        assert i < |g.discovered| && g.discovered[i] == h.discovered[i];
        var j :| 0 <= j < i && g.discovered[j] == g.parents[g.discovered[i]].fingerprint;
        assert h.discovered[j] == h.parents[h.discovered[i]].fingerprint;
      }
    }
  }

  lemma NewParentIsEarlier(discovered: seq<string>, parents: map<string, Origin>, fp: string, origin: Origin)
    requires ParentsEarlier(discovered, parents) && NoRepeats(discovered)
    requires discovered != [] && discovered[|discovered| - 1] == fp
    requires origin.FromPage? ==> origin.fingerprint in discovered && origin.fingerprint != fp
    ensures ParentsEarlier(discovered, parents[fp := origin])
  {
    var more := parents[fp := origin];
    forall i | 0 <= i < |discovered| && discovered[i] in more && more[discovered[i]].FromPage?
      ensures exists j :: 0 <= j < i && discovered[j] == more[discovered[i]].fingerprint
    {
      if discovered[i] == fp {
        assert i == |discovered| - 1;
        var j :| 0 <= j < |discovered| && discovered[j] == origin.fingerprint;
      }
    }
  }

  lemma AdoptsKeepsGraph(g: Graph, h: Graph, step: Step, page: Page, isNew: bool)
    requires GraphInv(g) && Adopts(g, h, step, page, isNew)
    requires Known(g, step.from) && (isNew ==> JustDiscovered(g, page.fingerprint))
    ensures GraphInv(h)
  {
    if isNew && !step.action.backtrack && step.from != FromPage(page.fingerprint) {
      var back := InverseAction(step.action, page.fingerprint, step.from);
      NewParentKeepsGraph(g, h, page.fingerprint, step.from, back);
    }
  }

  lemma NewParentKeepsGraph(g: Graph, h: Graph, fp: string, from: Origin, back: Action)
    requires GraphInv(g) && JustDiscovered(g, fp) && Known(g, from) && from != FromPage(fp)
    requires back.backtrack && back.kind != Tap
    requires h.nodes == g.nodes && h.discovered == g.discovered
    requires h.parents == g.parents[fp := from] && h.returnActions == g.returnActions[fp := back]
    ensures GraphInv(h)
  {
    NewParentIsEarlier(g.discovered, g.parents, fp, from);
    NewReturnFits(g.returnActions, fp, back);
    assert h.parents.Keys == g.parents.Keys + {fp} && h.returnActions.Keys == g.returnActions.Keys + {fp};
  }

  lemma NewReturnFits(backs: map<string, Action>, fp: string, back: Action)
    requires ReturnsFit(backs) && back.backtrack && back.kind != Tap
    ensures ReturnsFit(backs[fp := back])
  {
  }

  // ----- Recording a page ----------------------------------------------------

  lemma ArriveFrames(s: State, page: Page)
    ensures var t := Discover(NoteSemantic(s, page.semantic), page);
            && Framed(s, t) && t.loop == s.loop && t.receipts == s.receipts
            && t.counters == s.counters && t.cover.blocked == s.cover.blocked
            && t.graph.steps == s.graph.steps && t.graph.edges == s.graph.edges
            && t.graph == Discover(s, page).graph
  {
  }

  ghost predicate WellFormedPage(page: Page) { forall a :: a in page.actions ==> !a.backtrack }

  lemma RecordPageKeepsCounts(s: State, page: Page, now: int, config: Config)
    requires CountInv(s, config)
    ensures CountInv(RecordPage(s, page, now), config)
    ensures RecordPage(s, page, now).loop.pending.None?
  {
    ArriveFrames(s, page);
    var s1 := Discover(NoteSemantic(s, page.semantic), page);
    if s1.loop.pending.Some? {
      var i, isNew := s1.loop.pending.value, page.fingerprint !in s.graph.nodes;
      SettleFrames(s1, i, page, isNew, now);
      SettleCloses(s1, i, page, isNew, now);
      ClosesKeepsCounts(s1, SettleStep(s1, i, page, isNew, now), config, i, page);
    }
  }

  lemma RecordPageKeepsReceipts(s: State, page: Page, now: int)
    requires ReceiptInv(s)
    ensures ReceiptInv(RecordPage(s, page, now))
  {
    ArriveFrames(s, page);
    var s1 := Discover(NoteSemantic(s, page.semantic), page);
    assert ReceiptInv(s1);
    if s1.loop.pending.Some? && s1.loop.pending.value < |s1.graph.steps| {
      var i, isNew := s1.loop.pending.value, page.fingerprint !in s.graph.nodes;
      SettleFrames(s1, i, page, isNew, now);
      SettleCloses(s1, i, page, isNew, now);
      ClosesKeepsReceipts(s1, SettleStep(s1, i, page, isNew, now), i, page);
    }
  }

  lemma RecordPageFrames(s: State, page: Page, now: int)
    ensures Framed(s, RecordPage(s, page, now))
  {
    ArriveFrames(s, page);
    var s1 := Discover(NoteSemantic(s, page.semantic), page);
    if s1.loop.pending.Some? && s1.loop.pending.value < |s1.graph.steps| {
      SettleFrames(s1, s1.loop.pending.value, page, page.fingerprint !in s.graph.nodes, now);
    }
  }

  lemma SettleKeepsGraph(s: State, pending: nat, page: Page, isNew: bool, now: int)
    requires pending < |s.graph.steps| && GraphInv(s.graph) && Known(s.graph, s.graph.steps[pending].from)
    requires isNew ==> JustDiscovered(s.graph, page.fingerprint)
    ensures var t := SettleStep(s, pending, page, isNew, now);
            && GraphInv(t.graph) && t.loop.pending.None?
            && t.graph.nodes == s.graph.nodes && t.graph.discovered == s.graph.discovered
  {
    SettleCloses(s, pending, page, isNew, now);
    AdoptsKeepsGraph(s.graph, SettleStep(s, pending, page, isNew, now).graph, s.graph.steps[pending], page, isNew);
  }

  lemma RecordPageKeepsGraph(s: State, page: Page, now: int)
    requires GraphInv(s.graph) && PendingInv(s) && WellFormedPage(page)
    ensures var t := RecordPage(s, page, now);
            && GraphInv(t.graph) && t.loop.pending.None? && page.fingerprint in t.graph.nodes
            && t.graph.nodes == Discover(s, page).graph.nodes
            && t.graph.discovered == Discover(s, page).graph.discovered
  {
    ArriveFrames(s, page);
    DiscoverKeepsGraph(s, page);
    var s1 := Discover(NoteSemantic(s, page.semantic), page);
    if s1.loop.pending.Some? {
      var i := s1.loop.pending.value;
      assert Known(s1.graph, s1.graph.steps[i].from);
      SettleKeepsGraph(s1, i, page, page.fingerprint !in s.graph.nodes, now);
    }
  }

  // ----- Choosing ------------------------------------------------------------

  ghost predicate WellFormedAdvice(advice: Advice) {
    && (advice.preferred.Some? ==> advice.preferred.value.kind == Tap && !advice.preferred.value.backtrack)
    && (advice.confirm.Some? ==> advice.confirm.value.kind == Tap && !advice.confirm.value.backtrack)
  }

  /** What choosing may touch: it may mark a tap, reset the round, count a return
      attempt and move the loop's timers. */
  ghost predicate ChoiceFrame(s: State, t: State) {
    && t.trace == s.trace && t.receipts == s.receipts && t.counters == s.counters && t.log == s.log
    && t.cover.blocked == s.cover.blocked && t.cover.seenSemantic == s.cover.seenSemantic
    && s.cover.seenTaps <= t.cover.seenTaps
    && t.loop.pending == s.loop.pending && t.loop.attemptNumber == s.loop.attemptNumber
    && t.detours == s.detours
    && t.graph == s.graph.(nodes := t.graph.nodes, returnAttempts := t.graph.returnAttempts)
    && ((t.graph.nodes == s.graph.nodes && t.roundSteps == s.roundSteps)
        || (t.graph.nodes == ResetNodes(s.graph.nodes) && t.roundSteps == 0))
  }

  /** What is known of a chosen action, by the path it was chosen on. */
  ghost predicate Justified(s: State, t: State, config: Config, page: Page, a: Action, path: Path)
    requires page.fingerprint in s.graph.nodes && page.fingerprint in t.graph.nodes
  {
    var before, node := s.graph.nodes[page.fingerprint], t.graph.nodes[page.fingerprint];
    match path
    case Language =>
      a.kind == Tap && !a.backtrack
      && (page.activity, a.Key()) !in s.cover.seenTaps && (page.activity, a.Key()) in t.cover.seenTaps
    case Coverage =>
      && a in node.actions && a.id !in node.tried
      && (before.semantic, Keyed(a.Key())) !in s.cover.blocked
      && (a.kind == Tap ==>
            (page.activity, a.Key()) !in s.cover.seenTaps && (page.activity, a.Key()) in t.cover.seenTaps)
    case Return =>
      && page.fingerprint in s.graph.returnActions && a == s.graph.returnActions[page.fingerprint]
      && s.counters.backtracks < config.maxBacktracks
    case Escape => a == SystemBack || (a in page.actions && a.IsVisibleBackControl())
  }

  ghost predicate ChoiceFits(s: State, t: State, config: Config, page: Page, choice: Choice)
    requires page.fingerprint in s.graph.nodes
  {
    && ChoiceFrame(s, t)
    && (choice.Take? ==> Justified(s, t, config, page, choice.action, choice.path))
  }

  lemma ReopenedFits(s: State, page: Page)
    requires page.fingerprint in s.graph.nodes
    ensures var t := Reopened(s);
            && ChoiceFrame(s, t) && t.cover.seenTaps == s.cover.seenTaps
            && page.fingerprint in t.graph.nodes
            && t.graph.nodes[page.fingerprint].semantic == s.graph.nodes[page.fingerprint].semantic
  {
  }

  /** A coverage pick from a state that the choice may already have reopened. */
  lemma PickFits(s: State, t: State, config: Config, page: Page, advice: Advice, a: Action)
    requires page.fingerprint in s.graph.nodes && page.fingerprint in t.graph.nodes
    requires ChoiceFrame(s, t) && t.cover.seenTaps == s.cover.seenTaps
    requires var node := t.graph.nodes[page.fingerprint];
             && node.semantic == s.graph.nodes[page.fingerprint].semantic
             && a in node.actions
             && Selectable(node, config, Excluded(t.loop, t.cover, node, page.activity, advice), a)
    ensures ChoiceFits(s, MarkTap(t, page.activity, a), config, page, Take(a, Coverage))
  {
  }

  lemma NewRoundFits(s: State, config: Config, page: Page, advice: Advice)
    requires page.fingerprint in s.graph.nodes
    ensures ChoiceFits(s, NewRound(s, config, page, advice).0, config, page, NewRound(s, config, page, advice).1)
  {
    var t := Reopened(s);
    ReopenedFits(s, page);
    var node := t.graph.nodes[page.fingerprint];
    var again := Select(node, config, Excluded(t.loop, t.cover, node, page.activity, advice), advice.rankAfterReset);
    if again.Some? { PickFits(s, t, config, page, advice, again.value); }
  }

  lemma LeaveStuckFits(s: State, config: Config, page: Page, now: int)
    requires page.fingerprint in s.graph.nodes
    ensures var semantic := s.graph.nodes[page.fingerprint].semantic;
            ChoiceFits(s, LeaveStuck(s, page, semantic, now).0, config, page, LeaveStuck(s, page, semantic, now).1)
  {
  }

  lemma LoopOnly(s: State, s1: State, t: State, config: Config, page: Page, choice: Choice)
    requires page.fingerprint in s.graph.nodes
    requires s1 == s.(loop := s1.loop)
    requires s1.loop.pending == s.loop.pending && s1.loop.attemptNumber == s.loop.attemptNumber
    requires ChoiceFits(s1, t, config, page, choice)
    ensures ChoiceFits(s, t, config, page, choice)
  {
  }

  lemma LeaveExhaustedFits(s: State, config: Config, page: Page, advice: Advice)
    requires page.fingerprint in s.graph.nodes
    ensures var semantic := s.graph.nodes[page.fingerprint].semantic;
            var (t, choice) := LeaveExhausted(s, config, page, semantic, advice);
            ChoiceFits(s, t, config, page, choice)
  {
    NewRoundFits(s, config, page, advice);
    LeaveStuckFits(s, config, page, advice.now);
  }

  lemma ExhaustedFits(s: State, config: Config, page: Page, advice: Advice)
    requires page.fingerprint in s.graph.nodes
    ensures var (t, choice) := ChooseExhausted(s, config, page, advice); ChoiceFits(s, t, config, page, choice)
  {
    var semantic := s.graph.nodes[page.fingerprint].semantic;
    var l := if s.loop.escalationArmed == semantic then CoolEscalation(s.loop, semantic, advice.now) else s.loop;
    var s1 := s.(loop := NoteExhausted(l, page.fingerprint));
    var (t, choice) := LeaveExhausted(s1, config, page, semantic, advice);
    LeaveExhaustedFits(s1, config, page, advice);
    LoopOnly(s, s1, t, config, page, choice);
  }

  lemma LanguageFits(s: State, config: Config, page: Page, advice: Advice, a: Action)
    requires page.fingerprint in s.graph.nodes && WellFormedAdvice(advice)
    requires LanguageChoice(s, page, s.graph.nodes[page.fingerprint].semantic, advice) == Some(a)
    ensures ChoiceFits(s, MarkTap(s, page.activity, a), config, page, Take(a, Language))
  {
  }

  lemma ReturnFits(s: State, config: Config, page: Page, l: Loop)
    requires page.fingerprint in s.graph.nodes && MayReturn(s, config, page)
    requires l.pending == s.loop.pending && l.attemptNumber == s.loop.attemptNumber
    ensures ChoiceFits(s, TakeReturn(s.(loop := l), page), config, page,
                       Take(s.graph.returnActions[page.fingerprint], Return))
  {
  }

  lemma ChooseFits(s: State, config: Config, page: Page, advice: Advice)
    requires page.fingerprint in s.graph.nodes && WellFormedAdvice(advice)
    ensures var (t, choice) := Choose(s, config, page, advice); ChoiceFits(s, t, config, page, choice)
  {
    var node := s.graph.nodes[page.fingerprint];
    var language := LanguageChoice(s, page, node.semantic, advice);
    var coverage := CoverageChoice(s.loop, s.cover, config, page.activity, node, advice);
    if language.Some? {
      LanguageFits(s, config, page, advice, language.value);
    } else if coverage.Some? {
      PickFits(s, s, config, page, advice, coverage.value);
    } else {
      if MayReturn(s, config, page) {
        ReturnFits(s, config, page, s.loop);
        ReturnFits(s, config, page, CoolEscalation(s.loop, node.semantic, advice.now));
      }
      ExhaustedFits(s, config, page, advice);
    }
  }

  lemma LogKeepsTaps(s: State, t: State, config: Config, page: Page, semantic: string, choice: Choice)
    requires TapInv(s) && GraphInv(s.graph) && page.fingerprint in s.graph.nodes
    requires ChoiceFits(s, t, config, page, choice)
    ensures TapInv(LogChoice(t, page, semantic, choice))
  {
    var u := LogChoice(t, page, semantic, choice);
    if choice.Take? {
      var entry := Logged(page.activity, semantic, choice.action, choice.path);
      assert u.log == s.log + [entry];
      if Marked(entry) {
        forall i | 0 <= i < |s.log| && Marked(s.log[i])
          ensures s.log[i].activity != entry.activity || s.log[i].action.Key() != entry.action.Key()
        {
          assert (s.log[i].activity, s.log[i].action.Key()) in s.cover.seenTaps;
        }
      }
    }
  }

  lemma ChoiceKeepsRest(s: State, t: State, page: Page, semantic: string, choice: Choice, config: Config)
    requires CountInv(s, config) && ReceiptInv(s) && GraphInv(s.graph) && s.loop.pending.None?
    requires ChoiceFrame(s, t)
    ensures var u := LogChoice(t, page, semantic, choice);
            CountInv(u, config) && ReceiptInv(u) && GraphInv(u.graph) && u.loop.pending.None?
  {
  }

  // ----- Executing -----------------------------------------------------------

  lemma ExecuteKeepsGraph(s: State, page: Page, a: Action, path: Path, advice: Advice, outcome: Outcome)
    requires GraphInv(s.graph) && s.loop.pending.None? && page.fingerprint in s.graph.nodes
    ensures var t := Execute(s, page, a, path, advice, outcome);
            GraphInv(t.graph) && PendingInv(t) && t.log == s.log && t.graph.discovered == s.graph.discovered
            && t.graph.parents == s.graph.parents
  {
  }

  /** Without a record, executing moves no counter but that of stale pages. */
  lemma NotRecorded(s: State, page: Page, a: Action, path: Path, advice: Advice, outcome: Outcome)
    requires outcome != Done || Ordinary(s.loop.attemptNumber + 1) in s.receipts
    ensures var t := Execute(s, page, a, path, advice, outcome);
            && t.graph == s.graph && t.cover == s.cover && t.loop.pending == s.loop.pending
            && t.counters == s.counters.(staleActions := t.counters.staleActions)
  {
  }

  lemma ExecuteKeepsCounts(s: State, config: Config, page: Page, a: Action, path: Path, advice: Advice, outcome: Outcome)
    requires CountInv(s, config) && s.loop.pending.None?
    requires a.backtrack ==> s.counters.backtracks < config.maxBacktracks
    ensures CountInv(Execute(s, page, a, path, advice, outcome), config)
  {
    var id := Ordinary(s.loop.attemptNumber + 1);
    if outcome == Done && id !in s.receipts {
      var s1 := s.(loop := s.loop.(exhaustedPage := "", exhaustedCaptures := 0, attemptNumber := id.number));
      var s2 := s1.(receipts := s.receipts[id := Executed], loop := NoteAccepted(s1.loop, page, a, advice));
      assert Execute(s, page, a, path, advice, outcome) == RecordStep(s2, page, a, path, id);
      RecordStepKeepsCounts(s2, config, page, a, path, id);
    } else {
      NotRecorded(s, page, a, path, advice, outcome);
    }
  }

  lemma RecordStepKeepsCounts(s: State, config: Config, page: Page, a: Action, path: Path, id: StepId)
    requires CountInv(s, config) && s.loop.pending.None?
    requires a.backtrack ==> s.counters.backtracks < config.maxBacktracks
    ensures CountInv(RecordStep(s, page, a, path, id), config)
  {
  }

  /** The next number has no receipt and no step yet, so it may be given one. */
  lemma NextReceiptIsNew(s: State, t: State, status: Receipt)
    requires ReceiptInv(s)
    requires t.graph.steps == s.graph.steps && t.loop.attemptNumber == s.loop.attemptNumber + 1
    requires t.receipts == s.receipts || t.receipts == s.receipts[Ordinary(t.loop.attemptNumber) := status]
    ensures ReceiptInv(t) && Ordinary(t.loop.attemptNumber) !in s.receipts
    ensures forall i :: 0 <= i < |s.graph.steps| ==> s.graph.steps[i].id != Ordinary(t.loop.attemptNumber)
  {
  }

  lemma NotDoneAddsReceiptOnly(s: State, page: Page, a: Action, path: Path, advice: Advice, outcome: Outcome)
    requires outcome != Done
    ensures var t, id := Execute(s, page, a, path, advice, outcome), Ordinary(s.loop.attemptNumber + 1);
            && t.graph == s.graph && t.loop.attemptNumber == s.loop.attemptNumber + 1
            && (t.receipts == s.receipts || t.receipts == s.receipts[id := Rejected]
                || t.receipts == s.receipts[id := Failed])
  {
  }

  lemma ExecuteKeepsReceipts(s: State, page: Page, a: Action, path: Path, advice: Advice, outcome: Outcome)
    requires ReceiptInv(s)
    ensures ReceiptInv(Execute(s, page, a, path, advice, outcome))
  {
    var t := Execute(s, page, a, path, advice, outcome);
    if outcome != Done {
      NotDoneAddsReceiptOnly(s, page, a, path, advice, outcome);
      var status := if t.receipts == s.receipts[Ordinary(t.loop.attemptNumber) := Failed] then Failed else Rejected;
      NextReceiptIsNew(s, t, status);
    } else {
      var id := Ordinary(s.loop.attemptNumber + 1);
      var s1 := s.(loop := s.loop.(exhaustedPage := "", exhaustedCaptures := 0, attemptNumber := id.number));
      var s2 := s1.(receipts := s.receipts[id := Executed], loop := NoteAccepted(s1.loop, page, a, advice));
      NextReceiptIsNew(s, s2, Executed);
      RecordStepKeepsReceipts(s2, page, a, path, id);
      assert t == RecordStep(s2, page, a, path, id);
    }
  }

  lemma RecordStepKeepsReceipts(s: State, page: Page, a: Action, path: Path, id: StepId)
    requires ReceiptInv(s) && id == Ordinary(s.loop.attemptNumber)
    requires id in s.receipts && s.receipts[id] == Executed
    requires forall i :: 0 <= i < |s.graph.steps| ==> s.graph.steps[i].id != id
    ensures ReceiptInv(RecordStep(s, page, a, path, id))
  {
  }

  lemma ExecuteKeepsTaps(s: State, page: Page, a: Action, path: Path, advice: Advice, outcome: Outcome)
    requires TapInv(s)
    ensures TapInv(Execute(s, page, a, path, advice, outcome))
  {
    var t := Execute(s, page, a, path, advice, outcome);
    assert t.log == s.log && t.cover.seenTaps == s.cover.seenTaps;
  }

  // ----- The budget of a round -----------------------------------------------

  /** Executions a selection round can still spend on one action. */
  function ActionBudget(node: Node, a: Action): nat {
    if a.id in node.tried then 0
    else if a.kind != Swipe then 1
    else if Lookup(node.attempts, a.id) >= MAX_SCROLL_ATTEMPTS then 0
    else MAX_SCROLL_ATTEMPTS - Lookup(node.attempts, a.id)
  }

  function Budget(node: Node, actions: seq<Action>): nat {
    if actions == [] then 0
    else Budget(node, actions[..|actions| - 1]) + ActionBudget(node, actions[|actions| - 1])
  }

  /** Taps and inputs once each, swipes three times. */
  function Allowance(actions: seq<Action>): nat {
    if actions == [] then 0
    else Allowance(actions[..|actions| - 1]) + if actions[|actions| - 1].kind == Swipe then MAX_SCROLL_ATTEMPTS else 1
  }

  lemma BudgetWithinAllowance(node: Node, actions: seq<Action>)
    ensures Budget(node, actions) <= Allowance(actions)
    ensures node.tried == {} && node.attempts == map[] ==> Budget(node, actions) == Allowance(actions)
  {
  }

  /** A swipe that has used up its attempts counts as tried. */
  ghost predicate NodeInv(node: Node) {
    forall id :: id in node.attempts && node.attempts[id] >= MAX_SCROLL_ATTEMPTS ==> id in node.tried
  }

  lemma TryKeepsNodeInv(node: Node, a: Action)
    requires NodeInv(node)
    ensures NodeInv(TryAction(node, a))
  {
  }

  /** Trying any action never raises the budget; trying one that was untried on
      this page lowers it. */
  lemma {:induction false} TrySpends(node: Node, actions: seq<Action>, a: Action)
    requires NodeInv(node)
    ensures Budget(TryAction(node, a), actions) <= Budget(node, actions)
    ensures a in actions && a.id !in node.tried ==> Budget(TryAction(node, a), actions) < Budget(node, actions)
  {
    if actions != [] {
      var init, last := actions[..|actions| - 1], actions[|actions| - 1];
      TrySpends(node, init, a);
      assert ActionBudget(TryAction(node, a), last) <= ActionBudget(node, last);
      assert actions == init + [last];
      if a.id !in node.tried && last == a {
        assert ActionBudget(TryAction(node, a), last) < ActionBudget(node, last);
      }
    }
  }

  function Spent(node: Node): nat {
    BudgetWithinAllowance(node, node.actions);
    Allowance(node.actions) - Budget(node, node.actions)
  }

  /** Over all discovered pages. */
  ghost function TotalSpent(nodes: map<string, Node>, pages: seq<string>): nat
    requires forall fp :: fp in pages ==> fp in nodes
  {
    if pages == [] then 0
    else
      assert forall fp :: fp in pages[..|pages| - 1] ==> fp in pages;
      assert pages[|pages| - 1] in pages;
      TotalSpent(nodes, pages[..|pages| - 1]) + Spent(nodes[pages[|pages| - 1]])
  }

  ghost function TotalAllowance(nodes: map<string, Node>, pages: seq<string>): nat
    requires forall fp :: fp in pages ==> fp in nodes
  {
    if pages == [] then 0
    else
      assert forall fp :: fp in pages[..|pages| - 1] ==> fp in pages;
      assert pages[|pages| - 1] in pages;
      TotalAllowance(nodes, pages[..|pages| - 1]) + Allowance(nodes[pages[|pages| - 1]].actions)
  }

  ghost predicate Covers(nodes: map<string, Node>, pages: seq<string>) {
    forall fp :: fp in pages ==> fp in nodes
  }

  lemma SpentWithinAllowance(nodes: map<string, Node>, pages: seq<string>)
    requires Covers(nodes, pages)
    ensures TotalSpent(nodes, pages) <= TotalAllowance(nodes, pages)
  {
    if pages != [] {
      assert Covers(nodes, pages[..|pages| - 1]);
      SpentWithinAllowance(nodes, pages[..|pages| - 1]);
    }
  }

  /** Node by node the new table has spent at least as much. */
  ghost predicate SpendsMore(before: map<string, Node>, after: map<string, Node>, pages: seq<string>) {
    && Covers(before, pages) && Covers(after, pages)
    && forall fp :: fp in pages ==> Spent(after[fp]) >= Spent(before[fp])
  }

  lemma {:induction false} SpendsMoreInTotal(before: map<string, Node>, after: map<string, Node>, pages: seq<string>)
    requires SpendsMore(before, after, pages)
    ensures TotalSpent(after, pages) >= TotalSpent(before, pages)
    ensures (exists fp :: fp in pages && Spent(after[fp]) > Spent(before[fp])) ==>
              TotalSpent(after, pages) > TotalSpent(before, pages)
  {
    if pages != [] {
      var init, last := pages[..|pages| - 1], pages[|pages| - 1];
      assert pages == init + [last];
      assert SpendsMore(before, after, init);
      SpendsMoreInTotal(before, after, init);
      assert Spent(after[last]) >= Spent(before[last]);
    }
  }

  /** The coverage actions executed this round are paid for. */
  ghost predicate RoundInv(s: State) {
    && Covers(s.graph.nodes, s.graph.discovered)
    && (forall fp :: fp in s.graph.nodes ==> NodeInv(s.graph.nodes[fp]))
    && s.roundSteps <= TotalSpent(s.graph.nodes, s.graph.discovered)
  }

  lemma BudgetIgnoresActivity(node: Node, activity: string, actions: seq<Action>)
    ensures Budget(node.(activity := activity), actions) == Budget(node, actions)
  {
  }

  lemma SpentIgnoresActivity(node: Node, activity: string)
    ensures Spent(node.(activity := activity)) == Spent(node)
  {
    BudgetIgnoresActivity(node, activity, node.actions);
  }

  lemma DiscoverySpendsNothing(s: State, page: Page)
    requires Covers(s.graph.nodes, s.graph.discovered)
    ensures SpendsMore(s.graph.nodes, Discover(s, page).graph.nodes, s.graph.discovered)
  {
    if page.fingerprint in s.graph.nodes {
      SpentIgnoresActivity(s.graph.nodes[page.fingerprint], page.activity);
    }
  }

  lemma LongerListSpendsMore(nodes: map<string, Node>, pages: seq<string>, fp: string)
    requires Covers(nodes, pages) && fp in nodes
    ensures Covers(nodes, pages + [fp]) && TotalSpent(nodes, pages + [fp]) >= TotalSpent(nodes, pages)
  {
    assert (pages + [fp])[..|pages|] == pages;
  }

  lemma DiscoverKeepsNodes(s: State, page: Page)
    requires forall fp :: fp in s.graph.nodes ==> NodeInv(s.graph.nodes[fp])
    ensures var nodes := Discover(s, page).graph.nodes;
            page.fingerprint in nodes && forall fp :: fp in nodes ==> NodeInv(nodes[fp])
  {
  }

  lemma DiscoverKeepsRound(s: State, t: State, page: Page)
    requires RoundInv(s)
    requires t.graph.nodes == Discover(s, page).graph.nodes && t.graph.discovered == Discover(s, page).graph.discovered
    requires t.roundSteps == s.roundSteps
    ensures RoundInv(t)
  {
    var after := t.graph.nodes;
    DiscoverKeepsNodes(s, page);
    DiscoverySpendsNothing(s, page);
    SpendsMoreInTotal(s.graph.nodes, after, s.graph.discovered);
    LongerListSpendsMore(after, s.graph.discovered, page.fingerprint);
  }

  lemma ResetSpendsNothing(nodes: map<string, Node>, pages: seq<string>)
    requires Covers(nodes, pages)
    ensures Covers(ResetNodes(nodes), pages)
  {
  }

  lemma ChoiceKeepsRound(s: State, t: State)
    requires RoundInv(s) && ChoiceFrame(s, t)
    ensures RoundInv(t)
  {
    ResetSpendsNothing(s.graph.nodes, s.graph.discovered);
  }

  /** Executing touches at most the node of the page, and a step of the round is
      a try of its action there. */
  lemma ExecutionTriesAtMostOne(s: State, page: Page, a: Action, path: Path, advice: Advice, outcome: Outcome)
    requires page.fingerprint in s.graph.nodes
    ensures var t := Execute(s, page, a, path, advice, outcome);
            var tried := s.graph.nodes[page.fingerprint := TryAction(s.graph.nodes[page.fingerprint], a)];
            && t.graph.discovered == s.graph.discovered
            && (t.graph.nodes == s.graph.nodes || t.graph.nodes == tried)
            && s.roundSteps <= t.roundSteps <= s.roundSteps + 1
            && (t.roundSteps > s.roundSteps && !a.backtrack ==> path == Coverage && t.graph.nodes == tried)
            && (t.roundSteps > s.roundSteps ==> path == Coverage)
  {
  }

  lemma TrySpendsInTotal(nodes: map<string, Node>, pages: seq<string>, fp: string, a: Action)
    requires Covers(nodes, pages) && fp in pages && (forall p :: p in nodes ==> NodeInv(nodes[p]))
    ensures var after := nodes[fp := TryAction(nodes[fp], a)];
            && Covers(after, pages) && (forall p :: p in after ==> NodeInv(after[p]))
            && TotalSpent(after, pages) >= TotalSpent(nodes, pages)
            && (a in nodes[fp].actions && a.id !in nodes[fp].tried ==>
                  TotalSpent(after, pages) > TotalSpent(nodes, pages))
  {
    var node := nodes[fp];
    var after := nodes[fp := TryAction(node, a)];
    TrySpends(node, node.actions, a);
    TryKeepsNodeInv(node, a);
    assert SpendsMore(nodes, after, pages);
    SpendsMoreInTotal(nodes, after, pages);
  }

  /** Executing a coverage action costs at least one unit of the round's budget;
      no other execution refunds any. */
  lemma ExecutionSpends(s: State, page: Page, a: Action, path: Path, advice: Advice, outcome: Outcome)
    requires RoundInv(s) && GraphInv(s.graph) && page.fingerprint in s.graph.nodes
    requires path == Coverage ==>
      a in s.graph.nodes[page.fingerprint].actions && a.id !in s.graph.nodes[page.fingerprint].tried && !a.backtrack
    ensures var t := Execute(s, page, a, path, advice, outcome);
            && RoundInv(t)
            && TotalSpent(t.graph.nodes, t.graph.discovered) >= TotalSpent(s.graph.nodes, s.graph.discovered)
            && (t.roundSteps > s.roundSteps ==>
                  TotalSpent(t.graph.nodes, t.graph.discovered) > TotalSpent(s.graph.nodes, s.graph.discovered))
  {
    ExecutionTriesAtMostOne(s, page, a, path, advice, outcome);
    TrySpendsInTotal(s.graph.nodes, s.graph.discovered, page.fingerprint, a);
  }

  // ----- The other steps -----------------------------------------------------

  ghost predicate Inv(s: State, config: Config) {
    CountInv(s, config) && ReceiptInv(s) && GraphInv(s.graph) && PendingInv(s) && TapInv(s) && RoundInv(s)
  }

  ghost predicate WellFormed(e: Event) {
    match e
    case LastPage(page, _) => WellFormedPage(page)
    case Visit(page, advice, _) => WellFormedPage(page) && WellFormedAdvice(advice)
    case SessionStep(_, a) => !a.backtrack
    case _ => true
  }

  /** A step that leaves alone everything the invariants speak of. */
  ghost predicate Minor(s: State, t: State) {
    && t.graph == s.graph && t.cover == s.cover && t.trace == s.trace && t.receipts == s.receipts
    && t.log == s.log && t.roundSteps == s.roundSteps
    && t.counters == s.counters.(recoveries := t.counters.recoveries)
    && t.loop.pending == s.loop.pending && t.loop.attemptNumber == s.loop.attemptNumber
  }

  lemma MinorKeepsInv(s: State, t: State, config: Config)
    requires Inv(s, config) && Minor(s, t)
    ensures Inv(t, config)
  {
  }

  lemma SpecialKeepsInv(s: State, config: Config, key: SceneKey, fingerprint: string, a: Action, outcome: Outcome)
    requires Inv(s, config)
    ensures Inv(HandleSpecial(s, key, fingerprint, a, outcome), config)
  {
    var t := HandleSpecial(s, key, fingerprint, a, outcome);
    assert t.graph == s.graph.(steps := t.graph.steps) && s.graph.steps <= t.graph.steps;
    SpecialKeepsCounts(s, config, key, fingerprint, a, outcome);
    SpecialKeepsReceipts(s, key, fingerprint, a, outcome);
    assert PendingInv(t);
  }

  lemma SpecialKeepsCounts(s: State, config: Config, key: SceneKey, fingerprint: string, a: Action, outcome: Outcome)
    requires CountInv(s, config)
    ensures CountInv(HandleSpecial(s, key, fingerprint, a, outcome), config)
  {
  }

  lemma SpecialKeepsReceipts(s: State, key: SceneKey, fingerprint: string, a: Action, outcome: Outcome)
    requires ReceiptInv(s)
    ensures ReceiptInv(HandleSpecial(s, key, fingerprint, a, outcome))
  {
  }

  lemma BlockPendingBlocks(s: State)
    ensures MoreBlocked(s, BlockPendingTap(s))
  {
    if s.loop.pending.Some? && s.loop.pending.value < |s.graph.steps| {
      var step := s.graph.steps[s.loop.pending.value];
      BlockEdgeBlocks(s, SemanticOf(s.graph, step.from), Keyed(step.action.Key()));
    }
  }

  /** What deciding about a scene may do: block the pending tap, and minor things. */
  ghost predicate Decides(s: State, t: State) {
    Minor(s, t) || Minor(BlockPendingTap(s), t)
  }

  lemma DecidesKeepsInv(s: State, t: State, config: Config)
    requires Inv(s, config) && Decides(s, t)
    ensures Inv(t, config)
  {
    if Minor(s, t) {
      MinorKeepsInv(s, t, config);
    } else {
      BlockPendingKeepsInv(s, config);
      MinorKeepsInv(BlockPendingTap(s), t, config);
    }
  }

  lemma FollowPlanDecides(s: State, config: Config, key: SceneKey, kind: SceneKind, activity: string, plan: Plan,
                          elapsed: bool)
    ensures Decides(s, FollowPlan(s, config, key, kind, activity, plan, elapsed).0)
  {
    BlockPendingBlocks(s);
  }

  lemma BlockPendingIgnoresDetours(s: State, t: State)
    requires Minor(s, t)
    ensures Minor(BlockPendingTap(s), BlockPendingTap(t))
  {
  }

  lemma MinorThenDecides(s: State, t: State, u: State)
    requires Minor(s, t) && Decides(t, u)
    ensures Decides(s, u)
  {
    BlockPendingIgnoresDetours(s, t);
  }

  lemma ResolveSceneDecides(s: State, config: Config, key: SceneKey, scene: Scene, activity: string, now: int,
                            elapsed: bool)
    ensures Decides(s, ResolveScene(s, config, key, scene, activity, now, elapsed).0)
  {
    var plan := PlanOf(Lookup(s.detours.sceneAttempts, key), scene);
    var s1 := s.(detours := NoteWait(s.detours, key, scene, now));
    assert Minor(s, s1);
    FollowPlanDecides(s1, config, key, scene.kind, activity, plan, elapsed);
    MinorThenDecides(s, s1, FollowPlan(s1, config, key, scene.kind, activity, plan, elapsed).0);
  }

  lemma DecideSceneDecides(s: State, config: Config, scene: Scene, activity: string, now: int, elapsed: bool)
    ensures Decides(s, DecideScene(s, config, scene, activity, now, elapsed).0)
  {
    var key := KeyOf(s.detours, scene, activity);
    var s1 := if scene.kind == PurchaseFailure then s.(loop := s.loop.(purchaseBlocked := true)) else s;
    assert Minor(s, s1);
    ResolveSceneDecides(s1, config, key, scene, activity, now, elapsed);
    MinorThenDecides(s, s1, ResolveScene(s1, config, key, scene, activity, now, elapsed).0);
  }

  lemma SceneKeepsInv(s: State, config: Config, found: Option<Scene>, onTarget: bool, activity: string,
                      now: int, elapsed: bool, outcome: Outcome)
    requires Inv(s, config)
    ensures Inv(SceneStep(s, config, found, onTarget, activity, now, elapsed, outcome), config)
  {
    var s1 := s.(detours := EnterScene(s.detours, found, onTarget));
    MinorKeepsInv(s, s1, config);
    if found.Some? {
      var (s2, signal) := DecideScene(s1, config, found.value, activity, now, elapsed);
      DecideSceneDecides(s1, config, found.value, activity, now, elapsed);
      DecidesKeepsInv(s1, s2, config);
      if signal.SceneAct? {
        SpecialKeepsInv(s2, config, signal.key, found.value.fingerprint, signal.action, outcome);
      }
    }
  }

  lemma RestartIsMinor(s: State, activity: string, coldAllowed: bool, now: int, ok: bool)
    ensures Minor(s, RestartTarget(s, activity, coldAllowed, now, ok))
  {
  }

  lemma SessionActionKeepsInv(s: State, config: Config, activity: string, a: Action)
    requires Inv(s, config) && !a.backtrack
    ensures Inv(SessionAction(s, activity, a), config)
  {
    var t := SessionAction(s, activity, a);
    assert CountInv(t, config);
    assert ReceiptInv(t);
    assert PendingInv(t);
  }

  lemma BlockedKeepsInv(s: State, t: State, config: Config)
    requires Inv(s, config) && MoreBlocked(s, t)
    ensures Inv(t, config)
  {
  }

  lemma MarkExternalKeepsInv(s: State, config: Config, pending: nat, foreign: string)
    requires Inv(s, config) && s.loop.pending == Some(pending)
    ensures Inv(MarkExternal(s, pending, foreign), config)
  {
    var t := MarkExternal(s, pending, foreign);
    assert forall i :: 0 <= i < |s.graph.steps| ==>
      t.graph.steps[i].id == s.graph.steps[i].id && t.graph.steps[i].action == s.graph.steps[i].action;
    assert ReceiptInv(t);
  }

  lemma BlameKeepsInv(s: State, config: Config, foreign: string)
    requires Inv(s, config)
    ensures Inv(BlameStep(s, foreign), config)
  {
    if s.loop.pending.Some? {
      var pending := s.loop.pending.value;
      var s1 := BlockSource(s, s.graph.steps[pending]);
      assert MoreBlocked(s, s1);
      BlockedKeepsInv(s, s1, config);
      MarkExternalKeepsInv(s1, config, pending, foreign);
    }
  }

  lemma DropKeepsInv(s: State, config: Config)
    requires Inv(s, config)
    ensures Inv(DropPending(s), config)
  {
  }

  lemma LeaveForeignKeepsInv(s: State, config: Config, foreground: string, ok: bool)
    requires Inv(s, config)
    ensures Inv(LeaveForeign(s, foreground, ok), config)
  {
    var s1 := CountVisit(s, foreground);
    MinorKeepsInv(s, s1, config);
    BlameKeepsInv(s1, config, foreground);
    BackAfterVisitKeepsInv(BlameStep(s1, foreground), config, ok);
  }

  lemma BackAfterVisitKeepsInv(s: State, config: Config, ok: bool)
    requires Inv(s, config)
    ensures Inv(Recovered(s), config)
    ensures ok ==> Inv(ForgetExhaustion(DropPending(Recovered(s))), config)
  {
    MinorKeepsInv(s, Recovered(s), config);
    DropKeepsInv(s, config);
    MinorKeepsInv(DropPending(s), ForgetExhaustion(DropPending(Recovered(s))), config);
  }

  lemma LeavingDrops(s: State, foreground: string, home: bool, now: int, elapsed: bool, ok: bool)
    ensures var t := LeaveTarget(s, foreground, home, now, elapsed, ok);
            Minor(s, t) || Minor(DropPending(s), t) || t == LeaveForeign(s, foreground, ok)
  {
  }

  lemma LeaveTargetKeepsInv(s: State, config: Config, foreground: string, home: bool, now: int, elapsed: bool, ok: bool)
    requires Inv(s, config)
    ensures Inv(LeaveTarget(s, foreground, home, now, elapsed, ok), config)
  {
    var t := LeaveTarget(s, foreground, home, now, elapsed, ok);
    LeavingDrops(s, foreground, home, now, elapsed, ok);
    DropKeepsInv(s, config);
    LeaveForeignKeepsInv(s, config, foreground, ok);
    if Minor(s, t) {
      MinorKeepsInv(s, t, config);
    } else if Minor(DropPending(s), t) {
      MinorKeepsInv(DropPending(s), t, config);
    }
  }

  lemma BlockPendingKeepsInv(s: State, config: Config)
    requires Inv(s, config)
    ensures Inv(BlockPendingTap(s), config)
  {
    BlockPendingBlocks(s);
    BlockedKeepsInv(s, BlockPendingTap(s), config);
  }

  // ----- Runs ----------------------------------------------------------------

  /** Sets and orders that only ever grow during a session. */
  ghost predicate Grows(s: State, t: State) {
    && s.cover.blocked <= t.cover.blocked
    && s.cover.seenTaps <= t.cover.seenTaps
    && s.log <= t.log
    && |s.graph.steps| <= |t.graph.steps|
    && s.graph.discovered <= t.graph.discovered
    && (forall fp :: fp in s.graph.parents ==> fp in t.graph.parents && t.graph.parents[fp] == s.graph.parents[fp])
  }

  lemma GrowsTransitive(s: State, t: State, u: State)
    requires Grows(s, t) && Grows(t, u)
    ensures Grows(s, u)
  {
  }

  lemma RecordPageKeepsInv(s: State, config: Config, page: Page, now: int)
    requires Inv(s, config) && WellFormedPage(page)
    ensures var t := RecordPage(s, page, now);
            Inv(t, config) && t.loop.pending.None? && page.fingerprint in t.graph.nodes
  {
    var t := RecordPage(s, page, now);
    RecordPageKeepsCounts(s, page, now, config);
    RecordPageKeepsReceipts(s, page, now);
    RecordPageKeepsGraph(s, page, now);
    RecordPageFrames(s, page, now);
    FramedKeepsTaps(s, t);
    DiscoverKeepsRound(s, t, page);
  }

  lemma ChooseKeepsInv(s: State, config: Config, page: Page, advice: Advice)
    requires Inv(s, config) && s.loop.pending.None? && page.fingerprint in s.graph.nodes && WellFormedAdvice(advice)
    ensures var (s1, choice) := Choose(s, config, page, advice);
            var t := LogChoice(s1, page, s.graph.nodes[page.fingerprint].semantic, choice);
            Inv(t, config) && t.loop.pending.None? && page.fingerprint in t.graph.nodes
  {
    var (s1, choice) := Choose(s, config, page, advice);
    var semantic := s.graph.nodes[page.fingerprint].semantic;
    ChooseFits(s, config, page, advice);
    ChoiceKeepsRest(s, s1, page, semantic, choice, config);
    LogKeepsTaps(s, s1, config, page, semantic, choice);
    ChoiceKeepsRound(s, s1);
  }

  lemma ExecuteKeepsInv(s: State, config: Config, page: Page, a: Action, path: Path, advice: Advice, outcome: Outcome)
    requires Inv(s, config) && s.loop.pending.None? && page.fingerprint in s.graph.nodes
    requires a.backtrack ==> s.counters.backtracks < config.maxBacktracks
    requires path == Coverage ==>
      a in s.graph.nodes[page.fingerprint].actions && a.id !in s.graph.nodes[page.fingerprint].tried && !a.backtrack
    ensures Inv(Execute(s, page, a, path, advice, outcome), config)
  {
    ExecuteKeepsGraph(s, page, a, path, advice, outcome);
    ExecuteKeepsCounts(s, config, page, a, path, advice, outcome);
    ExecuteKeepsReceipts(s, page, a, path, advice, outcome);
    ExecuteKeepsTaps(s, page, a, path, advice, outcome);
    ExecutionSpends(s, page, a, path, advice, outcome);
  }

  lemma ChosenIsExecutable(s: State, t: State, config: Config, page: Page, a: Action, path: Path)
    requires page.fingerprint in s.graph.nodes && page.fingerprint in t.graph.nodes
    requires Justified(s, t, config, page, a, path) && GraphInv(t.graph)
    ensures a.backtrack ==> s.counters.backtracks < config.maxBacktracks
    ensures path == Coverage ==>
      a in t.graph.nodes[page.fingerprint].actions && a.id !in t.graph.nodes[page.fingerprint].tried && !a.backtrack
  {
  }

  lemma VisitKeepsInv(s: State, config: Config, page: Page, advice: Advice, outcome: Outcome)
    requires Inv(s, config) && s.loop.pending.None? && page.fingerprint in s.graph.nodes && WellFormedAdvice(advice)
    ensures Inv(ChooseAndExecute(s, config, page, advice, outcome), config)
  {
    var (s1, choice) := Choose(s, config, page, advice);
    ChooseKeepsInv(s, config, page, advice);
    ChooseFits(s, config, page, advice);
    if choice.Take? {
      var s2 := LogChoice(s1, page, s.graph.nodes[page.fingerprint].semantic, choice);
      ChosenIsExecutable(s, s1, config, page, choice.action, choice.path);
      ExecuteKeepsInv(s2, config, page, choice.action, choice.path, advice, outcome);
    }
  }

  lemma StepKeepsInv(s: State, config: Config, e: Event)
    requires Inv(s, config) && WellFormed(e)
    ensures Inv(Apply(s, config, e), config)
  {
    match e
    case LastPage(page, now) => RecordPageKeepsInv(s, config, page, now);
    case Visit(page, advice, outcome) =>
      RecordPageKeepsInv(s, config, page, advice.now);
      VisitKeepsInv(RecordPage(s, page, advice.now), config, page, advice, outcome);
    case SpecialScene(found, onTarget, activity, now, elapsed, outcome) =>
      SceneKeepsInv(s, config, found, onTarget, activity, now, elapsed, outcome);
    case SessionStep(activity, a) => SessionActionKeepsInv(s, config, activity, a);
    case OffTarget(foreground, home, now, elapsed, ok) =>
      LeaveTargetKeepsInv(s, config, foreground, home, now, elapsed, ok);
    case Handoff(ok) =>
      BlockPendingKeepsInv(s, config);
      MinorKeepsInv(BlockPendingTap(s), Recovered(BlockPendingTap(s)), config);
    case Restarting(activity, coldAllowed, now, ok) =>
      RestartIsMinor(s, activity, coldAllowed, now, ok);
      MinorKeepsInv(s, RestartTarget(s, activity, coldAllowed, now, ok), config);
  }

  lemma {:induction false} RunKeepsInv(s: State, config: Config, events: seq<Event>)
    requires Inv(s, config) && forall i :: 0 <= i < |events| ==> WellFormed(events[i])
    ensures Inv(Run(s, config, events), config)
    decreases |events|
  {
    if events != [] {
      StepKeepsInv(s, config, events[0]);
      RunKeepsInv(Apply(s, config, events[0]), config, events[1..]);
    }
  }
}
