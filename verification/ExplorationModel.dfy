/** The specification of the exploration engine: what settling a page, choosing
    an action, executing it and the steps around them do to a session. Values
    only; ExplorationManager does the same in place. */
module ExplorationModel {
  import opened Options
  import opened ExplorationTypes
  import C = CycleDetection

  const MAX_SCROLL_ATTEMPTS := 3
  const SELECTIONS_BEFORE_SCROLL := 2
  const EXHAUSTED_CAPTURES := 2
  const NO_PROGRESS_LIMIT := 2
  const ESCALATION_COOLDOWN := 30
  const SHELL_RELAUNCH_COOLDOWN := 30
  const HOME_RESUME_COOLDOWN := 8
  const LOAD_FAILURE_ATTEMPTS := 2
  const MAX_ESCAPES := 4
  const MAX_EXTERNAL := 3

  /** Where a step came from: a page of the graph, or an action of the session
      itself, which is filed under the activity it happened in. */
  datatype Origin = FromPage(fingerprint: string) | FromActivity(activity: string)

  datatype StepId = Ordinary(number: nat) | OfSession(number: nat)

  datatype Step = Step(id: StepId, from: Origin, action: Action, destination: Option<string>)

  datatype Edge = Edge(from: Origin, actionId: string, to: string)

  datatype Node = Node(actions: seq<Action>, activity: string, semantic: string,
                       tried: set<string>, attempts: map<string, nat>, nonScroll: nat)

  datatype Receipt = Accepted | Rejected | Executed | Failed

  datatype Graph = Graph(
    nodes: map<string, Node>,
    discovered: seq<string>,               // history: fingerprints in order of discovery
    edges: seq<Edge>, steps: seq<Step>,
    parents: map<string, Origin>, returnActions: map<string, Action>, returnAttempts: map<string, nat>)

  type EdgeKey = (string, EdgeAction)

  datatype Cover = Cover(
    blocked: set<EdgeKey>,
    seenSemantic: set<string>,
    seenTaps: set<(string, ActionKey)>,    // activity, key
    inputTried: set<(string, string)>)     // activity, action id

  datatype Counters = Counters(
    backtracks: nat, cycleDetections: nat, blockedEdges: nat, staleActions: nat,
    effective: nat, ineffective: nat, external: nat,
    scrolls: nat, scrollAttempts: nat, scrollProgress: nat, scrollStalls: nat,
    inputs: nat, recoveries: nat, specialActions: nat)

  datatype Stuck = Stuck(noProgress: map<string, nat>, semantic: string, activity: string,
                         backSent: string, ready: bool, relaunch: bool)

  datatype Loop = Loop(
    pending: Option<nat>, attemptNumber: nat,
    exhaustedPage: string, exhaustedCaptures: nat,
    escalationArmed: string, coolState: string, coolUntil: int,
    backEscapeState: string, ladderCoolUntil: int,
    samePageSwipes: map<EdgeKey, nat>, accepted: map<string, ActionKey>,
    purchaseBlocked: bool, coldStart: bool, stuck: Stuck)

  /** What the loop remembers of special scenes, foreign packages and restarts. */
  datatype Detours = Detours(
    sceneAttempts: map<SceneKey, nat>, waitStarted: map<SceneKey, int>,
    adActive: bool, adEncounter: nat, suppressScroll: bool,
    externalAttempts: map<string, nat>, homeResumeAfter: int,
    escapeActivity: string, escapeAttempts: nat)

  /** How an action came to be chosen. */
  datatype Path = Language | Coverage | Return | Escape

  datatype Logged = Logged(activity: string, semantic: string, action: Action, path: Path)

  datatype State = State(
    graph: Graph, cover: Cover, trace: seq<Sample>, receipts: map<StepId, Receipt>,
    counters: Counters, loop: Loop, detours: Detours,
    log: seq<Logged>,                      // history: every action chosen
    roundSteps: nat)                       // history: coverage actions executed this round

  const NoCounters := Counters(0, 0, 0, 0, 0, 0, 0, 0, 0, 0, 0, 0, 0, 0)
  const FreshLoop := Loop(None, 0, "", 0, "", "", 0, "", 0, map[], map[], false, false,
                          Stuck(map[], "", "", "", false, false))
  const NoDetours := Detours(map[], map[], false, 0, false, map[], 0, "", 0)
  const Initial := State(
    Graph(map[], [], [], [], map[], map[], map[]), Cover({}, {}, {}, {}), [], map[],
    NoCounters, FreshLoop, NoDetours, [], 0)

  datatype Config = Config(enableScroll: bool, enableBacktrack: bool, recoverPopups: bool, maxBacktracks: nat,
                           maxSceneAttempts: nat, adMaxWait: int)

  /** One stable capture, analyzed. */
  datatype Page = Page(fingerprint: string, semantic: string, activity: string, actions: seq<Action>)

  /** What the label heuristics, the ranking and the clock say at one choice. */
  datatype Advice = Advice(
    languageSurface: bool, preferred: Option<Action>, confirm: Option<Action>,
    barred: Action -> bool, purchase: Action -> bool,
    rank: Action -> int, rankAfterReset: Action -> int,
    elapsed: bool, now: int)

  // ----- Blocking ------------------------------------------------------------

  function BlockEdge(s: State, semantic: string, action: EdgeAction): State {
    if (semantic, action) in s.cover.blocked then s
    else s.(cover := s.cover.(blocked := s.cover.blocked + {(semantic, action)}),
            counters := s.counters.(blockedEdges := s.counters.blockedEdges + 1))
  }

  function BlockSamples(s: State, samples: seq<Sample>): State {
    if samples == [] then s
    else
      var last := samples[|samples| - 1];
      BlockEdge(BlockSamples(s, samples[..|samples| - 1]), last.blockFrom, last.action)
  }

  function SemanticOf(g: Graph, origin: Origin): string {
    match origin
    case FromPage(fp) => if fp in g.nodes then g.nodes[fp].semantic else fp
    case FromActivity(name) => name
  }

  function ActivityOf(g: Graph, origin: Origin): string {
    if origin.FromPage? && origin.fingerprint in g.nodes then g.nodes[origin.fingerprint].activity else ""
  }

  // ----- Settling a page -----------------------------------------------------

  function NoteSemantic(s: State, semantic: string): State {
    if semantic in s.cover.seenSemantic then s
    else s.(trace := if s.cover.seenSemantic == {} then s.trace else [],
            cover := s.cover.(seenSemantic := s.cover.seenSemantic + {semantic}))
  }

  function Discover(s: State, page: Page): State {
    var g := s.graph;
    if page.fingerprint !in g.nodes then
      s.(graph := g.(
        nodes := g.nodes[page.fingerprint := Node(page.actions, page.activity, page.semantic, {}, map[], 0)],
        discovered := g.discovered + [page.fingerprint]))
    else
      var node := g.nodes[page.fingerprint];
      if page.activity != "" && node.activity == "" then
        s.(graph := g.(nodes := g.nodes[page.fingerprint := node.(activity := page.activity)]))
      else s
  }

  /** The pending step gets its destination, its receipt and its edge. */
  function CloseStep(s: State, pending: nat, page: Page): State
    requires pending < |s.graph.steps|
  {
    var step := s.graph.steps[pending];
    var scroll := step.action.kind == Swipe && !step.action.backtrack;
    var stalled := step.from == FromPage(page.fingerprint);
    s.(graph := s.graph.(
         steps := s.graph.steps[pending := step.(destination := Some(page.fingerprint))],
         edges := s.graph.edges + [Edge(step.from, step.action.id, page.fingerprint)]),
       receipts := if step.id in s.receipts then s.receipts[step.id := Executed] else s.receipts,
       counters := s.counters.(
         scrollStalls := s.counters.scrollStalls + if scroll && stalled then 1 else 0,
         scrollProgress := s.counters.scrollProgress + if scroll && !stalled then 1 else 0))
  }

  function Lookup<K>(m: map<K, nat>, k: K): nat { if k in m then m[k] else 0 }

  /** Going back changed nothing: the tap before led nowhere. */
  function BlockDeadEnd(s: State, pending: nat, from: string): State
    requires pending < |s.graph.steps|
  {
    if s.graph.steps[pending].action.IsVisibleBackControl() && pending > 0
       && s.graph.steps[pending - 1].action.kind == Tap
       && !s.graph.steps[pending - 1].action.IsVisibleBackControl()
    then BlockEdge(s, from, Keyed(s.graph.steps[pending - 1].action.Key()))
    else s
  }

  /** A swipe that moves nothing is given up after a few attempts. */
  function NoteStall(s: State, action: Action, from: string): State {
    if action.kind == Swipe && !action.backtrack then
      var stall := (from, Keyed(action.Key()));
      var n := Lookup(s.loop.samePageSwipes, stall) + 1;
      var s1 := s.(loop := s.loop.(samePageSwipes := s.loop.samePageSwipes[stall := n]));
      if n >= MAX_SCROLL_ATTEMPTS then BlockEdge(s1, from, Keyed(action.Key())) else s1
    else s
  }

  /** The action left the semantic state unchanged. */
  function NoteIneffective(s: State, pending: nat, from: string): State
    requires pending < |s.graph.steps|
  {
    var s1 := s.(counters := s.counters.(ineffective := s.counters.ineffective + 1));
    NoteStall(BlockDeadEnd(s1, pending, from), s.graph.steps[pending].action, from)
  }

  function NoteEffect(s: State, pending: nat, from: string, to: string): State
    requires pending < |s.graph.steps|
  {
    if from == to then NoteIneffective(s, pending, from)
    else s.(counters := s.counters.(effective := s.counters.effective + 1))
  }

  function NoteProgress(k: Stuck, semantic: string, activity: string, progressed: bool): Stuck {
    if semantic == "" then k
    else if progressed then k.(semantic := "", activity := "", backSent := "", ready := false)
    else
      var n := Lookup(k.noProgress, semantic) + 1;
      var k1 := k.(noProgress := k.noProgress[semantic := n]);
      if n >= NO_PROGRESS_LIMIT then k1.(semantic := semantic, activity := activity, ready := true) else k1
  }

  function NoteBacktrack(s: State, step: Step, from: string, page: Page): State {
    if !step.action.backtrack then s
    else if step.from.FromPage? && step.from.fingerprint in s.graph.parents
            && s.graph.parents[step.from.fingerprint] == FromPage(page.fingerprint) then s
    else BlockEdge(s, from, Backtracking)
  }

  /** The transition as the cycle guard is told about it: by activity when it
      crosses activities, by semantic state otherwise. */
  function SampleOf(g: Graph, step: Step, from: string, page: Page): Sample {
    var activity := ActivityOf(g, step.from);
    var crosses := activity != "" && page.activity != "" && activity != page.activity;
    Sample(if crosses then "activity:" + activity else from, step.action.StepKey(),
           if crosses then "activity:" + page.activity else page.semantic, from)
  }

  /** Inputs, and swipes that stay where they are, are not navigation. */
  predicate Observed(action: Action, sample: Sample) {
    action.kind != Input && !(action.kind == Swipe && !action.backtrack && sample.from == sample.to)
  }

  predicate ArmsEscalation(l: Loop, semantic: string, now: int) {
    semantic != "" && (semantic != l.coolState || now >= l.coolUntil)
  }

  /** A period blocks every edge of its last round; the sentinel for a repeated
      transition blocks this edge only. */
  function BlockVerdict(s: State, verdict: nat, edge: EdgeKey): State {
    if verdict <= C.MAX_PERIOD && verdict <= |s.trace| then BlockSamples(s, s.trace[|s.trace| - verdict..])
    else BlockEdge(s, edge.0, edge.1)
  }

  function ReactToVerdict(s: State, verdict: nat, edge: EdgeKey, semantic: string, now: int): State {
    if verdict == 0 then s
    else
      var s1 := s.(counters := s.counters.(cycleDetections := s.counters.cycleDetections + 1));
      var s2 := BlockVerdict(s1, verdict, edge);
      if ArmsEscalation(s2.loop, semantic, now)
      then s2.(loop := s2.loop.(escalationArmed := semantic)) else s2
  }

  ghost function ObserveCycle(s: State, step: Step, from: string, page: Page, now: int): State {
    var sample := SampleOf(s.graph, step, from, page);
    if !Observed(step.action, sample) then s
    else
      var s1 := s.(trace := s.trace + [sample]);
      ReactToVerdict(s1, C.Verdict(C.Keys(s1.trace)), (from, step.action.StepKey()), page.semantic, now)
  }

  function OriginName(origin: Origin): string {
    match origin case FromPage(fp) => fp case FromActivity(name) => name
  }

  /** How to get back from `page`: the reverse swipe, or the back key. The id is
      given before hashing. */
  function InverseAction(a: Action, page: string, parent: Origin): Action {
    if a.kind != Swipe then
      Action("back:" + page + ":" + OriginName(parent), Back, "", "", "DFS backtrack", 0, 0, 0, 0,
             false, true, false, false)
    else
      Action("reverse-swipe:" + page + ":" + OriginName(parent) + ":" + a.id, Swipe, a.resource, a.className,
             "DFS scroll backtrack", a.endX, a.endY, a.x, a.y, false, true, false, false)
  }

  function Adopt(s: State, step: Step, page: Page, isNew: bool): State {
    if step.action.backtrack || !isNew || step.from == FromPage(page.fingerprint) then s
    else s.(graph := s.graph.(
      parents := s.graph.parents[page.fingerprint := step.from],
      returnActions := s.graph.returnActions[page.fingerprint := InverseAction(step.action, page.fingerprint, step.from)]))
  }

  ghost function SettleStep(s: State, pending: nat, page: Page, isNew: bool, now: int): State
    requires pending < |s.graph.steps|
  {
    var step := s.graph.steps[pending];
    var from := SemanticOf(s.graph, step.from);
    var s1 := CloseStep(s, pending, page);
    var s2 := NoteEffect(s1, pending, from, page.semantic);
    var s3 := s2.(loop := s2.loop.(stuck :=
      NoteProgress(s2.loop.stuck, page.semantic, page.activity, from != page.semantic)));
    var s4 := NoteBacktrack(s3, step, from, page);
    var s5 := ObserveCycle(s4, step, from, page, now);
    var s6 := Adopt(s5, step, page, isNew);
    s6.(loop := s6.loop.(pending := None))
  }

  ghost function RecordPage(s: State, page: Page, now: int): State {
    var isNew := page.fingerprint !in s.graph.nodes;
    var s1 := Discover(NoteSemantic(s, page.semantic), page);
    if s1.loop.pending.Some? && s1.loop.pending.value < |s1.graph.steps|
    then SettleStep(s1, s1.loop.pending.value, page, isNew, now)
    else s1
  }

  // ----- Choosing ------------------------------------------------------------

  function Filter(actions: seq<Action>, keep: Action -> bool): (r: seq<Action>)
    ensures forall a :: a in r <==> a in actions && keep(a)
  {
    if actions == [] then []
    else
      var last := actions[|actions| - 1];
      assert actions == actions[..|actions| - 1] + [last];
      Filter(actions[..|actions| - 1], keep) + if keep(last) then [last] else []
  }

  /** sort.Slice by rank, then the first. */
  function LeastRanked(actions: seq<Action>, rank: Action -> int): (a: Action)
    requires actions != []
    ensures a in actions
    ensures forall b :: b in actions ==> rank(a) <= rank(b)
  {
    var last := actions[|actions| - 1];
    assert actions == actions[..|actions| - 1] + [last];
    if |actions| == 1 then last
    else
      var best := LeastRanked(actions[..|actions| - 1], rank);
      if rank(last) < rank(best) then last else best
  }

  /** Keep a preferred kind of candidate if there is one. */
  function Narrow(actions: seq<Action>, wanted: bool, keep: Action -> bool): (r: seq<Action>)
    ensures forall a :: a in r ==> a in actions
    ensures r == [] ==> actions == []
  {
    var kept := Filter(actions, keep);
    if wanted && kept != [] then kept else actions
  }

  predicate Selectable(node: Node, config: Config, excluded: Action -> bool, a: Action) {
    a.id !in node.tried && (a.kind != Swipe || config.enableScroll) && !excluded(a)
  }

  function Candidates(node: Node, config: Config, excluded: Action -> bool): Action -> bool {
    a => Selectable(node, config, excluded, a)
  }

  predicate IsRecovery(a: Action) { a.recovery }

  predicate IsSwipe(a: Action) { a.kind == Swipe }

  function Select(node: Node, config: Config, excluded: Action -> bool, rank: Action -> int): (r: Option<Action>)
    ensures r.Some? ==> r.value in node.actions && Selectable(node, config, excluded, r.value)
    ensures r.None? ==> forall a :: a in node.actions ==> !Selectable(node, config, excluded, a)
  {
    var candidates := Filter(node.actions, Candidates(node, config, excluded));
    var recovering := Narrow(candidates, config.recoverPopups, IsRecovery);
    var pool := Narrow(recovering, node.nonScroll >= SELECTIONS_BEFORE_SCROLL, IsSwipe);
    if pool == [] then None else Some(LeastRanked(pool, rank))
  }

  predicate Barred(l: Loop, cover: Cover, node: Node, activity: string, advice: Advice, a: Action) {
    || advice.barred(a)
    || (l.purchaseBlocked && advice.purchase(a))
    || (node.semantic, Keyed(a.Key())) in cover.blocked
    || (a.kind == Input && (activity, a.id) in cover.inputTried)
  }

  predicate SeenTap(l: Loop, cover: Cover, node: Node, activity: string, advice: Advice, a: Action) {
    Barred(l, cover, node, activity, advice, a) || (a.kind == Tap && (activity, a.Key()) in cover.seenTaps)
  }

  /** What the ordinary selection pass excludes. */
  function Excluded(l: Loop, cover: Cover, node: Node, activity: string, advice: Advice): Action -> bool {
    a => SeenTap(l, cover, node, activity, advice, a)
  }

  /** What the first pass excludes: actions on external accounts as well. */
  function ExcludedFirst(l: Loop, cover: Cover, node: Node, activity: string, advice: Advice): Action -> bool {
    a => SeenTap(l, cover, node, activity, advice, a) || a.externalRisk
  }

  function MarkTap(s: State, activity: string, a: Action): State {
    if a.kind != Tap then s
    else s.(cover := s.cover.(seenTaps := s.cover.seenTaps + {(activity, a.Key())}))
  }

  predicate PageIsStuck(k: Stuck, activity: string, semantic: string) {
    k.ready && ((k.semantic != "" && k.semantic == semantic) || k.activity == activity)
  }

  function CoolEscalation(l: Loop, semantic: string, now: int): Loop {
    l.(escalationArmed := "", coolState := semantic, coolUntil := now + ESCALATION_COOLDOWN)
  }

  function VisibleBack(actions: seq<Action>): (r: Option<Action>)
    ensures r.Some? ==> r.value in actions && r.value.IsVisibleBackControl()
    ensures r.None? ==> forall a :: a in actions ==> !a.IsVisibleBackControl()
  {
    if actions == [] then None
    else if actions[0].IsVisibleBackControl() then Some(actions[0])
    else
      assert forall a :: a in actions <==> a == actions[0] || a in actions[1..];
      VisibleBack(actions[1..])
  }

  const SystemBack := Action("back", Back, "", "", "", 0, 0, 0, 0, false, false, false, false)

  function ResetNodes(nodes: map<string, Node>): map<string, Node> {
    map fp | fp in nodes :: nodes[fp].(tried := {}, attempts := map[], nonScroll := 0)
  }

  function ResetRound(s: State): State {
    s.(graph := s.graph.(nodes := ResetNodes(s.graph.nodes), returnAttempts := map[]),
       cover := s.cover.(inputTried := {}), roundSteps := 0)
  }

  datatype Choice =
    | Take(action: Action, path: Path)
    | Again
    | Restart
    | Stop

  function LanguageChoice(s: State, page: Page, semantic: string, advice: Advice): Option<Action> {
    if !advice.languageSurface || PageIsStuck(s.loop.stuck, page.activity, semantic) || advice.preferred.None? then None
    else
      var preferred := advice.preferred.value;
      if (page.activity, preferred.Key()) !in s.cover.seenTaps then Some(preferred)
      else if page.activity in s.loop.accepted && s.loop.accepted[page.activity] == preferred.Key()
              && advice.confirm.Some? && (page.activity, advice.confirm.value.Key()) !in s.cover.seenTaps
      then advice.confirm
      else None
  }

  function CoverageChoice(l: Loop, cover: Cover, config: Config, activity: string, node: Node, advice: Advice): Option<Action> {
    var first := Select(node, config, ExcludedFirst(l, cover, node, activity, advice), advice.rank);
    if first.Some? then first
    else Select(node, config, Excluded(l, cover, node, activity, advice), advice.rank)
  }

  predicate MayReturn(s: State, config: Config, page: Page) {
    config.enableBacktrack && page.fingerprint in s.graph.returnActions && s.counters.backtracks < config.maxBacktracks
  }

  /** One more attempt at the return action of this page. */
  function TakeReturn(s: State, page: Page): State {
    s.(graph := s.graph.(returnAttempts :=
      s.graph.returnAttempts[page.fingerprint := Lookup(s.graph.returnAttempts, page.fingerprint) + 1]))
  }

  function NoteExhausted(l: Loop, fingerprint: string): Loop {
    if l.exhaustedPage != fingerprint then l.(exhaustedPage := fingerprint, exhaustedCaptures := 1)
    else l.(exhaustedCaptures := l.exhaustedCaptures + 1)
  }

  function LeaveStuck(s: State, page: Page, semantic: string, now: int): (State, Choice) {
    var k := s.loop.stuck;
    if k.backSent != semantic then
      var back := VisibleBack(page.actions);
      (s.(loop := s.loop.(stuck := k.(backSent := semantic))),
       Take(if back.Some? then back.value else SystemBack, Escape))
    else if s.loop.coolState == semantic && now < s.loop.coolUntil then (s, Again)
    else
      (s.(loop := s.loop.(coolState := semantic, coolUntil := now + ESCALATION_COOLDOWN,
                          stuck := k.(relaunch := true))), Restart)
  }

  function Reopened(s: State): State {
    var s1 := ResetRound(s);
    s1.(loop := s1.loop.(exhaustedPage := "", exhaustedCaptures := 0))
  }

  function PickAgain(s: State, config: Config, page: Page, advice: Advice): (State, Choice)
    requires page.fingerprint in s.graph.nodes
  {
    var node := s.graph.nodes[page.fingerprint];
    var again := Select(node, config, Excluded(s.loop, s.cover, node, page.activity, advice), advice.rankAfterReset);
    if again.Some? then (MarkTap(s, page.activity, again.value), Take(again.value, Coverage))
    else
      var back := VisibleBack(page.actions);
      if back.Some? && s.loop.backEscapeState != node.semantic then
        (s.(loop := s.loop.(backEscapeState := node.semantic)), Take(back.value, Escape))
      else (s.(loop := s.loop.(coldStart := false)), Restart)
  }

  /** Every selectable action is used up: start a new round, or leave. */
  function NewRound(s: State, config: Config, page: Page, advice: Advice): (State, Choice)
    requires page.fingerprint in s.graph.nodes
  {
    PickAgain(Reopened(s), config, page, advice)
  }

  function ChooseExhausted(s: State, config: Config, page: Page, advice: Advice): (State, Choice)
    requires page.fingerprint in s.graph.nodes
  {
    var semantic := s.graph.nodes[page.fingerprint].semantic;
    var l := if s.loop.escalationArmed == semantic then CoolEscalation(s.loop, semantic, advice.now) else s.loop;
    LeaveExhausted(s.(loop := NoteExhausted(l, page.fingerprint)), config, page, semantic, advice)
  }

  /** The page's exhaustion has been noted: wait, leave it, or start over. */
  function LeaveExhausted(s: State, config: Config, page: Page, semantic: string, advice: Advice): (State, Choice)
    requires page.fingerprint in s.graph.nodes
  {
    if PageIsStuck(s.loop.stuck, page.activity, semantic) then
      if advice.elapsed then (s, Stop) else LeaveStuck(s, page, semantic, advice.now)
    else if s.loop.exhaustedCaptures < EXHAUSTED_CAPTURES then (s, Again)
    else if advice.elapsed then (s, Stop)
    else if advice.now < s.loop.ladderCoolUntil then (s, Again)
    else NewRound(s, config, page, advice)
  }

  function Choose(s: State, config: Config, page: Page, advice: Advice): (State, Choice)
    requires page.fingerprint in s.graph.nodes
  {
    var node := s.graph.nodes[page.fingerprint];
    var language := LanguageChoice(s, page, node.semantic, advice);
    if language.Some? then (MarkTap(s, page.activity, language.value), Take(language.value, Language))
    else
      var coverage := CoverageChoice(s.loop, s.cover, config, page.activity, node, advice);
      if coverage.Some? then (MarkTap(s, page.activity, coverage.value), Take(coverage.value, Coverage))
      else
        var armed := s.loop.escalationArmed == node.semantic;
        var untaken := (node.semantic, Backtracking) !in s.cover.blocked
                       && Lookup(s.graph.returnAttempts, page.fingerprint) == 0;
        if MayReturn(s, config, page) && (untaken || armed) then
          var l := if armed then CoolEscalation(s.loop, node.semantic, advice.now) else s.loop;
          (TakeReturn(s.(loop := l), page), Take(s.graph.returnActions[page.fingerprint], Return))
        else ChooseExhausted(s, config, page, advice)
  }

  // ----- Executing -----------------------------------------------------------

  /** How the device and the receipt store answer. */
  datatype Outcome = ReceiptRefused | StaleObservation | InputFailed | Done

  function TryAction(node: Node, a: Action): Node {
    var n := Lookup(node.attempts, a.id) + 1;
    node.(attempts := node.attempts[a.id := n],
          tried := if a.kind != Swipe || n >= MAX_SCROLL_ATTEMPTS then node.tried + {a.id} else node.tried,
          nonScroll := if a.kind == Swipe then 0 else node.nonScroll + 1)
  }

  function CountAction(c: Counters, a: Action): Counters {
    c.(backtracks := c.backtracks + (if a.backtrack then 1 else 0),
       scrolls := c.scrolls + (if a.kind == Swipe then 1 else 0),
       scrollAttempts := c.scrollAttempts + (if a.kind == Swipe then 1 else 0),
       inputs := c.inputs + (if a.kind == Input then 1 else 0),
       recoveries := c.recoveries + (if a.kind == Tap && a.recovery then 1 else 0))
  }

  function RecordStep(s: State, page: Page, a: Action, path: Path, id: StepId): State {
    var g := s.graph;
    var nodes :=
      if a.backtrack || page.fingerprint !in g.nodes then g.nodes
      else g.nodes[page.fingerprint := TryAction(g.nodes[page.fingerprint], a)];
    s.(graph := g.(nodes := nodes, steps := g.steps + [Step(id, FromPage(page.fingerprint), a, None)]),
       cover := if !a.backtrack && a.kind == Input
                then s.cover.(inputTried := s.cover.inputTried + {(page.activity, a.id)}) else s.cover,
       counters := CountAction(s.counters, a),
       loop := s.loop.(pending := Some(|g.steps|)),
       roundSteps := s.roundSteps + if path == Coverage then 1 else 0)
  }

  function NoteAccepted(l: Loop, page: Page, a: Action, advice: Advice): Loop {
    if advice.languageSurface && advice.preferred.Some? && advice.preferred.value.Key() == a.Key()
    then l.(accepted := l.accepted[page.activity := a.Key()]) else l
  }

  function Execute(s: State, page: Page, a: Action, path: Path, advice: Advice, outcome: Outcome): State {
    var number := s.loop.attemptNumber + 1;
    var id := Ordinary(number);
    var s1 := s.(loop := s.loop.(exhaustedPage := "", exhaustedCaptures := 0, attemptNumber := number));
    if outcome == ReceiptRefused || id in s.receipts then s1
    else
      match outcome
      case StaleObservation =>
        s1.(receipts := s.receipts[id := Rejected],
            counters := s.counters.(staleActions := s.counters.staleActions + 1))
      case InputFailed => s1.(receipts := s.receipts[id := Failed])
      case Done =>
        var s2 := s1.(receipts := s.receipts[id := Executed], loop := NoteAccepted(s1.loop, page, a, advice));
        RecordStep(s2, page, a, path, id)
  }

  // ----- The steps around them -----------------------------------------------

  function BlockPendingTap(s: State): State {
    if s.loop.pending.None? || s.loop.pending.value >= |s.graph.steps| then s
    else
      var step := s.graph.steps[s.loop.pending.value];
      if step.action.kind != Tap || step.action.IsVisibleBackControl() then s
      else BlockEdge(s, SemanticOf(s.graph, step.from), Keyed(step.action.Key()))
  }

  function Recovered(s: State): State {
    s.(counters := s.counters.(recoveries := s.counters.recoveries + 1))
  }

  function ForgetExhaustion(s: State): State {
    s.(loop := s.loop.(exhaustedPage := "", exhaustedCaptures := 0))
  }

  /** Attempts are counted per page, except where its text keeps changing. */
  function KeyOf(d: Detours, scene: Scene, activity: string): SceneKey {
    match scene.kind
    case Ad => OfAd(d.adEncounter, activity)
    case LoadFailure => OfActivity(LoadFailure, activity)
    case PurchaseFailure => OfActivity(PurchaseFailure, activity)
    case _ => OfPage(scene.kind, scene.fingerprint)
  }

  /** The bookkeeping of every capture, scene or not. */
  function EnterScene(d: Detours, found: Option<Scene>, onTarget: bool): Detours {
    var d1 := if onTarget then d.(externalAttempts := map[]) else d;
    var d2 :=
      if found.Some? && found.value.kind == Ad then
        (if d1.adActive then d1 else d1.(adActive := true, adEncounter := d1.adEncounter + 1))
      else if d1.adActive && onTarget then d1.(adActive := false) else d1;
    if found.None? || found.value.kind != LoadFailure then d2.(suppressScroll := false) else d2
  }

  function NoteWait(d: Detours, key: SceneKey, scene: Scene, now: int): Detours {
    if scene.outcome != Waiting then d.(waitStarted := d.waitStarted - {key})
    else if key in d.waitStarted then d
    else d.(waitStarted := d.waitStarted[key := now])
  }

  predicate StillWaits(d: Detours, config: Config, key: SceneKey, scene: Scene, now: int) {
    scene.outcome == Waiting && key in d.waitStarted
    && now - d.waitStarted[key] < if scene.waitLimit <= 0 then config.adMaxWait else scene.waitLimit
  }

  datatype Plan = Leave | Do(action: Action) | AskPolicy | GiveUp

  /** The fallback is used once waiting is over or the first action did not help. */
  function PlanOf(attempts: nat, scene: Scene): Plan {
    if scene.fallback.Some? && (scene.outcome == Waiting || attempts > 0) then Do(scene.fallback.value)
    else
      match scene.outcome
      case Exploring => Leave
      case PolicyRequired => AskPolicy
      case Acting => if scene.action.Some? then Do(scene.action.value) else GiveUp
      case _ => GiveUp
  }

  datatype SceneSignal = SceneNext | SceneWait | SceneRestart | SceneStop | SceneAct(key: SceneKey, action: Action)

  function AllowColdStart(s: State): State { s.(loop := s.loop.(coldStart := true)) }

  /** Every attempt at this key is used up. */
  function SceneExhausted(s: State, kind: SceneKind, activity: string, elapsed: bool): (State, SceneSignal) {
    if kind == Onboarding then
      (s.(loop := s.loop.(stuck := s.loop.stuck.(activity := activity, ready := true))), SceneNext)
    else if kind == PurchaseFailure then (BlockPendingTap(s), SceneRestart)
    else if elapsed then (s, SceneStop)
    else (AllowColdStart(s), SceneRestart)
  }

  function FollowPlan(s: State, config: Config, key: SceneKey, kind: SceneKind, activity: string, plan: Plan, elapsed: bool)
    : (State, SceneSignal)
  {
    match plan
    case Leave => (s, SceneNext)
    case AskPolicy => (s, SceneStop)
    case GiveUp => if elapsed then (s, SceneStop) else (AllowColdStart(s), SceneRestart)
    case Do(a) =>
      var attempts := Lookup(s.detours.sceneAttempts, key);
      if attempts >= config.maxSceneAttempts then SceneExhausted(s, kind, activity, elapsed)
      else
        var s1 := if kind == PurchaseFailure then BlockPendingTap(s) else s;
        (s1.(detours := s1.detours.(sceneAttempts := s1.detours.sceneAttempts[key := attempts + 1])), SceneAct(key, a))
  }

  function ResolveScene(s: State, config: Config, key: SceneKey, scene: Scene, activity: string, now: int, elapsed: bool)
    : (State, SceneSignal)
  {
    var attempts := Lookup(s.detours.sceneAttempts, key);
    var s1 := s.(detours := NoteWait(s.detours, key, scene, now));
    if StillWaits(s1.detours, config, key, scene, now) then (s1, SceneWait)
    else FollowPlan(s1, config, key, scene.kind, activity, PlanOf(attempts, scene), elapsed)
  }

  /** What to do about a scene: pass it by, wait, restart, stop or act. */
  function DecideScene(s: State, config: Config, scene: Scene, activity: string, now: int, elapsed: bool)
    : (State, SceneSignal)
  {
    if scene.kind == Onboarding && s.loop.stuck.ready && s.loop.stuck.activity == activity then (s, SceneNext)
    else
      var key := KeyOf(s.detours, scene, activity);
      var attempts := Lookup(s.detours.sceneAttempts, key);
      var s1 := if scene.kind == PurchaseFailure then s.(loop := s.loop.(purchaseBlocked := true)) else s;
      if scene.kind == LoadFailure && attempts >= LOAD_FAILURE_ATTEMPTS then
        (s1.(detours := s1.detours.(suppressScroll := true)), SceneNext)
      else ResolveScene(s1, config, key, scene, activity, now, elapsed)
  }

  /** An attempt that never reached the device does not count. */
  function Refund(d: Detours, key: SceneKey): Detours {
    var n := Lookup(d.sceneAttempts, key);
    d.(sceneAttempts := d.sceneAttempts[key := if n > 0 then n - 1 else 0])
  }

  /** A special scene is acted on in front of the pending page. */
  function HandleSpecial(s: State, key: SceneKey, fingerprint: string, a: Action, outcome: Outcome): State {
    var number := s.loop.attemptNumber + 1;
    var id := Ordinary(number);
    var s1 := s.(loop := s.loop.(attemptNumber := number));
    if outcome == ReceiptRefused || id in s.receipts then s1
    else
      match outcome
      case StaleObservation =>
        s1.(receipts := s.receipts[id := Rejected],
            counters := s.counters.(staleActions := s.counters.staleActions + 1),
            detours := Refund(s.detours, key))
      case InputFailed => s1.(receipts := s.receipts[id := Failed])
      case Done =>
        s1.(receipts := s.receipts[id := Executed],
            graph := s.graph.(steps := s.graph.steps + [Step(id, FromPage(fingerprint), a, None)]),
            loop := s1.loop.(exhaustedPage := "", exhaustedCaptures := 0),
            counters := s.counters.(recoveries := s.counters.recoveries + 1,
                                    specialActions := s.counters.specialActions + 1))
  }

  /** handleSpecialScene */
  function SceneStep(s: State, config: Config, found: Option<Scene>, onTarget: bool, activity: string,
                     now: int, elapsed: bool, outcome: Outcome): State
  {
    var s1 := s.(detours := EnterScene(s.detours, found, onTarget));
    if found.None? then s1
    else
      var (s2, signal) := DecideScene(s1, config, found.value, activity, now, elapsed);
      if signal.SceneAct? then HandleSpecial(s2, signal.key, found.value.fingerprint, signal.action, outcome) else s2
  }

  /** The target was stopped and launched again. */
  function ColdStarted(s: State): State {
    ForgetExhaustion(Recovered(s)).(detours := s.detours.(
      sceneAttempts := map[], adActive := false, adEncounter := s.detours.adEncounter + 1,
      escapeActivity := "", escapeAttempts := 0))
  }

  function EscapeFrom(d: Detours, activity: string): Detours {
    if d.escapeActivity == activity then d else d.(escapeActivity := activity, escapeAttempts := 0)
  }

  /** A shell that must not be bounced: one back, then one relaunch per cooldown. */
  function RestartShell(s: State, activity: string, now: int, ok: bool): State {
    var d := EscapeFrom(s.detours, activity);
    var s1 := s.(detours := d);
    if now < s.loop.ladderCoolUntil then s1
    else if d.escapeAttempts == 0 then
      var s2 := s1.(detours := d.(escapeAttempts := 1));
      if ok then Recovered(s2) else s2
    else
      var s2 := s1.(detours := d.(escapeAttempts := 0),
                    loop := s1.loop.(ladderCoolUntil := now + SHELL_RELAUNCH_COOLDOWN));
      if ok then ColdStarted(s2) else s2
  }

  /** Elsewhere: four escape gestures, then a relaunch. */
  function RestartLadder(s: State, activity: string, ok: bool): State {
    var d := EscapeFrom(s.detours, activity);
    if d.escapeAttempts >= MAX_ESCAPES then
      var s1 := s.(detours := d.(escapeActivity := "", escapeAttempts := 0));
      if ok then ColdStarted(s1) else s1
    else
      var s1 := s.(detours := d.(escapeAttempts := d.escapeAttempts + 1));
      if ok then Recovered(s1) else s1
  }

  /** runRestart: leave an exhausted page, by gestures or by a relaunch; `ok`
      says whether the device did as it was told. */
  function RestartTarget(s: State, activity: string, coldAllowed: bool, now: int, ok: bool): State {
    if s.loop.stuck.relaunch then
      var s1 := s.(loop := s.loop.(stuck := s.loop.stuck.(relaunch := false)));
      if ok then ColdStarted(s1) else s1
    else if !s.loop.coldStart && !coldAllowed then RestartShell(s, activity, now, ok)
    else RestartLadder(s, activity, ok)
  }

  /** recordSessionAction: a replayed target case or a blind gesture. */
  function SessionAction(s: State, activity: string, a: Action): State {
    var n := |s.graph.steps|;
    s.(graph := s.graph.(steps := s.graph.steps + [Step(OfSession(n + 1), FromActivity(activity), a, None)]),
       loop := s.loop.(pending := Some(n)),
       counters := s.counters.(
         scrolls := s.counters.scrolls + (if a.kind == Swipe then 1 else 0),
         scrollAttempts := s.counters.scrollAttempts + (if a.kind == Swipe then 1 else 0)))
  }

  /** The edge that led to a foreign package, if it left a page of the graph. */
  function BlockSource(s: State, step: Step): State {
    if step.from.FromPage? && step.from.fingerprint in s.graph.nodes
    then BlockEdge(s, s.graph.nodes[step.from.fingerprint].semantic, Keyed(step.action.Key())) else s
  }

  function MarkExternal(s: State, pending: nat, foreign: string): State
    requires pending < |s.graph.steps|
  {
    var step := s.graph.steps[pending].(destination := Some("external:" + foreign));
    s.(graph := s.graph.(steps := s.graph.steps[pending := step]),
       counters := s.counters.(external := s.counters.external + 1))
  }

  function DropPending(s: State): State { s.(loop := s.loop.(pending := None)) }

  predicate PendingReturn(s: State) {
    s.loop.pending.Some? && s.loop.pending.value < |s.graph.steps| && s.graph.steps[s.loop.pending.value].action.backtrack
  }

  /** The pending step ended in a foreign package: its edge is blocked. */
  function BlameStep(s: State, foreign: string): State {
    if s.loop.pending.None? || s.loop.pending.value >= |s.graph.steps| then s
    else
      var pending := s.loop.pending.value;
      MarkExternal(BlockSource(s, s.graph.steps[pending]), pending, foreign)
  }

  /** A visit to a foreign package is counted. */
  function CountVisit(s: State, foreground: string): State {
    var visits := Lookup(s.detours.externalAttempts, foreground);
    s.(detours := s.detours.(externalAttempts := s.detours.externalAttempts[foreground := visits + 1]))
  }

  /** Back to the target after a visit to a foreign package. */
  function LeaveForeign(s: State, foreground: string, ok: bool): State {
    var s1 := Recovered(BlameStep(CountVisit(s, foreground), foreground));
    if ok then ForgetExhaustion(DropPending(s1)) else s1
  }

  /** recoverOffTarget: the device shows another package, so the pending step
      never settles. `ok` says whether the device did as it was told. */
  function LeaveTarget(s: State, foreground: string, home: bool, now: int, elapsed: bool, ok: bool): State {
    if home then
      if now < s.detours.homeResumeAfter then s
      else
        var s1 := s.(detours := s.detours.(homeResumeAfter := now + HOME_RESUME_COOLDOWN));
        if ok then Recovered(DropPending(s1)) else s1
    else if PendingReturn(s) then
      if ok then Recovered(ForgetExhaustion(DropPending(s))) else s
    else if Lookup(s.detours.externalAttempts, foreground) >= MAX_EXTERNAL then
      if elapsed || !ok then s
      else Recovered(ForgetExhaustion(DropPending(s))).(detours := s.detours.(
        externalAttempts := map[], escapeActivity := "", escapeAttempts := 0))
    else LeaveForeign(s, foreground, ok)
  }

  // ----- Runs ----------------------------------------------------------------

  datatype Event =
    | LastPage(page: Page, now: int)     // recorded, then the duration is over
    | Visit(page: Page, advice: Advice, outcome: Outcome)
    | SpecialScene(found: Option<Scene>, onTarget: bool, activity: string, now: int, elapsed: bool, outcome: Outcome)
    | SessionStep(activity: string, action: Action)
    | OffTarget(foreground: string, home: bool, now: int, elapsed: bool, ok: bool)
    | Handoff(ok: bool)                  // a surface of another app is left by going back
    | Restarting(activity: string, coldAllowed: bool, now: int, ok: bool)

  function LogChoice(s: State, page: Page, semantic: string, choice: Choice): State {
    if choice.Take? then s.(log := s.log + [Logged(page.activity, semantic, choice.action, choice.path)]) else s
  }

  ghost function ChooseAndExecute(s: State, config: Config, page: Page, advice: Advice, outcome: Outcome): State
    requires page.fingerprint in s.graph.nodes
  {
    var (s1, choice) := Choose(s, config, page, advice);
    var s2 := LogChoice(s1, page, s.graph.nodes[page.fingerprint].semantic, choice);
    if choice.Take? then Execute(s2, page, choice.action, choice.path, advice, outcome) else s2
  }

  ghost function Apply(s: State, config: Config, e: Event): State {
    match e
    case LastPage(page, now) => RecordPage(s, page, now)
    case Visit(page, advice, outcome) =>
      var s1 := RecordPage(s, page, advice.now);
      if page.fingerprint !in s1.graph.nodes then s1
      else ChooseAndExecute(s1, config, page, advice, outcome)
    case SpecialScene(found, onTarget, activity, now, elapsed, outcome) =>
      SceneStep(s, config, found, onTarget, activity, now, elapsed, outcome)
    case SessionStep(activity, a) => SessionAction(s, activity, a)
    case OffTarget(foreground, home, now, elapsed, ok) => LeaveTarget(s, foreground, home, now, elapsed, ok)
    case Handoff(ok) => if ok then Recovered(BlockPendingTap(s)) else BlockPendingTap(s)
    case Restarting(activity, coldAllowed, now, ok) => RestartTarget(s, activity, coldAllowed, now, ok)
  }

  ghost function Run(s: State, config: Config, events: seq<Event>): State
    decreases |events|
  {
    if events == [] then s else Run(Apply(s, config, events[0]), config, events[1..])
  }
}
