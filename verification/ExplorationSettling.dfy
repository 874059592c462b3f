/** What recording a page does to the step that led to it, told from the page,
    the step and what the engine remembered before. */
module ExplorationSettling {
  import opened Options
  import opened ExplorationTypes
  import opened ExplorationModel
  import opened ExplorationProofs
  import C = CycleDetection

  // ----- What is settled -----------------------------------------------------

  predicate Settles(s: State) { s.loop.pending.Some? && s.loop.pending.value < |s.graph.steps| }

  function Settling(s: State): Step
    requires Settles(s)
  {
    s.graph.steps[s.loop.pending.value]
  }

  predicate Scrolls(a: Action) { a.kind == Swipe && !a.backtrack }

  /** The semantic state and the activity that the pending step left. */
  function LeftSemantic(s: State): string
    requires Settles(s)
  {
    match Settling(s).from
    case FromActivity(name) => name
    case FromPage(fp) => if fp in s.graph.nodes then s.graph.nodes[fp].semantic else fp
  }

  function LeftActivity(s: State): string
    requires Settles(s)
  {
    match Settling(s).from
    case FromActivity(_) => ""
    case FromPage(fp) => if fp in s.graph.nodes then s.graph.nodes[fp].activity else ""
  }

  predicate Unmoved(s: State, page: Page)
    requires Settles(s)
  {
    LeftSemantic(s) == page.semantic
  }

  // ----- What is blocked -----------------------------------------------------

  /** A visible back control that changed nothing: the tap before it. */
  function DeadEnd(s: State, page: Page): set<EdgeKey>
    requires Settles(s)
  {
    var i := s.loop.pending.value;
    if Unmoved(s, page) && Settling(s).action.IsVisibleBackControl() && i > 0
       && s.graph.steps[i - 1].action.kind == Tap && !s.graph.steps[i - 1].action.IsVisibleBackControl()
    then {(page.semantic, Keyed(s.graph.steps[i - 1].action.Key()))} else {}
  }

  function Stalls(s: State): nat
    requires Settles(s)
  {
    var stall := (LeftSemantic(s), Keyed(Settling(s).action.Key()));
    if stall in s.loop.samePageSwipes then s.loop.samePageSwipes[stall] else 0
  }

  /** A swipe that changed nothing for the third time. */
  function GivenUp(s: State, page: Page): set<EdgeKey>
    requires Settles(s)
  {
    if Unmoved(s, page) && Scrolls(Settling(s).action) && Stalls(s) >= 2
    then {(page.semantic, Keyed(Settling(s).action.Key()))} else {}
  }

  /** A return that did not lead to the parent of the page it left. */
  function Astray(s: State, page: Page): set<EdgeKey>
    requires Settles(s)
  {
    var from, parents := Settling(s).from, s.graph.parents;
    if !Settling(s).action.backtrack then {}
    else if from.FromPage? && from.fingerprint in parents && parents[from.fingerprint] == FromPage(page.fingerprint) then {}
    else {(LeftSemantic(s), Backtracking)}
  }

  /** The transition the cycle guard is told about. */
  function Transition(s: State, page: Page): Sample
    requires Settles(s)
  {
    var left, action := LeftSemantic(s), Settling(s).action;
    var key := if action.backtrack then Backtracking else Keyed(action.Key());
    if LeftActivity(s) != "" && page.activity != "" && LeftActivity(s) != page.activity
    then Sample("activity:" + LeftActivity(s), key, "activity:" + page.activity, left)
    else Sample(left, key, page.semantic, left)
  }

  /** A page in a semantic state never seen before starts a new trace. */
  function TraceBefore(s: State, page: Page): seq<Sample> {
    if s.cover.seenSemantic == {} || page.semantic in s.cover.seenSemantic then s.trace else []
  }

  function TraceAfter(s: State, page: Page): seq<Sample>
    requires Settles(s)
  {
    TraceBefore(s, page) + [Transition(s, page)]
  }

  /** Inputs, and swipes that stay where they are, are kept from the guard. */
  predicate Watched(s: State, page: Page)
    requires Settles(s)
  {
    var action := Settling(s).action;
    action.kind != Input && (Scrolls(action) ==> Transition(s, page).from != Transition(s, page).to)
  }

  ghost function VerdictAfter(s: State, page: Page): nat
    requires Settles(s)
  {
    if Watched(s, page) then C.Verdict(C.Keys(TraceAfter(s, page))) else 0
  }

  function EdgesOf(samples: seq<Sample>): set<EdgeKey> {
    set i | 0 <= i < |samples| :: (samples[i].blockFrom, samples[i].action)
  }

  /** The edges a verdict is about: the last round, or the repeated transition. */
  function NamedBy(trace: seq<Sample>, verdict: nat): set<EdgeKey>
    requires trace != []
  {
    if verdict == 0 then {}
    else if verdict <= 8 && verdict <= |trace| then EdgesOf(trace[|trace| - verdict..])
    else EdgesOf(trace[|trace| - 1..])
  }

  /** The edges the guard reports when the page settles the pending step. */
  ghost function Reported(s: State, page: Page): set<EdgeKey> {
    if Settles(s) then NamedBy(TraceAfter(s, page), VerdictAfter(s, page)) else {}
  }

  // ----- What is remembered --------------------------------------------------

  function StallsAfter(s: State, page: Page): map<EdgeKey, nat>
    requires Settles(s)
  {
    if Unmoved(s, page) && Scrolls(Settling(s).action)
    then s.loop.samePageSwipes[(page.semantic, Keyed(Settling(s).action.Key())) := Stalls(s) + 1]
    else s.loop.samePageSwipes
  }

  /** Without progress for the second time on this semantic state the page
      counts as one to get away from; any progress takes that back. */
  function StuckAfter(s: State, page: Page): Stuck
    requires Settles(s)
  {
    var k, semantic := s.loop.stuck, page.semantic;
    if semantic == "" then k
    else if !Unmoved(s, page) then Stuck(k.noProgress, "", "", "", false, k.relaunch)
    else
      var n := if semantic in k.noProgress then k.noProgress[semantic] + 1 else 1;
      if n < 2 then k.(noProgress := k.noProgress[semantic := n])
      else Stuck(k.noProgress[semantic := n], semantic, page.activity, k.backSent, true, k.relaunch)
  }

  /** A reported cycle arms the escalation here, unless it is cooling down here. */
  ghost function ArmedAfter(s: State, page: Page, now: int): string
    requires Settles(s)
  {
    if VerdictAfter(s, page) > 0 && page.semantic != ""
       && !(s.loop.coolState == page.semantic && now < s.loop.coolUntil)
    then page.semantic else s.loop.escalationArmed
  }

  ghost function CountersAfter(s: State, page: Page): Counters
    requires Settles(s)
  {
    var c, moved := s.counters, !Unmoved(s, page);
    var scrolls, stayed := Scrolls(Settling(s).action), Settling(s).from == FromPage(page.fingerprint);
    c.(effective := if moved then c.effective + 1 else c.effective,
       ineffective := if moved then c.ineffective else c.ineffective + 1,
       scrollStalls := if scrolls && stayed then c.scrollStalls + 1 else c.scrollStalls,
       scrollProgress := if scrolls && !stayed then c.scrollProgress + 1 else c.scrollProgress,
       cycleDetections := if VerdictAfter(s, page) > 0 then c.cycleDetections + 1 else c.cycleDetections)
  }

  // ----- Blocking, exactly ---------------------------------------------------

  /** t is s with exactly these edges blocked in addition. */
  ghost predicate Blocks(s: State, t: State, edges: set<EdgeKey>) {
    MoreBlocked(s, t) && t.cover.blocked == s.cover.blocked + edges
  }

  lemma BlocksThen(s: State, t: State, u: State, first: set<EdgeKey>, second: set<EdgeKey>)
    requires Blocks(s, t, first) && Blocks(t, u, second)
    ensures Blocks(s, u, first + second)
  {
    MoreBlockedTransitive(s, t, u);
  }

  lemma BlockEdgeBlocksOne(s: State, semantic: string, action: EdgeAction)
    ensures Blocks(s, BlockEdge(s, semantic, action), {(semantic, action)})
  {
  }

  lemma {:induction false} BlockSamplesBlocksAll(s: State, samples: seq<Sample>)
    ensures Blocks(s, BlockSamples(s, samples), EdgesOf(samples))
    decreases |samples|
  {
    if samples != [] {
      var init, last := samples[..|samples| - 1], samples[|samples| - 1];
      var t := BlockSamples(s, init);
      BlockSamplesBlocksAll(s, init);
      BlockEdgeBlocksOne(t, last.blockFrom, last.action);
      BlocksThen(s, t, BlockSamples(s, samples), EdgesOf(init), {(last.blockFrom, last.action)});
      assert EdgesOf(samples) == EdgesOf(init) + {(last.blockFrom, last.action)} by { EdgesOfInit(samples); }
    }
  }

  lemma EdgesOfInit(samples: seq<Sample>)
    requires samples != []
    ensures var last := samples[|samples| - 1];
            EdgesOf(samples) == EdgesOf(samples[..|samples| - 1]) + {(last.blockFrom, last.action)}
  {
    var init := samples[..|samples| - 1];
    forall edge | edge in EdgesOf(samples) ensures edge in EdgesOf(init) + {(samples[|init|].blockFrom, samples[|init|].action)} {
      var i :| 0 <= i < |samples| && edge == (samples[i].blockFrom, samples[i].action);
      if i < |init| { assert edge == (init[i].blockFrom, init[i].action); }
    }
    forall edge | edge in EdgesOf(init) ensures edge in EdgesOf(samples) {
      var i :| 0 <= i < |init| && edge == (init[i].blockFrom, init[i].action);
      assert edge == (samples[i].blockFrom, samples[i].action);
    }
  }

  lemma BlockVerdictBlocksNamed(s: State, verdict: nat, edge: EdgeKey)
    requires s.trace != [] && verdict > 0
    requires edge == (s.trace[|s.trace| - 1].blockFrom, s.trace[|s.trace| - 1].action)
    ensures Blocks(s, BlockVerdict(s, verdict, edge), NamedBy(s.trace, verdict))
  {
    if verdict <= C.MAX_PERIOD && verdict <= |s.trace| {
      BlockSamplesBlocksAll(s, s.trace[|s.trace| - verdict..]);
    } else {
      BlockEdgeBlocksOne(s, edge.0, edge.1);
      EdgeOfLast(s.trace);
    }
  }

  lemma EdgeOfLast(trace: seq<Sample>)
    requires trace != []
    ensures var last := trace[|trace| - 1]; EdgesOf(trace[|trace| - 1..]) == {(last.blockFrom, last.action)}
  {
    var tail := trace[|trace| - 1..];
    assert |tail| == 1 && tail[0] == trace[|trace| - 1];
    assert (tail[0].blockFrom, tail[0].action) in EdgesOf(tail);
  }

  // ----- Settling, step by step ----------------------------------------------

  /** u has the pending step and everything about it as s has it. */
  ghost predicate SameStep(s: State, u: State)
    requires Settles(s)
  {
    var i := s.loop.pending.value;
    && |u.graph.steps| == |s.graph.steps|
    && u.graph.steps[i].action == s.graph.steps[i].action && u.graph.steps[i].from == s.graph.steps[i].from
    && (i > 0 ==> u.graph.steps[i - 1].action == s.graph.steps[i - 1].action)
  }

  lemma DeadEndIs(s: State, u: State, page: Page)
    requires Settles(s) && SameStep(s, u) && Unmoved(s, page)
    ensures Blocks(u, BlockDeadEnd(u, s.loop.pending.value, page.semantic), DeadEnd(s, page))
  {
    var i := s.loop.pending.value;
    if i > 0 { BlockEdgeBlocksOne(u, page.semantic, Keyed(u.graph.steps[i - 1].action.Key())); }
  }

  lemma StallIs(s: State, u: State, page: Page)
    requires Settles(s) && Unmoved(s, page) && u.loop == s.loop
    ensures var t := NoteStall(u, Settling(s).action, page.semantic);
            Blocks(u.(loop := u.loop.(samePageSwipes := StallsAfter(s, page))), t, GivenUp(s, page))
  {
    var marked := u.(loop := u.loop.(samePageSwipes := StallsAfter(s, page)));
    if Scrolls(Settling(s).action) {
      BlockEdgeBlocksOne(marked, page.semantic, Keyed(Settling(s).action.Key()));
    } else {
      assert marked == u;
    }
  }

  lemma BlocksInAnyLoop(s: State, t: State, edges: set<EdgeKey>, l: Loop)
    requires Blocks(s, t, edges)
    ensures Blocks(s.(loop := l), t.(loop := l), edges)
  {
  }

  lemma IneffectiveIs(s: State, u: State, page: Page)
    requires Settles(s) && SameStep(s, u) && u.loop == s.loop && Unmoved(s, page)
    ensures var t := NoteIneffective(u, s.loop.pending.value, page.semantic);
            Blocks(u.(loop := u.loop.(samePageSwipes := StallsAfter(s, page)),
                      counters := u.counters.(ineffective := u.counters.ineffective + 1)),
                   t, DeadEnd(s, page) + GivenUp(s, page))
  {
    var u1 := u.(counters := u.counters.(ineffective := u.counters.ineffective + 1));
    var u2 := BlockDeadEnd(u1, s.loop.pending.value, page.semantic);
    var l := s.loop.(samePageSwipes := StallsAfter(s, page));
    var t := NoteStall(u2, Settling(s).action, page.semantic);
    DeadEndIs(s, u1, page);
    StallIs(s, u2, page);
    BlocksInAnyLoop(u1, u2, DeadEnd(s, page), l);
    BlocksThen(u1.(loop := l), u2.(loop := l), t, DeadEnd(s, page), GivenUp(s, page));
  }

  /** The counters once the effect of the step has been judged. */
  function Judged(c: Counters, moved: bool): Counters {
    if moved then c.(effective := c.effective + 1) else c.(ineffective := c.ineffective + 1)
  }

  lemma EffectIs(s: State, u: State, page: Page)
    requires Settles(s) && SameStep(s, u) && u.loop == s.loop
    ensures var t := NoteEffect(u, s.loop.pending.value, LeftSemantic(s), page.semantic);
            Blocks(u.(loop := u.loop.(samePageSwipes := StallsAfter(s, page)),
                      counters := Judged(u.counters, !Unmoved(s, page))),
                   t, DeadEnd(s, page) + GivenUp(s, page))
  {
    if Unmoved(s, page) { IneffectiveIs(s, u, page); }
  }

  lemma ProgressIs(s: State, page: Page)
    requires Settles(s)
    ensures NoteProgress(s.loop.stuck, page.semantic, page.activity, !Unmoved(s, page)) == StuckAfter(s, page)
  {
  }

  lemma BacktrackIs(s: State, u: State, page: Page)
    requires Settles(s) && u.graph.parents == s.graph.parents
    ensures Blocks(u, NoteBacktrack(u, Settling(s), LeftSemantic(s), page), Astray(s, page))
  {
    BlockEdgeBlocksOne(u, LeftSemantic(s), Backtracking);
  }

  /** The state once the guard has been told and has answered. */
  function Guarded(u: State, trace: seq<Sample>, armed: string, verdict: nat): State {
    u.(trace := trace, loop := u.loop.(escalationArmed := armed),
       counters := u.counters.(cycleDetections :=
         if verdict > 0 then u.counters.cycleDetections + 1 else u.counters.cycleDetections))
  }

  lemma ReactionIs(u: State, verdict: nat, edge: EdgeKey, semantic: string, now: int)
    requires u.trace != [] && edge == (u.trace[|u.trace| - 1].blockFrom, u.trace[|u.trace| - 1].action)
    ensures var armed := if verdict > 0 && ArmsEscalation(u.loop, semantic, now) then semantic else u.loop.escalationArmed;
            Blocks(Guarded(u, u.trace, armed, verdict), ReactToVerdict(u, verdict, edge, semantic, now),
                   NamedBy(u.trace, verdict))
  {
    if verdict > 0 {
      var u1 := u.(counters := u.counters.(cycleDetections := u.counters.cycleDetections + 1));
      BlockVerdictBlocksNamed(u1, verdict, edge);
    }
  }

  lemma ArmingIs(s: State, l: Loop, page: Page, now: int)
    requires Settles(s) && l.coolState == s.loop.coolState && l.coolUntil == s.loop.coolUntil
    requires l.escalationArmed == s.loop.escalationArmed
    ensures ArmedAfter(s, page, now) ==
              if VerdictAfter(s, page) > 0 && ArmsEscalation(l, page.semantic, now) then page.semantic
              else l.escalationArmed
  {
  }

  lemma GuardIsTold(s: State, u: State, page: Page, now: int)
    requires Settles(s)
    requires u.trace == TraceBefore(s, page) && SampleOf(u.graph, Settling(s), LeftSemantic(s), page) == Transition(s, page)
    ensures ObserveCycle(u, Settling(s), LeftSemantic(s), page, now) ==
              if !Watched(s, page) then u
              else ReactToVerdict(u.(trace := TraceAfter(s, page)), VerdictAfter(s, page),
                                  (LeftSemantic(s), Settling(s).action.StepKey()), page.semantic, now)
  {
  }

  lemma TransitionNamesEdge(s: State, page: Page)
    requires Settles(s)
    ensures var last := TraceAfter(s, page)[|TraceAfter(s, page)| - 1];
            (last.blockFrom, last.action) == (LeftSemantic(s), Settling(s).action.StepKey())
  {
  }

  /** The trace after the step, whether or not the guard was told of it. */
  function TraceNow(s: State, page: Page): seq<Sample>
    requires Settles(s)
  {
    if Watched(s, page) then TraceAfter(s, page) else TraceBefore(s, page)
  }

  lemma GuardedIs(u: State, trace: seq<Sample>, armed: string, verdict: nat)
    ensures Guarded(u.(trace := trace), trace, armed, verdict) == Guarded(u, trace, armed, verdict)
    ensures Blocks(Guarded(u, u.trace, u.loop.escalationArmed, 0), u, {})
  {
  }

  lemma CycleIs(s: State, u: State, page: Page, now: int)
    requires Settles(s)
    requires u.trace == TraceBefore(s, page) && SampleOf(u.graph, Settling(s), LeftSemantic(s), page) == Transition(s, page)
    requires u.loop.coolState == s.loop.coolState && u.loop.coolUntil == s.loop.coolUntil
             && u.loop.escalationArmed == s.loop.escalationArmed
    ensures Blocks(Guarded(u, TraceNow(s, page), ArmedAfter(s, page, now), VerdictAfter(s, page)),
                   ObserveCycle(u, Settling(s), LeftSemantic(s), page, now), Reported(s, page))
  {
    var verdict, armed := VerdictAfter(s, page), ArmedAfter(s, page, now);
    GuardIsTold(s, u, page, now);
    GuardedIs(u, TraceNow(s, page), armed, verdict);
    ArmingIs(s, u.loop, page, now);
    if Watched(s, page) {
      TransitionNamesEdge(s, page);
      ReactionIs(u.(trace := TraceAfter(s, page)), verdict, (LeftSemantic(s), Settling(s).action.StepKey()), page.semantic, now);
    } else {
      NothingIsReported(s, page);
    }
  }

  lemma NothingIsReported(s: State, page: Page)
    requires Settles(s) && !Watched(s, page)
    ensures VerdictAfter(s, page) == 0 && Reported(s, page) == {}
  {
  }

  /** Blocking before the guard, and by it. */
  lemma BlocksThroughGuard(first: State, u: State, t: State, dead: set<EdgeKey>, reported: set<EdgeKey>,
                           trace: seq<Sample>, armed: string, verdict: nat)
    requires Blocks(first, u, dead) && Blocks(Guarded(u, trace, armed, verdict), t, reported)
    ensures Blocks(Guarded(first, trace, armed, verdict), t, dead + reported)
  {
    assert Blocks(Guarded(first, trace, armed, verdict), Guarded(u, trace, armed, verdict), dead);
    BlocksThen(Guarded(first, trace, armed, verdict), Guarded(u, trace, armed, verdict), t, dead, reported);
  }

  lemma ArrivalIs(s: State, page: Page)
    requires Settles(s) && PendingInv(s)
    ensures var u := Discover(NoteSemantic(s, page.semantic), page);
            && u == s.(graph := u.graph, trace := TraceBefore(s, page),
                       cover := s.cover.(seenSemantic := s.cover.seenSemantic + {page.semantic}))
            && u.graph == s.graph.(nodes := u.graph.nodes, discovered := u.graph.discovered)
            && SemanticOf(u.graph, Settling(s).from) == LeftSemantic(s)
            && SampleOf(u.graph, Settling(s), LeftSemantic(s), page) == Transition(s, page)
  {
    assert page.semantic in s.cover.seenSemantic ==> s.cover.seenSemantic + {page.semantic} == s.cover.seenSemantic;
  }

  ghost function Dead(s: State, page: Page): set<EdgeKey>
    requires Settles(s)
  {
    DeadEnd(s, page) + GivenUp(s, page) + Astray(s, page)
  }

  /** The loop between the judgement of the step and the cycle guard. */
  function LoopBetween(s: State, page: Page): Loop
    requires Settles(s)
  {
    s.loop.(samePageSwipes := StallsAfter(s, page), stuck := StuckAfter(s, page))
  }

  /** The step has been judged, and the guard not yet told. */
  function Between(s: State, u: State, page: Page): State
    requires Settles(s)
  {
    u.(loop := LoopBetween(s, page), counters := Judged(u.counters, !Unmoved(s, page)))
  }

  lemma BeforeGuardIs(s: State, u: State, page: Page)
    requires Settles(s) && SameStep(s, u) && u.loop == s.loop && u.graph.parents == s.graph.parents
    ensures var s2 := NoteEffect(u, s.loop.pending.value, LeftSemantic(s), page.semantic);
            var s3 := s2.(loop := s2.loop.(stuck :=
              NoteProgress(s2.loop.stuck, page.semantic, page.activity, LeftSemantic(s) != page.semantic)));
            Blocks(Between(s, u, page), NoteBacktrack(s3, Settling(s), LeftSemantic(s), page), Dead(s, page))
  {
    var s2 := NoteEffect(u, s.loop.pending.value, LeftSemantic(s), page.semantic);
    var between := LoopBetween(s, page);
    var judged := u.(loop := s2.loop, counters := Judged(u.counters, !Unmoved(s, page)));
    EffectIs(s, u, page);
    ProgressIs(s, page);
    var s3 := s2.(loop := between);
    assert s2.loop == s.loop.(samePageSwipes := StallsAfter(s, page));
    BlocksInAnyLoop(judged, s2, DeadEnd(s, page) + GivenUp(s, page), between);
    BacktrackIs(s, s3, page);
    BlocksThen(judged.(loop := between), s3, NoteBacktrack(s3, Settling(s), LeftSemantic(s), page),
               DeadEnd(s, page) + GivenUp(s, page), Astray(s, page));
  }

  /** Everything between closing the step and adopting the page. */
  lemma ConsequencesAre(s: State, u: State, page: Page, now: int)
    requires Settles(s) && SameStep(s, u) && u.loop == s.loop && u.graph.parents == s.graph.parents
    requires u.trace == TraceBefore(s, page) && SampleOf(u.graph, Settling(s), LeftSemantic(s), page) == Transition(s, page)
    ensures var t := Consequences(u, s.loop.pending.value, LeftSemantic(s), Settling(s), page, now);
            Blocks(Guarded(Between(s, u, page), TraceNow(s, page), ArmedAfter(s, page, now), VerdictAfter(s, page)),
                   t, Dead(s, page) + Reported(s, page))
  {
    var s2 := NoteEffect(u, s.loop.pending.value, LeftSemantic(s), page.semantic);
    var s3 := s2.(loop := s2.loop.(stuck :=
      NoteProgress(s2.loop.stuck, page.semantic, page.activity, LeftSemantic(s) != page.semantic)));
    var s4 := NoteBacktrack(s3, Settling(s), LeftSemantic(s), page);
    BeforeGuardIs(s, u, page);
    CycleIs(s, s4, page, now);
    BlocksThroughGuard(Between(s, u, page), s4, ObserveCycle(s4, Settling(s), LeftSemantic(s), page, now),
                       Dead(s, page), Reported(s, page), TraceNow(s, page), ArmedAfter(s, page, now), VerdictAfter(s, page));
  }

  /** The page has arrived and its step is closed; nothing has been judged yet. */
  ghost function Closed(s: State, page: Page): State
    requires Settles(s)
  {
    CloseStep(Discover(NoteSemantic(s, page.semantic), page), s.loop.pending.value, page)
  }

  lemma ClosingIs(s: State, page: Page)
    requires Settles(s) && PendingInv(s)
    ensures var u := Closed(s, page);
            && SameStep(s, u) && u.graph.parents == s.graph.parents
            && SampleOf(u.graph, Settling(s), LeftSemantic(s), page) == Transition(s, page)
            && u.cover == s.cover.(seenSemantic := s.cover.seenSemantic + {page.semantic})
            && u.trace == TraceBefore(s, page) && u.loop == s.loop && u.log == s.log
            && u.roundSteps == s.roundSteps && u.detours == s.detours
            && CountersAfter(s, page) == Guarded(Between(s, u, page), [], "", VerdictAfter(s, page)).counters
  {
    ArrivalIs(s, page);
  }

  lemma RecordingIs(s: State, page: Page, now: int)
    requires Settles(s) && PendingInv(s)
    ensures var t := Consequences(Closed(s, page), s.loop.pending.value, LeftSemantic(s), Settling(s), page, now);
            var r := RecordPage(s, page, now);
            r == t.(graph := r.graph, loop := t.loop.(pending := None))
  {
    ArrivalIs(s, page);
    var s1 := Discover(NoteSemantic(s, page.semantic), page);
    SettleIs(s1, s.loop.pending.value, page, page.fingerprint !in s.graph.nodes, now);
  }

  lemma BlocksGives(s: State, u: State, t: State, edges: set<EdgeKey>)
    requires Blocks(s, t, edges) && s.cover == u.cover && s.log == u.log && s.roundSteps == u.roundSteps && s.detours == u.detours
    ensures t.cover == u.cover.(blocked := u.cover.blocked + edges) && t.trace == s.trace && t.loop == s.loop
    ensures t.counters == s.counters.(blockedEdges := t.counters.blockedEdges)
    ensures t.log == u.log && t.roundSteps == u.roundSteps && t.detours == u.detours
  {
  }

  lemma ConsequencesGive(s: State, page: Page, now: int)
    requires Settles(s) && PendingInv(s)
    ensures var t := Consequences(Closed(s, page), s.loop.pending.value, LeftSemantic(s), Settling(s), page, now);
            && t.cover == s.cover.(
                 seenSemantic := s.cover.seenSemantic + {page.semantic},
                 blocked := s.cover.blocked + DeadEnd(s, page) + GivenUp(s, page) + Astray(s, page) + Reported(s, page))
            && t.counters == CountersAfter(s, page).(blockedEdges := t.counters.blockedEdges)
            && t.loop == s.loop.(samePageSwipes := StallsAfter(s, page), stuck := StuckAfter(s, page),
                                 escalationArmed := ArmedAfter(s, page, now))
            && t.trace == TraceNow(s, page)
            && t.log == s.log && t.roundSteps == s.roundSteps && t.detours == s.detours
  {
    var u := Closed(s, page);
    ClosingIs(s, page);
    ConsequencesAre(s, u, page, now);
    BlocksGives(Guarded(Between(s, u, page), TraceNow(s, page), ArmedAfter(s, page, now), VerdictAfter(s, page)), u,
                Consequences(u, s.loop.pending.value, LeftSemantic(s), Settling(s), page, now),
                Dead(s, page) + Reported(s, page));
    UnionsAssociate(s.cover.blocked, DeadEnd(s, page), GivenUp(s, page), Astray(s, page), Reported(s, page));
  }

  lemma UnionsAssociate(a: set<EdgeKey>, b: set<EdgeKey>, c: set<EdgeKey>, d: set<EdgeKey>, e: set<EdgeKey>)
    ensures a + (b + c + d + e) == a + b + c + d + e
  {
  }

  /** Recording a page judges the step that led to it by whether the semantic
      state has changed, and blocks exactly these edges: the tap before a visible
      back control that changed nothing, a swipe that changed nothing for the
      third time, a return that led elsewhere, and what the cycle guard names. */
  lemma RecordPageSettles(s: State, page: Page, now: int)
    requires Settles(s) && PendingInv(s)
    ensures var t := RecordPage(s, page, now);
            && t.cover == s.cover.(
                 seenSemantic := s.cover.seenSemantic + {page.semantic},
                 blocked := s.cover.blocked + DeadEnd(s, page) + GivenUp(s, page) + Astray(s, page) + Reported(s, page))
            && t.counters == CountersAfter(s, page).(blockedEdges := t.counters.blockedEdges)
            && t.loop == s.loop.(pending := None, samePageSwipes := StallsAfter(s, page),
                                 stuck := StuckAfter(s, page), escalationArmed := ArmedAfter(s, page, now))
            && t.trace == TraceNow(s, page)
            && t.log == s.log && t.roundSteps == s.roundSteps && t.detours == s.detours
  {
    ConsequencesGive(s, page, now);
    RecordingIs(s, page, now);
  }

  /** When settling a page closes a cycle, every edge of the last period of the
      whole trace is blocked, or, for a repeated transition, its own edge. */
  lemma ReportedCycleIsBlocked(s: State, page: Page, now: int)
    requires Settles(s) && PendingInv(s)
    ensures var trace, verdict, t := TraceAfter(s, page), VerdictAfter(s, page), RecordPage(s, page, now);
            && (1 <= verdict <= C.MAX_PERIOD ==> verdict <= |trace|)
            && t.counters.cycleDetections == s.counters.cycleDetections + (if verdict == 0 then 0 else 1)
            && (1 <= verdict <= C.MAX_PERIOD ==>
                  forall i :: |trace| - verdict <= i < |trace| ==>
                    (trace[i].blockFrom, trace[i].action) in t.cover.blocked)
            && (verdict == C.REPEATED_TRANSITION ==>
                  (trace[|trace| - 1].blockFrom, trace[|trace| - 1].action) in t.cover.blocked)
  {
    var trace, verdict := TraceAfter(s, page), VerdictAfter(s, page);
    assert C.IsVerdict(C.Keys(TraceAfter(s, page)), C.Verdict(C.Keys(TraceAfter(s, page))));
    RecordPageSettles(s, page, now);
    if verdict > 0 { TailIsNamed(trace, verdict); }
  }

  lemma TailIsNamed(trace: seq<Sample>, verdict: nat)
    requires trace != [] && verdict > 0
    ensures var n := if verdict <= 8 && verdict <= |trace| then verdict else 1;
            forall i :: |trace| - n <= i < |trace| ==> (trace[i].blockFrom, trace[i].action) in NamedBy(trace, verdict)
  {
    var n := if verdict <= 8 && verdict <= |trace| then verdict else 1;
    var tail := trace[|trace| - n..];
    forall i | |trace| - n <= i < |trace| ensures (trace[i].blockFrom, trace[i].action) in EdgesOf(tail) {
      assert tail[i - (|trace| - n)] == trace[i];
    }
  }

  // ----- The graph -----------------------------------------------------------

  /** `back` undoes `a`: the swipe with its ends exchanged, or the back key. */
  predicate Reverses(back: Action, a: Action) {
    && back.backtrack
    && if a.kind == Swipe
       then back.kind == Swipe && back.x == a.endX && back.y == a.endY && back.endX == a.x && back.endY == a.y
            && back.resource == a.resource && back.className == a.className
       else back.kind == Back
  }

  /** The pages after a capture: it is added, or named if it had no activity. */
  function NodesAfter(s: State, page: Page): map<string, Node> {
    var nodes, fp := s.graph.nodes, page.fingerprint;
    if fp !in nodes then nodes[fp := Node(page.actions, page.activity, page.semantic, {}, map[], 0)]
    else if nodes[fp].activity == "" then nodes[fp := nodes[fp].(activity := page.activity)] else nodes
  }

  lemma DiscoveryIs(s: State, page: Page)
    ensures var u, fp := Discover(NoteSemantic(s, page.semantic), page), page.fingerprint;
            && u.graph == s.graph.(nodes := NodesAfter(s, page),
                 discovered := if fp in s.graph.nodes then s.graph.discovered else s.graph.discovered + [fp])
            && u.loop == s.loop && u.receipts == s.receipts
  {
    assert page.fingerprint in s.graph.nodes ==>
      s.graph.nodes[page.fingerprint := s.graph.nodes[page.fingerprint]] == s.graph.nodes;
  }

  lemma AdoptionIs(g: Graph, h: Graph, step: Step, page: Page, isNew: bool)
    requires Adopts(g, h, step, page, isNew)
    ensures if !isNew || step.action.backtrack || step.from == FromPage(page.fingerprint)
            then h.parents == g.parents && h.returnActions == g.returnActions
            else
              && h.parents == g.parents[page.fingerprint := step.from]
              && exists back :: Reverses(back, step.action) && h.returnActions == g.returnActions[page.fingerprint := back]
  {
    assert Reverses(InverseAction(step.action, page.fingerprint, step.from), step.action);
  }

  /** A new page that a forward step led to has that step's origin as its parent
      and an action that undoes the step as its way back. */
  lemma RecordPageLinks(s: State, page: Page, now: int)
    requires Settles(s)
    ensures var g, t, fp, i := s.graph, RecordPage(s, page, now), page.fingerprint, s.loop.pending.value;
            && t.graph == Graph(
                 NodesAfter(s, page), if fp in g.nodes then g.discovered else g.discovered + [fp],
                 g.edges + [Edge(Settling(s).from, Settling(s).action.id, fp)],
                 g.steps[i := Settling(s).(destination := Some(fp))],
                 t.graph.parents, t.graph.returnActions, g.returnAttempts)
            && t.receipts == (if Settling(s).id in s.receipts then s.receipts[Settling(s).id := Executed] else s.receipts)
            && if fp in g.nodes || Settling(s).action.backtrack || Settling(s).from == FromPage(fp)
               then t.graph.parents == g.parents && t.graph.returnActions == g.returnActions
               else
                 && t.graph.parents == g.parents[fp := Settling(s).from]
                 && exists back :: Reverses(back, Settling(s).action) && t.graph.returnActions == g.returnActions[fp := back]
  {
    DiscoveryIs(s, page);
    var s1, isNew := Discover(NoteSemantic(s, page.semantic), page), page.fingerprint !in s.graph.nodes;
    var t := RecordPage(s, page, now);
    SettleCloses(s1, s.loop.pending.value, page, isNew, now);
    AdoptionIs(s1.graph, t.graph, Settling(s), page, isNew);
  }

  /** Without a pending step a capture only adds the page and its semantic state. */
  lemma RecordPageArrives(s: State, page: Page, now: int)
    requires !Settles(s)
    ensures var g, fp := s.graph, page.fingerprint;
            RecordPage(s, page, now)
            == s.(graph := g.(nodes := NodesAfter(s, page),
                              discovered := if fp in g.nodes then g.discovered else g.discovered + [fp]),
                  trace := TraceBefore(s, page),
                  cover := s.cover.(seenSemantic := s.cover.seenSemantic + {page.semantic}))
  {
    assert page.semantic in s.cover.seenSemantic ==> s.cover.seenSemantic + {page.semantic} == s.cover.seenSemantic;
    assert page.fingerprint in s.graph.nodes ==>
      s.graph.nodes[page.fingerprint := s.graph.nodes[page.fingerprint]] == s.graph.nodes;
  }
}
