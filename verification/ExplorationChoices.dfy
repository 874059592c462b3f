/** What the engine does with a page: which control it takes and, when there is
    none, whether it returns, escapes, waits, starts a new round, restarts or
    stops. Every condition is told from the page, the marks and the clock. */
module ExplorationChoices {
  import opened Options
  import opened ExplorationTypes
  import opened ExplorationModel

  // ----- Selecting -----------------------------------------------------------

  /** A control that a selection pass may take. */
  predicate Free(node: Node, config: Config, excluded: Action -> bool, a: Action) {
    a in node.actions && a.id !in node.tried && (a.kind == Swipe ==> config.enableScroll) && !excluded(a)
  }

  ghost predicate Rescuing(node: Node, config: Config, excluded: Action -> bool, a: Action) {
    Free(node, config, excluded, a)
    && (config.recoverPopups && (exists b :: Free(node, config, excluded, b) && b.recovery) ==> a.recovery)
  }

  /** A control that competes in the pass: one that closes a popup if there is
      any, and after two other selections a swipe if there is any. */
  ghost predicate Competes(node: Node, config: Config, excluded: Action -> bool, a: Action) {
    Rescuing(node, config, excluded, a)
    && (node.nonScroll >= 2 && (exists b :: Rescuing(node, config, excluded, b) && b.kind == Swipe) ==> a.kind == Swipe)
  }

  ghost predicate Picks(node: Node, config: Config, excluded: Action -> bool, rank: Action -> int, a: Action) {
    Competes(node, config, excluded, a)
    && forall b :: Competes(node, config, excluded, b) ==> rank(a) <= rank(b)
  }

  lemma NarrowKeeps(actions: seq<Action>, wanted: bool, keep: Action -> bool)
    ensures forall a :: a in Narrow(actions, wanted, keep) <==>
              a in actions && (wanted && (exists b :: b in actions && keep(b)) ==> keep(a))
  {
    var kept := Filter(actions, keep);
    assert kept != [] ==> kept[0] in kept;
    if exists b :: b in actions && keep(b) {
      var b :| b in actions && keep(b);
      assert b in kept;
    }
  }

  /** Selection takes a least ranked of the competing controls, and takes none
      only when no control is free. */
  lemma SelectionPicks(node: Node, config: Config, excluded: Action -> bool, rank: Action -> int)
    ensures var r := Select(node, config, excluded, rank);
            && (r.Some? <==> exists a :: Free(node, config, excluded, a))
            && (r.Some? ==> Picks(node, config, excluded, rank, r.value))
  {
    var candidates := Filter(node.actions, Candidates(node, config, excluded));
    assert forall a :: a in candidates <==> Free(node, config, excluded, a);
    var recovering := Narrow(candidates, config.recoverPopups, IsRecovery);
    NarrowKeeps(candidates, config.recoverPopups, IsRecovery);
    assert forall a :: a in recovering <==> Rescuing(node, config, excluded, a);
    var pool := Narrow(recovering, node.nonScroll >= SELECTIONS_BEFORE_SCROLL, IsSwipe);
    NarrowKeeps(recovering, node.nonScroll >= SELECTIONS_BEFORE_SCROLL, IsSwipe);
    assert forall a :: a in pool <==> Competes(node, config, excluded, a);
    if candidates != [] {
      assert Free(node, config, excluded, candidates[0]);
    }
  }

  /** What the ordinary pass leaves out. */
  predicate SpentHere(l: Loop, cover: Cover, node: Node, activity: string, advice: Advice, a: Action) {
    || advice.barred(a)
    || (l.purchaseBlocked && advice.purchase(a))
    || (node.semantic, Keyed(a.Key())) in cover.blocked
    || (a.kind == Input && (activity, a.id) in cover.inputTried)
    || (a.kind == Tap && (activity, a.Key()) in cover.seenTaps)
  }

  /** A control of the page that the ordinary pass would take. */
  predicate Available(s: State, config: Config, page: Page, advice: Advice, a: Action)
    requires page.fingerprint in s.graph.nodes
  {
    var node := s.graph.nodes[page.fingerprint];
    && a in node.actions && a.id !in node.tried && (a.kind == Swipe ==> config.enableScroll)
    && !SpentHere(s.loop, s.cover, node, page.activity, advice, a)
  }

  lemma FreeMeansAvailable(s: State, config: Config, page: Page, advice: Advice, a: Action)
    requires page.fingerprint in s.graph.nodes
    ensures var node := s.graph.nodes[page.fingerprint];
            && (Available(s, config, page, advice, a) <==>
                  Free(node, config, Excluded(s.loop, s.cover, node, page.activity, advice), a))
            && (Available(s, config, page, advice, a) && !a.externalRisk <==>
                  Free(node, config, ExcludedFirst(s.loop, s.cover, node, page.activity, advice), a))
  {
  }

  /** The control that coverage takes: one that leads to no outside account as
      long as there is such a control, and a least ranked of those competing. */
  ghost predicate CoverageTakes(s: State, config: Config, page: Page, advice: Advice, a: Action)
    requires page.fingerprint in s.graph.nodes
  {
    var node := s.graph.nodes[page.fingerprint];
    && Available(s, config, page, advice, a)
    && if exists b :: Available(s, config, page, advice, b) && !b.externalRisk
       then !a.externalRisk
            && Picks(node, config, ExcludedFirst(s.loop, s.cover, node, page.activity, advice), advice.rank, a)
       else Picks(node, config, Excluded(s.loop, s.cover, node, page.activity, advice), advice.rank, a)
  }

  lemma CoverageTakesOne(s: State, config: Config, page: Page, advice: Advice)
    requires page.fingerprint in s.graph.nodes
    ensures var r := CoverageChoice(s.loop, s.cover, config, page.activity, s.graph.nodes[page.fingerprint], advice);
            && (r.Some? <==> exists a :: Available(s, config, page, advice, a))
            && (r.Some? ==> CoverageTakes(s, config, page, advice, r.value))
  {
    var node := s.graph.nodes[page.fingerprint];
    var first := ExcludedFirst(s.loop, s.cover, node, page.activity, advice);
    var second := Excluded(s.loop, s.cover, node, page.activity, advice);
    forall a
      ensures Available(s, config, page, advice, a) <==> Free(node, config, second, a)
      ensures Available(s, config, page, advice, a) && !a.externalRisk <==> Free(node, config, first, a)
    {
      FreeMeansAvailable(s, config, page, advice, a);
    }
    SelectionPicks(node, config, first, advice.rank);
    SelectionPicks(node, config, second, advice.rank);
  }

  // ----- Choosing ------------------------------------------------------------

  predicate StuckHere(s: State, page: Page)
    requires page.fingerprint in s.graph.nodes
  {
    var k, semantic := s.loop.stuck, s.graph.nodes[page.fingerprint].semantic;
    k.ready && ((k.semantic != "" && k.semantic == semantic) || k.activity == page.activity)
  }

  /** On a startup language surface: the preferred language, and its
      confirmation once the language has been accepted. */
  predicate Offered(s: State, page: Page, advice: Advice, a: Action)
    requires page.fingerprint in s.graph.nodes
  {
    && advice.languageSurface && !StuckHere(s, page) && advice.preferred.Some?
    && (page.activity, a.Key()) !in s.cover.seenTaps
    && var preferred := advice.preferred.value;
       || a == preferred
       || ((page.activity, preferred.Key()) in s.cover.seenTaps && advice.confirm == Some(a)
           && page.activity in s.loop.accepted && s.loop.accepted[page.activity] == preferred.Key())
  }

  ghost function WithMark(s: State, page: Page, a: Action): State {
    if a.kind == Tap then s.(cover := s.cover.(seenTaps := s.cover.seenTaps + {(page.activity, a.Key())})) else s
  }

  /** The language is settled first. */
  lemma LanguageIsSettledFirst(s: State, config: Config, page: Page, advice: Advice, a: Action)
    requires page.fingerprint in s.graph.nodes
    ensures var (t, choice) := Choose(s, config, page, advice);
            && (choice == Take(a, Language) <==> Offered(s, page, advice, a))
            && (choice == Take(a, Language) ==> t == WithMark(s, page, a))
  {
  }

  ghost predicate NothingOffered(s: State, page: Page, advice: Advice)
    requires page.fingerprint in s.graph.nodes
  {
    forall a :: !Offered(s, page, advice, a)
  }

  lemma NoLanguageChoice(s: State, page: Page, advice: Advice)
    requires page.fingerprint in s.graph.nodes && NothingOffered(s, page, advice)
    ensures LanguageChoice(s, page, s.graph.nodes[page.fingerprint].semantic, advice).None?
  {
    var r := LanguageChoice(s, page, s.graph.nodes[page.fingerprint].semantic, advice);
    if r.Some? {
      assert Offered(s, page, advice, r.value);
    }
  }

  /** As long as a page has an available control the engine neither returns,
      escapes, waits, restarts nor stops: it takes such a control. */
  lemma AvailableControlIsTaken(s: State, config: Config, page: Page, advice: Advice, a: Action)
    requires page.fingerprint in s.graph.nodes && NothingOffered(s, page, advice)
    requires Available(s, config, page, advice, a)
    ensures var (t, choice) := Choose(s, config, page, advice);
            && choice.Take? && choice.path == Coverage && CoverageTakes(s, config, page, advice, choice.action)
            && t == WithMark(s, page, choice.action)
  {
    NoLanguageChoice(s, page, advice);
    CoverageTakesOne(s, config, page, advice);
  }

  /** Nothing to settle and no control left. */
  ghost predicate Exhausted(s: State, config: Config, page: Page, advice: Advice)
    requires page.fingerprint in s.graph.nodes
  {
    NothingOffered(s, page, advice) && forall a :: !Available(s, config, page, advice, a)
  }

  /** The way back is open: it is known and allowed, and it has either not been
      tried this round nor found to lead elsewhere, or a stall here forces it. */
  predicate ReturnsNow(s: State, config: Config, page: Page)
    requires page.fingerprint in s.graph.nodes
  {
    var fp, semantic := page.fingerprint, s.graph.nodes[page.fingerprint].semantic;
    && config.enableBacktrack && fp in s.graph.returnActions && s.counters.backtracks < config.maxBacktracks
    && (((semantic, Backtracking) !in s.cover.blocked && (fp in s.graph.returnAttempts ==> s.graph.returnAttempts[fp] == 0))
        || s.loop.escalationArmed == semantic)
  }

  /** A stall that was armed here is disarmed for thirty seconds. */
  ghost function Cooled(s: State, page: Page, now: int): Loop
    requires page.fingerprint in s.graph.nodes
  {
    var semantic := s.graph.nodes[page.fingerprint].semantic;
    if s.loop.escalationArmed != semantic then s.loop
    else s.loop.(escalationArmed := "", coolState := semantic, coolUntil := now + 30)
  }

  /** The passes before the return find nothing. */
  lemma NothingIsPicked(s: State, config: Config, page: Page, advice: Advice)
    requires page.fingerprint in s.graph.nodes && Exhausted(s, config, page, advice)
    ensures var node := s.graph.nodes[page.fingerprint];
            && LanguageChoice(s, page, node.semantic, advice).None?
            && CoverageChoice(s.loop, s.cover, config, page.activity, node, advice).None?
  {
    NoLanguageChoice(s, page, advice);
    CoverageTakesOne(s, config, page, advice);
  }

  lemma ExhaustedReturns(s: State, config: Config, page: Page, advice: Advice)
    requires page.fingerprint in s.graph.nodes && Exhausted(s, config, page, advice) && ReturnsNow(s, config, page)
    ensures var (t, choice) := Choose(s, config, page, advice);
            var fp := page.fingerprint;
            var n := if fp in s.graph.returnAttempts then s.graph.returnAttempts[fp] else 0;
            && choice == Take(s.graph.returnActions[fp], Return)
            && t == s.(graph := s.graph.(returnAttempts := s.graph.returnAttempts[fp := n + 1]),
                       loop := Cooled(s, page, advice.now))
  {
    NothingIsPicked(s, config, page, advice);
  }

  lemma ExhaustedLeaves(s: State, config: Config, page: Page, advice: Advice)
    requires page.fingerprint in s.graph.nodes && Exhausted(s, config, page, advice) && !ReturnsNow(s, config, page)
    ensures Choose(s, config, page, advice) == ChooseExhausted(s, config, page, advice)
  {
    NothingIsPicked(s, config, page, advice);
  }

  lemma ExhaustedNeverReturns(s: State, config: Config, page: Page, advice: Advice)
    requires page.fingerprint in s.graph.nodes
    ensures var choice := ChooseExhausted(s, config, page, advice).1; choice.Take? ==> choice.path != Return
  {
  }

  /** An exhausted page is left the way it was entered exactly when the way back
      is open; the attempt is counted. */
  lemma ReturnIsTakenExactlyWhen(s: State, config: Config, page: Page, advice: Advice)
    requires page.fingerprint in s.graph.nodes && Exhausted(s, config, page, advice)
    ensures var (t, choice) := Choose(s, config, page, advice);
            var fp := page.fingerprint;
            && (choice.Take? && choice.path == Return <==> ReturnsNow(s, config, page))
            && (ReturnsNow(s, config, page) ==>
                  var n := if fp in s.graph.returnAttempts then s.graph.returnAttempts[fp] else 0;
                  && choice.action == s.graph.returnActions[fp]
                  && t == s.(graph := s.graph.(returnAttempts := s.graph.returnAttempts[fp := n + 1]),
                             loop := Cooled(s, page, advice.now)))
  {
    if ReturnsNow(s, config, page) {
      ExhaustedReturns(s, config, page, advice);
    } else {
      ExhaustedLeaves(s, config, page, advice);
      ExhaustedNeverReturns(s, config, page, advice);
    }
  }

  // ----- Leaving -------------------------------------------------------------

  /** The first control of the page that looks like its own way back. */
  predicate FirstBack(actions: seq<Action>, a: Action) {
    exists i :: 0 <= i < |actions| && actions[i] == a && a.IsVisibleBackControl()
      && forall j :: 0 <= j < i ==> !actions[j].IsVisibleBackControl()
  }

  lemma {:induction false} VisibleBackIsFirst(actions: seq<Action>)
    ensures VisibleBack(actions).Some? <==> exists a :: FirstBack(actions, a)
    ensures forall a :: FirstBack(actions, a) <==> VisibleBack(actions) == Some(a)
  {
    if actions != [] && !actions[0].IsVisibleBackControl() {
      VisibleBackIsFirst(actions[1..]);
      forall a ensures FirstBack(actions, a) <==> FirstBack(actions[1..], a) {
        BackInTail(actions, a);
      }
    } else if actions != [] {
      assert FirstBack(actions, actions[0]);
    }
  }

  lemma BackInTail(actions: seq<Action>, a: Action)
    requires actions != [] && !actions[0].IsVisibleBackControl()
    ensures FirstBack(actions, a) <==> FirstBack(actions[1..], a)
  {
    if FirstBack(actions, a) {
      var i :| 0 <= i < |actions| && actions[i] == a && a.IsVisibleBackControl()
        && forall j :: 0 <= j < i ==> !actions[j].IsVisibleBackControl();
      assert actions[1..][i - 1] == a;
    }
    if FirstBack(actions[1..], a) {
      var i :| 0 <= i < |actions[1..]| && actions[1..][i] == a && a.IsVisibleBackControl()
        && forall j :: 0 <= j < i ==> !actions[1..][j].IsVisibleBackControl();
      assert actions[i + 1] == a;
      assert forall j :: 1 <= j < i + 1 ==> actions[j] == actions[1..][j - 1];
    }
  }

  /** The loop once the exhaustion of the page has been noted. */
  ghost function Noted(s: State, page: Page, now: int): Loop
    requires page.fingerprint in s.graph.nodes
  {
    var again := s.loop.exhaustedPage == page.fingerprint;
    Cooled(s, page, now).(exhaustedPage := page.fingerprint,
                          exhaustedCaptures := if again then s.loop.exhaustedCaptures + 1 else 1)
  }

  lemma ExhaustedIsNoted(s: State, config: Config, page: Page, advice: Advice)
    requires page.fingerprint in s.graph.nodes && Exhausted(s, config, page, advice) && !ReturnsNow(s, config, page)
    ensures var semantic := s.graph.nodes[page.fingerprint].semantic;
            Choose(s, config, page, advice)
            == LeaveExhausted(s.(loop := Noted(s, page, advice.now)), config, page, semantic, advice)
  {
    ExhaustedLeaves(s, config, page, advice);
  }

  /** A page the engine is stuck on: one step back, by the page's own control if
      it has one, then a relaunch at most every thirty seconds. */
  lemma StuckPageIsLeft(s: State, config: Config, page: Page, advice: Advice)
    requires page.fingerprint in s.graph.nodes && Exhausted(s, config, page, advice) && !ReturnsNow(s, config, page)
    requires StuckHere(s, page)
    ensures var (t, choice) := Choose(s, config, page, advice);
            var semantic, l := s.graph.nodes[page.fingerprint].semantic, Noted(s, page, advice.now);
            if advice.elapsed then choice == Stop && t == s.(loop := l)
            else if l.stuck.backSent != semantic then
              && choice.Take? && choice.path == Escape && t == s.(loop := l.(stuck := l.stuck.(backSent := semantic)))
              && (FirstBack(page.actions, choice.action)
                  || (choice.action == SystemBack && forall a :: a in page.actions ==> !a.IsVisibleBackControl()))
            else if l.coolState == semantic && advice.now < l.coolUntil then choice == Again && t == s.(loop := l)
            else
              && choice == Restart
              && t == s.(loop := l.(coolState := semantic, coolUntil := advice.now + 30,
                                    stuck := l.stuck.(relaunch := true)))
  {
    ExhaustedIsNoted(s, config, page, advice);
    VisibleBackIsFirst(page.actions);
  }

  /** A new round: everything tried is forgotten, and nothing else. */
  ghost predicate Renews(s: State, r: State) {
    && r.graph == s.graph.(nodes := r.graph.nodes, returnAttempts := map[])
    && r.graph.nodes.Keys == s.graph.nodes.Keys
    && (forall fp :: fp in s.graph.nodes ==>
          r.graph.nodes[fp] == s.graph.nodes[fp].(tried := {}, attempts := map[], nonScroll := 0))
    && r == s.(graph := r.graph, cover := s.cover.(inputTried := {}), roundSteps := 0,
               loop := s.loop.(exhaustedPage := "", exhaustedCaptures := 0))
  }

  /** What a new round takes: a control that is available again, else once the
      page's own way back, else nothing, and the target is restarted. */
  ghost predicate Starts(r: State, config: Config, page: Page, advice: Advice, t: State, choice: Choice)
    requires page.fingerprint in r.graph.nodes
  {
    var node := r.graph.nodes[page.fingerprint];
    if exists a :: Available(r, config, page, advice, a) then
      && choice.Take? && choice.path == Coverage && Available(r, config, page, advice, choice.action)
      && Picks(node, config, Excluded(r.loop, r.cover, node, page.activity, advice), advice.rankAfterReset, choice.action)
      && t == WithMark(r, page, choice.action)
    else if r.loop.backEscapeState != node.semantic && exists a :: FirstBack(page.actions, a) then
      && choice.Take? && choice.path == Escape && FirstBack(page.actions, choice.action)
      && t == r.(loop := r.loop.(backEscapeState := node.semantic))
    else choice == Restart && t == r.(loop := r.loop.(coldStart := false))
  }

  lemma ReopenedRenews(s: State)
    ensures Renews(s, Reopened(s))
  {
  }

  lemma PickAgainStarts(r: State, config: Config, page: Page, advice: Advice)
    requires page.fingerprint in r.graph.nodes
    ensures var (t, choice) := PickAgain(r, config, page, advice); Starts(r, config, page, advice, t, choice)
  {
    var node := r.graph.nodes[page.fingerprint];
    var excluded := Excluded(r.loop, r.cover, node, page.activity, advice);
    SelectionPicks(node, config, excluded, advice.rankAfterReset);
    forall a ensures Available(r, config, page, advice, a) <==> Free(node, config, excluded, a) {
      FreeMeansAvailable(r, config, page, advice, a);
    }
    VisibleBackIsFirst(page.actions);
  }

  /** Any other exhausted page is given a second capture, and then a new round
      unless the time is up or a relaunch is cooling down. */
  lemma SpentPageIsLeft(s: State, config: Config, page: Page, advice: Advice)
    requires page.fingerprint in s.graph.nodes && Exhausted(s, config, page, advice) && !ReturnsNow(s, config, page)
    requires !StuckHere(s, page)
    ensures var (t, choice) := Choose(s, config, page, advice);
            var noted := s.(loop := Noted(s, page, advice.now));
            if noted.loop.exhaustedCaptures < 2 then choice == Again && t == noted
            else if advice.elapsed then choice == Stop && t == noted
            else if advice.now < s.loop.ladderCoolUntil then choice == Again && t == noted
            else exists r :: Renews(noted, r) && Starts(r, config, page, advice, t, choice)
  {
    var noted := s.(loop := Noted(s, page, advice.now));
    ExhaustedIsNoted(s, config, page, advice);
    ReopenedRenews(noted);
    PickAgainStarts(Reopened(noted), config, page, advice);
  }

  /** It gives up on a page that is not stuck only when not even a new round
      makes any control available. */
  lemma RestartMeansNothingAvailable(s: State, config: Config, page: Page, advice: Advice, a: Action)
    requires page.fingerprint in s.graph.nodes && !StuckHere(s, page)
    requires Choose(s, config, page, advice).1.Restart?
    ensures forall r :: Renews(s.(loop := Noted(s, page, advice.now)), r) ==> !Available(r, config, page, advice, a)
  {
    OnlyExhaustedPagesRestart(s, config, page, advice);
    SpentPageIsLeft(s, config, page, advice);
    var noted := s.(loop := Noted(s, page, advice.now));
    var (t, choice) := Choose(s, config, page, advice);
    var r :| Renews(noted, r) && Starts(r, config, page, advice, t, choice);
    forall r' | Renews(noted, r') ensures r' == r {
      assert r'.graph.nodes == r.graph.nodes;
    }
  }

  lemma OnlyExhaustedPagesRestart(s: State, config: Config, page: Page, advice: Advice)
    requires page.fingerprint in s.graph.nodes && Choose(s, config, page, advice).1.Restart?
    ensures Exhausted(s, config, page, advice) && !ReturnsNow(s, config, page)
  {
    forall a ensures !Offered(s, page, advice, a) {
      LanguageIsSettledFirst(s, config, page, advice, a);
    }
    forall a ensures !Available(s, config, page, advice, a) {
      if Available(s, config, page, advice, a) { AvailableControlIsTaken(s, config, page, advice, a); }
    }
    if ReturnsNow(s, config, page) { ExhaustedReturns(s, config, page, advice); }
  }
}
