/** A recording in progress: emitted actions are appended, taps merge, excluded
    areas are skipped.  Proved over whole event streams: exactly which streams
    leave a case the validator accepts. */
module TouchRecording {
  import opened Options
  import opened TouchTimeline

  predicate StartsInside(a: Action, bounds: Bounds) {
    match a
    case Tap(_, _, start) => bounds.Contains(start)
    case LongPress(_, _, start) => bounds.Contains(start)
    case DoubleTap(_, _, start) => bounds.Contains(start)
    case Swipe(_, _, start, _) => bounds.Contains(start)
    case MultiTouch(_, _, contacts) => exists i :: 0 <= i < |contacts| && bounds.Contains(contacts[i].start)
    case _ => false
  }

  predicate Skipped(excluded: Option<Bounds>, a: Action) {
    excluded.Some? && StartsInside(a, excluded.value)
  }

  /** A tap close enough in time and place to the tap before it. */
  predicate Merges(actions: seq<Action>, a: Action) {
    && a.Tap? && actions != [] && actions[|actions| - 1].Tap?
    && 0 <= a.offset - actions[|actions| - 1].offset <= DOUBLE_TAP_MILLIS
    && SquaredDistance(actions[|actions| - 1].start, a.start) <= 0.0009
  }

  function AppendOne(actions: seq<Action>, excluded: Option<Bounds>, a: Action): seq<Action> {
    if Skipped(excluded, a) then actions
    else if Merges(actions, a) then
      var previous := actions[|actions| - 1];
      actions[..|actions| - 1] + [DoubleTap(previous.offset, a.offset - previous.offset, previous.start)]
    else actions + [a]
  }

  function AppendAll(actions: seq<Action>, excluded: Option<Bounds>, more: seq<Action>): seq<Action> {
    if more == [] then actions
    else AppendOne(AppendAll(actions, excluded, more[..|more| - 1]), excluded, more[|more| - 1])
  }

  /** How many taps on the glass an action stands for. */
  function Taps(a: Action): nat { if a.Tap? then 1 else if a.DoubleTap? then 2 else 0 }

  function TapCount(actions: seq<Action>): nat {
    if actions == [] then 0 else TapCount(actions[..|actions| - 1]) + Taps(actions[|actions| - 1])
  }

  function Gestures(actions: seq<Action>): seq<Action> {
    if actions == [] then []
    else
      var last := actions[|actions| - 1];
      Gestures(actions[..|actions| - 1]) + if Taps(last) > 0 then [] else [last]
  }

  /** Merging conserves taps, and never touches any other action. */
  lemma AppendConservesTaps(actions: seq<Action>, excluded: Option<Bounds>, a: Action)
    ensures var r := AppendOne(actions, excluded, a);
            var kept := !Skipped(excluded, a);
            && TapCount(r) == TapCount(actions) + (if kept then Taps(a) else 0)
            && Gestures(r) == Gestures(actions) + (if kept && Taps(a) == 0 then [a] else [])
  {
    if !Skipped(excluded, a) {
      if Merges(actions, a) {
        var init, previous := actions[..|actions| - 1], actions[|actions| - 1];
        assert actions == init + [previous];
        SnocCounts(init, previous);
        SnocCounts(init, DoubleTap(previous.offset, a.offset - previous.offset, previous.start));
      } else {
        SnocCounts(actions, a);
      }
    }
  }

  lemma SnocCounts(actions: seq<Action>, a: Action)
    ensures TapCount(actions + [a]) == TapCount(actions) + Taps(a)
    ensures Gestures(actions + [a]) == Gestures(actions) + if Taps(a) > 0 then [] else [a]
  {
    assert (actions + [a])[..|actions|] == actions;
  }

  lemma AppendSingle(actions: seq<Action>, excluded: Option<Bounds>, a: Action)
    ensures AppendAll(actions, excluded, [a]) == AppendOne(actions, excluded, a)
  {
    assert [a][..0] == [];
    assert AppendAll(actions, excluded, []) == actions;
  }

  class Recorder {
    var actions: seq<Action>
    var excluded: Option<Bounds>
    const normalizer: Normalizer

    ghost function View(): Recording
      reads this, normalizer
    {
      Recording(normalizer.View(), actions, excluded)
    }

    constructor (recordedAt: int, excluded: Option<Bounds>)
      ensures fresh(normalizer)
      ensures View() == Recording(Norm(recordedAt, map[], []), [], excluded)
    {
      actions, this.excluded := [], excluded;
      normalizer := new Normalizer(recordedAt);
    }

    method AppendActions(more: seq<Action>)
      modifies this`actions
      ensures actions == AppendAll(old(actions), excluded, more)
    {
      for i := 0 to |more|
        invariant actions == AppendAll(old(actions), excluded, more[..i])
      {
        assert more[..i + 1][..i] == more[..i];
        var action := more[i];
        if excluded.Some? && StartsInside(action, excluded.value) { continue; }
        if action.Tap? && |actions| > 0 {
          var previous := actions[|actions| - 1];
          var gap := action.offset - previous.offset;
          if previous.Tap? && gap >= 0 && gap <= DOUBLE_TAP_MILLIS
             && SquaredDistance(previous.start, action.start) <= 0.0009 {
            actions := actions[..|actions| - 1] + [DoubleTap(previous.offset, gap, previous.start)];
            continue;
          }
        }
        actions := actions + [action];
      }
      assert more[..|more|] == more;
    }

    method CaptureEvent(e: Touch)
      modifies this`actions, normalizer
      ensures View() == Step(old(View()), Touched(e))
    {
      var emitted := normalizer.Feed(e);
      AppendActions(emitted);
    }

    /** lastFocusPointLocked: where the latest tap or press went. */
    method FindFocus() returns (focus: Option<Point>)
      ensures focus == LastFocus(actions)
    {
      var index := |actions|;
      assert actions[..index] == actions;
      while index > 0
        invariant 0 <= index <= |actions|
        invariant LastFocus(actions[..index]) == LastFocus(actions)
      {
        index := index - 1;
        assert actions[..index + 1][..index] == actions[..index];
        var a := actions[index];
        if (a.Tap? || a.DoubleTap? || a.LongPress?) && ValidPoint(a.start) { return Some(a.start); }
      }
      return None;
    }

    /** AppendText, AppendKey and AppendScreenshotAssertion. */
    method AppendEntered(at: int, entry: Entry) returns (accepted: bool)
      modifies this`actions
      ensures View() == Step(old(View()), Entered(at, entry))
      ensures accepted <==> Admissible(entry)
    {
      if !Admissible(entry) { return false; }
      var offset := Millis(at - normalizer.recordedAt);
      var a: Action;
      match entry {
        case KeyEntry(code) => a := Key(offset, 0, code);
        case ScreenshotEntry(hash, distance) => a := AssertScreenshot(offset, 0, hash, distance);
        case TextEntry(text, given) =>
          var focus := given;
          if focus.None? { focus := FindFocus(); }
          a := Text(offset, 0, text, focus.Some?, if focus.Some? then focus.value else Point(0.0, 0.0));
      }
      AppendSingle(actions, excluded, a);
      AppendActions([a]);
      return true;
    }

    method SetExcluded(bounds: Bounds)
      modifies this`excluded
      ensures View() == Step(old(View()), Masked(bounds))
    {
      excluded := Some(bounds);
    }
  }

  // ----- Streams -------------------------------------------------------------

  datatype Recording = Recording(norm: Norm, actions: seq<Action>, excluded: Option<Bounds>)

  /** What is entered through the API: a key, a text with or without the place it
      goes to, a screenshot to compare with. */
  datatype Entry =
    | KeyEntry(code: int)
    | TextEntry(text: string, focus: Option<Point>)
    | ScreenshotEntry(hash: string, maxDistance: int)

  /** What the API accepts; screenshot hashes are computed in this form. */
  predicate Admissible(entry: Entry) {
    match entry
    case KeyEntry(code) => code == 4
    case TextEntry(text, focus) =>
      |text| <= 4096 && '\0' !in text && (focus.Some? ==> ValidPoint(focus.value))
    case ScreenshotEntry(hash, distance) =>
      |hash| == 16 && (forall c :: c in hash ==> HexDigit(c)) && 0 <= distance <= 16
  }

  function LastFocus(actions: seq<Action>): (focus: Option<Point>)
    ensures focus.Some? ==> ValidPoint(focus.value)
  {
    if actions == [] then None
    else
      var a := actions[|actions| - 1];
      if (a.Tap? || a.DoubleTap? || a.LongPress?) && ValidPoint(a.start) then Some(a.start)
      else LastFocus(actions[..|actions| - 1])
  }

  /** The action put one finger on this point of the screen. */
  predicate PutsFingerAt(a: Action, p: Point) {
    0.0 <= p.x <= 1.0 && 0.0 <= p.y <= 1.0
    && (a == Tap(a.offset, a.duration, p) || a == DoubleTap(a.offset, a.duration, p)
        || a == LongPress(a.offset, a.duration, p))
  }

  ghost predicate IsLatest(actions: seq<Action>, i: int, p: Point) {
    0 <= i < |actions| && PutsFingerAt(actions[i], p)
    && forall j, q :: i < j < |actions| ==> !PutsFingerAt(actions[j], q)
  }

  /** The focus is where the latest tap, double tap or long press went. */
  lemma {:induction false} FocusIsTheLatest(actions: seq<Action>, p: Point)
    ensures LastFocus(actions) == Some(p) <==> exists i :: IsLatest(actions, i, p)
    decreases |actions|
  {
    if actions != [] {
      var init, n := actions[..|actions| - 1], |actions| - 1;
      FocusIsTheLatest(init, p);
      var a := actions[n];
      if (a.Tap? || a.DoubleTap? || a.LongPress?) && ValidPoint(a.start) {
        assert PutsFingerAt(a, a.start);
        assert a.start == p ==> IsLatest(actions, n, p);
      } else {
        assert forall q :: !PutsFingerAt(a, q);
        assert forall i :: 0 <= i < n ==> (IsLatest(actions, i, p) <==> IsLatest(init, i, p));
      }
    }
  }

  /** An entry as it is recorded, stamped with the time since the start. */
  function EntryAction(r: Recording, at: int, entry: Entry): Action {
    var offset := Millis(at - r.norm.recordedAt);
    match entry
    case KeyEntry(code) => Key(offset, 0, code)
    case TextEntry(text, given) =>
      var focus := if given.Some? then given else LastFocus(r.actions);
      Text(offset, 0, text, focus.Some?, if focus.Some? then focus.value else Point(0.0, 0.0))
    case ScreenshotEntry(hash, distance) => AssertScreenshot(offset, 0, hash, distance)
  }

  /** What is entered is recorded exactly if it makes a well-formed action; it is
      never merged or skipped, and carries what was entered and when. */
  lemma EntryIsRecordedExactlyWhen(r: Recording, at: int, entry: Entry)
    ensures var a := EntryAction(r, at, entry);
            && (Admissible(entry) <==> !Malformed(a))
            && Step(r, Entered(at, entry)) == (if Malformed(a) then r else r.(actions := r.actions + [a]))
            && a.offset == Millis(at - r.norm.recordedAt) && a.duration == 0
            && (match entry
                case KeyEntry(code) => a.Key? && a.keyCode == code
                case TextEntry(text, given) =>
                  && a.Text? && a.text == text && (given.Some? ==> a.focus && a.start == given.value)
                  && (given.None? ==> (a.focus <==> LastFocus(r.actions).Some?)
                                      && (a.focus ==> LastFocus(r.actions) == Some(a.start)))
                case ScreenshotEntry(hash, distance) =>
                  a.AssertScreenshot? && a.hash == hash && a.maxDistance == distance)
  {
    var a := EntryAction(r, at, entry);
    MalformedExactlyWhen(a);
  }

  /** A touch event, an entry through the API, or a new excluded area. */
  datatype Event = Touched(touch: Touch) | Entered(at: int, entry: Entry) | Masked(bounds: Bounds)

  function Step(r: Recording, e: Event): Recording {
    match e
    case Touched(touch) =>
      var (norm, emitted) := FeedStep(r.norm, touch);
      r.(norm := norm, actions := AppendAll(r.actions, r.excluded, emitted))
    case Entered(at, entry) =>
      if !Admissible(entry) then r
      else r.(actions := AppendOne(r.actions, r.excluded, EntryAction(r, at, entry)))
    case Masked(bounds) => r.(excluded := Some(bounds))
  }

  function Record(r: Recording, events: seq<Event>): Recording
    decreases |events|
  {
    if events == [] then r else Record(Step(r, events[0]), events[1..])
  }

  function Offset(recordedAt: int, t: int): int { NonNegative(Millis(t - recordedAt)) }

  lemma OffsetIsMonotone(recordedAt: int, t: int, u: int)
    requires t <= u
    ensures 0 <= Offset(recordedAt, t) <= Offset(recordedAt, u)
  {
    var x, y := t - recordedAt, u - recordedAt;
    if 0 <= x { assert x / MILLISECOND <= y / MILLISECOND; }
  }

  function Slots(group: seq<Gesture>): set<int> {
    set g | g in group :: g.index
  }

  /** As many slots as fingers: no slot occurs twice. */
  ghost predicate Distinct(group: seq<Gesture>) {
    |Slots(group)| == |group|
  }

  function After(now: int, e: Event): int {
    match e case Touched(t) => t.at case Entered(at, _) => at case Masked(_) => now
  }

  /** The clock does not run backwards. */
  ghost predicate InTime(now: int, events: seq<Event>)
    decreases |events|
  {
    events == [] || (now <= After(now, events[0]) && InTime(After(now, events[0]), events[1..]))
  }

  ghost predicate NoneLater(actions: seq<Action>, offset: int) {
    forall i :: 0 <= i < |actions| ==> actions[i].offset <= offset
  }

  predicate Typed(a: Action) { a.Key? || a.Text? || a.AssertScreenshot? }

  ghost predicate NoEntryLater(actions: seq<Action>, offset: int) {
    forall i :: 0 <= i < |actions| && Typed(actions[i]) ==> actions[i].offset <= offset
  }

  ghost predicate NoTouchLater(actions: seq<Action>, offset: int) {
    forall i :: 0 <= i < |actions| && !Typed(actions[i]) ==> actions[i].offset <= offset
  }

  // ----- One group -----------------------------------------------------------

  ghost predicate SortedByIndex(s: seq<Gesture>) {
    forall i, j :: 0 <= i < j < |s| ==> s[i].index <= s[j].index
  }

  lemma InsertSorts(g: Gesture, s: seq<Gesture>)
    requires SortedByIndex(s)
    ensures SortedByIndex(Insert(g, s))
  {
    if s != [] && g.index > s[0].index {
      InsertSorts(g, s[1..]);
      var rest := Insert(g, s[1..]);
      forall i | 0 <= i < |rest| ensures s[0].index <= rest[i].index {
        assert rest[i] in multiset(s[1..]) + multiset{g};
      }
    }
  }

  lemma SortSorts(s: seq<Gesture>)
    ensures SortedByIndex(SortByIndex(s))
  {
    if s != [] {
      SortSorts(s[1..]);
      InsertSorts(s[0], SortByIndex(s[1..]));
    }
  }

  lemma SortKeepsMembers(s: seq<Gesture>)
    ensures forall g :: g in SortByIndex(s) <==> g in s
    ensures Slots(SortByIndex(s)) == Slots(s)
  {
    var sorted := SortByIndex(s);
    assert forall g :: g in sorted <==> g in multiset(sorted);
    assert forall g :: g in s <==> g in multiset(s);
  }

  lemma SlotsAppend(s: seq<Gesture>, g: Gesture)
    ensures Slots(s + [g]) == Slots(s) + {g.index}
  {
    forall k | k in Slots(s) + {g.index} ensures k in Slots(s + [g]) {
      if k in Slots(s) {
        var h :| h in s && h.index == k;
        assert h in s + [g];
      } else {
        assert (s + [g])[|s|] == g;
      }
    }
  }

  lemma NoMoreSlotsThanFingers(s: seq<Gesture>)
    ensures |Slots(s)| <= |s|
  {
    if s != [] {
      var init, last := s[..|s| - 1], s[|s| - 1];
      NoMoreSlotsThanFingers(init);
      SlotsAppend(init, last);
      assert s == init + [last];
    }
  }

  lemma DistinctAppend(s: seq<Gesture>, g: Gesture)
    ensures Distinct(s + [g]) <==> Distinct(s) && g.index !in Slots(s)
  {
    SlotsAppend(s, g);
    NoMoreSlotsThanFingers(s);
  }

  lemma DistinctMeansPairwise(s: seq<Gesture>)
    ensures Distinct(s) <==> forall i, j :: 0 <= i < j < |s| ==> s[i].index != s[j].index
  {
    if s != [] {
      var init, last := s[..|s| - 1], s[|s| - 1];
      assert s == init + [last];
      DistinctAppend(init, last);
      DistinctMeansPairwise(init);
      if last.index in Slots(init) {
        var g :| g in init && g.index == last.index;
        var i :| 0 <= i < |init| && init[i] == g;
        assert s[i].index == s[|s| - 1].index;
      } else {
        forall i | 0 <= i < |init| ensures init[i].index != last.index {
          assert init[i] in init;
        }
      }
    }
  }

  lemma SubsetSize(a: set<int>, b: set<int>)
    requires a <= b
    ensures |a| <= |b|
  {
    assert b == a + (b - a);
  }

  lemma AtMostTen(s: seq<Gesture>)
    requires Distinct(s) && forall g :: g in s ==> 0 <= g.index <= 9
    ensures |s| <= 10
  {
    SubsetSize(Slots(s), {0, 1, 2, 3, 4, 5, 6, 7, 8, 9});
  }

  ghost predicate ValidGesture(g: Gesture) {
    0 <= g.index <= 9 && ValidPoint(g.start) && ValidPoint(g.last)
  }

  lemma ContactsAcceptedExactlyWhen(sorted: seq<Gesture>)
    requires 2 <= |sorted| && forall g :: g in sorted ==> ValidGesture(g)
    ensures ValidContacts(ContactsOf(sorted)) <==> Distinct(sorted)
  {
    DistinctMeansPairwise(sorted);
    var contacts := ContactsOf(sorted);
    forall i | 0 <= i < |contacts|
      ensures 0 <= contacts[i].index <= 9 && ValidPoint(contacts[i].start) && ValidPoint(contacts[i].end)
    {
      assert sorted[i] in sorted;
    }
    if Distinct(sorted) { AtMostTen(sorted); }
  }

  lemma SeveralContactsAccepted(recordedAt: int, group: seq<Gesture>)
    requires |group| > 1 && forall g :: g in group ==> ValidGesture(g)
    ensures ValidBody(GroupAction(recordedAt, group)) <==> Distinct(group)
  {
    SortKeepsMembers(group);
    ContactsAcceptedExactlyWhen(SortByIndex(group));
  }

  /** Exactly which contact groups the validator accepts. */
  lemma GroupAcceptedExactlyWhen(recordedAt: int, group: seq<Gesture>)
    requires group != [] && forall g :: g in group ==> ValidGesture(g)
    ensures var a := GroupAction(recordedAt, group);
            ValidAction(a) <==>
              a.offset <= DAY_MILLIS && a.duration <= MAX_DURATION && (|group| > 1 ==> Distinct(group))
  {
    if |group| > 1 {
      SeveralContactsAccepted(recordedAt, group);
    } else {
      assert group[0] in group;
    }
  }

  /** A multi-touch action lists every finger of its group once, by slot. */
  lemma GroupListsEveryFinger(recordedAt: int, group: seq<Gesture>)
    requires |group| > 1
    ensures var a := GroupAction(recordedAt, group);
            && a.MultiTouch?
            && exists sorted: seq<Gesture> ::
                 && multiset(sorted) == multiset(group) && SortedByIndex(sorted)
                 && a.contacts == ContactsOf(sorted)
  {
    SortSorts(group);
  }

  /** What one finger stands for, by when and where it went down and up. */
  function Stroke(recordedAt: int, down: Touch, up: Touch): Action {
    var offset := Offset(recordedAt, down.at);
    var held := NonNegative(Millis(up.at - down.at));
    if SquaredDistance(up.At(), down.At()) > 0.0004 then Swipe(offset, if held == 0 then 1 else held, down.At(), up.At())
    else if held < 500 then Tap(offset, 0, down.At())
    else LongPress(offset, held, down.At())
  }

  function FeedAll(n: Norm, touches: seq<Touch>): (Norm, seq<Action>)
    decreases |touches|
  {
    if touches == [] then (n, [])
    else
      var (next, emitted) := FeedStep(n, touches[0]);
      var (last, more) := FeedAll(next, touches[1..]);
      (last, emitted + more)
  }

  lemma {:induction false} MovesOnlyDrag(n: Norm, slot: int, moves: seq<Touch>, up: Touch)
    requires 0 <= slot <= 9 && n.gestures.Keys == {slot} && n.completed == []
    requires forall m :: m in moves ==> m.operation == Move && m.index == slot
    requires up.operation == Up && up.index == slot
    ensures var g := n.gestures[slot];
            FeedAll(n, moves + [up]).1 == [GroupAction(n.recordedAt, [g.(last := up.At(), ended := up.at)])]
    decreases |moves|
  {
    var all := moves + [up];
    var (next, emitted) := FeedStep(n, all[0]);
    if moves == [] {
      assert n.gestures - {slot} == map[];
      assert FeedAll(next, all[1..]).1 == [];
    } else {
      assert moves[0] in moves;
      MovesOnlyDrag(next, slot, moves[1..], up);
      assert all[1..] == moves[1..] + [up];
    }
  }

  /** What one finger means: the press point and time start the action, the
      lift point and time end it, whatever it did in between. */
  lemma OneFinger(n: Norm, down: Touch, moves: seq<Touch>, up: Touch)
    requires n.gestures == map[] && 0 <= down.index <= 9
    requires down.operation == Down && up.operation == Up && up.index == down.index
    requires forall m :: m in moves ==> m.operation == Move && m.index == down.index
    ensures FeedAll(n, [down] + moves + [up]).1 == [Stroke(n.recordedAt, down, up)]
  {
    var next := FeedStep(n, down).0;
    assert ([down] + moves + [up])[1..] == moves + [up];
    assert next.gestures.Keys == {down.index};
    MovesOnlyDrag(next, down.index, moves, up);
  }

  // ----- Whole streams -------------------------------------------------------

  /** A group closes, and emits its one action, exactly when its last finger
      lifts; every other event emits nothing. */
  lemma EmitsOncePerGroup(n: Norm, e: Touch)
    ensures var (next, emitted) := FeedStep(n, e);
            var closes := 0 <= e.index <= 9 && e.operation == Up && n.gestures.Keys == {e.index};
            && |emitted| == (if closes then 1 else 0)
            && (closes <==> n.gestures != map[] && next.gestures == map[])
  {
    if e.index in n.gestures {
      var left := n.gestures - {e.index};
      assert left.Keys == n.gestures.Keys - {e.index};
      assert left == map[] <==> left.Keys == {};
    }
  }

  /** Whether this event lifts the last finger of a group. */
  predicate Closes(n: Norm, t: Touch) {
    0 <= t.index <= 9 && t.operation == Up && n.gestures.Keys == {t.index}
  }

  function Group(r: Recording, t: Touch): seq<Gesture>
    requires t.index in r.norm.gestures
  {
    r.norm.completed + [r.norm.gestures[t.index].(last := t.At(), ended := t.at)]
  }

  /** When an action that does not merge may be appended to a valid timeline:
      its own body is valid and nothing recorded so far is later than it. */
  lemma AppendAcceptedExactlyWhen(actions: seq<Action>, a: Action)
    requires ValidTimeline(actions)
    ensures ValidTimeline(actions + [a]) <==>
              |actions| < MAX_ACTIONS && ValidAction(a) && NoneLater(actions, a.offset)
  {
    var r := actions + [a];
    if ValidTimeline(r) {
      assert ValidAction(r[|actions|]);
      forall i | 0 <= i < |actions| ensures actions[i].offset <= a.offset {
        assert r[i].offset <= r[|actions|].offset;
      }
    }
  }

  lemma PrefixIsValid(actions: seq<Action>, a: Action)
    requires ValidTimeline(actions + [a])
    ensures ValidTimeline(actions)
  {
    var r := actions + [a];
    assert forall i :: 0 <= i < |actions| ==> r[i] == actions[i];
  }

  /** Merging decides nothing: the double tap is as valid as the tap it replaces. */
  lemma MergeKeepsValidity(init: seq<Action>, tap: Action, gap: int)
    requires tap.Tap? && 0 <= gap <= DOUBLE_TAP_MILLIS && tap.duration == 0
    ensures ValidTimeline(init + [DoubleTap(tap.offset, gap, tap.start)]) <==> ValidTimeline(init + [tap])
  {
    var double := DoubleTap(tap.offset, gap, tap.start);
    if ValidTimeline(init + [double]) { PrefixIsValid(init, double); }
    if ValidTimeline(init + [tap]) { PrefixIsValid(init, tap); }
    if ValidTimeline(init) {
      AppendAcceptedExactlyWhen(init, double);
      AppendAcceptedExactlyWhen(init, tap);
    }
  }

  /** Taps are recorded without a duration. */
  ghost predicate TapsAreShort(actions: seq<Action>) {
    forall i :: 0 <= i < |actions| && actions[i].Tap? ==> actions[i].duration == 0
  }

  /** What the next append does to validity, whatever has been recorded. */
  lemma AppendOneAcceptedExactlyWhen(actions: seq<Action>, excluded: Option<Bounds>, a: Action)
    requires TapsAreShort(actions)
    ensures ValidTimeline(AppendOne(actions, excluded, a)) <==>
              ValidTimeline(actions)
              && (Skipped(excluded, a) || Merges(actions, a)
                  || (|actions| < MAX_ACTIONS && ValidAction(a) && NoneLater(actions, a.offset)))
  {
    if Skipped(excluded, a) {
    } else if Merges(actions, a) {
      var init, tap := actions[..|actions| - 1], actions[|actions| - 1];
      assert actions == init + [tap];
      MergeKeepsValidity(init, tap, a.offset - tap.offset);
    } else {
      if ValidTimeline(actions + [a]) { PrefixIsValid(actions, a); }
      if ValidTimeline(actions) { AppendAcceptedExactlyWhen(actions, a); }
    }
  }

  // ----- What the recorder knows of the clock --------------------------------

  /** A finger that is down, or was lifted since its group began: it went down
      after every touch recorded so far. */
  ghost predicate Follows(r: Recording, now: int, g: Gesture) {
    && ValidGesture(g) && g.started <= now
    && NoTouchLater(r.actions, Offset(r.norm.recordedAt, g.started))
  }

  ghost predicate Tracks(r: Recording, now: int) {
    && r.norm.recordedAt <= now
    && NoneLater(r.actions, Offset(r.norm.recordedAt, now)) && TapsAreShort(r.actions)
    && (forall k :: k in r.norm.gestures ==>
          r.norm.gestures[k].index == k && Follows(r, now, r.norm.gestures[k]))
    && (r.norm.gestures != map[] ==> forall g :: g in r.norm.completed ==> Follows(r, now, g))
  }

  lemma AppendKeepsOrder(actions: seq<Action>, excluded: Option<Bounds>, a: Action, offset: int)
    requires NoneLater(actions, offset) && TapsAreShort(actions)
    requires a.offset <= offset && (a.Tap? ==> a.duration == 0)
    ensures NoneLater(AppendOne(actions, excluded, a), offset) && TapsAreShort(AppendOne(actions, excluded, a))
  {
  }

  lemma PressTracks(r: Recording, now: int, t: Touch)
    requires Tracks(r, now) && now <= t.at && t.operation == Down && 0 <= t.index <= 9
    ensures Tracks(Step(r, Touched(t)), t.at)
  {
    OffsetIsMonotone(r.norm.recordedAt, now, t.at);
    assert Step(r, Touched(t)).actions == r.actions;
  }

  /** Moves, and events that the normalizer ignores. */
  lemma MoveTracks(r: Recording, now: int, t: Touch)
    requires Tracks(r, now) && now <= t.at
    requires t.operation == Move || t.index !in r.norm.gestures || !(0 <= t.index <= 9)
    requires t.operation != Down || !(0 <= t.index <= 9)
    ensures Tracks(Step(r, Touched(t)), t.at)
    ensures Step(r, Touched(t)).actions == r.actions
  {
    OffsetIsMonotone(r.norm.recordedAt, now, t.at);
    assert Step(r, Touched(t)).norm.gestures.Keys == r.norm.gestures.Keys;
  }

  lemma GroupFollows(r: Recording, now: int, t: Touch)
    requires Tracks(r, now) && now <= t.at && t.index in r.norm.gestures
    ensures forall g :: g in Group(r, t) ==> Follows(r, t.at, g)
  {
    var lifted := r.norm.gestures[t.index].(last := t.At(), ended := t.at);
    assert Follows(r, t.at, lifted);
    forall g | g in Group(r, t) ensures Follows(r, t.at, g) {
      if g != lifted { assert g in r.norm.completed; }
    }
  }

  /** First press and last lift of a group, in milliseconds of the recording. */
  function FirstPress(recordedAt: int, group: seq<Gesture>): int
    requires group != []
  {
    Offset(recordedAt, Earliest(group))
  }

  function Held(group: seq<Gesture>): int
    requires group != []
  {
    NonNegative(Millis(Latest(group) - Earliest(group)))
  }

  lemma OneFingerTiming(recordedAt: int, g: Gesture)
    ensures var a := GroupAction(recordedAt, [g]);
            && a.offset == FirstPress(recordedAt, [g])
            && (a.duration <= MAX_DURATION <==> Held([g]) <= MAX_DURATION)
            && (a.Tap? ==> a.duration == 0) && !Typed(a)
  {
  }

  lemma GroupTiming(recordedAt: int, group: seq<Gesture>)
    requires group != []
    ensures var a := GroupAction(recordedAt, group);
            && a.offset == FirstPress(recordedAt, group)
            && (a.duration <= MAX_DURATION <==> Held(group) <= MAX_DURATION)
            && (a.Tap? ==> a.duration == 0) && !Typed(a)
  {
    if |group| == 1 {
      assert group == [group[0]];
      OneFingerTiming(recordedAt, group[0]);
    }
  }

  lemma GroupBegan(r: Recording, now: int, t: Touch)
    requires Tracks(r, now) && now <= t.at && t.index in r.norm.gestures
    ensures var first := FirstPress(r.norm.recordedAt, Group(r, t));
            first <= Offset(r.norm.recordedAt, t.at) && NoTouchLater(r.actions, first)
  {
    var group := Group(r, t);
    GroupFollows(r, now, t);
    var g :| g in group && g.started == Earliest(group);
    assert Follows(r, t.at, g);
    OffsetIsMonotone(r.norm.recordedAt, g.started, t.at);
  }

  lemma ClosingStep(r: Recording, t: Touch)
    requires Closes(r.norm, t)
    ensures t.index in r.norm.gestures
    ensures FeedStep(r.norm, t).1 == [GroupAction(r.norm.recordedAt, Group(r, t))]
    ensures var next := Step(r, Touched(t));
            && next.norm.gestures == map[]
            && next.actions == AppendOne(r.actions, r.excluded, GroupAction(r.norm.recordedAt, Group(r, t)))
  {
    assert t.index in r.norm.gestures.Keys;
    assert (r.norm.gestures - {t.index}).Keys == {};
    AppendSingle(r.actions, r.excluded, GroupAction(r.norm.recordedAt, Group(r, t)));
  }

  lemma LiftTracks(r: Recording, now: int, t: Touch)
    requires Tracks(r, now) && now <= t.at
    requires t.operation == Up && 0 <= t.index <= 9 && t.index in r.norm.gestures && !Closes(r.norm, t)
    ensures Tracks(Step(r, Touched(t)), t.at)
    ensures Step(r, Touched(t)).actions == r.actions
  {
    var next := Step(r, Touched(t));
    OffsetIsMonotone(r.norm.recordedAt, now, t.at);
    EmitsOncePerGroup(r.norm, t);
    GroupFollows(r, now, t);
    assert next.norm.completed == Group(r, t);
  }

  lemma ClosingTracks(r: Recording, now: int, t: Touch)
    requires Tracks(r, now) && now <= t.at && Closes(r.norm, t)
    ensures Tracks(Step(r, Touched(t)), t.at)
  {
    ClosingStep(r, t);
    GroupBegan(r, now, t);
    GroupTiming(r.norm.recordedAt, Group(r, t));
    OffsetIsMonotone(r.norm.recordedAt, now, t.at);
    AppendKeepsOrder(r.actions, r.excluded, GroupAction(r.norm.recordedAt, Group(r, t)),
                     Offset(r.norm.recordedAt, t.at));
  }

  lemma EntryTracks(r: Recording, now: int, at: int, entry: Entry)
    requires Tracks(r, now) && now <= at
    ensures Tracks(Step(r, Entered(at, entry)), at)
  {
    OffsetIsMonotone(r.norm.recordedAt, now, at);
    if Admissible(entry) {
      var a := EntryAction(r, at, entry);
      assert Typed(a) && Step(r, Entered(at, entry)).actions == r.actions + [a];
      assert a.offset == Offset(r.norm.recordedAt, at);
    }
  }

  lemma StepTracks(r: Recording, now: int, e: Event)
    requires Tracks(r, now) && now <= After(now, e)
    ensures Tracks(Step(r, e), After(now, e))
  {
    match e
    case Touched(t) =>
      if t.operation == Down && 0 <= t.index <= 9 {
        PressTracks(r, now, t);
      } else if Closes(r.norm, t) {
        ClosingTracks(r, now, t);
      } else if t.operation == Up && 0 <= t.index <= 9 && t.index in r.norm.gestures {
        LiftTracks(r, now, t);
      } else {
        MoveTracks(r, now, t);
      }
    case Entered(at, entry) => EntryTracks(r, now, at, entry);
    case Masked(_) =>
  }

  // ----- Exactly which recordings validate -----------------------------------

  /** A finished group does no harm: it is skipped, or merges into the tap before
      it, or it uses every slot once, began within a day, lasted no longer than a
      minute, nothing was entered at a later millisecond than its first press,
      and there is room for it. */
  ghost predicate AcceptsGroup(r: Recording, group: seq<Gesture>)
    requires group != []
  {
    var a := GroupAction(r.norm.recordedAt, group);
    var first := FirstPress(r.norm.recordedAt, group);
    || Skipped(r.excluded, a)
    || Merges(r.actions, a)
    || (Distinct(group) && first <= DAY_MILLIS && Held(group) <= MAX_DURATION
        && NoEntryLater(r.actions, first) && |r.actions| < MAX_ACTIONS)
  }

  ghost predicate Accepts(r: Recording, e: Event) {
    match e
    case Touched(t) =>
      Closes(r.norm, t) ==> t.index in r.norm.gestures && AcceptsGroup(r, Group(r, t))
    case Entered(at, entry) =>
      Admissible(entry) ==> Millis(at - r.norm.recordedAt) <= DAY_MILLIS && |r.actions| < MAX_ACTIONS
    case Masked(_) => true
  }

  ghost predicate AcceptsAll(r: Recording, events: seq<Event>)
    decreases |events|
  {
    events == [] || (Accepts(r, events[0]) && AcceptsAll(Step(r, events[0]), events[1..]))
  }

  lemma ClosingAcceptedExactlyWhen(r: Recording, now: int, t: Touch)
    requires Tracks(r, now) && now <= t.at && Closes(r.norm, t)
    ensures ValidTimeline(Step(r, Touched(t)).actions) <==> ValidTimeline(r.actions) && Accepts(r, Touched(t))
  {
    ClosingStep(r, t);
    var group := Group(r, t);
    var a := GroupAction(r.norm.recordedAt, group);
    AppendOneAcceptedExactlyWhen(r.actions, r.excluded, a);
    GroupFollows(r, now, t);
    forall g | g in group ensures ValidGesture(g) {
      assert Follows(r, t.at, g);
    }
    GroupAcceptedExactlyWhen(r.norm.recordedAt, group);
    OneIsDistinct(group);
    GroupTiming(r.norm.recordedAt, group);
    GroupBegan(r, now, t);
    OrderOfBoth(r.actions, a.offset);
  }

  lemma OneIsDistinct(group: seq<Gesture>)
    ensures |group| == 1 ==> Distinct(group)
  {
    DistinctMeansPairwise(group);
  }

  lemma OrderOfBoth(actions: seq<Action>, offset: int)
    ensures NoneLater(actions, offset) <==> NoTouchLater(actions, offset) && NoEntryLater(actions, offset)
  {
  }

  lemma EntryAcceptedExactlyWhen(r: Recording, now: int, at: int, entry: Entry)
    requires Tracks(r, now) && now <= at
    ensures ValidTimeline(Step(r, Entered(at, entry)).actions) <==>
              ValidTimeline(r.actions) && Accepts(r, Entered(at, entry))
  {
    if Admissible(entry) {
      var a := EntryAction(r, at, entry);
      AppendOneAcceptedExactlyWhen(r.actions, r.excluded, a);
      OffsetIsMonotone(r.norm.recordedAt, now, at);
      assert a.offset == Offset(r.norm.recordedAt, at);
      assert ValidBody(a);
    }
  }

  /** One event, whatever has been recorded before it. */
  lemma StepAcceptedExactlyWhen(r: Recording, now: int, e: Event)
    requires Tracks(r, now) && now <= After(now, e)
    ensures ValidTimeline(Step(r, e).actions) <==> ValidTimeline(r.actions) && Accepts(r, e)
  {
    match e
    case Touched(t) =>
      if Closes(r.norm, t) {
        ClosingAcceptedExactlyWhen(r, now, t);
      } else {
        EmitsOncePerGroup(r.norm, t);
        assert FeedStep(r.norm, t).1 == [];
      }
    case Entered(at, entry) => EntryAcceptedExactlyWhen(r, now, at, entry);
    case Masked(_) =>
  }

  lemma {:induction false} StreamAcceptedExactlyWhen(r: Recording, now: int, events: seq<Event>)
    requires Tracks(r, now) && InTime(now, events)
    ensures ValidTimeline(Record(r, events).actions) <==> ValidTimeline(r.actions) && AcceptsAll(r, events)
    decreases |events|
  {
    if events != [] {
      StepTracks(r, now, events[0]);
      StepAcceptedExactlyWhen(r, now, events[0]);
      StreamAcceptedExactlyWhen(Step(r, events[0]), After(now, events[0]), events[1..]);
    }
  }

  function Fresh(recordedAt: int, excluded: Option<Bounds>): Recording {
    Recording(Norm(recordedAt, map[], []), [], excluded)
  }

  lemma FreshRecordingIsReady(recordedAt: int, excluded: Option<Bounds>)
    ensures Tracks(Fresh(recordedAt, excluded), recordedAt) && ValidTimeline(Fresh(recordedAt, excluded).actions)
  {
  }

  /** A recording passes the validator exactly when every finished group and
      every entry in it is acceptable. Any events, in the order of the clock; as
      every prefix of a stream is one, this holds at every moment. */
  lemma RecordingValidatesExactlyWhen(recordedAt: int, excluded: Option<Bounds>, events: seq<Event>)
    requires InTime(recordedAt, events)
    ensures ValidTimeline(Record(Fresh(recordedAt, excluded), events).actions)
       <==> AcceptsAll(Fresh(recordedAt, excluded), events)
  {
    FreshRecordingIsReady(recordedAt, excluded);
    StreamAcceptedExactlyWhen(Fresh(recordedAt, excluded), recordedAt, events);
  }

  // ----- Streams that always validate ----------------------------------------

  /** No finger comes back to a slot it already left in the same group, groups
      last no longer than a minute, entries arrive while no finger is down, and
      all of it within a day. */
  ghost predicate WellBehaved(r: Recording, e: Event) {
    match e
    case Touched(t) =>
      && Millis(t.at - r.norm.recordedAt) <= DAY_MILLIS
      && (t.operation == Down && r.norm.gestures != map[] ==> t.index !in Slots(r.norm.completed))
      && (Closes(r.norm, t) && t.index in r.norm.gestures ==> Held(Group(r, t)) <= MAX_DURATION)
    case Entered(at, _) => Millis(at - r.norm.recordedAt) <= DAY_MILLIS && r.norm.gestures == map[]
    case Masked(_) => true
  }

  ghost predicate WellBehavedStream(r: Recording, events: seq<Event>)
    decreases |events|
  {
    events == [] || (WellBehaved(r, events[0]) && WellBehavedStream(Step(r, events[0]), events[1..]))
  }

  /** So far every slot of the open group was used once, and nothing was entered
      since the first of its fingers went down. */
  ghost predicate Orderly(r: Recording) {
    r.norm.gestures != map[] ==>
      && Slots(r.norm.completed) !! r.norm.gestures.Keys
      && Distinct(r.norm.completed)
      && (forall k :: k in r.norm.gestures ==> EnteredBefore(r, r.norm.gestures[k]))
      && (forall g :: g in r.norm.completed ==> EnteredBefore(r, g))
  }

  ghost predicate EnteredBefore(r: Recording, g: Gesture) {
    NoEntryLater(r.actions, Offset(r.norm.recordedAt, g.started))
  }

  lemma LiftExtendsGroup(r: Recording, t: Touch)
    requires Orderly(r) && t.index in r.norm.gestures && r.norm.gestures[t.index].index == t.index
    ensures Distinct(Group(r, t))
    ensures Slots(Group(r, t)) == Slots(r.norm.completed) + {t.index}
    ensures forall g :: g in Group(r, t) ==> EnteredBefore(r, g)
  {
    var lifted := r.norm.gestures[t.index].(last := t.At(), ended := t.at);
    SlotsAppend(r.norm.completed, lifted);
    DistinctAppend(r.norm.completed, lifted);
    forall g | g in Group(r, t) ensures EnteredBefore(r, g) {
      if g != lifted { assert g in r.norm.completed; }
    }
  }

  lemma PressStaysOrderly(r: Recording, now: int, t: Touch)
    requires Tracks(r, now) && now <= t.at && Orderly(r) && WellBehaved(r, Touched(t))
    requires t.operation == Down && 0 <= t.index <= 9
    ensures Orderly(Step(r, Touched(t)))
  {
    var next := Step(r, Touched(t));
    assert next.actions == r.actions;
    OffsetIsMonotone(r.norm.recordedAt, now, t.at);
    OrderOfBoth(r.actions, Offset(r.norm.recordedAt, t.at));
    assert EnteredBefore(next, next.norm.gestures[t.index]);
    if r.norm.gestures == map[] { assert Slots([]) == {}; }
  }

  lemma LiftStaysOrderly(r: Recording, now: int, t: Touch)
    requires Tracks(r, now) && now <= t.at && Orderly(r)
    requires t.operation == Up && 0 <= t.index <= 9 && t.index in r.norm.gestures && !Closes(r.norm, t)
    ensures Orderly(Step(r, Touched(t)))
  {
    LiftTracks(r, now, t);
    LiftExtendsGroup(r, t);
    var next := Step(r, Touched(t));
    if next.norm.gestures != map[] { assert next.norm.completed == Group(r, t); }
  }

  lemma StepStaysOrderly(r: Recording, now: int, e: Event)
    requires Tracks(r, now) && now <= After(now, e) && Orderly(r) && WellBehaved(r, e)
    ensures Orderly(Step(r, e))
  {
    match e
    case Touched(t) =>
      if t.operation == Down && 0 <= t.index <= 9 {
        PressStaysOrderly(r, now, t);
      } else if Closes(r.norm, t) {
        ClosingStep(r, t);
      } else if t.operation == Up && 0 <= t.index <= 9 && t.index in r.norm.gestures {
        LiftStaysOrderly(r, now, t);
      } else {
        MoveTracks(r, now, t);
      }
    case Entered(_, _) =>
    case Masked(_) =>
  }

  lemma WellBehavedIsAccepted(r: Recording, now: int, e: Event)
    requires Tracks(r, now) && now <= After(now, e) && Orderly(r) && WellBehaved(r, e)
    requires |r.actions| < MAX_ACTIONS
    ensures Accepts(r, e)
  {
    if e.Touched? && Closes(r.norm, e.touch) {
      var t := e.touch;
      ClosingStep(r, t);
      LiftExtendsGroup(r, t);
      GroupBegan(r, now, t);
      var group := Group(r, t);
      var g :| g in group && g.started == Earliest(group);
      assert EnteredBefore(r, g);
    }
  }

  lemma AtMostOneMore(r: Recording, e: Event)
    ensures |Step(r, e).actions| <= |r.actions| + 1
  {
    if e.Touched? {
      EmitsOncePerGroup(r.norm, e.touch);
      var emitted := FeedStep(r.norm, e.touch).1;
      if emitted != [] {
        assert emitted == [emitted[0]];
        AppendSingle(r.actions, r.excluded, emitted[0]);
      }
    }
  }

  lemma {:induction false} WellBehavedIsAcceptedThroughout(r: Recording, now: int, events: seq<Event>)
    requires Tracks(r, now) && Orderly(r) && InTime(now, events) && WellBehavedStream(r, events)
    requires |r.actions| + |events| <= MAX_ACTIONS
    ensures AcceptsAll(r, events)
    decreases |events|
  {
    if events != [] {
      WellBehavedIsAccepted(r, now, events[0]);
      StepTracks(r, now, events[0]);
      StepStaysOrderly(r, now, events[0]);
      AtMostOneMore(r, events[0]);
      WellBehavedIsAcceptedThroughout(Step(r, events[0]), After(now, events[0]), events[1..]);
    }
  }

  /** Well-behaved streams of up to ten thousand events always validate. */
  lemma WellBehavedStreamValidates(recordedAt: int, excluded: Option<Bounds>, events: seq<Event>)
    requires InTime(recordedAt, events) && |events| <= MAX_ACTIONS
    requires WellBehavedStream(Fresh(recordedAt, excluded), events)
    ensures ValidTimeline(Record(Fresh(recordedAt, excluded), events).actions)
  {
    FreshRecordingIsReady(recordedAt, excluded);
    WellBehavedIsAcceptedThroughout(Fresh(recordedAt, excluded), recordedAt, events);
    RecordingValidatesExactlyWhen(recordedAt, excluded, events);
  }

  /** The taps an event emits outside the excluded area in force. */
  function StepTaps(r: Recording, e: Event): nat {
    var emitted := match e
      case Touched(t) => FeedStep(r.norm, t).1
      case Entered(at, entry) => if Admissible(entry) then [EntryAction(r, at, entry)] else []
      case Masked(_) => [];
    if emitted != [] && !Skipped(r.excluded, emitted[0]) then Taps(emitted[0]) else 0
  }

  function EmittedTaps(r: Recording, events: seq<Event>): nat
    decreases |events|
  {
    if events == [] then 0 else StepTaps(r, events[0]) + EmittedTaps(Step(r, events[0]), events[1..])
  }

  lemma StepConservesTaps(r: Recording, e: Event)
    ensures TapCount(Step(r, e).actions) == TapCount(r.actions) + StepTaps(r, e)
  {
    match e
    case Touched(t) =>
      var emitted := FeedStep(r.norm, t).1;
      EmitsOncePerGroup(r.norm, t);
      if emitted != [] {
        assert emitted == [emitted[0]];
        AppendSingle(r.actions, r.excluded, emitted[0]);
        AppendConservesTaps(r.actions, r.excluded, emitted[0]);
      }
    case Entered(at, entry) => AppendConservesTaps(r.actions, r.excluded, EntryAction(r, at, entry));
    case Masked(_) =>
  }

  /** The taps in a finished case are exactly the taps that were emitted and
      lay outside the excluded area in force at the time. */
  lemma {:induction false} StreamConservesTaps(r: Recording, events: seq<Event>)
    ensures TapCount(Record(r, events).actions) == TapCount(r.actions) + EmittedTaps(r, events)
    decreases |events|
  {
    if events != [] {
      StreamConservesTaps(Step(r, events[0]), events[1..]);
      StepConservesTaps(r, events[0]);
    }
  }

  // ----- Where the hypotheses bite -------------------------------------------

  const THUMB := Gesture(0, 0, 0, Point(0.5, 0.5), Point(0.5, 0.5))
  const FIRST := Gesture(1, 1, 1, Point(0.1, 0.1), Point(0.1, 0.1))
  const AGAIN := Gesture(1, 3, 3, Point(0.2, 0.2), Point(0.2, 0.2))
  const REPRESS := [
    Touch(0, Down, 0, 0.5, 0.5), Touch(1, Down, 1, 0.1, 0.1), Touch(2, Up, 1, 0.1, 0.1),
    Touch(3, Down, 1, 0.2, 0.2), Touch(4, Up, 1, 0.2, 0.2), Touch(5, Up, 0, 0.5, 0.5)]
  const REPRESSED_GROUP := [FIRST.(ended := 2), AGAIN.(ended := 4), THUMB.(ended := 5)]

  /** A slot that is lifted and pressed again while another finger stays down
      yields a duplicate contact index, and the case cannot be sealed. */
  lemma RepressedSlotIsRejected()
    ensures FeedAll(Norm(0, map[], []), REPRESS).1 == [GroupAction(0, REPRESSED_GROUP)]
    ensures !ValidTimeline([GroupAction(0, REPRESSED_GROUP)])
  {
    RepressBegins();
    RepressEnds();
    RepressedGroupIsInvalid(GroupAction(0, REPRESSED_GROUP));
  }

  lemma RepressedGroupIsInvalid(a: Action)
    requires a == GroupAction(0, REPRESSED_GROUP)
    ensures !ValidTimeline([a])
  {
    assert REPRESSED_GROUP[0].index == REPRESSED_GROUP[1].index;
    SharedSlotIsRefused(0, REPRESSED_GROUP);
    assert !ValidAction([a][0]);
  }

  lemma SharedSlotIsRefused(recordedAt: int, group: seq<Gesture>)
    requires |group| > 1 && group[0].index == group[1].index
    requires forall g :: g in group ==> ValidGesture(g)
    ensures !ValidAction(GroupAction(recordedAt, group))
  {
    DistinctMeansPairwise(group);
    GroupAcceptedExactlyWhen(recordedAt, group);
  }

  lemma RepressBegins()
    ensures FeedAll(Norm(0, map[], []), REPRESS).1
            == FeedAll(Norm(0, map[0 := THUMB], [FIRST.(ended := 2)]), REPRESS[3..]).1
  {
    var n1 := Norm(0, map[0 := THUMB], []);
    var n2 := Norm(0, map[0 := THUMB, 1 := FIRST], []);
    assert n2.gestures - {1} == n1.gestures;
    Silent(Norm(0, map[], []), REPRESS[0], n1, REPRESS[1..]);
    Silent(n1, REPRESS[1], n2, REPRESS[2..]);
    assert 0 in n2.gestures - {1};
    assert FeedStep(n2, REPRESS[2]).0.completed == [FIRST.(ended := 2)];
    Silent(n2, REPRESS[2], Norm(0, map[0 := THUMB], [FIRST.(ended := 2)]), REPRESS[3..]);
    assert REPRESS == [REPRESS[0]] + REPRESS[1..];
    assert REPRESS[1..] == [REPRESS[1]] + REPRESS[2..];
    assert REPRESS[2..] == [REPRESS[2]] + REPRESS[3..];
  }

  lemma RepressEnds()
    ensures FeedAll(Norm(0, map[0 := THUMB], [FIRST.(ended := 2)]), REPRESS[3..]).1
            == [GroupAction(0, REPRESSED_GROUP)]
  {
    var n3 := Norm(0, map[0 := THUMB], [FIRST.(ended := 2)]);
    var n4 := n3.(gestures := map[0 := THUMB, 1 := AGAIN]);
    var n5 := n3.(completed := [FIRST.(ended := 2), AGAIN.(ended := 4)]);
    assert n4.gestures - {1} == n3.gestures && 0 in n4.gestures - {1};
    assert FeedStep(n4, REPRESS[4]).0.completed == n5.completed;
    Silent(n3, REPRESS[3], n4, REPRESS[4..]);
    Silent(n4, REPRESS[4], n5, REPRESS[5..]);
    assert REPRESS[3..] == [REPRESS[3]] + REPRESS[4..];
    assert REPRESS[4..] == [REPRESS[4]] + REPRESS[5..];
    RepressCloses(n5);
  }

  lemma RepressCloses(n: Norm)
    requires n == Norm(0, map[0 := THUMB], [FIRST.(ended := 2), AGAIN.(ended := 4)])
    ensures FeedAll(n, REPRESS[5..]).1 == [GroupAction(0, REPRESSED_GROUP)]
  {
    LastLift(n, REPRESS[5]);
    assert n.completed + [THUMB.(last := REPRESS[5].At(), ended := 5)] == REPRESSED_GROUP;
    assert REPRESS[5..] == [REPRESS[5]];
  }

  lemma LastLift(n: Norm, t: Touch)
    requires n.gestures.Keys == {t.index} && 0 <= t.index <= 9 && t.operation == Up
    ensures FeedAll(n, [t]).1 ==
            [GroupAction(n.recordedAt, n.completed + [n.gestures[t.index].(last := t.At(), ended := t.at)])]
  {
    assert n.gestures - {t.index} == map[];
    var next := FeedStep(n, t).0;
    assert FeedAll(next, [t][1..]).1 == [];
  }

  lemma Silent(n: Norm, t: Touch, next: Norm, rest: seq<Touch>)
    requires FeedStep(n, t) == (next, [])
    ensures FeedAll(n, [t] + rest).1 == FeedAll(next, rest).1
  {
    assert ([t] + rest)[1..] == rest;
  }

  /** An entry between the press and the lift of a finger: the recording is
      rejected exactly when the finger's stroke is recorded and the entry's
      millisecond is later than that of the press, or a limit is exceeded. */
  lemma EntryDuringStrokeAcceptedExactlyWhen(
    recordedAt: int, excluded: Option<Bounds>, down: Touch, at: int, entry: Entry, up: Touch)
    requires recordedAt <= down.at <= at <= up.at && Admissible(entry)
    requires down.operation == Down && up.operation == Up && 0 <= down.index <= 9 && up.index == down.index
    ensures var events := [Touched(down), Entered(at, entry), Touched(up)];
            ValidTimeline(Record(Fresh(recordedAt, excluded), events).actions) <==>
              && Offset(recordedAt, at) <= DAY_MILLIS
              && (Skipped(excluded, Stroke(recordedAt, down, up))
                  || (Offset(recordedAt, at) == Offset(recordedAt, down.at)
                      && NonNegative(Millis(up.at - down.at)) <= MAX_DURATION))
  {
    var r0 := Fresh(recordedAt, excluded);
    var g := Gesture(down.index, down.at, down.at, down.At(), down.At());
    var r1 := Recording(Norm(recordedAt, map[down.index := g], []), [], excluded);
    assert r0.norm.gestures[down.index := g] == r1.norm.gestures;
    assert Step(r0, Touched(down)) == r1;
    var r2 := r1.(actions := [EntryAction(r1, at, entry)]);
    assert Step(r1, Entered(at, entry)) == r2;
    assert Closes(r2.norm, up);
    var lifted := g.(last := up.At(), ended := up.at);
    assert Group(r2, up) == [lifted];
    OneIsDistinct([lifted]);
    OffsetIsMonotone(recordedAt, down.at, at);
    StrokeIsGroup(recordedAt, down, up, lifted);
    ThreeInTime(recordedAt, Touched(down), Entered(at, entry), Touched(up));
    RecordingValidatesExactlyWhen(recordedAt, excluded, [Touched(down), Entered(at, entry), Touched(up)]);
    ThreeAccepted(r0, r1, r2, Touched(down), Entered(at, entry), Touched(up));
    var first := Offset(recordedAt, down.at);
    assert NoEntryLater(r2.actions, first) <==> r2.actions[0].offset <= first;
  }

  lemma ThreeInTime(now: int, a: Event, b: Event, c: Event)
    requires now <= After(now, a) <= After(After(now, a), b) <= After(After(After(now, a), b), c)
    ensures InTime(now, [a, b, c])
  {
    var t1 := After(now, a);
    var t2 := After(t1, b);
    assert [a, b, c][1..] == [b, c] && [b, c][1..] == [c] && [c][1..] == [];
    assert InTime(After(t2, c), []);
    assert InTime(t2, [c]);
    assert InTime(t1, [b, c]);
  }

  lemma StrokeIsGroup(recordedAt: int, down: Touch, up: Touch, g: Gesture)
    requires g == Gesture(down.index, down.at, up.at, down.At(), up.At())
    ensures GroupAction(recordedAt, [g]) == Stroke(recordedAt, down, up)
    ensures FirstPress(recordedAt, [g]) == Offset(recordedAt, down.at)
    ensures Held([g]) == NonNegative(Millis(up.at - down.at))
  {
  }

  lemma ThreeAccepted(r0: Recording, r1: Recording, r2: Recording, a: Event, b: Event, c: Event)
    requires Step(r0, a) == r1 && Step(r1, b) == r2
    ensures AcceptsAll(r0, [a, b, c]) <==> Accepts(r0, a) && Accepts(r1, b) && Accepts(r2, c)
  {
    assert [a, b, c][1..] == [b, c] && [b, c][1..] == [c] && [c][1..] == [];
    assert AcceptsAll(Step(r2, c), []);
    assert AcceptsAll(r2, [c]) <==> Accepts(r2, c);
    assert AcceptsAll(r1, [b, c]) <==> Accepts(r1, b) && AcceptsAll(r2, [c]);
  }

  /** In particular a key, within the limits: rejected exactly when its
      millisecond is later than the press's and the stroke is not skipped. */
  lemma KeyDuringGestureBreaksOrder(recordedAt: int, excluded: Option<Bounds>, down: Touch, at: int, up: Touch)
    requires recordedAt <= down.at <= at <= up.at
    requires down.operation == Down && up.operation == Up && 0 <= down.index <= 9 && up.index == down.index
    requires Offset(recordedAt, at) <= DAY_MILLIS && NonNegative(Millis(up.at - down.at)) <= MAX_DURATION
    ensures var events := [Touched(down), Entered(at, KeyEntry(4)), Touched(up)];
            !ValidTimeline(Record(Fresh(recordedAt, excluded), events).actions) <==>
              && Offset(recordedAt, at) > Offset(recordedAt, down.at)
              && !Skipped(excluded, Stroke(recordedAt, down, up))
  {
    OffsetIsMonotone(recordedAt, down.at, at);
    EntryDuringStrokeAcceptedExactlyWhen(recordedAt, excluded, down, at, KeyEntry(4), up);
  }
}
