/** What ends up in a recording, told from the raw touches and entries: every
    group of fingers becomes the one action that sums up its strokes, and
    neighbouring taps are paired off from the front. */
module TouchGrouping {
  import opened Options
  import opened TouchTimeline
  import opened TouchRecording

  // ----- Pairing taps --------------------------------------------------------

  /** Two taps that make a double tap: within 350 ms, at most 0.03 apart. */
  predicate Paired(t: Action, u: Action) {
    && t.Tap? && u.Tap? && 0 <= u.offset - t.offset <= 350
    && var dx, dy := u.start.x - t.start.x, u.start.y - t.start.y; dx * dx + dy * dy <= 0.03 * 0.03
  }

  /** The recorded form of everything that arrived. */
  function PairUp(arrived: seq<Action>): seq<Action>
    decreases |arrived|
  {
    if arrived == [] then []
    else if |arrived| >= 2 && Paired(arrived[0], arrived[1]) then
      var t, u := arrived[0], arrived[1];
      [DoubleTap(t.offset, u.offset - t.offset, t.start)] + PairUp(arrived[2..])
    else [arrived[0]] + PairUp(arrived[1..])
  }

  function Doubled(t: Action, u: Action): Action
    requires t.Tap? && u.Tap?
  {
    DoubleTap(t.offset, u.offset - t.offset, t.start)
  }

  lemma PairFirst(t: Action, u: Action, rest: seq<Action>)
    requires Paired(t, u)
    ensures PairUp([t, u] + rest) == [Doubled(t, u)] + PairUp(rest)
  {
    assert ([t, u] + rest)[2..] == rest;
  }

  lemma FirstStaysApart(first: Action, rest: seq<Action>)
    requires rest == [] || !Paired(first, rest[0])
    ensures PairUp([first] + rest) == [first] + PairUp(rest)
  {
    assert ([first] + rest)[1..] == rest;
  }

  lemma AppendingToOne(t: Action, a: Action)
    ensures AppendOne(PairUp([t]), None, a) == PairUp([t, a])
  {
    FirstStaysApart(t, []);
    FirstStaysApart(a, []);
    assert [t] + [] == [t] && [a] + [] == [a] && [t, a] + [] == [t, a] && [t] + [a] == [t, a];
    if Paired(t, a) {
      PairFirst(t, a, []);
      assert [Doubled(t, a)] + [] == [Doubled(t, a)];
      assert [t][..0] + [Doubled(t, a)] == [Doubled(t, a)];
    } else {
      FirstStaysApart(t, [a]);
    }
  }

  /** Pairing from the front is what appending one by one does. */
  lemma {:induction false} AppendingPairsUp(arrived: seq<Action>, a: Action)
    ensures AppendOne(PairUp(arrived), None, a) == PairUp(arrived + [a])
    decreases |arrived|
  {
    if arrived == [] {
      FirstStaysApart(a, []);
      assert [a] + [] == [a] && arrived + [a] == [a];
    } else if |arrived| == 1 {
      assert arrived == [arrived[0]] && arrived + [a] == [arrived[0], a];
      AppendingToOne(arrived[0], a);
    } else if Paired(arrived[0], arrived[1]) {
      assert arrived == [arrived[0], arrived[1]] + arrived[2..];
      AppendingPairsUp(arrived[2..], a);
      AppendBehindPair(arrived[0], arrived[1], arrived[2..], a);
    } else {
      assert arrived == [arrived[0]] + arrived[1..];
      AppendingPairsUp(arrived[1..], a);
      AppendBehindOne(arrived[0], arrived[1..], a);
    }
  }

  lemma AppendBehindPair(t: Action, u: Action, rest: seq<Action>, a: Action)
    requires Paired(t, u) && AppendOne(PairUp(rest), None, a) == PairUp(rest + [a])
    ensures AppendOne(PairUp([t, u] + rest), None, a) == PairUp([t, u] + rest + [a])
  {
    PairFirst(t, u, rest);
    PairFirst(t, u, rest + [a]);
    assert [t, u] + (rest + [a]) == [t, u] + rest + [a];
    AppendBehind(Doubled(t, u), PairUp(rest), a);
  }

  lemma AppendBehindOne(first: Action, rest: seq<Action>, a: Action)
    requires rest != [] && !Paired(first, rest[0]) && AppendOne(PairUp(rest), None, a) == PairUp(rest + [a])
    ensures AppendOne(PairUp([first] + rest), None, a) == PairUp([first] + rest + [a])
  {
    FirstStaysApart(first, rest);
    FirstStaysApart(first, rest + [a]);
    assert [first] + (rest + [a]) == [first] + rest + [a];
    AppendBehind(first, PairUp(rest), a);
  }

  lemma AppendBehind(first: Action, rest: seq<Action>, a: Action)
    requires rest != [] || !first.Tap?
    ensures AppendOne([first] + rest, None, a) == [first] + AppendOne(rest, None, a)
  {
    var all := [first] + rest;
    if rest != [] {
      assert all[|all| - 1] == rest[|rest| - 1];
      assert all[..|all| - 1] == [first] + rest[..|rest| - 1];
    }
  }

  /** The points at which an action begins. */
  function Begins(a: Action): set<Point> {
    match a
    case Tap(_, _, start) => {start}
    case LongPress(_, _, start) => {start}
    case DoubleTap(_, _, start) => {start}
    case Swipe(_, _, start, _) => {start}
    case MultiTouch(_, _, contacts) => set i | 0 <= i < |contacts| :: contacts[i].start
    case _ => {}
  }

  /** Nothing of the action begins inside the excluded area. */
  predicate Outside(excluded: Option<Bounds>, a: Action) {
    excluded.Some? ==> forall p :: p in Begins(a) ==>
      !(excluded.value.left <= p.x <= excluded.value.right && excluded.value.top <= p.y <= excluded.value.bottom)
  }

  lemma SkippedMeansInside(excluded: Option<Bounds>, a: Action)
    ensures Skipped(excluded, a) <==> !Outside(excluded, a)
  {
    if excluded.Some? && a.MultiTouch? {
      forall i | 0 <= i < |a.contacts| ensures a.contacts[i].start in Begins(a) {
      }
    }
  }

  /** The action that a touch completes, or the entry, if any. */
  function Emitted(r: Recording, e: Event): (all: seq<Action>)
    ensures |all| <= 1
  {
    match e
    case Touched(t) =>
      EmitsOncePerGroup(r.norm, t);
      FeedStep(r.norm, t).1
    case Entered(at, entry) => if Admissible(entry) then [EntryAction(r, at, entry)] else []
    case Masked(_) => []
  }

  function Brought(r: Recording, e: Event): seq<Action> {
    if Emitted(r, e) != [] && Outside(r.excluded, Emitted(r, e)[0]) then Emitted(r, e) else []
  }

  function Arrivals(r: Recording, events: seq<Event>): seq<Action>
    decreases |events|
  {
    if events == [] then [] else Brought(r, events[0]) + Arrivals(Step(r, events[0]), events[1..])
  }

  lemma StepAppends(r: Recording, e: Event)
    ensures Step(r, e).actions
         == if Emitted(r, e) == [] then r.actions else AppendOne(r.actions, r.excluded, Emitted(r, e)[0])
  {
    var all := Emitted(r, e);
    if all != [] {
      assert all == [all[0]];
      AppendSingle(r.actions, r.excluded, all[0]);
    }
  }

  lemma StepPairsUp(r: Recording, e: Event, arrived: seq<Action>)
    requires r.actions == PairUp(arrived)
    ensures Step(r, e).actions == PairUp(arrived + Brought(r, e))
  {
    StepAppends(r, e);
    if Emitted(r, e) == [] {
      assert arrived + [] == arrived;
    } else {
      var a := Emitted(r, e)[0];
      assert Emitted(r, e) == [a];
      OnePairsUp(r, arrived, a);
    }
  }

  lemma OnePairsUp(r: Recording, arrived: seq<Action>, a: Action)
    requires r.actions == PairUp(arrived)
    ensures AppendOne(r.actions, r.excluded, a)
         == PairUp(arrived + if Outside(r.excluded, a) then [a] else [])
  {
    SkippedMeansInside(r.excluded, a);
    if Outside(r.excluded, a) {
      AppendingPairsUp(arrived, a);
      assert AppendOne(r.actions, r.excluded, a) == AppendOne(r.actions, None, a);
    } else {
      assert arrived + [] == arrived;
    }
  }

  lemma {:induction false} StreamPairsUp(r: Recording, events: seq<Event>, arrived: seq<Action>)
    requires r.actions == PairUp(arrived)
    ensures Record(r, events).actions == PairUp(arrived + Arrivals(r, events))
    decreases |events|
  {
    if events == [] {
      assert arrived + [] == arrived;
    } else {
      var next, brought := Step(r, events[0]), Brought(r, events[0]);
      StepPairsUp(r, events[0], arrived);
      StreamPairsUp(next, events[1..], arrived + brought);
      Associative(arrived, brought, Arrivals(next, events[1..]));
    }
  }

  lemma Associative(a: seq<Action>, b: seq<Action>, c: seq<Action>)
    ensures (a + b) + c == a + (b + c)
  {
  }

  /** Whatever the stream, the recorded actions are what arrived outside the
      excluded areas, in order, with neighbouring taps paired off. */
  lemma RecordedIsPairedUp(recordedAt: int, excluded: Option<Bounds>, events: seq<Event>)
    ensures Record(Fresh(recordedAt, excluded), events).actions == PairUp(Arrivals(Fresh(recordedAt, excluded), events))
  {
    StreamPairsUp(Fresh(recordedAt, excluded), events, []);
    assert [] + Arrivals(Fresh(recordedAt, excluded), events) == Arrivals(Fresh(recordedAt, excluded), events);
  }

  /** Each recorded action is one that arrived, or stands for two neighbours. */
  ghost predicate Stands(recorded: Action, arrived: seq<Action>) {
    || recorded in arrived
    || exists i :: 0 <= i < |arrived| - 1 && Paired(arrived[i], arrived[i + 1])
         && recorded == DoubleTap(arrived[i].offset, arrived[i + 1].offset - arrived[i].offset, arrived[i].start)
  }

  lemma {:induction false} PairingKeepsEverything(arrived: seq<Action>)
    ensures forall a :: a in PairUp(arrived) ==> Stands(a, arrived)
    decreases |arrived|
  {
    if arrived != [] {
      var n := if |arrived| >= 2 && Paired(arrived[0], arrived[1]) then 2 else 1;
      var rest := arrived[n..];
      PairingKeepsEverything(rest);
      forall a | a in PairUp(arrived) ensures Stands(a, arrived) {
        if a in PairUp(rest) {
          StandsInRest(a, arrived, n);
        } else if n == 2 {
          assert Paired(arrived[0], arrived[0 + 1]);
        }
      }
    }
  }

  lemma StandsInRest(a: Action, arrived: seq<Action>, n: nat)
    requires n <= |arrived| && Stands(a, arrived[n..])
    ensures Stands(a, arrived)
  {
    var rest := arrived[n..];
    if a !in rest {
      var i :| 0 <= i < |rest| - 1 && Paired(rest[i], rest[i + 1])
        && a == DoubleTap(rest[i].offset, rest[i + 1].offset - rest[i].offset, rest[i].start);
      assert arrived[n + i] == rest[i] && arrived[n + i + 1] == rest[i + 1];
    }
  }

  /** No two neighbouring taps that make a double tap are left apart. */
  lemma {:induction false} NothingIsLeftApart(arrived: seq<Action>)
    ensures var r := PairUp(arrived); forall i :: 0 <= i < |r| - 1 ==> !Paired(r[i], r[i + 1])
    ensures arrived != [] ==> PairUp(arrived) != [] && (PairUp(arrived)[0].Tap? ==> PairUp(arrived)[0] == arrived[0])
    decreases |arrived|
  {
    if arrived != [] {
      var n := if |arrived| >= 2 && Paired(arrived[0], arrived[1]) then 2 else 1;
      NothingIsLeftApart(arrived[n..]);
      var r, rest := PairUp(arrived), PairUp(arrived[n..]);
      assert r[1..] == rest;
      forall i | 0 <= i < |r| - 1 ensures !Paired(r[i], r[i + 1]) {
        if i > 0 { assert r[i] == rest[i - 1] && r[i + 1] == rest[i]; }
      }
    }
  }

  // ----- What a group of fingers becomes -------------------------------------

  predicate OnGlass(t: Touch) { 0 <= t.index <= 9 }

  /** The press of a finger that is still down, told from the touches so far. */
  function Press(touches: seq<Touch>, k: int): (press: Option<Touch>)
    ensures press.Some? ==> press.value.index == k
    decreases |touches|
  {
    if touches == [] then None
    else
      var last := touches[|touches| - 1];
      if last.index == k && last.operation == Down then Some(last)
      else if last.index == k && last.operation == Up then None
      else Press(touches[..|touches| - 1], k)
  }

  ghost predicate Idle(touches: seq<Touch>) {
    forall k :: 0 <= k <= 9 ==> Press(touches, k).None?
  }

  /** Press and lift of each finger lifted since the first finger went down. */
  ghost function Strokes(touches: seq<Touch>): seq<(Touch, Touch)>
    decreases |touches|
  {
    if touches == [] then []
    else
      var before, last := touches[..|touches| - 1], touches[|touches| - 1];
      if !OnGlass(last) then Strokes(before)
      else if last.operation == Down && Idle(before) then []
      else if last.operation == Up && Press(before, last.index).Some?
      then Strokes(before) + [(Press(before, last.index).value, last)]
      else Strokes(before)
  }

  function GestureOf(stroke: (Touch, Touch)): Gesture {
    Gesture(stroke.0.index, stroke.0.at, stroke.1.at, stroke.0.At(), stroke.1.At())
  }

  function ContactOf(stroke: (Touch, Touch)): Contact {
    Contact(stroke.0.index, stroke.0.At(), stroke.1.At())
  }

  function GesturesOf(strokes: seq<(Touch, Touch)>): (group: seq<Gesture>)
    ensures |group| == |strokes| && forall i :: 0 <= i < |strokes| ==> group[i] == GestureOf(strokes[i])
  {
    seq(|strokes|, i requires 0 <= i < |strokes| => GestureOf(strokes[i]))
  }

  function ContactsOfStrokes(strokes: seq<(Touch, Touch)>): (contacts: seq<Contact>)
    ensures |contacts| == |strokes| && forall i :: 0 <= i < |strokes| ==> contacts[i] == ContactOf(strokes[i])
  {
    seq(|strokes|, i requires 0 <= i < |strokes| => ContactOf(strokes[i]))
  }

  /** The normalizer's state, told from the touches so far. */
  ghost predicate Remembers(n: Norm, touches: seq<Touch>) {
    && (forall k :: k in n.gestures <==> 0 <= k <= 9 && Press(touches, k).Some?)
    && (forall k :: k in n.gestures ==>
          var g, press := n.gestures[k], Press(touches, k).value;
          g.index == k && g.started == press.at && g.start == press.At())
    && (!Idle(touches) ==> n.completed == GesturesOf(Strokes(touches)))
  }

  lemma IdleMeansEmpty(n: Norm, touches: seq<Touch>)
    requires Remembers(n, touches)
    ensures Idle(touches) <==> n.gestures == map[]
  {
    if Idle(touches) {
      assert forall k :: k !in n.gestures;
      assert n.gestures.Keys == {};
    } else {
      var k :| 0 <= k <= 9 && Press(touches, k).Some?;
      assert k in n.gestures;
    }
  }

  lemma PressAfter(touches: seq<Touch>, t: Touch, k: int)
    ensures Press(touches + [t], k)
         == if t.index == k && t.operation == Down then Some(t)
            else if t.index == k && t.operation == Up then None else Press(touches, k)
  {
    assert (touches + [t])[..|touches|] == touches;
  }

  lemma LiftRemembers(n: Norm, touches: seq<Touch>, t: Touch)
    requires Remembers(n, touches) && OnGlass(t) && t.operation == Up && Press(touches, t.index).Some?
    ensures Remembers(FeedStep(n, t).0, touches + [t])
    ensures n.completed + [n.gestures[t.index].(last := t.At(), ended := t.at)]
         == GesturesOf(Strokes(touches + [t]))
  {
    var strokes := Strokes(touches) + [(Press(touches, t.index).value, t)];
    assert (touches + [t])[..|touches|] == touches;
    assert t.index in n.gestures && !Idle(touches);
    forall k ensures Press(touches + [t], k) == if k == t.index then None else Press(touches, k) {
      PressAfter(touches, t, k);
    }
    assert GesturesOf(strokes) == GesturesOf(Strokes(touches)) + [GestureOf(strokes[|strokes| - 1])];
    assert (n.gestures - {t.index}).Keys == n.gestures.Keys - {t.index};
    if !Idle(touches + [t]) {
      var k :| 0 <= k <= 9 && Press(touches + [t], k).Some?;
      assert k in n.gestures - {t.index};
    }
  }

  lemma FeedRemembers(n: Norm, touches: seq<Touch>, t: Touch)
    requires Remembers(n, touches)
    ensures Remembers(FeedStep(n, t).0, touches + [t])
  {
    var all := touches + [t];
    assert all[..|touches|] == touches;
    forall k ensures Press(all, k) == if t.index == k && t.operation == Down then Some(t)
                       else if t.index == k && t.operation == Up then None else Press(touches, k) {
      PressAfter(touches, t, k);
    }
    IdleMeansEmpty(n, touches);
    if OnGlass(t) && t.operation == Up && Press(touches, t.index).Some? {
      LiftRemembers(n, touches, t);
    } else if OnGlass(t) && t.operation == Down {
      assert GesturesOf([]) == [];
      assert !Idle(touches) ==> Strokes(all) == Strokes(touches);
    } else {
      assert Idle(all) <==> Idle(touches);
      assert Strokes(all) == Strokes(touches);
    }
  }

  // ----- One action sums up a group ------------------------------------------

  ghost predicate SortedContacts(contacts: seq<Contact>) {
    forall i, j :: 0 <= i < j < |contacts| ==> contacts[i].index <= contacts[j].index
  }

  /** One finger is a tap, a long press or a swipe; several are one multi-touch
      action from the first press to the last lift, listing every finger's press
      point and lift point by slot. */
  ghost predicate SumsUp(recordedAt: int, strokes: seq<(Touch, Touch)>, a: Action)
    requires strokes != []
  {
    if |strokes| == 1 then a == Stroke(recordedAt, strokes[0].0, strokes[0].1)
    else
      && a.MultiTouch? && SortedContacts(a.contacts)
      && multiset(a.contacts) == multiset(ContactsOfStrokes(strokes))
      && exists first, final :: Spans(strokes, first, final)
           && a.offset == NonNegative(Millis(first - recordedAt))
           && a.duration == if Millis(final - first) <= 0 then 1 else Millis(final - first)
  }

  /** The first press and the last lift. */
  ghost predicate Spans(strokes: seq<(Touch, Touch)>, first: int, final: int) {
    && (exists i :: 0 <= i < |strokes| && strokes[i].0.at == first)
    && (exists i :: 0 <= i < |strokes| && strokes[i].1.at == final)
    && (forall i :: 0 <= i < |strokes| ==> first <= strokes[i].0.at && strokes[i].1.at <= final)
  }

  function ContactOfGesture(g: Gesture): Contact { Contact(g.index, g.start, g.last) }

  lemma ContactsSplit(s: seq<Gesture>)
    requires s != []
    ensures multiset(ContactsOf(s)) == multiset{ContactOfGesture(s[0])} + multiset(ContactsOf(s[1..]))
  {
    assert ContactsOf(s) == [ContactOfGesture(s[0])] + ContactsOf(s[1..]);
  }

  lemma {:induction false} InsertKeepsContacts(g: Gesture, s: seq<Gesture>)
    ensures multiset(ContactsOf(Insert(g, s))) == multiset(ContactsOf(s)) + multiset{ContactOfGesture(g)}
    decreases |s|
  {
    var r := Insert(g, s);
    ContactsSplit(r);
    if s == [] || g.index <= s[0].index {
      assert r[1..] == s;
    } else {
      assert r[1..] == Insert(g, s[1..]);
      InsertKeepsContacts(g, s[1..]);
      ContactsSplit(s);
    }
  }

  lemma {:induction false} SortKeepsContacts(s: seq<Gesture>)
    ensures multiset(ContactsOf(SortByIndex(s))) == multiset(ContactsOf(s))
    decreases |s|
  {
    if s != [] {
      SortKeepsContacts(s[1..]);
      InsertKeepsContacts(s[0], SortByIndex(s[1..]));
      ContactsSplit(s);
    }
  }

  lemma GroupSpans(strokes: seq<(Touch, Touch)>)
    requires strokes != []
    ensures var group := GesturesOf(strokes); Spans(strokes, Earliest(group), Latest(group))
  {
    var group := GesturesOf(strokes);
    var first, final := Earliest(group), Latest(group);
    assert exists g :: g in group && g.started == first;
    var i :| 0 <= i < |group| && group[i].started == first;
    assert exists g :: g in group && g.ended == final;
    var j :| 0 <= j < |group| && group[j].ended == final;
    assert strokes[i].0.at == first && strokes[j].1.at == final;
    forall k | 0 <= k < |strokes|
      ensures Earliest(group) <= strokes[k].0.at && strokes[k].1.at <= Latest(group)
    {
      assert group[k] in group;
    }
  }

  lemma GroupActionSumsUp(recordedAt: int, strokes: seq<(Touch, Touch)>)
    requires strokes != []
    ensures SumsUp(recordedAt, strokes, GroupAction(recordedAt, GesturesOf(strokes)))
  {
    if |strokes| == 1 {
      assert GesturesOf(strokes) == [GestureOf(strokes[0])];
    } else {
      SeveralSumUp(recordedAt, strokes);
    }
  }

  lemma ContactsAreListed(strokes: seq<(Touch, Touch)>)
    ensures var contacts := ContactsOf(SortByIndex(GesturesOf(strokes)));
            SortedContacts(contacts) && multiset(contacts) == multiset(ContactsOfStrokes(strokes))
  {
    var group := GesturesOf(strokes);
    SortKeepsContacts(group);
    SortSorts(group);
    assert ContactsOf(group) == ContactsOfStrokes(strokes);
  }

  lemma SeveralSumUp(recordedAt: int, strokes: seq<(Touch, Touch)>)
    requires |strokes| > 1
    ensures SumsUp(recordedAt, strokes, GroupAction(recordedAt, GesturesOf(strokes)))
  {
    var group := GesturesOf(strokes);
    GroupSpans(strokes);
    ContactsAreListed(strokes);
    var first, final := Earliest(group), Latest(group);
    assert Spans(strokes, first, final);
  }

  // ----- Over whole streams --------------------------------------------------

  function Touches(events: seq<Event>): seq<Touch>
    decreases |events|
  {
    if events == [] then []
    else
      var last := events[|events| - 1];
      Touches(events[..|events| - 1]) + if last.Touched? then [last.touch] else []
  }

  lemma {:induction false} RecordSnoc(r: Recording, events: seq<Event>, e: Event)
    ensures Record(r, events + [e]) == Step(Record(r, events), e)
    decreases |events|
  {
    var all := events + [e];
    if events == [] {
      assert all[1..] == [];
    } else {
      assert all[1..] == events[1..] + [e];
      RecordSnoc(Step(r, events[0]), events[1..], e);
    }
  }

  lemma {:induction false} StreamRemembers(recordedAt: int, excluded: Option<Bounds>, events: seq<Event>)
    ensures var n := Record(Fresh(recordedAt, excluded), events).norm;
            n.recordedAt == recordedAt && Remembers(n, Touches(events))
    decreases |events|
  {
    if events == [] {
      assert Touches(events) == [];
    } else {
      var before, last := events[..|events| - 1], events[|events| - 1];
      assert events == before + [last];
      StreamRemembers(recordedAt, excluded, before);
      RecordSnoc(Fresh(recordedAt, excluded), before, last);
      if last.Touched? {
        FeedRemembers(Record(Fresh(recordedAt, excluded), before).norm, Touches(before), last.touch);
      } else {
        assert Touches(events) == Touches(before);
      }
    }
  }

  /** At every moment of every stream a touch completes an action exactly when it
      lifts the last finger, and that action sums up the strokes of the group. */
  lemma GroupsAreSummedUp(recordedAt: int, excluded: Option<Bounds>, events: seq<Event>, t: Touch)
    ensures var before, r := Touches(events), Record(Fresh(recordedAt, excluded), events);
            var all := before + [t];
            && (Emitted(r, Touched(t)) != [] <==>
                  OnGlass(t) && t.operation == Up && Press(before, t.index).Some? && Idle(all))
            && (Emitted(r, Touched(t)) != [] ==>
                  Strokes(all) != [] && SumsUp(recordedAt, Strokes(all), Emitted(r, Touched(t))[0]))
  {
    var before, r := Touches(events), Record(Fresh(recordedAt, excluded), events);
    StreamRemembers(recordedAt, excluded, events);
    FeedRemembers(r.norm, before, t);
    IdleMeansEmpty(FeedStep(r.norm, t).0, before + [t]);
    IdleMeansEmpty(r.norm, before);
    if OnGlass(t) && t.operation == Up && Press(before, t.index).Some? {
      LiftRemembers(r.norm, before, t);
      GroupActionSumsUp(recordedAt, Strokes(before + [t]));
    }
  }
}
