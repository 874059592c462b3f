/** From raw touch events to a recorded timeline: contact groups become single
    actions, nearby taps merge into double taps, and the validator decides
    whether the resulting case can be sealed. Times are nanoseconds. */
module TouchTimeline {
  const MILLISECOND: int := 1_000_000
  const MAX_ACTIONS: int := 10_000
  const DAY_MILLIS: int := 86_400_000
  const MAX_DURATION: int := 60_000
  const LONG_PRESS_MILLIS: int := 500
  const DOUBLE_TAP_MILLIS: int := 350

  datatype Point = Point(x: real, y: real)

  datatype Bounds = Bounds(left: real, top: real, right: real, bottom: real)
  {
    predicate Contains(p: Point) { left <= p.x <= right && top <= p.y <= bottom }
  }

  datatype Contact = Contact(index: int, start: Point, end: Point)

  datatype Action =
    | Tap(offset: int, duration: int, start: Point)
    | LongPress(offset: int, duration: int, start: Point)
    | DoubleTap(offset: int, duration: int, start: Point)
    | Swipe(offset: int, duration: int, start: Point, end: Point)
    | MultiTouch(offset: int, duration: int, contacts: seq<Contact>)
    | Key(offset: int, duration: int, keyCode: int)
    | Text(offset: int, duration: int, text: string, focus: bool, start: Point)
    | AssertScreenshot(offset: int, duration: int, hash: string, maxDistance: int)

  function Clamp(v: real): real { if v < 0.0 then 0.0 else if v > 1.0 then 1.0 else v }

  function SquaredDistance(p: Point, q: Point): real {
    (p.x - q.x) * (p.x - q.x) + (p.y - q.y) * (p.y - q.y)
  }

  /** Duration.Milliseconds: whole milliseconds, truncated toward zero. */
  function Millis(nanos: int): int {
    if nanos >= 0 then nanos / MILLISECOND else -(-nanos / MILLISECOND)
  }

  function NonNegative(n: int): int { if n < 0 then 0 else n }

  // ----- The validator -------------------------------------------------------

  predicate ValidPoint(p: Point) { 0.0 <= p.x <= 1.0 && 0.0 <= p.y <= 1.0 }

  predicate HexDigit(c: char) { '0' <= c <= '9' || 'a' <= c <= 'f' }

  ghost predicate ValidContacts(contacts: seq<Contact>) {
    && 2 <= |contacts| <= 10
    && (forall i :: 0 <= i < |contacts| ==>
          0 <= contacts[i].index <= 9 && ValidPoint(contacts[i].start) && ValidPoint(contacts[i].end))
    && (forall i, j :: 0 <= i < j < |contacts| ==> contacts[i].index != contacts[j].index)
  }

  ghost predicate ValidBody(a: Action) {
    match a
    case Tap(_, _, start) => ValidPoint(start)
    case LongPress(_, _, start) => ValidPoint(start)
    case DoubleTap(_, _, start) => ValidPoint(start)
    case Swipe(_, _, start, end) => ValidPoint(start) && ValidPoint(end)
    case MultiTouch(_, duration, contacts) => 1 <= duration && ValidContacts(contacts)
    case Key(_, _, code) => code == 4
    case Text(_, _, text, focus, start) => |text| <= 4096 && '\0' !in text && (focus ==> ValidPoint(start))
    case AssertScreenshot(_, _, hash, distance) =>
      |hash| == 16 && (forall c :: c in hash ==> HexDigit(c)) && 0 <= distance <= 16
  }

  ghost predicate ValidAction(a: Action) {
    0 <= a.offset <= DAY_MILLIS && 0 <= a.duration <= MAX_DURATION && ValidBody(a)
  }

  ghost predicate Ordered(actions: seq<Action>) {
    forall i, j :: 0 <= i < j < |actions| ==> actions[i].offset <= actions[j].offset
  }

  /** What the validator promises about the actions of a case it accepts. */
  ghost predicate ValidTimeline(actions: seq<Action>) {
    && |actions| <= MAX_ACTIONS
    && (forall i :: 0 <= i < |actions| ==> ValidAction(actions[i]))
    && Ordered(actions)
  }

  // ----- Everything that can be wrong with a timeline ------------------------

  predicate OffScreen(p: Point) { p.x < 0.0 || 1.0 < p.x || p.y < 0.0 || 1.0 < p.y }

  ghost predicate Malformed(a: Action) {
    match a
    case Tap(_, _, start) => OffScreen(start)
    case LongPress(_, _, start) => OffScreen(start)
    case DoubleTap(_, _, start) => OffScreen(start)
    case Swipe(_, _, start, end) => OffScreen(start) || OffScreen(end)
    case MultiTouch(_, duration, contacts) =>
      || duration < 1 || |contacts| < 2 || 10 < |contacts|
      || (exists i :: 0 <= i < |contacts| && (contacts[i].index < 0 || 9 < contacts[i].index))
      || (exists i :: 0 <= i < |contacts| && (OffScreen(contacts[i].start) || OffScreen(contacts[i].end)))
      || (exists i, j :: 0 <= i < j < |contacts| && contacts[i].index == contacts[j].index)
    case Key(_, _, code) => code != 4
    case Text(_, _, text, focus, start) => 4096 < |text| || '\0' in text || (focus && OffScreen(start))
    case AssertScreenshot(_, _, hash, distance) =>
      || |hash| != 16 || distance < 0 || 16 < distance
      || (exists i :: 0 <= i < |hash| && hash[i] !in "0123456789abcdef")
  }

  lemma HexDigits(c: char)
    ensures HexDigit(c) <==> c in "0123456789abcdef"
  {
    var digits := "0123456789abcdef";
    if '0' <= c <= '9' { assert digits[c as int - '0' as int] == c; }
    if 'a' <= c <= 'f' { assert digits[10 + c as int - 'a' as int] == c; }
  }

  lemma MalformedExactlyWhen(a: Action)
    ensures Malformed(a) <==> !ValidBody(a)
  {
    if a.AssertScreenshot? {
      forall i | 0 <= i < |a.hash| ensures HexDigit(a.hash[i]) <==> a.hash[i] in "0123456789abcdef" {
        HexDigits(a.hash[i]);
      }
      assert (forall c :: c in a.hash ==> HexDigit(c)) <==> (forall i :: 0 <= i < |a.hash| ==> HexDigit(a.hash[i]));
    }
  }

  /** The validator refuses a timeline exactly when it is too long, an action is
      outside a day or a minute, comes before its predecessor, or is malformed. */
  lemma RefusedExactlyWhen(actions: seq<Action>)
    ensures !ValidTimeline(actions) <==>
              || |actions| > 10_000
              || (exists i :: 0 <= i < |actions| && (actions[i].offset < 0 || 86_400_000 < actions[i].offset))
              || (exists i :: 0 <= i < |actions| && (actions[i].duration < 0 || 60_000 < actions[i].duration))
              || (exists i :: 0 <= i < |actions| && Malformed(actions[i]))
              || (exists i, j :: 0 <= i < j < |actions| && actions[j].offset < actions[i].offset)
  {
    forall i | 0 <= i < |actions| ensures Malformed(actions[i]) <==> !ValidBody(actions[i]) {
      MalformedExactlyWhen(actions[i]);
    }
  }

  /** Whole milliseconds, cut toward zero. */
  lemma MillisAreCut(nanos: int)
    ensures nanos >= 0 ==> 0 <= nanos - Millis(nanos) * 1_000_000 < 1_000_000
    ensures nanos <= 0 ==> 0 <= Millis(nanos) * 1_000_000 - nanos < 1_000_000
  {
  }

  /** A touch outside the glass counts at the nearest point of it. */
  lemma TouchesLandOnScreen(t: Touch)
    ensures !OffScreen(t.At())
    ensures forall p :: !OffScreen(p) ==> SquaredDistance(Point(t.xp, t.yp), t.At()) <= SquaredDistance(Point(t.xp, t.yp), p)
  {
    forall p | !OffScreen(p)
      ensures SquaredDistance(Point(t.xp, t.yp), t.At()) <= SquaredDistance(Point(t.xp, t.yp), p)
    {
      SquareGrows(t.xp - t.At().x, t.xp - p.x);
      SquareGrows(t.yp - t.At().y, t.yp - p.y);
    }
  }

  lemma SquareGrows(a: real, b: real)
    requires (0.0 <= a <= b) || (b <= a <= 0.0) || a == 0.0
    ensures a * a <= b * b
  {
    if 0.0 <= a <= b {
      assert a * a <= a * b <= b * b;
    } else if b <= a <= 0.0 {
      assert a * a <= a * b <= b * b;
    }
  }

  method ContactsAccepted(contacts: seq<Contact>) returns (ok: bool)
    ensures ok <==> ValidContacts(contacts)
  {
    if |contacts| < 2 || |contacts| > 10 { return false; }
    var seen: set<int> := {};
    for i := 0 to |contacts|
      invariant seen == set k | 0 <= k < i :: contacts[k].index
      invariant ValidContacts(contacts) || forall k :: 0 <= k < i ==>
                  0 <= contacts[k].index <= 9 && ValidPoint(contacts[k].start) && ValidPoint(contacts[k].end)
      invariant forall j, k :: 0 <= j < k < i ==> contacts[j].index != contacts[k].index
    {
      var c := contacts[i];
      if c.index < 0 || c.index > 9 || c.index in seen || !ValidPoint(c.start) || !ValidPoint(c.end) {
        return false;
      }
      seen := seen + {c.index};
    }
    return true;
  }

  method BodyAccepted(a: Action) returns (ok: bool)
    ensures ok <==> ValidBody(a)
  {
    match a
    case Tap(_, _, start) => return ValidPoint(start);
    case LongPress(_, _, start) => return ValidPoint(start);
    case DoubleTap(_, _, start) => return ValidPoint(start);
    case Swipe(_, _, start, end) => return ValidPoint(start) && ValidPoint(end);
    case MultiTouch(_, duration, contacts) =>
      if duration < 1 { return false; }
      ok := ContactsAccepted(contacts);
    case Key(_, _, code) => return code == 4;
    case Text(_, _, text, focus, start) => return |text| <= 4096 && '\0' !in text && (!focus || ValidPoint(start));
    case AssertScreenshot(_, _, hash, distance) =>
      return |hash| == 16 && (forall c :: c in hash ==> HexDigit(c)) && 0 <= distance <= 16;
  }

  method Validate(actions: seq<Action>) returns (ok: bool)
    ensures ok <==> ValidTimeline(actions)
  {
    if |actions| > MAX_ACTIONS { return false; }
    var previous := -1;
    for i := 0 to |actions|
      invariant forall k :: 0 <= k < i ==> ValidAction(actions[k]) && actions[k].offset <= previous
      invariant previous == if i == 0 then -1 else actions[i - 1].offset
      invariant Ordered(actions[..i])
    {
      var a := actions[i];
      if a.offset < previous || a.offset < 0 || a.offset > DAY_MILLIS { return false; }
      previous := a.offset;
      if a.duration < 0 || a.duration > MAX_DURATION { return false; }
      var body := BodyAccepted(a);
      if !body { return false; }
    }
    assert actions[..|actions|] == actions;
    return true;
  }

  // ----- The normalizer ------------------------------------------------------

  datatype Gesture = Gesture(index: int, started: int, ended: int, start: Point, last: Point)

  datatype Operation = Down | Move | Up

  datatype Touch = Touch(at: int, operation: Operation, index: int, xp: real, yp: real)
  {
    function At(): Point { Point(Clamp(xp), Clamp(yp)) }
  }

  /** Contacts on the glass, and the ones lifted since the group began. */
  datatype Norm = Norm(recordedAt: int, gestures: map<int, Gesture>, completed: seq<Gesture>)

  function Insert(g: Gesture, s: seq<Gesture>): (r: seq<Gesture>)
    ensures |r| == |s| + 1
    ensures multiset(r) == multiset(s) + multiset{g}
  {
    if s == [] || g.index <= s[0].index then [g] + s
    else
      assert s == [s[0]] + s[1..];
      [s[0]] + Insert(g, s[1..])
  }

  /** sort.Slice by contact index. */
  function SortByIndex(s: seq<Gesture>): (r: seq<Gesture>)
    ensures |r| == |s|
    ensures multiset(r) == multiset(s)
  {
    if s == [] then []
    else
      assert s == [s[0]] + s[1..];
      Insert(s[0], SortByIndex(s[1..]))
  }

  function Earliest(s: seq<Gesture>): (t: int)
    requires s != []
    ensures exists g :: g in s && g.started == t
    ensures forall g :: g in s ==> t <= g.started
  {
    if |s| == 1 then assert s[0] in s; s[0].started
    else
      var rest := Earliest(s[1..]);
      assert forall g :: g in s <==> g == s[0] || g in s[1..];
      if s[0].started < rest then s[0].started else rest
  }

  function Latest(s: seq<Gesture>): (t: int)
    requires s != []
    ensures exists g :: g in s && g.ended == t
    ensures forall g :: g in s ==> g.ended <= t
  {
    if |s| == 1 then assert s[0] in s; s[0].ended
    else
      var rest := Latest(s[1..]);
      assert forall g :: g in s <==> g == s[0] || g in s[1..];
      if s[0].ended > rest then s[0].ended else rest
  }

  function ContactsOf(s: seq<Gesture>): (contacts: seq<Contact>)
    ensures |contacts| == |s|
    ensures forall i :: 0 <= i < |s| ==> contacts[i] == Contact(s[i].index, s[i].start, s[i].last)
  {
    seq(|s|, i requires 0 <= i < |s| => Contact(s[i].index, s[i].start, s[i].last))
  }

  /** The one action a finished group stands for. */
  function GroupAction(recordedAt: int, group: seq<Gesture>): Action
    requires group != []
  {
    var sorted := SortByIndex(group);
    var offset := NonNegative(Millis(Earliest(group) - recordedAt));
    var duration := NonNegative(Millis(Latest(group) - Earliest(group)));
    if |group| > 1 then
      MultiTouch(offset, if duration == 0 then 1 else duration, ContactsOf(sorted))
    else
      var g := group[0];
      if SquaredDistance(g.last, g.start) <= 0.0004 then
        if duration >= LONG_PRESS_MILLIS then LongPress(offset, duration, g.start) else Tap(offset, 0, g.start)
      else
        Swipe(offset, if duration == 0 then 1 else duration, g.start, g.last)
  }

  function FeedStep(n: Norm, e: Touch): (Norm, seq<Action>) {
    if e.index < 0 || e.index > 9 then (n, [])
    else
      match e.operation
      case Down =>
        (n.(gestures := n.gestures[e.index := Gesture(e.index, e.at, e.at, e.At(), e.At())],
            completed := if n.gestures == map[] then [] else n.completed), [])
      case Move =>
        if e.index !in n.gestures then (n, [])
        else (n.(gestures := n.gestures[e.index := n.gestures[e.index].(last := e.At())]), [])
      case Up =>
        if e.index !in n.gestures then (n, [])
        else
          var group := n.completed + [n.gestures[e.index].(last := e.At(), ended := e.at)];
          var left := n.gestures - {e.index};
          if left != map[] then (n.(gestures := left, completed := group), [])
          else (n.(gestures := left, completed := SortByIndex(group)), [GroupAction(n.recordedAt, group)])
  }

  class Normalizer {
    const recordedAt: int
    var gestures: map<int, Gesture>
    var completed: seq<Gesture>

    ghost function View(): Norm
      reads this
    {
      Norm(recordedAt, gestures, completed)
    }

    constructor (recordedAt: int)
      ensures View() == Norm(recordedAt, map[], [])
    {
      this.recordedAt, gestures, completed := recordedAt, map[], [];
    }

    method Feed(e: Touch) returns (actions: seq<Action>)
      modifies this
      ensures (View(), actions) == FeedStep(old(View()), e)
    {
      if e.index < 0 || e.index > 9 { return []; }
      var point := e.At();
      match e.operation
      case Down =>
        if |gestures| == 0 { completed := []; }
        gestures := gestures[e.index := Gesture(e.index, e.at, e.at, point, point)];
        return [];
      case Move =>
        if e.index in gestures {
          gestures := gestures[e.index := gestures[e.index].(last := point)];
        }
        return [];
      case Up =>
        if e.index !in gestures { return []; }
        var current := gestures[e.index];
        gestures := gestures - {e.index};
        completed := completed + [current.(last := point, ended := e.at)];
        if |gestures| != 0 { return []; }
        actions := Finish();
    }

    method Finish() returns (actions: seq<Action>)
      requires completed != []
      modifies this`completed
      ensures completed == SortByIndex(old(completed))
      ensures actions == [GroupAction(recordedAt, old(completed))]
    {
      ghost var group := completed;
      completed := SortByIndex(completed);
      var earliest, latest := Span(completed);
      SpanSurvivesSorting(group, completed);
      var offset := NonNegative(Millis(earliest - recordedAt));
      var duration := NonNegative(Millis(latest - earliest));
      if |completed| > 1 {
        var contacts := CollectContacts(completed);
        if duration == 0 { duration := 1; }
        return [MultiTouch(offset, duration, contacts)];
      }
      var item := completed[0];
      assert item == group[0];
      if SquaredDistance(item.last, item.start) <= 0.0004 {
        if duration >= LONG_PRESS_MILLIS { return [LongPress(offset, duration, item.start)]; }
        return [Tap(offset, 0, item.start)];
      }
      if duration == 0 { duration := 1; }
      return [Swipe(offset, duration, item.start, item.last)];
    }
  }

  lemma SpanSurvivesSorting(group: seq<Gesture>, sorted: seq<Gesture>)
    requires group != [] && sorted != [] && multiset(group) == multiset(sorted)
    ensures Earliest(sorted) == Earliest(group) && Latest(sorted) == Latest(group)
  {
    assert forall g :: g in group <==> g in multiset(group);
    assert forall g :: g in sorted <==> g in multiset(sorted);
  }

  method CollectContacts(group: seq<Gesture>) returns (contacts: seq<Contact>)
    ensures contacts == ContactsOf(group)
  {
    contacts := [];
    for i := 0 to |group|
      invariant contacts == ContactsOf(group[..i])
    {
      contacts := contacts + [Contact(group[i].index, group[i].start, group[i].last)];
    }
    assert group[..|group|] == group;
  }

  method Span(group: seq<Gesture>) returns (earliest: int, latest: int)
    requires group != []
    ensures earliest == Earliest(group) && latest == Latest(group)
  {
    earliest, latest := group[0].started, group[0].ended;
    for i := 1 to |group|
      invariant earliest in (set k | 0 <= k < i :: group[k].started)
      invariant latest in (set k | 0 <= k < i :: group[k].ended)
      invariant forall k :: 0 <= k < i ==> earliest <= group[k].started && group[k].ended <= latest
    {
      if group[i].started < earliest { earliest := group[i].started; }
      if group[i].ended > latest { latest := group[i].ended; }
    }
  }
}
