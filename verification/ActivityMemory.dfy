/** The persisted table of the activities each action has reached: how it is
    counted, saved in a fixed order, and read back. */
module ActivityMemory {

  const MAX_REMEMBERED_ACTIONS := 4096
  const MAX_REMEMBERED_TARGETS := 48
  const BACKTRACK := "backtrack"

  type Targets = map<string, nat>
  type Table = map<string, Targets>

  /** A non-empty name with a positive count for every target, and at least one
      target for every action. */
  predicate CanonicalTargets(targets: Targets) {
    targets != map[] && forall a :: a in targets ==> a != "" && targets[a] > 0
  }

  predicate Canonical(table: Table) {
    forall k :: k in table ==> k != "" && CanonicalTargets(table[k])
  }

  predicate Bounded(table: Table) {
    && |table| <= MAX_REMEMBERED_ACTIONS
    && forall k :: k in table ==> |table[k]| <= MAX_REMEMBERED_TARGETS
  }

  function Count(table: Table, key: string, activity: string): nat {
    if key in table && activity in table[key] then table[key][activity] else 0
  }

  // ----- Counting ------------------------------------------------------------

  predicate Notable(key: string, activity: string) {
    key != "" && activity != "" && key != BACKTRACK
  }

  /** No room for the pair: its action is new in a full table, or its target is
      new among a full set of targets. */
  predicate Refused(table: Table, key: string, activity: string) {
    if key !in table then |table| >= MAX_REMEMBERED_ACTIONS
    else activity !in table[key] && |table[key]| >= MAX_REMEMBERED_TARGETS
  }

  function Noted(table: Table, key: string, activity: string): Table {
    if !Notable(key, activity) || Refused(table, key, activity) then table
    else
      var targets := if key in table then table[key] else map[];
      table[key := targets[activity := Count(table, key, activity) + 1]]
  }

  datatype Arrival = Arrival(key: string, activity: string)

  function NotedAll(table: Table, arrivals: seq<Arrival>): Table {
    if arrivals == [] then table
    else
      var last := arrivals[|arrivals| - 1];
      Noted(NotedAll(table, arrivals[..|arrivals| - 1]), last.key, last.activity)
  }

  lemma GrownTargets(targets: Targets, activity: string, count: nat)
    requires targets == map[] || CanonicalTargets(targets)
    requires activity != "" && count > 0
    ensures CanonicalTargets(targets[activity := count])
    ensures |targets[activity := count]| == |targets| + (if activity in targets then 0 else 1)
  {
    var grown := targets[activity := count];
    assert activity in grown;
    assert grown.Keys == targets.Keys + {activity};
  }

  lemma GrownTable(table: Table, key: string, targets: Targets)
    requires Canonical(table) && Bounded(table) && key != "" && CanonicalTargets(targets)
    requires |targets| <= MAX_REMEMBERED_TARGETS && (key in table || |table| < MAX_REMEMBERED_ACTIONS)
    ensures Canonical(table[key := targets]) && Bounded(table[key := targets])
  {
    assert table[key := targets].Keys == table.Keys + {key};
  }

  lemma NotedKeepsShape(table: Table, key: string, activity: string)
    requires Canonical(table) && Bounded(table)
    ensures Canonical(Noted(table, key, activity)) && Bounded(Noted(table, key, activity))
  {
    if Notable(key, activity) && !Refused(table, key, activity) {
      var targets := if key in table then table[key] else map[];
      GrownTargets(targets, activity, Count(table, key, activity) + 1);
      GrownTable(table, key, targets[activity := Count(table, key, activity) + 1]);
    }
  }

  lemma {:induction false} NotedAllKeepsShape(table: Table, arrivals: seq<Arrival>)
    requires Canonical(table) && Bounded(table)
    ensures Canonical(NotedAll(table, arrivals)) && Bounded(NotedAll(table, arrivals))
  {
    if arrivals != [] {
      var init, last := arrivals[..|arrivals| - 1], arrivals[|arrivals| - 1];
      NotedAllKeepsShape(table, init);
      NotedKeepsShape(NotedAll(table, init), last.key, last.activity);
    }
  }

  /** Only the noted pair's count changes. */
  lemma NotedCount(table: Table, key: string, activity: string, k: string, a: string)
    ensures Count(Noted(table, key, activity), k, a)
         == Count(table, k, a)
            + (if Arrival(k, a) == Arrival(key, activity) && Notable(k, a) && !Refused(table, k, a) then 1 else 0)
  {
  }

  /** A pair that is refused once is refused from then on. */
  lemma RefusalIsFinal(table: Table, key: string, activity: string, k: string, a: string)
    requires Refused(table, k, a)
    ensures Refused(Noted(table, key, activity), k, a)
  {
    if Notable(key, activity) && !Refused(table, key, activity) {
      var targets := if key in table then table[key] else map[];
      var grown := targets[activity := Count(table, key, activity) + 1];
      assert grown.Keys == targets.Keys + {activity};
      assert Noted(table, key, activity).Keys == table.Keys + {key};
      assert targets.Keys <= grown.Keys && table.Keys <= Noted(table, key, activity).Keys;
      SizeGrows(targets.Keys, grown.Keys);
      SizeGrows(table.Keys, Noted(table, key, activity).Keys);
      if key == k { assert a in targets || a != activity || !Refused(table, k, a); }
    }
  }

  lemma SizeGrows(s: set<string>, t: set<string>)
    requires s <= t
    ensures |s| <= |t|
  {
    assert t == s + (t - s);
  }

  /** There is no room left: 4096 other actions, or 48 other targets of this one. */
  predicate Full(table: Table, k: string, a: string) {
    if k in table then a !in table[k] && |table[k]| >= 48 else |table| >= 4096
  }

  /** Over any run, a pair is counted exactly or not at all; returns and nameless
      pairs never are, and any other is missing only when it still finds no room. */
  lemma {:induction false} CountedExactlyOrRefused(arrivals: seq<Arrival>, k: string, a: string)
    ensures var table, seen := NotedAll(map[], arrivals), multiset(arrivals)[Arrival(k, a)];
            if k == "" || a == "" || k == "backtrack" then Count(table, k, a) == 0
            else Count(table, k, a) == seen || (Count(table, k, a) == 0 && Full(table, k, a))
  {
    if arrivals != [] {
      var init, last := arrivals[..|arrivals| - 1], arrivals[|arrivals| - 1];
      CountedExactlyOrRefused(init, k, a);
      assert arrivals == init + [last];
      var before := NotedAll(map[], init);
      NotedCount(before, last.key, last.activity, k, a);
      if Refused(before, k, a) { RefusalIsFinal(before, last.key, last.activity, k, a); }
    }
  }

  // ----- The order names are saved in ------------------------------------------

  predicate Less(a: string, b: string) {
    b != [] && (a == [] || a[0] < b[0] || (a[0] == b[0] && Less(a[1..], b[1..])))
  }

  lemma {:induction false} LessIsTotal(a: string, b: string)
    ensures a == b || Less(a, b) || Less(b, a)
    ensures !(Less(a, b) && Less(b, a))
    ensures a == b ==> !Less(a, b)
  {
    if a != [] && b != [] && a[0] == b[0] {
      LessIsTotal(a[1..], b[1..]);
      assert a == [a[0]] + a[1..] && b == [b[0]] + b[1..];
    }
  }

  lemma {:induction false} LessIsTransitive(a: string, b: string, c: string)
    requires Less(a, b) && Less(b, c)
    ensures Less(a, c)
  {
    if a != [] && a[0] == b[0] == c[0] { LessIsTransitive(a[1..], b[1..], c[1..]); }
  }

  predicate Ascending(s: seq<string>) {
    forall i, j :: 0 <= i < j < |s| ==> Less(s[i], s[j])
  }

  /** The order leaves one way to list a set of names. */
  lemma {:induction false} AscendingIsUnique(s: seq<string>, t: seq<string>)
    requires Ascending(s) && Ascending(t)
    requires forall x :: x in s <==> x in t
    ensures s == t
  {
    if t != [] { assert t[0] in s; }
    if s != [] {
      assert s[0] in t;
      assert t[0] in s;
      FirstIsLeast(s, t[0]);
      FirstIsLeast(t, s[0]);
      LessIsTotal(s[0], t[0]);
      forall x ensures x in s[1..] <==> x in t[1..] {
        InTail(s, x);
        InTail(t, x);
      }
      AscendingIsUnique(s[1..], t[1..]);
      assert s == [s[0]] + s[1..] && t == [t[0]] + t[1..];
    }
  }

  lemma FirstIsLeast(s: seq<string>, x: string)
    requires Ascending(s) && x in s
    ensures s[0] == x || Less(s[0], x)
  {
    var i :| 0 <= i < |s| && s[i] == x;
  }

  lemma InTail(s: seq<string>, x: string)
    requires Ascending(s) && s != []
    ensures x in s[1..] <==> x in s && x != s[0]
  {
    if x in s[1..] {
      var i :| 0 <= i < |s| - 1 && s[1..][i] == x;
      assert s[i + 1] == x && Less(s[0], s[i + 1]);
      LessIsTotal(s[0], x);
    }
    if x in s && x != s[0] {
      var i :| 0 <= i < |s| && s[i] == x;
      assert s[1..][i - 1] == x;
    }
  }

  function InsertName(s: seq<string>, x: string): (r: seq<string>)
    ensures forall y :: y in r <==> y in s || y == x
  {
    if s == [] || Less(s[|s| - 1], x) then s + [x]
    else
      assert s == s[..|s| - 1] + [s[|s| - 1]];
      InsertName(s[..|s| - 1], x) + [s[|s| - 1]]
  }

  /** sort.Strings */
  function SortNames(s: seq<string>): (r: seq<string>)
    ensures forall y :: y in r <==> y in s
  {
    if s == [] then []
    else
      assert s == s[..|s| - 1] + [s[|s| - 1]];
      InsertName(SortNames(s[..|s| - 1]), s[|s| - 1])
  }

  lemma {:induction false} InsertKeepsAscending(s: seq<string>, x: string)
    requires Ascending(s) && x !in s
    ensures Ascending(InsertName(s, x))
  {
    if s != [] {
      var init, last := s[..|s| - 1], s[|s| - 1];
      LessIsTotal(last, x);
      if Less(last, x) {
        forall i | 0 <= i < |s| ensures Less(s[i], x) {
          if i < |s| - 1 { LessIsTransitive(s[i], last, x); }
        }
      } else {
        InsertKeepsAscending(init, x);
        var r := InsertName(init, x);
        forall i | 0 <= i < |r| ensures Less(r[i], last) {
          assert r[i] in r;
          if r[i] in init {
            var j :| 0 <= j < |init| && init[j] == r[i];
            assert s[j] == r[i];
          }
        }
      }
    }
  }

  lemma {:induction false} SortIsAscending(s: seq<string>)
    requires forall i, j :: 0 <= i < j < |s| ==> s[i] != s[j]
    ensures Ascending(SortNames(s))
  {
    if s != [] {
      SortIsAscending(s[..|s| - 1]);
      InsertKeepsAscending(SortNames(s[..|s| - 1]), s[|s| - 1]);
    }
  }

  // ----- The saved form --------------------------------------------------------

  datatype SavedTarget = SavedTarget(activity: string, count: int)
  datatype SavedAction = SavedAction(key: string, targets: seq<SavedTarget>)

  function TargetNames(saved: seq<SavedTarget>): (r: seq<string>)
    ensures |r| == |saved| && forall i :: 0 <= i < |r| ==> r[i] == saved[i].activity
  {
    seq(|saved|, i requires 0 <= i < |saved| => saved[i].activity)
  }

  function ActionNames(saved: seq<SavedAction>): (r: seq<string>)
    ensures |r| == |saved| && forall i :: 0 <= i < |r| ==> r[i] == saved[i].key
  {
    seq(|saved|, i requires 0 <= i < |saved| => saved[i].key)
  }

  ghost predicate SavesTargets(targets: Targets, saved: seq<SavedTarget>) {
    && Ascending(TargetNames(saved))
    && (forall a :: a in targets <==> a in TargetNames(saved))
    && (forall i :: 0 <= i < |saved| ==> saved[i].activity in targets && saved[i].count == targets[saved[i].activity])
  }

  ghost predicate SavesTable(table: Table, saved: seq<SavedAction>) {
    && Ascending(ActionNames(saved))
    && (forall k :: k in table <==> k in ActionNames(saved))
    && (forall i :: 0 <= i < |saved| ==> saved[i].key in table && SavesTargets(table[saved[i].key], saved[i].targets))
  }

  /** Equal tables are saved alike, whatever order the maps are walked in. */
  lemma SavedFormIsUnique(table: Table, s: seq<SavedAction>, t: seq<SavedAction>)
    requires SavesTable(table, s) && SavesTable(table, t)
    ensures s == t
  {
    AscendingIsUnique(ActionNames(s), ActionNames(t));
    forall i | 0 <= i < |s| ensures s[i] == t[i] {
      assert ActionNames(s)[i] == ActionNames(t)[i];
      SavedTargetsAreUnique(table[s[i].key], s[i].targets, t[i].targets);
    }
  }

  lemma SavedTargetsAreUnique(targets: Targets, s: seq<SavedTarget>, t: seq<SavedTarget>)
    requires SavesTargets(targets, s) && SavesTargets(targets, t)
    ensures s == t
  {
    AscendingIsUnique(TargetNames(s), TargetNames(t));
    forall i | 0 <= i < |s| ensures s[i] == t[i] {
      assert TargetNames(s)[i] == TargetNames(t)[i];
    }
  }

  function ReadTargets(saved: seq<SavedTarget>): Targets {
    if saved == [] then map[]
    else
      var before, t := ReadTargets(saved[..|saved| - 1]), saved[|saved| - 1];
      if t.activity == "" || t.count <= 0 then before
      else before[t.activity := (if t.activity in before then before[t.activity] else 0) + t.count]
  }

  function ReadTable(saved: seq<SavedAction>): Table {
    if saved == [] then map[]
    else
      var before, action := ReadTable(saved[..|saved| - 1]), saved[|saved| - 1];
      if action.key == "" || ReadTargets(action.targets) == map[] then before
      else before[action.key := ReadTargets(action.targets)]
  }

  lemma {:induction false} ReadTargetsArePositive(saved: seq<SavedTarget>)
    ensures forall a :: a in ReadTargets(saved) ==> a != "" && ReadTargets(saved)[a] > 0
  {
    if saved != [] { ReadTargetsArePositive(saved[..|saved| - 1]); }
  }

  /** Whatever the file holds, what is read is a table of positive counts. */
  lemma {:induction false} ReadTableIsCanonical(saved: seq<SavedAction>)
    ensures Canonical(ReadTable(saved))
  {
    if saved != [] {
      ReadTableIsCanonical(saved[..|saved| - 1]);
      ReadTargetsArePositive(saved[|saved| - 1].targets);
    }
  }

  lemma {:induction false} ReadDistinctTargets(saved: seq<SavedTarget>)
    requires forall i, j :: 0 <= i < j < |saved| ==> saved[i].activity != saved[j].activity
    requires forall i :: 0 <= i < |saved| ==> saved[i].activity != "" && saved[i].count > 0
    ensures forall a :: a in ReadTargets(saved) <==> a in TargetNames(saved)
    ensures forall i :: 0 <= i < |saved| ==>
                          saved[i].activity in ReadTargets(saved) && ReadTargets(saved)[saved[i].activity] == saved[i].count
  {
    if saved != [] {
      var init, t := saved[..|saved| - 1], saved[|saved| - 1];
      ReadDistinctTargets(init);
      assert TargetNames(saved) == TargetNames(init) + [t.activity];
    }
  }

  lemma ReadInvertsSavedTargets(targets: Targets, saved: seq<SavedTarget>)
    requires CanonicalTargets(targets) && SavesTargets(targets, saved)
    ensures ReadTargets(saved) == targets
  {
    var names := TargetNames(saved);
    forall i, j | 0 <= i < j < |saved| ensures saved[i].activity != saved[j].activity {
      assert Less(names[i], names[j]);
      LessIsTotal(names[i], names[j]);
    }
    ReadDistinctTargets(saved);
    forall a | a in targets ensures ReadTargets(saved)[a] == targets[a] {
      var i :| 0 <= i < |names| && names[i] == a;
      assert saved[i].activity == a;
    }
  }

  lemma {:induction false} ReadDistinctActions(table: Table, saved: seq<SavedAction>)
    requires forall i, j :: 0 <= i < j < |saved| ==> saved[i].key != saved[j].key
    requires forall i :: 0 <= i < |saved| ==>
                           saved[i].key != "" && saved[i].key in table && table[saved[i].key] != map[]
                           && ReadTargets(saved[i].targets) == table[saved[i].key]
    ensures forall k :: k in ReadTable(saved) <==> k in ActionNames(saved)
    ensures forall k :: k in ReadTable(saved) ==> k in table && ReadTable(saved)[k] == table[k]
  {
    if saved != [] {
      var init, action := saved[..|saved| - 1], saved[|saved| - 1];
      ReadDistinctActions(table, init);
      assert ActionNames(saved) == ActionNames(init) + [action.key];
    }
  }

  /** Saving and reading back gives the same table. */
  lemma ReadInvertsSave(table: Table, saved: seq<SavedAction>)
    requires Canonical(table) && SavesTable(table, saved)
    ensures ReadTable(saved) == table
  {
    var names := ActionNames(saved);
    forall i, j | 0 <= i < j < |saved| ensures saved[i].key != saved[j].key {
      assert Less(names[i], names[j]);
      LessIsTotal(names[i], names[j]);
    }
    forall i | 0 <= i < |saved| ensures ReadTargets(saved[i].targets) == table[saved[i].key] {
      ReadInvertsSavedTargets(table[saved[i].key], saved[i].targets);
    }
    ReadDistinctActions(table, saved);
  }

  // ----- Shares of counts --------------------------------------------------------

  /** The counts of the targets that are not visited. */
  ghost function Total(targets: Targets, visited: set<string>): nat {
    if targets == map[] then 0
    else
      var a :| a in targets;
      (if a in visited then 0 else targets[a]) + Total(targets - {a}, visited)
  }

  lemma {:induction false} TotalWithout(targets: Targets, visited: set<string>, b: string)
    requires b in targets
    ensures Total(targets, visited) == (if b in visited then 0 else targets[b]) + Total(targets - {b}, visited)
    decreases |targets|
  {
    var a :| a in targets
      && Total(targets, visited) == (if a in visited then 0 else targets[a]) + Total(targets - {a}, visited);
    if a != b {
      TotalWithout(targets - {a}, visited, b);
      TotalWithout(targets - {b}, visited, a);
      assert targets - {a} - {b} == targets - {b} - {a};
    }
  }

  /** The unvisited share lies between nothing and everything, and meets the
      ends exactly when everything or nothing is visited. */
  lemma {:induction false} TotalBounds(targets: Targets, visited: set<string>)
    requires forall a :: a in targets ==> targets[a] > 0
    ensures Total(targets, visited) <= Total(targets, {})
    ensures Total(targets, visited) == 0 <==> targets.Keys <= visited
    ensures Total(targets, visited) == Total(targets, {}) <==> targets.Keys !! visited
    decreases |targets|
  {
    if targets != map[] {
      var a :| a in targets;
      TotalWithout(targets, visited, a);
      TotalWithout(targets, {}, a);
      TotalBounds(targets - {a}, visited);
      assert targets.Keys == (targets - {a}).Keys + {a};
    }
  }

  // ----- The class -----------------------------------------------------------------

  /** What the file of one package and version holds. */
  datatype File = Missing | Unreadable | Parsed(schemaMatches: bool, package: string, version: int, actions: seq<SavedAction>)

  class Memory {
    const package: string
    const version: int
    var persistent: bool   // a path to save to
    var corrupt: bool
    var actions: Table

    /** loadActivityMemory; `addressable` is whether root, package and version
        give a path at all. */
    constructor (addressable: bool, package: string, version: int, file: File)
      ensures this.package == package && this.version == version && Canonical(actions)
      ensures var usable := file.Parsed? && file.schemaMatches && file.package == package && file.version == version;
              && (actions == if addressable && usable then ReadTable(file.actions) else map[])
              && (corrupt <==> addressable && !file.Missing? && !usable)
              && (persistent <==> addressable && !corrupt)
    {
      this.package, this.version := package, version;
      persistent, corrupt, actions := addressable, false, map[];
      new;
      if addressable && !file.Missing? {
        if file.Unreadable? || !file.schemaMatches || file.package != package || file.version != version {
          corrupt, persistent := true, false;
        } else {
          var read := Read(file.actions);
          ReadTableIsCanonical(file.actions);
          actions := read;
        }
      }
    }

    static method Read(saved: seq<SavedAction>) returns (table: Table)
      ensures table == ReadTable(saved)
    {
      table := map[];
      for i := 0 to |saved|
        invariant table == ReadTable(saved[..i])
      {
        assert saved[..i + 1][..i] == saved[..i];
        var action := saved[i];
        if action.key == "" { continue; }
        var targets := ReadOne(action.targets);
        if |targets| > 0 { table := table[action.key := targets]; }
      }
      assert saved[..|saved|] == saved;
    }

    static method ReadOne(saved: seq<SavedTarget>) returns (targets: Targets)
      ensures targets == ReadTargets(saved)
    {
      targets := map[];
      for i := 0 to |saved|
        invariant targets == ReadTargets(saved[..i])
      {
        assert saved[..i + 1][..i] == saved[..i];
        var t := saved[i];
        if t.activity == "" || t.count <= 0 { continue; }
        var known := if t.activity in targets then targets[t.activity] else 0;
        targets := targets[t.activity := known + t.count];
      }
      assert saved[..|saved|] == saved;
    }

    method Note(key: string, activity: string)
      modifies this`actions
      ensures actions == Noted(old(actions), key, activity)
    {
      if key == "" || activity == "" || key == BACKTRACK { return; }
      var targets: Targets := map[];
      if key in actions {
        targets := actions[key];
      } else if |actions| >= MAX_REMEMBERED_ACTIONS {
        return;
      }
      if activity !in targets && |targets| >= MAX_REMEMBERED_TARGETS { return; }
      var count := if activity in targets then targets[activity] else 0;
      actions := actions[key := targets[activity := count + 1]];
    }

    /** The names of a set, walked in any order and then sorted. */
    static method Listed(names: set<string>) returns (s: seq<string>)
      ensures Ascending(s) && forall x :: x in s <==> x in names
    {
      var rest, walked := names, [];
      while rest != {}
        invariant forall x :: x in names <==> x in rest || x in walked
        invariant forall x :: x in walked ==> x !in rest
        invariant forall i, j :: 0 <= i < j < |walked| ==> walked[i] != walked[j]
        decreases |rest|
      {
        var x :| x in rest;
        rest, walked := rest - {x}, walked + [x];
      }
      SortIsAscending(walked);
      s := SortNames(walked);
    }

    static method SaveTargets(targets: Targets) returns (saved: seq<SavedTarget>)
      ensures SavesTargets(targets, saved)
    {
      var names := Listed(targets.Keys);
      saved := [];
      for i := 0 to |names|
        invariant TargetNames(saved) == names[..i]
        invariant forall j :: 0 <= j < |saved| ==>
                                saved[j].activity in targets && saved[j].count == targets[saved[j].activity]
      {
        assert names[i] in targets.Keys;
        ghost var before := saved;
        saved := saved + [SavedTarget(names[i], targets[names[i]])];
        assert TargetNames(saved) == TargetNames(before) + [names[i]];
      }
      assert names[..|names|] == names;
    }

    static method SaveTable(table: Table) returns (saved: seq<SavedAction>)
      ensures SavesTable(table, saved)
    {
      var names := Listed(table.Keys);
      saved := [];
      for i := 0 to |names|
        invariant ActionNames(saved) == names[..i]
        invariant forall j :: 0 <= j < |saved| ==>
                                saved[j].key in table && SavesTargets(table[saved[j].key], saved[j].targets)
      {
        assert names[i] in table.Keys;
        ghost var before := saved;
        var targets := SaveTargets(table[names[i]]);
        saved := saved + [SavedAction(names[i], targets)];
        assert ActionNames(saved) == ActionNames(before) + [names[i]];
      }
      assert names[..|names|] == names;
    }

    /** save: the file afterwards. A memory that found a corrupt file leaves it
        as it was. */
    method Save(file: File) returns (after: File)
      requires Canonical(actions)
      ensures !persistent || corrupt ==> after == file
      ensures persistent && !corrupt ==>
                && after.Parsed? && after.schemaMatches && after.package == package && after.version == version
                && SavesTable(actions, after.actions) && ReadTable(after.actions) == actions
    {
      if !persistent || corrupt { return file; }
      var saved := SaveTable(actions);
      ReadInvertsSave(actions, saved);
      after := Parsed(true, package, version, saved);
    }

    /** unseenFraction: whether the action is known, and the share of its
        arrivals that went to places not visited now. */
    method UnseenFraction(key: string, visited: set<string>) returns (known: bool, share: real)
      requires Canonical(actions)
      ensures known <==> key in actions
      ensures 0.0 <= share <= 1.0
      ensures !known ==> share == 0.0
      ensures known ==> (share == 0.0 <==> actions[key].Keys <= visited)
      ensures known ==> (share == 1.0 <==> actions[key].Keys !! visited)
      ensures known ==> share * (Total(actions[key], {}) as real) == Total(actions[key], visited) as real
    {
      if key == "" || key !in actions { return false, 0.0; }
      var targets := actions[key];
      var total, unseen := Totals(targets, visited);
      TotalBounds(targets, visited);
      TotalBounds(targets, {});
      known, share := true, Share(unseen, total);
    }
  }

  method Totals(targets: Targets, visited: set<string>) returns (total: nat, unseen: nat)
    ensures total == Total(targets, {}) && unseen == Total(targets, visited)
  {
    var rest := targets;
    total, unseen := 0, 0;
    while rest.Keys != {}
      invariant total + Total(rest, {}) == Total(targets, {})
      invariant unseen + Total(rest, visited) == Total(targets, visited)
      decreases |rest|
    {
      var a :| a in rest.Keys;
      TotalWithout(rest, {}, a);
      TotalWithout(rest, visited, a);
      total := total + rest[a];
      if a !in visited { unseen := unseen + rest[a]; }
      rest := rest - {a};
    }
    assert rest == map[];
  }

  function Share(part: nat, whole: nat): (r: real)
    requires part <= whole && 0 < whole
    ensures 0.0 <= r <= 1.0
    ensures r * (whole as real) == part as real
    ensures r == 0.0 <==> part == 0
    ensures r == 1.0 <==> part == whole
  {
    part as real / whole as real
  }
}
