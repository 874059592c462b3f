/** Grouping log observations into incidents: one pass merges observations of
    the same occurrence, a second pass counts occurrences by fingerprint. */
module IncidentAggregation {
  import opened Options

  const SAME_SUMMARY_GAP := 2_000_000_000   // nanoseconds
  const PAIRED_LINES_GAP := 500_000_000

  datatype Observation = Observation(kind: string, pid: int, summary: string, source: string, time: Option<int>)

  /** What is read off the text of observations. */
  datatype Rules = Rules(
    paired: (string, string, string) -> bool,   // kind and two summaries: two lines of one crash
    rank: string -> int,                        // how telling a summary is
    fingerprint: (string, string) -> string)    // kind and normalized summary, before hashing

  const EXIT_INFO := "exit_info"

  /** An occurrence under construction, and the positions of the observations
      it is made of. The source keeps no such list: it is what lets the lemmas
      say where each observation went. */
  datatype Occurrence = Occurrence(
    kind: string, pid: int, summary: string, source: string, first: Option<int>, time: Option<int>,
    sources: seq<string>, members: seq<nat>)

  datatype Incident = Incident(
    fingerprint: string, kind: string, summary: string, occurrences: nat,
    sources: seq<string>, first: Option<int>, last: Option<int>)

  // ----- Ordering ------------------------------------------------------------

  /** The comparison of the stable sort: timed observations by time, then the
      untimed ones in the order they came. */
  predicate Before(a: Observation, b: Observation) {
    a.time.Some? && (b.time.None? || a.time.value < b.time.value)
  }

  predicate Ordered(s: seq<Observation>) {
    forall i, j :: 0 <= i < j < |s| ==> !Before(s[j], s[i])
  }

  function Insert(s: seq<Observation>, x: Observation): (r: seq<Observation>)
    ensures multiset(r) == multiset(s) + multiset{x}
  {
    if s == [] || !Before(x, s[|s| - 1]) then s + [x]
    else
      assert s == s[..|s| - 1] + [s[|s| - 1]];
      Insert(s[..|s| - 1], x) + [s[|s| - 1]]
  }

  /** sort.SliceStable */
  function Sorted(s: seq<Observation>): (r: seq<Observation>)
    ensures multiset(r) == multiset(s)
  {
    if s == [] then []
    else
      assert s == s[..|s| - 1] + [s[|s| - 1]];
      Insert(Sorted(s[..|s| - 1]), s[|s| - 1])
  }

  lemma InsertMembers(s: seq<Observation>, x: Observation, y: Observation)
    requires y in Insert(s, x)
    ensures y in s || y == x
  {
    assert y in multiset(s) + multiset{x};
  }

  lemma {:induction false} InsertKeepsOrder(s: seq<Observation>, x: Observation)
    requires Ordered(s)
    ensures Ordered(Insert(s, x))
    decreases |s|
  {
    if s != [] && Before(x, s[|s| - 1]) {
      var init, last := s[..|s| - 1], s[|s| - 1];
      InsertKeepsOrder(init, x);
      var r := Insert(init, x);
      forall i | 0 <= i < |r| ensures !Before(last, r[i]) {
        InsertMembers(init, x, r[i]);
        if r[i] != x {
          var k :| 0 <= k < |init| && init[k] == r[i];
          assert s[k] == r[i];
        }
      }
    } else if s != [] {
      forall i | 0 <= i < |s| ensures !Before(x, s[i]) {
        assert !Before(s[|s| - 1], s[i]) || i == |s| - 1;
      }
    }
  }

  lemma SortedIsOrdered(s: seq<Observation>)
    ensures Ordered(Sorted(s))
  {
    if s != [] {
      SortedIsOrdered(s[..|s| - 1]);
      InsertKeepsOrder(Sorted(s[..|s| - 1]), s[|s| - 1]);
    }
  }

  // ----- Merging -------------------------------------------------------------

  predicate SameOccurrence(rules: Rules, c: Occurrence, o: Observation, delta: int) {
    if c.summary == o.summary || c.source == EXIT_INFO || o.source == EXIT_INFO then delta <= SAME_SUMMARY_GAP
    else delta <= PAIRED_LINES_GAP && rules.paired(c.kind, c.summary, o.summary)
  }

  predicate Comparable(c: Occurrence, o: Observation) {
    c.kind == o.kind && (c.pid == o.pid || c.pid == 0 || o.pid == 0)
  }

  /** Whether the first comparable occurrence takes the observation in. */
  predicate Takes(rules: Rules, c: Occurrence, o: Observation) {
    if c.time.Some? && o.time.Some? then
      c.time.value <= o.time.value && SameOccurrence(rules, c, o, o.time.value - c.time.value)
    else c.summary == o.summary
  }

  function AppendUnique(values: seq<string>, addition: string): (r: seq<string>)
    ensures forall v :: v in r <==> v in values || (v == addition && v != "")
  {
    if addition == "" || addition in values then values else values + [addition]
  }

  function Merge(rules: Rules, c: Occurrence, o: Observation, index: nat): Occurrence {
    var sources := AppendUnique(AppendUnique(c.sources, c.source), o.source);
    var better := rules.rank(o.summary) > rules.rank(c.summary);
    var later := o.time.Some? && (c.time.None? || o.time.value > c.time.value);
    Occurrence(
      c.kind, if c.pid == 0 then o.pid else c.pid,
      if better then o.summary else c.summary, if better then o.source else c.source,
      c.first, if later then o.time else c.time, sources, c.members + [index])
  }

  function Fresh(o: Observation, index: nat): Occurrence {
    Occurrence(o.kind, o.pid, o.summary, o.source, o.time, o.time, AppendUnique([], o.source), [index])
  }

  // ----- What an occurrence is -----------------------------------------------

  /** The observations an occurrence is made of. */
  function Picked(obs: seq<Observation>, members: seq<nat>): (r: seq<Observation>)
    requires forall k :: 0 <= k < |members| ==> members[k] < |obs|
    ensures |r| == |members| && forall k :: 0 <= k < |r| ==> r[k] == obs[members[k]]
  {
    seq(|members|, k requires 0 <= k < |members| => obs[members[k]])
  }

  /** They share its kind and have at most one process id between them. */
  predicate OneProcess(c: Occurrence, reports: seq<Observation>) {
    forall r :: r in reports ==> r.kind == c.kind && (r.pid == 0 || r.pid == c.pid)
  }

  /** The timed ones come first; its time is the last of theirs. */
  predicate Timed(c: Occurrence, reports: seq<Observation>) {
    && reports != []
    && c.first == reports[0].time
    && (forall r :: r in reports && r.time.Some? ==> c.time.Some? && r.time.value <= c.time.value)
    && (c.time.Some? ==> exists r :: r in reports && r.time == c.time)
  }

  predicate CloseTimes(a: Option<int>, b: Option<int>) {
    a.Some? && b.Some? ==> 0 <= b.value - a.value <= SAME_SUMMARY_GAP
  }

  /** Neighbours in time are at most two seconds apart. */
  predicate Close(reports: seq<Observation>) {
    forall k :: 0 < k < |reports| ==> CloseTimes(reports[k - 1].time, reports[k].time)
  }

  /** Its sources are those of its observations. */
  predicate Sourced(c: Occurrence, reports: seq<Observation>) {
    && (forall s :: s in c.sources ==> exists r :: r in reports && r.source == s)
    && (forall r :: r in reports && r.source != "" ==> r.source in c.sources)
    && (c.source != "" ==> c.source in c.sources)
  }

  /** Its kind and summary are those of one of its observations. */
  predicate Told(c: Occurrence, reports: seq<Observation>) {
    exists r :: r in reports && r.summary == c.summary && r.source == c.source
  }

  predicate Increasing(members: seq<nat>, n: nat) {
    && (forall k :: 0 <= k < |members| ==> members[k] < n)
    && (forall k, l :: 0 <= k < l < |members| ==> members[k] < members[l])
  }

  predicate Coherent(c: Occurrence, reports: seq<Observation>) {
    OneProcess(c, reports) && Timed(c, reports) && Close(reports) && Sourced(c, reports) && Told(c, reports)
  }

  /** The last occurrence the observation can be compared with, or -1. */
  function Holder(occurrences: seq<Occurrence>, o: Observation): (k: int)
    ensures -1 <= k < |occurrences|
    ensures k >= 0 ==> Comparable(occurrences[k], o)
    ensures forall j :: k < j < |occurrences| ==> !Comparable(occurrences[j], o)
  {
    if occurrences == [] then -1
    else if Comparable(occurrences[|occurrences| - 1], o) then |occurrences| - 1
    else Holder(occurrences[..|occurrences| - 1], o)
  }

  function Placed(rules: Rules, occurrences: seq<Occurrence>, o: Observation, index: nat): seq<Occurrence> {
    var k := Holder(occurrences, o);
    if k >= 0 && Takes(rules, occurrences[k], o) then occurrences[k := Merge(rules, occurrences[k], o, index)]
    else occurrences + [Fresh(o, index)]
  }

  function Clusters(rules: Rules, obs: seq<Observation>): seq<Occurrence> {
    if obs == [] then []
    else Placed(rules, Clusters(rules, obs[..|obs| - 1]), obs[|obs| - 1], |obs| - 1)
  }

  /** Every observation is a member of exactly one occurrence. */
  ghost predicate Held(i: nat, occurrences: seq<Occurrence>) {
    exists c :: 0 <= c < |occurrences| && i in occurrences[c].members
  }

  ghost predicate Partition(n: nat, occurrences: seq<Occurrence>) {
    && (forall c :: 0 <= c < |occurrences| ==> Increasing(occurrences[c].members, n))
    && (forall i :: 0 <= i < n ==> Held(i, occurrences))
    && (forall c, d :: 0 <= c < d < |occurrences| ==>
          forall m :: m in occurrences[c].members ==> m !in occurrences[d].members)
  }

  ghost predicate Sound(obs: seq<Observation>, occurrences: seq<Occurrence>) {
    forall c :: 0 <= c < |occurrences| ==> SoundOccurrence(obs, occurrences[c])
  }

  ghost predicate SoundOccurrence(obs: seq<Observation>, c: Occurrence) {
    Increasing(c.members, |obs|) && Coherent(c, Picked(obs, c.members))
  }

  lemma SoundGrows(obs: seq<Observation>, o: Observation, c: Occurrence)
    requires SoundOccurrence(obs, c)
    ensures SoundOccurrence(obs + [o], c)
  {
    assert Picked(obs + [o], c.members) == Picked(obs, c.members);
  }

  lemma FreshIsSound(obs: seq<Observation>, o: Observation)
    ensures SoundOccurrence(obs + [o], Fresh(o, |obs|))
  {
    assert Picked(obs + [o], [|obs|]) == [o];
  }

  /** The observation's time is no earlier than that of any report before it. */
  predicate Latest(reports: seq<Observation>, o: Observation) {
    forall r :: r in reports ==> !Before(o, r)
  }

  lemma MergeKeepsProcess(rules: Rules, reports: seq<Observation>, o: Observation, c: Occurrence, index: nat)
    requires OneProcess(c, reports) && Comparable(c, o)
    ensures OneProcess(Merge(rules, c, o, index), reports + [o])
  {
  }

  lemma MergeKeepsTimes(rules: Rules, reports: seq<Observation>, o: Observation, c: Occurrence, index: nat)
    requires Timed(c, reports) && Latest(reports, o)
    ensures Timed(Merge(rules, c, o, index), reports + [o])
  {
    var d := Merge(rules, c, o, index);
    assert o in reports + [o];
    if d.time.Some? && d.time == c.time {
      var r :| r in reports && r.time == c.time;
      assert r in reports + [o];
    }
  }

  lemma MergeKeepsClose(rules: Rules, reports: seq<Observation>, o: Observation, c: Occurrence)
    requires Timed(c, reports) && Close(reports) && Takes(rules, c, o)
    requires Ordered(reports)
    ensures Close(reports + [o])
  {
    var last := |reports| - 1;
    if reports[last].time.Some? {
      var r :| r in reports && r.time == c.time;
      var k :| 0 <= k < |reports| && reports[k] == r;
      assert !Before(reports[last], reports[k]) || k == last;
      assert reports[last].time == c.time;
    }
  }

  lemma MergeKeepsSources(rules: Rules, reports: seq<Observation>, o: Observation, c: Occurrence, index: nat)
    requires Sourced(c, reports) && Told(c, reports)
    ensures Sourced(Merge(rules, c, o, index), reports + [o])
    ensures Told(Merge(rules, c, o, index), reports + [o])
  {
    var d, more := Merge(rules, c, o, index), reports + [o];
    assert o in more;
    forall s | s in d.sources ensures exists r :: r in more && r.source == s {
      if s == o.source {
      } else {
        var r :| r in reports && r.source == s;
        assert r in more;
      }
    }
    var r :| r in reports && r.summary == c.summary && r.source == c.source;
    assert r in more;
  }

  lemma PickedIsOrdered(obs: seq<Observation>, members: seq<nat>, o: Observation)
    requires Ordered(obs + [o]) && Increasing(members, |obs|)
    ensures Ordered(Picked(obs, members)) && Latest(Picked(obs, members), o)
  {
    var more, reports := obs + [o], Picked(obs, members);
    forall i, j | 0 <= i < j < |reports| ensures !Before(reports[j], reports[i]) {
      assert !Before(more[members[j]], more[members[i]]);
    }
    forall i | 0 <= i < |reports| ensures !Before(o, reports[i]) {
      assert !Before(more[|obs|], more[members[i]]);
    }
  }

  lemma MergeIsSound(rules: Rules, obs: seq<Observation>, o: Observation, c: Occurrence)
    requires Ordered(obs + [o]) && SoundOccurrence(obs, c) && Comparable(c, o) && Takes(rules, c, o)
    ensures SoundOccurrence(obs + [o], Merge(rules, c, o, |obs|))
  {
    PickedGrows(obs, o, c.members);
    PickedIsOrdered(obs, c.members, o);
    MergeIsCoherent(rules, Picked(obs, c.members), o, c, |obs|);
  }

  lemma PickedGrows(obs: seq<Observation>, o: Observation, members: seq<nat>)
    requires Increasing(members, |obs|)
    ensures Increasing(members + [|obs|], |obs| + 1)
    ensures Picked(obs + [o], members + [|obs|]) == Picked(obs, members) + [o]
  {
  }

  lemma MergeIsCoherent(rules: Rules, reports: seq<Observation>, o: Observation, c: Occurrence, index: nat)
    requires Coherent(c, reports) && Comparable(c, o) && Takes(rules, c, o)
    requires Ordered(reports) && Latest(reports, o)
    ensures Coherent(Merge(rules, c, o, index), reports + [o])
  {
    MergeKeepsProcess(rules, reports, o, c, index);
    MergeKeepsTimes(rules, reports, o, c, index);
    MergeKeepsClose(rules, reports, o, c);
    MergeKeepsSources(rules, reports, o, c, index);
  }

  /** Every observation lands in exactly one occurrence, and an occurrence holds
      observations of one kind, at most one process, no two neighbours in time
      more than two seconds apart. */
  lemma {:induction false} ClustersPartition(rules: Rules, obs: seq<Observation>)
    requires Ordered(obs)
    ensures Partition(|obs|, Clusters(rules, obs))
    ensures Sound(obs, Clusters(rules, obs))
  {
    if obs != [] {
      var init, o := obs[..|obs| - 1], obs[|obs| - 1];
      assert obs == init + [o];
      var before := Clusters(rules, init);
      ClustersPartition(rules, init);
      PlacedIsPartition(rules, |init|, o, before);
      PlacedIsSound(rules, init, o, before);
    }
  }

  lemma PlacedIsSound(rules: Rules, obs: seq<Observation>, o: Observation, occurrences: seq<Occurrence>)
    requires Ordered(obs + [o]) && Sound(obs, occurrences)
    ensures Sound(obs + [o], Placed(rules, occurrences, o, |obs|))
  {
    forall c | 0 <= c < |occurrences| ensures SoundOccurrence(obs + [o], occurrences[c]) {
      SoundGrows(obs, o, occurrences[c]);
    }
    FreshIsSound(obs, o);
    var k := Holder(occurrences, o);
    if k >= 0 && Takes(rules, occurrences[k], o) { MergeIsSound(rules, obs, o, occurrences[k]); }
  }

  lemma PlacedIsPartition(rules: Rules, n: nat, o: Observation, occurrences: seq<Occurrence>)
    requires Partition(n, occurrences)
    ensures Partition(n + 1, Placed(rules, occurrences, o, n))
  {
    var k := Holder(occurrences, o);
    if k >= 0 && Takes(rules, occurrences[k], o) {
      JoiningIsPartition(n, occurrences, k, Merge(rules, occurrences[k], o, n));
    } else {
      StartingIsPartition(n, occurrences, Fresh(o, n));
    }
  }

  lemma JoiningIsPartition(n: nat, occurrences: seq<Occurrence>, k: nat, c: Occurrence)
    requires Partition(n, occurrences) && k < |occurrences| && c.members == occurrences[k].members + [n]
    ensures Partition(n + 1, occurrences[k := c])
  {
    var after := occurrences[k := c];
    assert forall m :: m in c.members <==> m in occurrences[k].members || m == n;
    forall i | 0 <= i < n + 1 ensures Held(i, after) {
      if i < n {
        assert Held(i, occurrences);
        var d :| 0 <= d < |occurrences| && i in occurrences[d].members;
        assert i in after[d].members;
      } else {
        assert i in after[k].members;
      }
    }
    forall d, m | 0 <= d < |occurrences| && m in occurrences[d].members ensures m != n {
      assert Increasing(occurrences[d].members, n);
    }
  }

  lemma StartingIsPartition(n: nat, occurrences: seq<Occurrence>, c: Occurrence)
    requires Partition(n, occurrences) && c.members == [n]
    ensures Partition(n + 1, occurrences + [c])
  {
    var after := occurrences + [c];
    forall i | 0 <= i < n + 1 ensures Held(i, after) {
      if i < n {
        assert Held(i, occurrences);
        var d :| 0 <= d < |occurrences| && i in occurrences[d].members;
        assert i in after[d].members;
      } else {
        assert i in after[|occurrences|].members;
      }
    }
    forall d, m | 0 <= d < |occurrences| && m in occurrences[d].members ensures m != n {
      assert Increasing(occurrences[d].members, n);
    }
  }

  // ----- Counting by fingerprint ---------------------------------------------

  function Sum(counts: seq<nat>): nat {
    if counts == [] then 0 else Sum(counts[..|counts| - 1]) + counts[|counts| - 1]
  }

  lemma {:induction false} SumBump(counts: seq<nat>, k: nat)
    requires k < |counts|
    ensures Sum(counts[k := counts[k] + 1]) == Sum(counts) + 1
  {
    var bumped := counts[k := counts[k] + 1];
    var init := counts[..|counts| - 1];
    if k == |counts| - 1 {
      assert bumped[..|bumped| - 1] == init;
    } else {
      SumBump(init, k);
      assert bumped[..|bumped| - 1] == init[k := init[k] + 1];
    }
  }

  /** The keys are those of the input, each once, with its multiplicity. */
  ghost predicate Tallies<K(!new)>(keys: seq<K>, counts: seq<nat>, input: seq<K>) {
    && |keys| == |counts|
    && (forall i, j :: 0 <= i < j < |keys| ==> keys[i] != keys[j])
    && (forall i :: 0 <= i < |keys| ==> counts[i] == multiset(input)[keys[i]] > 0)
    && (forall k :: k in input ==> k in keys)
    && Sum(counts) == |input|
  }

  lemma TalliesBump<K(!new)>(keys: seq<K>, counts: seq<nat>, input: seq<K>, k: nat)
    requires Tallies(keys, counts, input) && k < |keys|
    ensures Tallies(keys, counts[k := counts[k] + 1], input + [keys[k]])
  {
    SumBump(counts, k);
    assert multiset(input + [keys[k]]) == multiset(input) + multiset{keys[k]};
  }

  lemma TalliesAppend<K(!new)>(keys: seq<K>, counts: seq<nat>, input: seq<K>, key: K)
    requires Tallies(keys, counts, input) && key !in keys
    ensures Tallies(keys + [key], counts + [1], input + [key])
  {
    assert (counts + [1])[..|counts|] == counts;
    assert multiset(input + [key]) == multiset(input) + multiset{key};
    assert key !in multiset(input);
  }

  function Prints(table: seq<Incident>): (r: seq<string>)
    ensures |r| == |table| && forall i :: 0 <= i < |r| ==> r[i] == table[i].fingerprint
  {
    seq(|table|, i requires 0 <= i < |table| => table[i].fingerprint)
  }

  function Counts(table: seq<Incident>): (r: seq<nat>)
    ensures |r| == |table| && forall i :: 0 <= i < |r| ==> r[i] == table[i].occurrences
  {
    seq(|table|, i requires 0 <= i < |table| => table[i].occurrences)
  }

  function PrintOf(rules: Rules, c: Occurrence): string {
    rules.fingerprint(c.kind, c.summary)
  }

  function PrintsOf(rules: Rules, clusters: seq<Occurrence>): (r: seq<string>)
    ensures |r| == |clusters| && forall i :: 0 <= i < |r| ==> r[i] == PrintOf(rules, clusters[i])
  {
    seq(|clusters|, i requires 0 <= i < |clusters| => PrintOf(rules, clusters[i]))
  }

  /** The first entry with the fingerprint, or the table's length. */
  function Entry(table: seq<Incident>, key: string): (k: nat)
    ensures k <= |table|
    ensures k < |table| ==> table[k].fingerprint == key
    ensures forall j :: 0 <= j < k ==> table[j].fingerprint != key
  {
    if table == [] then 0
    else if table[0].fingerprint == key then 0
    else Entry(table[1..], key) + 1
  }

  function AppendAllUnique(values: seq<string>, additions: seq<string>): (r: seq<string>)
    ensures forall v :: v in r <==> v in values || (v in additions && v != "")
  {
    if additions == [] then values
    else
      var init := additions[..|additions| - 1];
      assert additions == init + [additions[|additions| - 1]];
      AppendUnique(AppendAllUnique(values, init), additions[|additions| - 1])
  }

  function Repeated(item: Incident, c: Occurrence): Incident {
    item.(occurrences := item.occurrences + 1,
    sources := AppendAllUnique(item.sources, c.sources),
    last := if c.time.Some? then c.time else item.last)
  }

  function FirstSeen(rules: Rules, c: Occurrence): Incident {
    Incident(PrintOf(rules, c), c.kind, c.summary, 1, c.sources, c.first, c.time)
  }

  function Noted(rules: Rules, table: seq<Incident>, c: Occurrence): seq<Incident> {
    var k := Entry(table, PrintOf(rules, c));
    if k < |table| then table[k := Repeated(table[k], c)] else table + [FirstSeen(rules, c)]
  }

  function Tally(rules: Rules, clusters: seq<Occurrence>): seq<Incident> {
    if clusters == [] then []
    else Noted(rules, Tally(rules, clusters[..|clusters| - 1]), clusters[|clusters| - 1])
  }

  function Incidents(rules: Rules, observations: seq<Observation>): seq<Incident> {
    Tally(rules, Clusters(rules, Sorted(observations)))
  }

  lemma RepeatedCounts(rules: Rules, table: seq<Incident>, input: seq<string>, c: Occurrence, k: nat)
    requires Tallies(Prints(table), Counts(table), input)
    requires k < |table| && table[k].fingerprint == PrintOf(rules, c)
    ensures var after := table[k := Repeated(table[k], c)];
            Tallies(Prints(after), Counts(after), input + [PrintOf(rules, c)])
  {
    var after := table[k := Repeated(table[k], c)];
    var prints, counts := Prints(table), Counts(table);
    assert prints[k] == PrintOf(rules, c);
    TalliesBump(prints, counts, input, k);
    assert Prints(after) == prints;
    assert Counts(after) == counts[k := counts[k] + 1];
  }

  lemma FirstSeenCounts(rules: Rules, table: seq<Incident>, input: seq<string>, c: Occurrence)
    requires Tallies(Prints(table), Counts(table), input) && PrintOf(rules, c) !in Prints(table)
    ensures var after := table + [FirstSeen(rules, c)];
            Tallies(Prints(after), Counts(after), input + [PrintOf(rules, c)])
  {
    var after := table + [FirstSeen(rules, c)];
    var prints, counts := Prints(table), Counts(table);
    TalliesAppend(prints, counts, input, PrintOf(rules, c));
    assert Prints(after) == prints + [PrintOf(rules, c)];
    assert Counts(after) == counts + [1];
  }

  lemma NotedCounts(rules: Rules, table: seq<Incident>, input: seq<string>, c: Occurrence)
    requires Tallies(Prints(table), Counts(table), input)
    ensures Tallies(Prints(Noted(rules, table, c)), Counts(Noted(rules, table, c)), input + [PrintOf(rules, c)])
  {
    var k := Entry(table, PrintOf(rules, c));
    if k < |table| {
      RepeatedCounts(rules, table, input, c, k);
    } else {
      FirstSeenCounts(rules, table, input, c);
    }
  }

  /** Fingerprints are pairwise distinct, each counts the occurrences that have
      it, and the counts add up to the number of occurrences. */
  lemma {:induction false} TallyCountsOccurrences(rules: Rules, clusters: seq<Occurrence>)
    ensures Tallies(Prints(Tally(rules, clusters)), Counts(Tally(rules, clusters)), PrintsOf(rules, clusters))
  {
    if clusters != [] {
      var init, c := clusters[..|clusters| - 1], clusters[|clusters| - 1];
      TallyCountsOccurrences(rules, init);
      assert PrintsOf(rules, clusters) == PrintsOf(rules, init) + [PrintOf(rules, c)];
      NotedCounts(rules, Tally(rules, init), PrintsOf(rules, init), c);
    }
  }

  /** An incident names every source that reported one of its occurrences, and
      no other. */
  ghost predicate SourcesFit(rules: Rules, item: Incident, clusters: seq<Occurrence>) {
    && (forall c :: c in clusters && PrintOf(rules, c) == item.fingerprint ==>
          forall s :: s in c.sources && s != "" ==> s in item.sources)
    && (forall s :: s in item.sources ==>
          exists c :: c in clusters && PrintOf(rules, c) == item.fingerprint && s in c.sources)
  }

  lemma RepeatedKeepsSources(rules: Rules, item: Incident, clusters: seq<Occurrence>, c: Occurrence)
    requires SourcesFit(rules, item, clusters) && PrintOf(rules, c) == item.fingerprint
    ensures SourcesFit(rules, Repeated(item, c), clusters + [c])
  {
    var more, after := clusters + [c], Repeated(item, c);
    forall s | s in after.sources
      ensures exists d :: d in more && PrintOf(rules, d) == item.fingerprint && s in d.sources
    {
      if s in item.sources {
        var d :| d in clusters && PrintOf(rules, d) == item.fingerprint && s in d.sources;
        assert d in more;
      } else {
        assert c in more;
      }
    }
  }

  lemma FirstKeepsSources(rules: Rules, clusters: seq<Occurrence>, c: Occurrence)
    requires forall d :: d in clusters ==> PrintOf(rules, d) != PrintOf(rules, c)
    ensures SourcesFit(rules, FirstSeen(rules, c), clusters + [c])
  {
    assert c in clusters + [c];
  }

  lemma OthersKeepSources(rules: Rules, item: Incident, clusters: seq<Occurrence>, c: Occurrence)
    requires SourcesFit(rules, item, clusters) && PrintOf(rules, c) != item.fingerprint
    ensures SourcesFit(rules, item, clusters + [c])
  {
    forall s | s in item.sources
      ensures exists d :: d in clusters + [c] && PrintOf(rules, d) == item.fingerprint && s in d.sources
    {
      var d :| d in clusters && PrintOf(rules, d) == item.fingerprint && s in d.sources;
      assert d in clusters + [c];
    }
  }

  lemma {:induction false} TallyKeepsSources(rules: Rules, clusters: seq<Occurrence>)
    ensures forall i :: 0 <= i < |Tally(rules, clusters)| ==> SourcesFit(rules, Tally(rules, clusters)[i], clusters)
  {
    if clusters != [] {
      var init, c := clusters[..|clusters| - 1], clusters[|clusters| - 1];
      TallyKeepsSources(rules, init);
      assert clusters == init + [c];
      var table, after := Tally(rules, init), Tally(rules, clusters);
      var k := Entry(table, PrintOf(rules, c));
      forall i | 0 <= i < |after| ensures SourcesFit(rules, after[i], clusters) {
        if i != k {
          DistinctPrints(rules, clusters, i, k);
          OthersKeepSources(rules, table[i], init, c);
        } else if k == |table| {
          NoneBefore(rules, init, table, PrintOf(rules, c));
          FirstKeepsSources(rules, init, c);
        } else {
          RepeatedKeepsSources(rules, table[k], init, c);
        }
      }
    }
  }

  lemma DistinctPrints(rules: Rules, clusters: seq<Occurrence>, i: nat, k: nat)
    requires i < |Tally(rules, clusters)| && k < |Tally(rules, clusters)| && i != k
    ensures Tally(rules, clusters)[i].fingerprint != Tally(rules, clusters)[k].fingerprint
  {
    TallyCountsOccurrences(rules, clusters);
    var prints := Prints(Tally(rules, clusters));
    assert prints[i] != prints[k];
  }

  lemma NoneBefore(rules: Rules, clusters: seq<Occurrence>, table: seq<Incident>, key: string)
    requires table == Tally(rules, clusters) && key !in Prints(table)
    ensures forall c :: c in clusters ==> PrintOf(rules, c) != key
  {
    TallyCountsOccurrences(rules, clusters);
    forall c | c in clusters ensures PrintOf(rules, c) != key {
      var i :| 0 <= i < |clusters| && clusters[i] == c;
      assert PrintsOf(rules, clusters)[i] == PrintOf(rules, c);
    }
  }
  // ----- The loops -----------------------------------------------------------

  lemma HolderIs(occurrences: seq<Occurrence>, o: Observation, k: int)
    requires -1 <= k < |occurrences|
    requires k >= 0 ==> Comparable(occurrences[k], o)
    requires forall j :: k < j < |occurrences| ==> !Comparable(occurrences[j], o)
    ensures k == Holder(occurrences, o)
  {
  }

  method Place(rules: Rules, occurrences: seq<Occurrence>, o: Observation, position: nat)
    returns (placed: seq<Occurrence>)
    ensures placed == Placed(rules, occurrences, o, position)
  {
    placed := occurrences;
    var merged, index := false, |occurrences| - 1;
    while index >= 0
      invariant -1 <= index < |occurrences|
      invariant placed == occurrences && !merged
      invariant forall j :: index < j < |occurrences| ==> !Comparable(occurrences[j], o)
      decreases index
    {
      if !Comparable(occurrences[index], o) {
        index := index - 1;
        continue;
      }
      HolderIs(occurrences, o, index);
      if Takes(rules, occurrences[index], o) {
        placed := placed[index := Merge(rules, placed[index], o, position)];
        merged := true;
      }
      break;
    }
    if !merged { placed := placed + [Fresh(o, position)]; }
  }

  lemma EntryIs(table: seq<Incident>, key: string, k: nat)
    requires k <= |table| && (k < |table| ==> table[k].fingerprint == key)
    requires forall j :: 0 <= j < k ==> table[j].fingerprint != key
    ensures k == Entry(table, key)
  {
  }

  method Note(rules: Rules, table: seq<Incident>, occurrence: Occurrence) returns (noted: seq<Incident>)
    ensures noted == Noted(rules, table, occurrence)
  {
    var key := PrintOf(rules, occurrence);
    var matched := 0;
    while matched < |table| && table[matched].fingerprint != key
      invariant matched <= |table|
      invariant forall j :: 0 <= j < matched ==> table[j].fingerprint != key
    {
      matched := matched + 1;
    }
    EntryIs(table, key, matched);
    if matched == |table| {
      noted := table + [FirstSeen(rules, occurrence)];
    } else {
      noted := table[matched := Repeated(table[matched], occurrence)];
    }
  }

  lemma ClustersStep(rules: Rules, obs: seq<Observation>, i: nat)
    requires i < |obs|
    ensures Clusters(rules, obs[..i + 1]) == Placed(rules, Clusters(rules, obs[..i]), obs[i], i)
  {
    assert obs[..i + 1][..i] == obs[..i];
  }

  lemma TallyStep(rules: Rules, clusters: seq<Occurrence>, i: nat)
    requires i < |clusters|
    ensures Tally(rules, clusters[..i + 1]) == Noted(rules, Tally(rules, clusters[..i]), clusters[i])
  {
    assert clusters[..i + 1][..i] == clusters[..i];
  }

  /** aggregateIncidents */
  method AggregateIncidents(rules: Rules, observations: seq<Observation>) returns (aggregated: seq<Incident>)
    ensures aggregated == Incidents(rules, observations)
  {
    var ordered := Sorted(observations);
    var occurrences: seq<Occurrence> := [];
    for i := 0 to |ordered|
      invariant occurrences == Clusters(rules, ordered[..i])
    {
      ClustersStep(rules, ordered, i);
      occurrences := Place(rules, occurrences, ordered[i], i);
    }
    assert ordered[..|ordered|] == ordered;
    aggregated := [];
    for i := 0 to |occurrences|
      invariant aggregated == Tally(rules, occurrences[..i])
    {
      TallyStep(rules, occurrences, i);
      aggregated := Note(rules, aggregated, occurrences[i]);
    }
    assert occurrences[..|occurrences|] == occurrences;
  }

  /** What the incidents of any list of observations say: they are the tally of
      a partition of the observations into sound occurrences. */
  lemma IncidentsAccountForEveryObservation(rules: Rules, observations: seq<Observation>)
    ensures multiset(Sorted(observations)) == multiset(observations)
    ensures Partition(|observations|, Clusters(rules, Sorted(observations)))
    ensures Sound(Sorted(observations), Clusters(rules, Sorted(observations)))
    ensures Tallies(Prints(Incidents(rules, observations)), Counts(Incidents(rules, observations)),
                    PrintsOf(rules, Clusters(rules, Sorted(observations))))
    ensures forall i :: 0 <= i < |Incidents(rules, observations)| ==>
                          SourcesFit(rules, Incidents(rules, observations)[i], Clusters(rules, Sorted(observations)))
  {
    var ordered := Sorted(observations);
    assert |multiset(ordered)| == |ordered| && |multiset(observations)| == |observations|;
    SortedIsOrdered(observations);
    ClustersPartition(rules, ordered);
    TallyCountsOccurrences(rules, Clusters(rules, ordered));
    TallyKeepsSources(rules, Clusters(rules, ordered));
  }

  // ----- Repeats of one report -----------------------------------------------

  /** All timed, with the same kind, process and summary. */
  predicate Repeats(o: Observation, s: seq<Observation>) {
    forall r :: r in s ==> r.kind == o.kind && r.pid == o.pid && r.summary == o.summary && r.time.Some?
  }

  /** The number of neighbours more than two seconds apart. */
  function Gaps(s: seq<Observation>): nat
    requires forall r :: r in s ==> r.time.Some?
  {
    if |s| < 2 then 0
    else Gaps(s[..|s| - 1]) + (if s[|s| - 1].time.value - s[|s| - 2].time.value > SAME_SUMMARY_GAP then 1 else 0)
  }

  predicate Like(o: Observation, c: Occurrence) {
    c.kind == o.kind && c.pid == o.pid && c.summary == o.summary && c.time.Some?
  }

  /** One more repeat joins the last occurrence unless it comes too late. */
  lemma RepeatJoinsUnlessLate(rules: Rules, o: Observation, before: seq<Occurrence>, r: Observation, index: nat)
    requires before != [] && (forall c :: c in before ==> Like(o, c))
    requires Repeats(o, [r])
    requires before[|before| - 1].time.Some? && before[|before| - 1].time.value <= r.time.value
    ensures r.time.value - before[|before| - 1].time.value > SAME_SUMMARY_GAP ==>
              Placed(rules, before, r, index) == before + [Fresh(r, index)]
    ensures r.time.value - before[|before| - 1].time.value <= SAME_SUMMARY_GAP ==>
              Placed(rules, before, r, index)
              == before[|before| - 1 := Merge(rules, before[|before| - 1], r, index)]
  {
    assert r in [r];
    assert before[|before| - 1] in before;
    HolderIs(before, r, |before| - 1);
  }

  lemma MergeKeepsLike(rules: Rules, o: Observation, c: Occurrence, r: Observation, index: nat)
    requires Like(o, c) && Repeats(o, [r]) && c.time.Some? && r.time.Some? && c.time.value <= r.time.value
    ensures Like(o, Merge(rules, c, r, index)) && Merge(rules, c, r, index).time == r.time
    ensures Like(o, Fresh(r, index)) && Fresh(r, index).time == r.time
  {
    assert r in [r];
  }

  /** The occurrences of repeats: all alike, the last one ending at this time. */
  predicate RepeatsEndAt(o: Observation, clusters: seq<Occurrence>, end: Option<int>) {
    && clusters != []
    && (forall c :: c in clusters ==> Like(o, c))
    && clusters[|clusters| - 1].time == end
  }

  lemma RepeatStep(rules: Rules, o: Observation, before: seq<Occurrence>, r: Observation, end: int, index: nat)
    requires RepeatsEndAt(o, before, Some(end))
    requires Repeats(o, [r]) && end <= [r][0].time.value
    ensures RepeatsEndAt(o, Placed(rules, before, r, index), r.time)
    ensures |Placed(rules, before, r, index)|
            == |before| + (if [r][0].time.value - end > SAME_SUMMARY_GAP then 1 else 0)
  {
    assert r in [r];
    var last := before[|before| - 1];
    assert last in before;
    RepeatJoinsUnlessLate(rules, o, before, r, index);
    MergeKeepsLike(rules, o, last, r, index);
    if r.time.value - end > SAME_SUMMARY_GAP {
      assert forall c :: c in before + [Fresh(r, index)] ==> c in before || c == Fresh(r, index);
    }
  }

  /** The same report over and over is as many occurrences as there are pauses
      of more than two seconds between them, plus one. */
  lemma {:induction false} RepeatsSplitAtGaps(rules: Rules, o: Observation, s: seq<Observation>)
    requires s != [] && Repeats(o, s) && Ordered(s)
    ensures |Clusters(rules, s)| == Gaps(s) + 1
    ensures RepeatsEndAt(o, Clusters(rules, s), s[|s| - 1].time)
  {
    var init, last := s[..|s| - 1], s[|s| - 1];
    assert last in s;
    if init == [] {
      assert s == [last];
      assert Clusters(rules, init) == [];
      assert Clusters(rules, s) == [Fresh(last, 0)];
    } else {
      RepeatsSplitAtGaps(rules, o, init);
      assert init[|init| - 1] == s[|s| - 2] && s[|s| - 2] in s;
      assert !Before(s[|s| - 1], s[|s| - 2]);
      RepeatStep(rules, o, Clusters(rules, init), last, s[|s| - 2].time.value, |init|);
    }
  }

  lemma {:induction false} LikeOccurrencesAreOneIncident(rules: Rules, o: Observation, clusters: seq<Occurrence>)
    requires clusters != [] && forall c :: c in clusters ==> Like(o, c)
    ensures |Tally(rules, clusters)| == 1
    ensures Tally(rules, clusters)[0].fingerprint == rules.fingerprint(o.kind, o.summary)
    ensures Tally(rules, clusters)[0].occurrences == |clusters|
  {
    var init, last := clusters[..|clusters| - 1], clusters[|clusters| - 1];
    assert last in clusters;
    if init == [] {
      assert Tally(rules, init) == [];
    } else {
      assert forall c :: c in init ==> c in clusters;
      LikeOccurrencesAreOneIncident(rules, o, init);
    }
  }

  /** For every list of repeats of one report, whatever order they arrive in,
      one incident comes out and its count is the number of long pauses plus one. */
  lemma RepeatsAreCounted(rules: Rules, o: Observation, observations: seq<Observation>)
    requires observations != [] && Repeats(o, observations)
    ensures |Incidents(rules, observations)| == 1
    ensures Repeats(o, Sorted(observations))
    ensures Incidents(rules, observations)[0].occurrences == Gaps(Sorted(observations)) + 1
  {
    var s := Sorted(observations);
    forall r | r in s ensures r in observations {
      assert r in multiset(s);
    }
    assert |multiset(s)| == |s| && |multiset(observations)| == |observations|;
    SortedIsOrdered(observations);
    RepeatsSplitAtGaps(rules, o, s);
    LikeOccurrencesAreOneIncident(rules, o, Clusters(rules, s));
  }

  // ----- Process exits -------------------------------------------------------

  /** An exit record reduced to what its fingerprint is taken from, and its time. */
  datatype Exit = Exit(
    reason: int, subreason: int, process: string, status: int, description: string, time: string)

  datatype ExitEntry = ExitEntry(key: ExitKey, record: Exit, occurrences: nat, first: string, last: string)

  /** What is hashed: with the description's numbers blanked out. */
  datatype ExitKey = ExitKey(reason: int, subreason: int, process: string, status: int, description: string)

  function KeyOf(normalize: string -> string, e: Exit): ExitKey {
    ExitKey(e.reason, e.subreason, e.process, e.status, normalize(e.description))
  }

  function KeysOf(normalize: string -> string, s: seq<Exit>): (r: seq<ExitKey>)
    ensures |r| == |s| && forall i :: 0 <= i < |r| ==> r[i] == KeyOf(normalize, s[i])
  {
    seq(|s|, i requires 0 <= i < |s| => KeyOf(normalize, s[i]))
  }

  function EntryKeys(table: seq<ExitEntry>): (r: seq<ExitKey>)
    ensures |r| == |table| && forall i :: 0 <= i < |r| ==> r[i] == table[i].key
  {
    seq(|table|, i requires 0 <= i < |table| => table[i].key)
  }

  function EntryCounts(table: seq<ExitEntry>): (r: seq<nat>)
    ensures |r| == |table| && forall i :: 0 <= i < |r| ==> r[i] == table[i].occurrences
  {
    seq(|table|, i requires 0 <= i < |table| => table[i].occurrences)
  }

  /** An entry shows the first record with its key and is dated by the first and
      the last of them. */
  ghost predicate Dated(normalize: string -> string, entry: ExitEntry, records: seq<Exit>) {
    exists i, j ::
      && 0 <= i <= j < |records|
      && records[i] == entry.record && records[i].time == entry.first && records[j].time == entry.last
      && KeyOf(normalize, records[i]) == entry.key == KeyOf(normalize, records[j])
      && (forall k :: 0 <= k < i || j < k < |records| ==> KeyOf(normalize, records[k]) != entry.key)
  }

  function Again(entry: ExitEntry, record: Exit): ExitEntry {
    entry.(occurrences := entry.occurrences + 1, last := record.time)
  }

  function Once(key: ExitKey, record: Exit): ExitEntry {
    ExitEntry(key, record, 1, record.time, record.time)
  }

  lemma DatedGrows(normalize: string -> string, entry: ExitEntry, records: seq<Exit>, e: Exit)
    requires Dated(normalize, entry, records)
    ensures KeyOf(normalize, e) != entry.key ==> Dated(normalize, entry, records + [e])
    ensures KeyOf(normalize, e) == entry.key ==>
              Dated(normalize, Again(entry, e), records + [e])
  {
    var i, j :|
      && 0 <= i <= j < |records|
      && records[i] == entry.record && records[i].time == entry.first && records[j].time == entry.last
      && KeyOf(normalize, records[i]) == entry.key == KeyOf(normalize, records[j])
      && (forall k :: 0 <= k < i || j < k < |records| ==> KeyOf(normalize, records[k]) != entry.key);
    var more := records + [e];
    assert more[i] == records[i] && more[j] == records[j] && more[|records|] == e;
  }

  lemma DatedFirst(normalize: string -> string, records: seq<Exit>, e: Exit)
    requires KeyOf(normalize, e) !in KeysOf(normalize, records)
    ensures Dated(normalize, Once(KeyOf(normalize, e), e), records + [e])
  {
    var more := records + [e];
    assert more[|records|] == e;
    assert forall k :: 0 <= k < |records| ==> KeysOf(normalize, records)[k] == KeyOf(normalize, more[k]);
  }

  /** One entry per key, with its multiplicity in the input, its first record and
      its first and last times. */
  ghost predicate Aggregated(normalize: string -> string, table: seq<ExitEntry>, records: seq<Exit>) {
    && Tallies(EntryKeys(table), EntryCounts(table), KeysOf(normalize, records))
    && forall i :: 0 <= i < |table| ==> Dated(normalize, table[i], records)
  }

  lemma AnotherExitCounts(normalize: string -> string, table: seq<ExitEntry>, records: seq<Exit>, record: Exit, k: nat)
    requires Tallies(EntryKeys(table), EntryCounts(table), KeysOf(normalize, records))
    requires k < |table| && table[k].key == KeyOf(normalize, record)
    ensures Tallies(EntryKeys(table[k := Again(table[k], record)]), EntryCounts(table[k := Again(table[k], record)]),
                    KeysOf(normalize, records + [record]))
  {
    var keys, counts, after := EntryKeys(table), EntryCounts(table), table[k := Again(table[k], record)];
    assert KeysOf(normalize, records + [record]) == KeysOf(normalize, records) + [keys[k]];
    assert EntryKeys(after) == keys;
    assert EntryCounts(after) == counts[k := counts[k] + 1];
    TalliesBump(keys, counts, KeysOf(normalize, records), k);
  }

  lemma FirstExitCounts(normalize: string -> string, table: seq<ExitEntry>, records: seq<Exit>, record: Exit)
    requires Tallies(EntryKeys(table), EntryCounts(table), KeysOf(normalize, records))
    requires KeyOf(normalize, record) !in EntryKeys(table)
    ensures Tallies(EntryKeys(table + [Once(KeyOf(normalize, record), record)]),
                    EntryCounts(table + [Once(KeyOf(normalize, record), record)]),
                    KeysOf(normalize, records + [record]))
  {
    var key := KeyOf(normalize, record);
    var keys, counts, after := EntryKeys(table), EntryCounts(table), table + [Once(key, record)];
    assert KeysOf(normalize, records + [record]) == KeysOf(normalize, records) + [key];
    assert EntryKeys(after) == keys + [key];
    assert EntryCounts(after) == counts + [1];
    TalliesAppend(keys, counts, KeysOf(normalize, records), key);
  }

  lemma AnotherExitDates(normalize: string -> string, table: seq<ExitEntry>, records: seq<Exit>, record: Exit, k: nat)
    requires Aggregated(normalize, table, records)
    requires k < |table| && table[k].key == KeyOf(normalize, record)
    ensures var after := table[k := Again(table[k], record)];
            forall i :: 0 <= i < |after| ==> Dated(normalize, after[i], records + [record])
  {
    var keys, after := EntryKeys(table), table[k := Again(table[k], record)];
    forall i | 0 <= i < |table| ensures Dated(normalize, after[i], records + [record]) {
      DatedGrows(normalize, table[i], records, record);
      assert i < k ==> keys[i] != keys[k];
      assert k < i ==> keys[k] != keys[i];
    }
  }

  lemma FirstExitDates(normalize: string -> string, table: seq<ExitEntry>, records: seq<Exit>, record: Exit)
    requires Aggregated(normalize, table, records)
    requires KeyOf(normalize, record) !in EntryKeys(table)
    ensures var after := table + [Once(KeyOf(normalize, record), record)];
            forall i :: 0 <= i < |after| ==> Dated(normalize, after[i], records + [record])
  {
    var keys := EntryKeys(table);
    NoRecordHasKey(normalize, table, records, KeyOf(normalize, record));
    DatedFirst(normalize, records, record);
    forall i | 0 <= i < |table| ensures Dated(normalize, table[i], records + [record]) {
      DatedGrows(normalize, table[i], records, record);
      assert keys[i] == table[i].key;
    }
  }

  lemma NoRecordHasKey(normalize: string -> string, table: seq<ExitEntry>, records: seq<Exit>, key: ExitKey)
    requires Aggregated(normalize, table, records) && key !in EntryKeys(table)
    ensures key !in KeysOf(normalize, records)
  {
  }

  lemma AnotherExit(normalize: string -> string, table: seq<ExitEntry>, records: seq<Exit>, record: Exit, k: nat)
    requires Aggregated(normalize, table, records)
    requires k < |table| && table[k].key == KeyOf(normalize, record)
    ensures Aggregated(normalize, table[k := Again(table[k], record)], records + [record])
  {
    AnotherExitCounts(normalize, table, records, record, k);
    AnotherExitDates(normalize, table, records, record, k);
  }

  lemma FirstExit(normalize: string -> string, table: seq<ExitEntry>, records: seq<Exit>, record: Exit)
    requires Aggregated(normalize, table, records)
    requires KeyOf(normalize, record) !in EntryKeys(table)
    ensures Aggregated(normalize, table + [Once(KeyOf(normalize, record), record)], records + [record])
  {
    FirstExitCounts(normalize, table, records, record);
    FirstExitDates(normalize, table, records, record);
  }

  lemma NothingAggregated(normalize: string -> string)
    ensures Aggregated(normalize, [], [])
  {
    assert KeysOf(normalize, []) == [] && EntryKeys([]) == [] && EntryCounts([]) == [];
  }

  method NoteExit(normalize: string -> string, table: seq<ExitEntry>, record: Exit, ghost records: seq<Exit>)
    returns (noted: seq<ExitEntry>)
    requires Aggregated(normalize, table, records)
    ensures Aggregated(normalize, noted, records + [record])
  {
    var key := KeyOf(normalize, record);
    var matched := 0;
    while matched < |table| && table[matched].key != key
      invariant matched <= |table|
      invariant forall j :: 0 <= j < matched ==> table[j].key != key
    {
      matched := matched + 1;
    }
    if matched == |table| {
      FirstExit(normalize, table, records, record);
      noted := table + [Once(key, record)];
    } else {
      AnotherExit(normalize, table, records, record, matched);
      noted := table[matched := Again(table[matched], record)];
    }
  }

  /** aggregateExitRecords */
  method AggregateExits(normalize: string -> string, records: seq<Exit>) returns (table: seq<ExitEntry>)
    ensures Aggregated(normalize, table, records)
  {
    table := [];
    NothingAggregated(normalize);
    ghost var seen: seq<Exit> := [];
    for n := 0 to |records|
      invariant seen == records[..n] && Aggregated(normalize, table, seen)
    {
      table := NoteExit(normalize, table, records[n], seen);
      seen := seen + [records[n]];
    }
    assert seen == records;
  }
}
