/** Which observations become one occurrence, and what an occurrence and an
    incident show of the observations behind them. */
module IncidentMerging {
  import opened Options
  import opened IncidentAggregation

  // ----- The order -----------------------------------------------------------

  /** The observations of one time, or the untimed ones, in order. */
  function At(s: seq<Observation>, time: Option<int>): seq<Observation>
    decreases |s|
  {
    if s == [] then []
    else
      var last := s[|s| - 1];
      At(s[..|s| - 1], time) + if last.time == time then [last] else []
  }

  lemma AtSnoc(s: seq<Observation>, x: Observation, time: Option<int>)
    ensures At(s + [x], time) == At(s, time) + if x.time == time then [x] else []
  {
    assert (s + [x])[..|s|] == s;
  }

  lemma {:induction false} InsertKeepsTies(s: seq<Observation>, x: Observation, time: Option<int>)
    ensures At(Insert(s, x), time) == At(s + [x], time)
    decreases |s|
  {
    if s != [] && Before(x, s[|s| - 1]) {
      var init, last := s[..|s| - 1], s[|s| - 1];
      assert s == init + [last];
      InsertKeepsTies(init, x, time);
      AtSnoc(Insert(init, x), last, time);
      NeighboursMaySwap(init, x, last, time);
    }
  }

  lemma NeighboursMaySwap(init: seq<Observation>, x: Observation, last: Observation, time: Option<int>)
    requires x.time != last.time
    ensures At(init + [x], time) + (if last.time == time then [last] else []) == At(init + [last] + [x], time)
  {
    AtSnoc(init, x, time);
    AtSnoc(init, last, time);
    AtSnoc(init + [last], x, time);
    var some: seq<Observation> := [];
    assert At(init, time) + some == At(init, time);
  }

  /** The sort is stable: observations of one time, and those without, stay in
      the order they came in. */
  lemma {:induction false} SortIsStable(s: seq<Observation>, time: Option<int>)
    ensures At(Sorted(s), time) == At(s, time)
    decreases |s|
  {
    if s != [] {
      var init, last := s[..|s| - 1], s[|s| - 1];
      assert s == init + [last];
      SortIsStable(init, time);
      InsertKeepsTies(Sorted(init), last, time);
      AtSnoc(Sorted(init), last, time);
      AtSnoc(init, last, time);
    }
  }

  // ----- What joins ----------------------------------------------------------

  /** Same kind, and no two different processes. */
  predicate MaySpeakOf(c: Occurrence, o: Observation) {
    c.kind == o.kind && (c.pid != 0 && o.pid != 0 ==> c.pid == o.pid)
  }

  /** Reports of one event. Untimed reports must say the same. Timed ones come
      at most two seconds later if they say the same or if one of them is an
      exit record, and half a second later if they are two lines of one crash. */
  predicate Belongs(rules: Rules, c: Occurrence, o: Observation) {
    if c.time.None? || o.time.None? then c.summary == o.summary
    else
      var delta := o.time.value - c.time.value;
      || (0 <= delta <= 2_000_000_000 && (c.summary == o.summary || c.source == "exit_info" || o.source == "exit_info"))
      || (0 <= delta <= 500_000_000 && rules.paired(c.kind, c.summary, o.summary))
  }

  /** k is the latest occurrence that may speak of the same event. */
  predicate IsLatest(occurrences: seq<Occurrence>, o: Observation, k: int) {
    0 <= k < |occurrences| && MaySpeakOf(occurrences[k], o)
    && forall j :: k < j < |occurrences| ==> !MaySpeakOf(occurrences[j], o)
  }

  /** The next observation joins the latest occurrence that may speak of the same
      event if it belongs to it, and starts an occurrence of its own otherwise;
      no other occurrence gains or loses a member. */
  lemma ObservationJoinsExactlyWhen(rules: Rules, obs: seq<Observation>, o: Observation)
    ensures var before, after := Clusters(rules, obs), Clusters(rules, obs + [o]);
            && (forall k :: IsLatest(before, o, k) && Belongs(rules, before[k], o) ==>
                  && |after| == |before| && after[k].members == before[k].members + [|obs|]
                  && forall j :: 0 <= j < |before| && j != k ==> after[j] == before[j])
            && ((forall k :: IsLatest(before, o, k) ==> !Belongs(rules, before[k], o)) ==>
                  |after| == |before| + 1 && after[..|before|] == before && after[|before|].members == [|obs|])
  {
    var before := Clusters(rules, obs);
    assert (obs + [o])[..|obs|] == obs;
    var h := Holder(before, o);
    assert forall j :: 0 <= j < |before| ==> (MaySpeakOf(before[j], o) <==> Comparable(before[j], o));
    assert h >= 0 ==> IsLatest(before, o, h);
    assert forall k :: IsLatest(before, o, k) ==> k == h;
    if h >= 0 { assert Takes(rules, before[h], o) <==> Belongs(rules, before[h], o); }
  }

  // ----- What an occurrence shows --------------------------------------------

  /** The first of the most telling reports. */
  predicate MostTelling(rules: Rules, reports: seq<Observation>, i: nat) {
    && i < |reports|
    && (forall j :: 0 <= j < |reports| ==> rules.rank(reports[j].summary) <= rules.rank(reports[i].summary))
    && (forall j :: 0 <= j < i ==> rules.rank(reports[j].summary) < rules.rank(reports[i].summary))
  }

  /** Kind and process of its reports, the wording of the first most telling one,
      and the times of the first and of the last one. */
  ghost predicate Shows(rules: Rules, c: Occurrence, reports: seq<Observation>) {
    && reports != []
    && (forall r :: r in reports ==> r.kind == c.kind && (r.pid != 0 ==> r.pid == c.pid))
    && (c.pid != 0 ==> exists r :: r in reports && r.pid == c.pid)
    && (exists i: nat :: MostTelling(rules, reports, i) && c.summary == reports[i].summary && c.source == reports[i].source)
    && c.first == reports[0].time
    && (forall r :: r in reports && r.time.Some? ==> c.time.Some? && r.time.value <= c.time.value)
    && (c.time.Some? ==> exists r :: r in reports && r.time == c.time)
  }

  lemma FreshShows(rules: Rules, o: Observation, index: nat)
    ensures Shows(rules, Fresh(o, index), [o])
  {
    assert o in [o];
    assert MostTelling(rules, [o], 0);
  }

  lemma MergeShows(rules: Rules, c: Occurrence, reports: seq<Observation>, o: Observation, index: nat)
    requires Shows(rules, c, reports) && Comparable(c, o)
    ensures Shows(rules, Merge(rules, c, o, index), reports + [o])
  {
    var d, more := Merge(rules, c, o, index), reports + [o];
    assert o in more && more[|reports|] == o;
    assert forall r :: r in reports ==> r in more;
    var i: nat :| MostTelling(rules, reports, i) && c.summary == reports[i].summary && c.source == reports[i].source;
    if rules.rank(o.summary) > rules.rank(c.summary) {
      assert MostTelling(rules, more, |reports|);
    } else {
      assert more[i] == reports[i] && MostTelling(rules, more, i);
    }
    MergeShowsProcess(rules, c, reports, o, index);
    MergeShowsTimes(rules, c, reports, o, index);
  }

  lemma MergeShowsProcess(rules: Rules, c: Occurrence, reports: seq<Observation>, o: Observation, index: nat)
    requires Shows(rules, c, reports) && Comparable(c, o)
    ensures var d, more := Merge(rules, c, o, index), reports + [o];
            && (forall r :: r in more ==> r.kind == d.kind && (r.pid != 0 ==> r.pid == d.pid))
            && (d.pid != 0 ==> exists r :: r in more && r.pid == d.pid)
  {
    var more := reports + [o];
    assert o in more;
    if c.pid != 0 {
      var r :| r in reports && r.pid == c.pid;
      assert r in more;
    }
  }

  lemma MergeShowsTimes(rules: Rules, c: Occurrence, reports: seq<Observation>, o: Observation, index: nat)
    requires Shows(rules, c, reports)
    ensures var d, more := Merge(rules, c, o, index), reports + [o];
            && d.first == more[0].time
            && (forall r :: r in more && r.time.Some? ==> d.time.Some? && r.time.value <= d.time.value)
            && (d.time.Some? ==> exists r :: r in more && r.time == d.time)
  {
    var more := reports + [o];
    assert o in more && more[0] == reports[0];
    if c.time.Some? {
      var r :| r in reports && r.time == c.time;
      assert r in more;
    }
  }

  ghost predicate ShowsMembers(rules: Rules, obs: seq<Observation>, c: Occurrence) {
    Increasing(c.members, |obs|) && Shows(rules, c, Picked(obs, c.members))
  }

  lemma OldOccurrenceShows(rules: Rules, obs: seq<Observation>, o: Observation, c: Occurrence)
    requires ShowsMembers(rules, obs, c)
    ensures ShowsMembers(rules, obs + [o], c)
    ensures Comparable(c, o) ==> ShowsMembers(rules, obs + [o], Merge(rules, c, o, |obs|))
  {
    assert Picked(obs + [o], c.members) == Picked(obs, c.members);
    PickedGrows(obs, o, c.members);
    if Comparable(c, o) { MergeShows(rules, c, Picked(obs, c.members), o, |obs|); }
  }

  lemma NewOccurrenceShows(rules: Rules, obs: seq<Observation>, o: Observation)
    ensures ShowsMembers(rules, obs + [o], Fresh(o, |obs|))
  {
    assert Picked(obs + [o], [|obs|]) == [o];
    FreshShows(rules, o, |obs|);
  }

  /** Every occurrence shows its reports. */
  lemma {:induction false} OccurrencesShowTheirReports(rules: Rules, obs: seq<Observation>)
    ensures forall c :: c in Clusters(rules, obs) ==> ShowsMembers(rules, obs, c)
    decreases |obs|
  {
    if obs != [] {
      var init, o := obs[..|obs| - 1], obs[|obs| - 1];
      assert obs == init + [o];
      OccurrencesShowTheirReports(rules, init);
      forall c | c in Clusters(rules, init)
        ensures ShowsMembers(rules, obs, c)
        ensures Comparable(c, o) ==> ShowsMembers(rules, obs, Merge(rules, c, o, |init|))
      {
        OldOccurrenceShows(rules, init, o, c);
      }
      NewOccurrenceShows(rules, init, o);
    }
  }

  // ----- What an incident shows ----------------------------------------------

  /** An incident shows the first occurrence with its fingerprint; it was first
      seen with that one and last seen with the last one that has a time. */
  ghost predicate IncidentShows(rules: Rules, item: Incident, occurrences: seq<Occurrence>) {
    ShowsFirst(rules, item, occurrences) && ShowsLast(rules, item, occurrences)
  }

  ghost predicate ShowsFirst(rules: Rules, item: Incident, occurrences: seq<Occurrence>) {
    exists i: nat :: FirstWith(rules, item.fingerprint, occurrences, i)
      && item.kind == occurrences[i].kind && item.summary == occurrences[i].summary && item.first == occurrences[i].first
  }

  ghost predicate ShowsLast(rules: Rules, item: Incident, occurrences: seq<Occurrence>) {
    && (forall i: nat :: LastTimed(rules, item.fingerprint, occurrences, i) ==> item.last == occurrences[i].time)
    && ((forall i: nat :: !LastTimed(rules, item.fingerprint, occurrences, i)) ==> item.last.None?)
  }

  predicate Has(rules: Rules, mark: string, c: Occurrence) { rules.fingerprint(c.kind, c.summary) == mark }

  predicate FirstWith(rules: Rules, mark: string, occurrences: seq<Occurrence>, i: nat) {
    i < |occurrences| && Has(rules, mark, occurrences[i])
    && forall j :: 0 <= j < i ==> !Has(rules, mark, occurrences[j])
  }

  predicate LastTimed(rules: Rules, mark: string, occurrences: seq<Occurrence>, i: nat) {
    i < |occurrences| && Has(rules, mark, occurrences[i]) && occurrences[i].time.Some?
    && forall j :: i < j < |occurrences| && Has(rules, mark, occurrences[j]) ==> occurrences[j].time.None?
  }

  lemma LastTimedGrows(rules: Rules, mark: string, occurrences: seq<Occurrence>, c: Occurrence)
    ensures Has(rules, mark, c) && c.time.Some? ==>
              LastTimed(rules, mark, occurrences + [c], |occurrences|)
              && forall i: nat :: LastTimed(rules, mark, occurrences + [c], i) ==> i == |occurrences|
    ensures !(Has(rules, mark, c) && c.time.Some?) ==>
              forall i: nat :: LastTimed(rules, mark, occurrences + [c], i) <==> LastTimed(rules, mark, occurrences, i)
  {
    var more := occurrences + [c];
    assert more[|occurrences|] == c;
    assert forall i :: 0 <= i < |occurrences| ==> more[i] == occurrences[i];
  }

  lemma FirstStaysShown(rules: Rules, item: Incident, occurrences: seq<Occurrence>, c: Occurrence)
    requires ShowsFirst(rules, item, occurrences)
    ensures ShowsFirst(rules, item, occurrences + [c])
  {
    var i: nat :| FirstWith(rules, item.fingerprint, occurrences, i)
      && item.kind == occurrences[i].kind && item.summary == occurrences[i].summary && item.first == occurrences[i].first;
    var more := occurrences + [c];
    assert more[i] == occurrences[i] && FirstWith(rules, item.fingerprint, more, i);
  }

  lemma LastIsShown(rules: Rules, item: Incident, occurrences: seq<Occurrence>, c: Occurrence)
    requires ShowsLast(rules, item, occurrences)
    ensures ShowsLast(rules, if Has(rules, item.fingerprint, c) then Repeated(item, c) else item, occurrences + [c])
  {
    LastTimedGrows(rules, item.fingerprint, occurrences, c);
    var more := occurrences + [c];
    assert more[|occurrences|] == c;
    assert forall i :: 0 <= i < |occurrences| ==> more[i] == occurrences[i];
  }

  lemma IncidentShowsMore(rules: Rules, item: Incident, occurrences: seq<Occurrence>, c: Occurrence)
    requires IncidentShows(rules, item, occurrences)
    ensures IncidentShows(rules, if Has(rules, item.fingerprint, c) then Repeated(item, c) else item, occurrences + [c])
  {
    FirstStaysShown(rules, item, occurrences, c);
    LastIsShown(rules, item, occurrences, c);
  }

  lemma FirstIncidentShows(rules: Rules, occurrences: seq<Occurrence>, c: Occurrence)
    requires forall d :: d in occurrences ==> PrintOf(rules, d) != PrintOf(rules, c)
    ensures IncidentShows(rules, FirstSeen(rules, c), occurrences + [c])
  {
    var more, mark := occurrences + [c], PrintOf(rules, c);
    assert more[|occurrences|] == c;
    assert forall i :: 0 <= i < |occurrences| ==> more[i] == occurrences[i] && occurrences[i] in occurrences;
    assert FirstWith(rules, mark, more, |occurrences|);
    LastTimedGrows(rules, mark, occurrences, c);
  }

  /** Every incident shows its first and its last occurrence. */
  lemma {:induction false} IncidentsShowTheirOccurrences(rules: Rules, occurrences: seq<Occurrence>)
    ensures forall k :: 0 <= k < |Tally(rules, occurrences)| ==> IncidentShows(rules, Tally(rules, occurrences)[k], occurrences)
    decreases |occurrences|
  {
    if occurrences != [] {
      var init, c := occurrences[..|occurrences| - 1], occurrences[|occurrences| - 1];
      assert occurrences == init + [c];
      IncidentsShowTheirOccurrences(rules, init);
      var table, after := Tally(rules, init), Tally(rules, occurrences);
      var e := Entry(table, PrintOf(rules, c));
      forall k | 0 <= k < |after| ensures IncidentShows(rules, after[k], occurrences) {
        if k < |table| {
          if k != e { DistinctPrints(rules, occurrences, k, e); }
          IncidentShowsMore(rules, table[k], init, c);
        } else {
          NoneBefore(rules, init, table, PrintOf(rules, c));
          FirstIncidentShows(rules, init, c);
        }
      }
    }
  }

  /** For every list of observations, what its incidents show. */
  lemma IncidentsShowTheObservations(rules: Rules, observations: seq<Observation>)
    ensures var ordered := Sorted(observations);
            var occurrences := Clusters(rules, ordered);
            && (forall c :: c in occurrences ==> ShowsMembers(rules, ordered, c))
            && (forall k :: 0 <= k < |Incidents(rules, observations)| ==>
                  IncidentShows(rules, Incidents(rules, observations)[k], occurrences))
  {
    OccurrencesShowTheirReports(rules, Sorted(observations));
    IncidentsShowTheirOccurrences(rules, Clusters(rules, Sorted(observations)));
  }
}
