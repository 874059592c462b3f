/** The cycle guard: a 64-sample window and a table of pair counts decide
    whether navigation is going round in circles.  The reference definitions
    below look at the whole trace since the last reset; the class is proved to
    give the same answers from its window. */
module CycleDetection {
  import opened ExplorationTypes

  const HISTORY_LIMIT := 64
  const MAX_PERIOD := 8
  const REPETITIONS := 3
  const REPEAT_LIMIT := 4
  const REPEATED_TRANSITION := MAX_PERIOD + 1

  function Keys(trace: seq<Sample>): (keys: seq<string>)
    ensures |keys| == |trace|
    ensures forall i :: 0 <= i < |trace| ==> keys[i] == trace[i].CycleKey()
  {
    seq(|trace|, i requires 0 <= i < |trace| => trace[i].CycleKey())
  }

  function Count(keys: seq<string>, key: string): (n: nat)
    ensures n <= |keys|
  {
    if keys == [] then 0
    else Count(keys[..|keys| - 1], key) + if keys[|keys| - 1] == key then 1 else 0
  }

  /** The last 3p keys are one block of length p, three times over. */
  ghost predicate ThreeBlocks(keys: seq<string>, p: nat) {
    1 <= p && REPETITIONS * p <= |keys| &&
    var n := |keys|;
    keys[n - 3 * p..n - 2 * p] == keys[n - 2 * p..n - p] == keys[n - p..]
  }

  /** What a verdict about a nonempty trace has to mean, for every trace. */
  ghost predicate IsVerdict(keys: seq<string>, verdict: nat)
    requires keys != []
  {
    && (1 <= verdict <= MAX_PERIOD ==>
          ThreeBlocks(keys, verdict) && forall p :: 1 <= p < verdict ==> !ThreeBlocks(keys, p))
    && (verdict == 0 || verdict > MAX_PERIOD ==>
          (forall p :: 1 <= p <= MAX_PERIOD ==> !ThreeBlocks(keys, p))
          && (verdict == 0 <==> Count(keys, keys[|keys| - 1]) < REPEAT_LIMIT))
    && verdict <= REPEATED_TRANSITION
  }

  ghost function LeastPeriod(keys: seq<string>, p: nat): (r: nat)
    requires 1 <= p <= MAX_PERIOD + 1
    ensures r == 0 ==> forall q :: p <= q <= MAX_PERIOD ==> !ThreeBlocks(keys, q)
    ensures r != 0 ==> p <= r <= MAX_PERIOD && ThreeBlocks(keys, r)
                       && forall q :: p <= q < r ==> !ThreeBlocks(keys, q)
    decreases MAX_PERIOD + 1 - p
  {
    if p > MAX_PERIOD then 0 else if ThreeBlocks(keys, p) then p else LeastPeriod(keys, p + 1)
  }

  /** The verdict on a whole trace, defined without a window. */
  ghost function Verdict(keys: seq<string>): (r: nat)
    requires keys != []
    ensures IsVerdict(keys, r)
  {
    var p := LeastPeriod(keys, 1);
    if p != 0 then p
    else if Count(keys, keys[|keys| - 1]) >= REPEAT_LIMIT then REPEATED_TRANSITION
    else 0
  }

  lemma VerdictIsUnique(keys: seq<string>, r: nat)
    requires keys != [] && IsVerdict(keys, r)
    ensures r == Verdict(keys)
  {
    var v := Verdict(keys);
    if 1 <= r <= MAX_PERIOD && 1 <= v <= MAX_PERIOD {
      assert !(r < v) && !(v < r);
    }
  }

  function Window(trace: seq<Sample>): seq<Sample> {
    if |trace| <= HISTORY_LIMIT then trace else trace[|trace| - HISTORY_LIMIT..]
  }

  /** Every key from `from` on equals the one p before it. */
  ghost predicate Shifts(keys: seq<string>, p: nat, from: nat)
    requires p <= from
  {
    forall i :: from <= i < |keys| ==> keys[i] == keys[i - p]
  }

  lemma ShiftsGiveBlocks(keys: seq<string>, p: nat)
    requires 1 <= p && 3 * p <= |keys| && Shifts(keys, p, |keys| - 2 * p)
    ensures ThreeBlocks(keys, p)
  {
    var n := |keys|;
    var b0, b1, b2 := keys[n - 3 * p..n - 2 * p], keys[n - 2 * p..n - p], keys[n - p..];
    forall k | 0 <= k < p ensures b0[k] == b1[k] && b1[k] == b2[k] {
      assert keys[n - 2 * p + k] == keys[n - 2 * p + k - p];
      assert keys[n - p + k] == keys[n - p + k - p];
    }
    assert b0 == b1 && b1 == b2;
  }

  lemma BlocksGiveShifts(keys: seq<string>, p: nat)
    requires 1 <= p && 3 * p <= |keys| && ThreeBlocks(keys, p)
    ensures Shifts(keys, p, |keys| - 2 * p)
  {
    var n := |keys|;
    var b0, b1, b2 := keys[n - 3 * p..n - 2 * p], keys[n - 2 * p..n - p], keys[n - p..];
    forall i | n - 2 * p <= i < n ensures keys[i] == keys[i - p] {
      if i < n - p {
        assert b1[i - (n - 2 * p)] == b0[i - (n - 2 * p)];
      } else {
        assert b2[i - (n - p)] == b1[i - (n - p)];
      }
    }
  }

  lemma BlocksAreShifts(keys: seq<string>, p: nat)
    requires 1 <= p && 3 * p <= |keys|
    ensures ThreeBlocks(keys, p) <==> Shifts(keys, p, |keys| - 2 * p)
  {
    if ThreeBlocks(keys, p) { BlocksGiveShifts(keys, p); }
    if Shifts(keys, p, |keys| - 2 * p) { ShiftsGiveBlocks(keys, p); }
  }

  /** The block test gives the same answer on the window as on the whole trace:
      3 * 8 samples always fit the window. */
  lemma WindowSuffices(trace: seq<Sample>, p: nat)
    requires 1 <= p <= MAX_PERIOD
    ensures var w := Keys(Window(trace));
            ThreeBlocks(Keys(trace), p) <==> 3 * p <= |w| && Shifts(w, p, |w| - 2 * p)
  {
    var w, keys := Keys(Window(trace)), Keys(trace);
    var d := |keys| - |w|;
    assert w == keys[d..];
    if 3 * p <= |w| {
      BlocksAreShifts(keys, p);
      if Shifts(w, p, |w| - 2 * p) {
        forall i | |keys| - 2 * p <= i < |keys| ensures keys[i] == keys[i - p] {
          assert w[i - d] == w[i - d - p];
        }
      }
    }
  }

  lemma WindowEndsTrace(trace: seq<Sample>, n: nat)
    requires n <= HISTORY_LIMIT
    ensures var w := Window(trace);
            && (n <= |w| <==> n <= |trace|)
            && (n <= |w| ==> w[|w| - n..] == trace[|trace| - n..])
  {
  }

  lemma WindowStep(trace: seq<Sample>, sample: Sample)
    ensures var h := Window(trace) + [sample];
            Window(trace + [sample]) == if |h| > HISTORY_LIMIT then h[|h| - HISTORY_LIMIT..] else h
  {
    var h, next := Window(trace) + [sample], trace + [sample];
    if |trace| > HISTORY_LIMIT {
      assert h[1..] == next[|next| - HISTORY_LIMIT..];
    }
  }

  function Lookup(counts: map<string, nat>, key: string): nat {
    if key in counts then counts[key] else 0
  }

  ghost predicate CountsMatch(counts: map<string, nat>, trace: seq<Sample>) {
    forall k :: Lookup(counts, k) == Count(Keys(trace), k)
  }

  lemma CountStep(counts: map<string, nat>, trace: seq<Sample>, sample: Sample)
    requires CountsMatch(counts, trace)
    ensures var key := sample.CycleKey();
            CountsMatch(counts[key := Lookup(counts, key) + 1], trace + [sample])
  {
    var keys := Keys(trace + [sample]);
    assert keys[..|keys| - 1] == Keys(trace);
    var key := sample.CycleKey();
    assert keys[|keys| - 1] == key;
    forall k
      ensures Lookup(counts[key := Lookup(counts, key) + 1], k) == Count(keys, k)
    {
      assert Lookup(counts, k) == Count(Keys(trace), k);
    }
  }

  lemma ShiftStep(keys: seq<string>, p: nat, from: nat, index: nat)
    requires p <= from <= index < |keys| && Shifts(keys[..index], p, from)
    ensures Shifts(keys[..index + 1], p, from) <==> keys[index] == keys[index - p]
    ensures Shifts(keys, p, from) ==> keys[index] == keys[index - p]
  {
  }

  /** The guard itself.  `trace` is every sample since the last reset. */
  class CycleGuard {
    var history: seq<Sample>
    var pairCounts: map<string, nat>
    ghost var trace: seq<Sample>

    ghost predicate Valid()
      reads this
    {
      && history == Window(trace)
      && CountsMatch(pairCounts, trace)
    }

    constructor ()
      ensures Valid() && trace == []
    {
      history, pairCounts, trace := [], map[], [];
    }

    method ResetProgressWindow()
      modifies this
      ensures Valid() && trace == []
    {
      history, pairCounts, trace := [], map[], [];
    }

    /** Appends a sample, counts its pair and trims the window. */
    method Record(sample: Sample)
      requires Valid()
      modifies this
      ensures Valid()
      ensures trace == old(trace) + [sample]
    {
      CountStep(pairCounts, trace, sample);
      WindowStep(trace, sample);
      var key := sample.CycleKey();
      history := history + [sample];
      pairCounts := pairCounts[key := Lookup(pairCounts, key) + 1];
      if |history| > HISTORY_LIMIT {
        history := history[|history| - HISTORY_LIMIT..];
      }
      trace := trace + [sample];
    }

    /** Whether the last three periods of the window repeat. */
    method Repeated(period: nat) returns (repeated: bool)
      requires Valid() && 1 <= period <= MAX_PERIOD
      ensures repeated <==> ThreeBlocks(Keys(trace), period)
    {
      WindowSuffices(trace, period);
      ghost var window := Keys(history);
      var required := period * REPETITIONS;
      if |history| < required { return false; }
      var start := |history| - required;
      var index := start + period;
      while index < |history|
        invariant start + period <= index <= |history|
        invariant Shifts(window[..index], period, start + period)
      {
        if history[index].CycleKey() != history[index - period].CycleKey() {
          ShiftStep(window, period, start + period, index);
          return false;
        }
        ShiftStep(window, period, start + period, index);
        index := index + 1;
      }
      assert window[..index] == window;
      return true;
    }

    /** The least period that repeats, or 0. */
    method LeastRepeated() returns (period: nat)
      requires Valid()
      ensures period <= MAX_PERIOD
      ensures period > 0 ==> ThreeBlocks(Keys(trace), period)
      ensures forall p :: 1 <= p < (if period > 0 then period else MAX_PERIOD + 1) ==> !ThreeBlocks(Keys(trace), p)
    {
      for p := 1 to MAX_PERIOD + 1
        invariant forall q :: 1 <= q < p ==> !ThreeBlocks(Keys(trace), q)
      {
        var repeated := Repeated(p);
        if repeated { return p; }
      }
      return 0;
    }

    method Observe(from: string, action: EdgeAction, to: string, blockFrom: string) returns (verdict: nat)
      requires Valid()
      modifies this
      ensures Valid()
      ensures trace == old(trace) + [Sample(from, action, to, blockFrom)]
      ensures verdict == Verdict(Keys(trace))
    {
      var sample := Sample(from, action, to, blockFrom);
      Record(sample);
      ghost var keys := Keys(trace);
      assert keys[|keys| - 1] == sample.CycleKey();
      var period := LeastRepeated();
      if period > 0 {
        verdict := period;
      } else if Lookup(pairCounts, sample.CycleKey()) >= REPEAT_LIMIT {
        verdict := REPEATED_TRANSITION;
      } else {
        verdict := 0;
      }
      VerdictIsUnique(keys, verdict);
    }
  }

  // ----- No quiet run is long ------------------------------------------------

  /** A key that occurs four times was reported when it did so. */
  lemma {:induction false} FourthOccurrenceIsReported(keys: seq<string>, key: string)
    requires Count(keys, key) >= REPEAT_LIMIT
    ensures exists n :: 1 <= n <= |keys| && Verdict(keys[..n]) != 0
    decreases |keys|
  {
    var last := |keys| - 1;
    if keys[last] == key {
      assert keys[..|keys|] == keys;
      assert Verdict(keys[..|keys|]) != 0;
    } else {
      FourthOccurrenceIsReported(keys[..last], key);
      var n :| 1 <= n <= last && Verdict(keys[..last][..n]) != 0;
      assert keys[..last][..n] == keys[..n];
    }
  }

  function Without(keys: seq<string>, key: string): (r: seq<string>)
    ensures |r| + Count(keys, key) == |keys|
    ensures forall k :: k in r <==> k in keys && k != key
  {
    if keys == [] then []
    else
      var rest := Without(keys[..|keys| - 1], key);
      assert keys == keys[..|keys| - 1] + [keys[|keys| - 1]];
      if keys[|keys| - 1] == key then rest else rest + [keys[|keys| - 1]]
  }

  lemma {:induction false} WithoutKeepsOtherCounts(keys: seq<string>, key: string, other: string)
    requires key != other
    ensures Count(Without(keys, key), other) == Count(keys, other)
  {
    if keys != [] {
      WithoutKeepsOtherCounts(keys[..|keys| - 1], key, other);
      var rest := Without(keys[..|keys| - 1], key);
      var last := keys[|keys| - 1];
      if last != key {
        assert (rest + [last])[..|rest|] == rest;
      }
    }
  }

  lemma {:induction false} PigeonholeOnCounts(keys: seq<string>, pairs: set<string>)
    requires forall k :: k in keys ==> k in pairs
    requires forall k :: k in pairs ==> Count(keys, k) <= 3
    ensures |keys| <= 3 * |pairs|
    decreases |pairs|
  {
    if keys != [] {
      var k := keys[0];
      var rest := Without(keys, k);
      forall other | other in pairs - {k} ensures Count(rest, other) <= 3 {
        WithoutKeepsOtherCounts(keys, k, other);
      }
      PigeonholeOnCounts(rest, pairs - {k});
      assert |pairs| == |pairs - {k}| + 1;
    }
  }

  /** Detection is unavoidable: with K distinct pairs, a run of observations
      without a reset in which nothing was reported has at most 3K samples. */
  lemma QuietRunIsShort(trace: seq<Sample>)
    requires forall n :: 1 <= n <= |trace| ==> Verdict(Keys(trace)[..n]) == 0
    ensures |trace| <= 3 * |set k | k in Keys(trace)|
  {
    var keys := Keys(trace);
    var pairs := set k | k in keys;
    forall k | k in pairs ensures Count(keys, k) <= 3 {
      if Count(keys, k) >= REPEAT_LIMIT {
        FourthOccurrenceIsReported(keys, k);
      }
    }
    PigeonholeOnCounts(keys, pairs);
  }
}
