/** What the bounded log holds of the lines added to it, and when it holds them
    in the order they came. */
module LogOrder {
  import opened BoundedLog
  import opened Sequences

  function Shortened(lines: seq<string>): (r: seq<string>)
    ensures |r| == |lines| && forall i :: 0 <= i < |r| ==> r[i] == Shorten(lines[i])
  {
    seq(|lines|, i requires 0 <= i < |lines| => Shorten(lines[i]))
  }

  function AddAll(log: Log, lines: seq<string>): Log
    decreases |lines|
  {
    if lines == [] then log else AddAll(AddSpec(log, lines[0]), lines[1..])
  }

  // ----- Head and tail, told from the shortened lines ------------------------

  /** How much of the head's bytes is left after these lines; a line costs its
      characters and a newline. */
  function Room(limit: nat, lines: seq<string>): (room: nat)
    ensures room <= limit
    decreases |lines|
  {
    if lines == [] then limit
    else
      var before, cost := Room(limit, lines[..|lines| - 1]), |lines[|lines| - 1]| + 1;
      if cost <= before then before - cost else before
  }

  /** The head still has room for line i when it comes. */
  predicate Fits(limit: nat, lines: seq<string>, i: nat)
    requires i < |lines|
  {
    |lines[i]| + 1 <= Room(limit, lines[..i])
  }

  lemma FitsInPrefix(limit: nat, lines: seq<string>, n: nat, i: nat)
    requires i < n <= |lines|
    ensures Fits(limit, lines[..n], i) == Fits(limit, lines, i)
  {
    assert lines[..n][..i] == lines[..i];
  }

  /** The lines that fit, or those that do not, in order. */
  function Part(limit: nat, lines: seq<string>, fit: bool): seq<string>
    decreases |lines|
  {
    if lines == [] then []
    else
      var n := |lines| - 1;
      Part(limit, lines[..n], fit) + if Fits(limit, lines, n) == fit then [lines[n]] else []
  }

  ghost predicate Holds(log: Log, lines: seq<string>) {
    && log.head == Part(524_288, lines, true) && log.tailed == Part(524_288, lines, false)
    && Bytes(log.head) + Room(524_288, lines) == 524_288
  }

  lemma AddingOne(log: Log, lines: seq<string>, line: string)
    requires Holds(log, lines)
    ensures Holds(AddSpec(log, line), lines + [Shorten(line)])
  {
    assert (lines + [Shorten(line)])[..|lines|] == lines;
    BytesConcat(log.head, [Shorten(line)]);
  }

  lemma {:induction false} AddingAll(log: Log, before: seq<string>, lines: seq<string>)
    requires Holds(log, before)
    ensures Holds(AddAll(log, lines), before + Shortened(lines))
    decreases |lines|
  {
    if lines == [] {
      assert before + Shortened(lines) == before;
    } else {
      AddingOne(log, before, lines[0]);
      AddingAll(AddSpec(log, lines[0]), before + [Shorten(lines[0])], lines[1..]);
      OneByOne(before, lines);
    }
  }

  lemma OneByOne(before: seq<string>, lines: seq<string>)
    requires lines != []
    ensures (before + [Shorten(lines[0])]) + Shortened(lines[1..]) == before + Shortened(lines)
  {
    var first, rest := Shorten(lines[0]), Shortened(lines[1..]);
    assert Shortened(lines) == [first] + rest;
    Associate(before, [first], rest);
  }

  /** Each shortened line goes to the head if the head still has room for it when
      it comes, and is sent to the tail otherwise; both keep the order of arrival. */
  lemma HeadTakesWhatFits(lines: seq<string>)
    ensures var log := AddAll(Log([], []), lines);
            && log.head == Part(524_288, Shortened(lines), true)
            && log.tailed == Part(524_288, Shortened(lines), false)
  {
    AddingAll(Log([], []), [], lines);
    assert [] + Shortened(lines) == Shortened(lines);
  }

  lemma {:induction false} TrimLeftStrips(s: string)
    ensures var r := TrimLeft(s);
            && |r| <= |s| && s[|s| - |r|..] == r && (r != "" ==> !IsSpace(r[0]))
            && forall k :: 0 <= k < |s| - |r| ==> IsSpace(s[k])
    decreases |s|
  {
    if s != "" && IsSpace(s[0]) { TrimLeftStrips(s[1..]); }
  }

  lemma {:induction false} TrimRightStrips(s: string)
    ensures var r := TrimRight(s);
            && |r| <= |s| && s[..|r|] == r && (r != "" ==> !IsSpace(r[|r| - 1]))
            && forall k :: |r| <= k < |s| ==> IsSpace(s[k])
    decreases |s|
  {
    if s != "" && IsSpace(s[|s| - 1]) { TrimRightStrips(s[..|s| - 1]); }
  }

  /** A line is added without the white space around it, cut after 4096 characters. */
  lemma LinesAreShortened(line: string)
    ensures var s := Trim(line);
            && (exists i, j :: 0 <= i <= j <= |line| && Strips(line, i, j, s))
            && (|s| <= 4096 ==> Shorten(line) == s)
            && (|s| > 4096 ==> Shorten(line) == s[..4096] + " [truncated]")
  {
    var left := TrimLeft(line);
    TrimLeftStrips(line);
    TrimRightStrips(left);
    var i := |line| - |left|;
    assert forall k :: i <= k < |line| ==> line[k] == left[k - i];
    assert Strips(line, i, i + |Trim(line)|, Trim(line));
  }

  /** s is line[i..j], with nothing but white space outside and none at its ends. */
  ghost predicate Strips(line: string, i: int, j: int, s: string)
    requires 0 <= i <= j <= |line|
  {
    && s == line[i..j] && (s != "" ==> !IsSpace(s[0]) && !IsSpace(s[|s| - 1]))
    && forall k :: 0 <= k < i || j <= k < |line| ==> IsSpace(line[k])
  }

  /** A snapshot shows the head and the lines of the tail from position d on, the
      longest run that fits 7.5 MiB, after a mark if any were dropped. */
  lemma SnapshotShows(log: Log)
    ensures exists d ::
              && 0 <= d <= |log.tailed|
              && log.Lines() == log.head + (if d > 0 then [OMITTED] else []) + log.tailed[d..]
              && Bytes(log.tailed[d..]) <= 7_864_320 && (d > 0 ==> Bytes(log.tailed[d - 1..]) > 7_864_320)
  {
    var d := |log.tailed| - |Kept(log.tailed)|;
    KeptIsLongestSuffix(log.tailed);
    assert log.tailed[d..] == Kept(log.tailed);
    if d > 0 { assert Bytes(log.tailed[d - 1..]) > TAIL_BYTES; }
  }

  // ----- When the order is kept ----------------------------------------------

  /** From the first line that does not fit on, none does. */
  ghost predicate FitsFirst(limit: nat, lines: seq<string>) {
    forall i, j :: 0 <= i < j < |lines| && Fits(limit, lines, j) ==> Fits(limit, lines, i)
  }

  lemma {:induction false} RoomShrinks(limit: nat, lines: seq<string>, i: nat, j: nat)
    requires i <= j <= |lines|
    ensures Room(limit, lines[..j]) <= Room(limit, lines[..i])
    decreases j - i
  {
    if i < j {
      RoomShrinks(limit, lines, i, j - 1);
      assert lines[..j][..j - 1] == lines[..j - 1];
    }
  }

  lemma PartStep(limit: nat, lines: seq<string>, n: nat, fit: bool)
    requires n < |lines|
    ensures Part(limit, lines[..n + 1], fit)
         == Part(limit, lines[..n], fit) + if Fits(limit, lines, n) == fit then [lines[n]] else []
  {
    assert lines[..n + 1][..n] == lines[..n];
    FitsInPrefix(limit, lines, n + 1, n);
  }

  lemma {:induction false} PartGrows(limit: nat, lines: seq<string>, a: nat, b: nat, fit: bool)
    requires a <= b <= |lines|
    ensures Part(limit, lines[..a], fit) <= Part(limit, lines[..b], fit)
    ensures (forall i: nat :: a <= i < b ==> Fits(limit, lines, i) != fit) ==>
              Part(limit, lines[..b], fit) == Part(limit, lines[..a], fit)
    decreases b - a
  {
    if a < b {
      PartGrows(limit, lines, a, b - 1, fit);
      PartStep(limit, lines, b - 1, fit);
    }
  }

  lemma {:induction false} PartOfRun(limit: nat, lines: seq<string>, a: nat, b: nat, fit: bool)
    requires a <= b <= |lines| && forall i: nat :: a <= i < b ==> Fits(limit, lines, i) == fit
    ensures Part(limit, lines[..b], fit) == Part(limit, lines[..a], fit) + lines[a..b]
    decreases b - a
  {
    if a < b {
      PartOfRun(limit, lines, a, b - 1, fit);
      PartStep(limit, lines, b - 1, fit);
      assert lines[a..b] == lines[a..b - 1] + [lines[b - 1]];
      assert Fits(limit, lines, b - 1) == fit;
    } else {
      assert lines[a..b] == [];
    }
  }

  /** The first line that does not fit, or the number of lines. */
  lemma {:induction false} FirstMiss(limit: nat, lines: seq<string>, n: nat) returns (p: nat)
    requires n <= |lines|
    ensures p <= n && (forall i: nat :: i < p ==> Fits(limit, lines, i)) && (p < n ==> !Fits(limit, lines, p))
    decreases n
  {
    if n == 0 {
      p := 0;
    } else {
      p := FirstMiss(limit, lines, n - 1);
      if p == n - 1 && Fits(limit, lines, p) { p := n; }
    }
  }

  /** Any line that fits after one that does not overtakes it. */
  lemma OvertakenLineMoves(limit: nat, lines: seq<string>, p: nat, q: nat)
    requires p < q < |lines| && Fits(limit, lines, q)
    requires forall i: nat :: i < p ==> Fits(limit, lines, i)
    requires forall i: nat :: p <= i < q ==> !Fits(limit, lines, i)
    ensures |Part(limit, lines, true)| > p && Part(limit, lines, true)[p] == lines[q] != lines[p]
  {
    PartOfRun(limit, lines, 0, p, true);
    PartGrows(limit, lines, p, q, true);
    PartStep(limit, lines, q, true);
    PartGrows(limit, lines, q + 1, |lines|, true);
    assert lines[..|lines|] == lines && lines[..0] == [];
    RoomShrinks(limit, lines, p, q);
    assert !Fits(limit, lines, p);
  }

  lemma {:induction false} FirstFitAfter(limit: nat, lines: seq<string>, p: nat, j: nat) returns (q: nat)
    requires p < j < |lines| && !Fits(limit, lines, p) && Fits(limit, lines, j)
    ensures p < q <= j && Fits(limit, lines, q) && forall i: nat :: p <= i < q ==> !Fits(limit, lines, i)
    decreases j
  {
    q := j;
    if k: nat :| p < k < j && Fits(limit, lines, k) { q := FirstFitAfter(limit, lines, p, k); }
  }

  /** Head and tail together hold the lines in the order they came exactly when
      no line fits into the head after one that did not. */
  lemma OrderKeptExactlyWhen(limit: nat, lines: seq<string>)
    ensures Part(limit, lines, true) + Part(limit, lines, false) == lines <==> FitsFirst(limit, lines)
  {
    var p := FirstMiss(limit, lines, |lines|);
    assert lines[..|lines|] == lines && lines[..0] == [];
    if FitsFirst(limit, lines) {
      PartOfRun(limit, lines, 0, p, true);
      PartGrows(limit, lines, p, |lines|, true);
      PartGrows(limit, lines, 0, p, false);
      PartOfRun(limit, lines, p, |lines|, false);
      assert lines == lines[0..p] + lines[p..|lines|];
    } else {
      var i, j :| 0 <= i < j < |lines| && Fits(limit, lines, j) && !Fits(limit, lines, i);
      var q := FirstFitAfter(limit, lines, p, j);
      OvertakenLineMoves(limit, lines, p, q);
      assert (Part(limit, lines, true) + Part(limit, lines, false))[p] == Part(limit, lines, true)[p];
    }
  }

  /** The log holds the lines added to it in the order they came exactly when no
      line fits into the head after one that did not. */
  lemma LogKeepsOrderExactlyWhen(lines: seq<string>)
    ensures var log := AddAll(Log([], []), lines);
            log.head + log.tailed == Shortened(lines) <==> FitsFirst(524_288, Shortened(lines))
  {
    HeadTakesWhatFits(lines);
    OrderKeptExactlyWhen(524_288, Shortened(lines));
  }

  /** So many lines of this length. */
  function Rows(n: nat, length: nat): (rows: seq<string>)
    ensures |rows| == n && forall i :: 0 <= i < n ==> |rows[i]| == length
  {
    seq(n, i => seq(length, k => 'a'))
  }

  lemma {:induction false} RoomAfterRows(lines: seq<string>, length: nat, limit: nat)
    requires |lines| * (length + 1) <= limit && forall i :: 0 <= i < |lines| ==> |lines[i]| == length
    ensures Room(limit, lines) == limit - |lines| * (length + 1)
    decreases |lines|
  {
    if lines != [] { RoomAfterRows(lines[..|lines| - 1], length, limit); }
  }

  /** It does happen: when 4096 bytes of the head are left, a line of 4096
      characters is sent to the tail, and the short line after it overtakes it. */
  lemma ShortLineOvertakes()
    ensures !FitsFirst(524_288, Rows(127, 4095) + Rows(1, 4096) + Rows(1, 1))
  {
    var rows := Rows(127, 4095);
    var lines := rows + Rows(1, 4096) + Rows(1, 1);
    RoomAfterRows(rows, 4095, 524_288);
    assert lines[..127] == rows;
    assert !Fits(524_288, lines, 127);
    assert lines[..128][..127] == lines[..127];
    assert Fits(524_288, lines, 128);
  }
}
