/** The scoped diagnostic log: a head that is kept, a tail that keeps the most
    recent lines, and the writer that feeds it from a stream of chunks. */
module BoundedLog {
  import opened LineChunks
  import opened Sequences

  const HEAD_BYTES := 524_288      // 512 KiB
  const TAIL_BYTES := 7_864_320    // 7.5 MiB
  const COMPACT_AFTER := 4096
  const MAX_LINE := 4096
  const OMITTED := "--- earlier scoped log lines omitted by bounded tail retention ---"

  predicate IsSpace(c: char) { c == ' ' || c == '\t' || c == '\n' || c == '\r' }

  function TrimLeft(s: string): string { if s != "" && IsSpace(s[0]) then TrimLeft(s[1..]) else s }

  function TrimRight(s: string): string {
    if s != "" && IsSpace(s[|s| - 1]) then TrimRight(s[..|s| - 1]) else s
  }

  function Trim(s: string): string { TrimRight(TrimLeft(s)) }

  /** trimDiagnosticLine */
  function Shorten(line: string): string {
    var s := Trim(line);
    if |s| > MAX_LINE then s[..MAX_LINE] + " [truncated]" else s
  }

  function Bytes(lines: seq<string>): nat {
    if lines == [] then 0 else |lines[0]| + 1 + Bytes(lines[1..])
  }

  lemma {:induction false} BytesConcat(a: seq<string>, b: seq<string>)
    ensures Bytes(a + b) == Bytes(a) + Bytes(b)
    decreases |a|
  {
    if a == [] {
      assert a + b == b;
    } else {
      BytesConcat(a[1..], b);
      assert (a + b)[1..] == a[1..] + b;
    }
  }

  // ----- Retention -----------------------------------------------------------

  /** What the tail keeps of all the lines it was sent. */
  function Kept(lines: seq<string>): (kept: seq<string>)
    ensures Bytes(kept) <= TAIL_BYTES && |kept| <= |lines|
  {
    if Bytes(lines) <= TAIL_BYTES then lines else Kept(lines[1..])
  }

  /** It is the longest suffix that fits. */
  lemma {:induction false} KeptIsLongestSuffix(lines: seq<string>)
    ensures Kept(lines) == lines[|lines| - |Kept(lines)|..]
    ensures forall k :: 0 <= k < |lines| - |Kept(lines)| ==> Bytes(lines[k..]) > TAIL_BYTES
  {
    if Bytes(lines) > TAIL_BYTES {
      KeptIsLongestSuffix(lines[1..]);
      forall k | 0 <= k < |lines| - |Kept(lines)| ensures Bytes(lines[k..]) > TAIL_BYTES {
        if k == 0 {
          assert lines[0..] == lines;
        } else {
          assert lines[k..] == lines[1..][k - 1..];
        }
      }
    }
  }

  /** Dropping early loses nothing: one more line can only push more out. */
  lemma {:induction false} KeptStep(lines: seq<string>, line: string)
    ensures Kept(lines + [line]) == Kept(Kept(lines) + [line])
    ensures |Kept(lines)| < |lines| ==> |Kept(lines + [line])| < |lines| + 1
    decreases |lines|
  {
    var all := lines + [line];
    BytesConcat(lines, [line]);
    if Bytes(lines) > TAIL_BYTES {
      KeptStep(lines[1..], line);
      assert all[1..] == lines[1..] + [line];
    }
  }

  // ----- The log as a value --------------------------------------------------

  /** The lines kept at the head, and every line sent to the tail. */
  datatype Log = Log(head: seq<string>, tailed: seq<string>)
  {
    predicate Truncated() { |Kept(tailed)| < |tailed| }

    function Lines(): seq<string> {
      head + (if Truncated() then [OMITTED] else []) + Kept(tailed)
    }
  }

  function AddSpec(log: Log, line: string): Log {
    var short := Shorten(line);
    if Bytes(log.head) + |short| + 1 <= HEAD_BYTES then log.(head := log.head + [short])
    else log.(tailed := log.tailed + [short])
  }

  class BoundedLineLog {
    var head: seq<string>
    var tail: seq<string>
    var headBytes: nat
    var tailBytes: nat
    var tailStart: nat
    var truncated: bool
    ghost var tailed: seq<string>

    ghost function View(): Log
      reads this
    {
      Log(head, tailed)
    }

    ghost predicate Valid()
      reads this
    {
      && headBytes == Bytes(head)
      && tailStart <= |tail|
      && tail[tailStart..] == Kept(tailed)
      && tailBytes == Bytes(tail[tailStart..])
      && (truncated <==> View().Truncated())
      // dead slots never outnumber both the threshold and the live ones
      && (tailStart <= COMPACT_AFTER || tailStart <= |tail| - tailStart)
    }

    constructor ()
      ensures Valid() && View() == Log([], [])
    {
      head, tail, headBytes, tailBytes, tailStart, truncated, tailed := [], [], 0, 0, 0, false, [];
    }

    method Add(line: string)
      requires Valid()
      modifies this
      ensures Valid() && View() == AddSpec(old(View()), line)
      ensures tailStart <= COMPACT_AFTER || tailStart <= |tail| - tailStart
    {
      var short := Shorten(line);
      var size := |short| + 1;
      if headBytes + size <= HEAD_BYTES {
        BytesConcat(head, [short]);
        head := head + [short];
        headBytes := headBytes + size;
        return;
      }
      AppendToTail(short);
      if tailStart > COMPACT_AFTER && tailStart * 2 > |tail| {
        tail := tail[tailStart..];
        tailStart := 0;
      }
    }

    /** Append, then drop from the front until the tail fits. */
    method AppendToTail(short: string)
      requires Valid()
      modifies this`tail, this`tailBytes, this`tailStart, this`truncated, this`tailed
      ensures tailStart <= |tail| && tail[tailStart..] == Kept(tailed) && tailBytes == Bytes(tail[tailStart..])
      ensures tailed == old(tailed) + [short] && (truncated <==> View().Truncated())
    {
      ghost var before := tail[tailStart..];
      KeptStep(tailed, short);
      BytesConcat(before, [short]);
      tail := tail + [short];
      tailBytes := tailBytes + |short| + 1;
      tailed := tailed + [short];
      ghost var goal := Kept(tailed);
      assert tail[tailStart..] == before + [short];
      while tailBytes > TAIL_BYTES && tailStart < |tail|
        invariant tailStart <= |tail| && tailed == old(tailed) + [short]
        invariant Kept(tail[tailStart..]) == goal && tailBytes == Bytes(tail[tailStart..])
        invariant truncated <==> old(truncated) || |tail[tailStart..]| < |before| + 1
        invariant |tail[tailStart..]| <= |before| + 1
        decreases |tail| - tailStart
      {
        assert tail[tailStart..][1..] == tail[tailStart + 1..];
        tailBytes := tailBytes - (|tail[tailStart]| + 1);
        tailStart := tailStart + 1;
        truncated := true;
      }
    }

    method Value() returns (lines: seq<string>, cut: bool)
      requires Valid()
      ensures lines == View().Lines() && cut == View().Truncated()
    {
      lines := head;
      if truncated {
        lines := lines + [OMITTED];
      }
      lines := lines + tail[tailStart..];
      cut := truncated;
    }
  }

  // ----- The writer ----------------------------------------------------------

  /** What the line heuristics read off a line. */
  datatype Heuristics = Heuristics(
    pid: string -> int, mentions: string -> bool,
    deaths: string -> set<int>, births: string -> set<int>,
    redact: string -> string)

  datatype Scope = Scope(pids: set<int>, log: Log)

  function AddLine(h: Heuristics, s: Scope, raw: string): Scope {
    var line := Trim(raw);
    if line == "" then s
    else
      var alive := s.pids - h.deaths(line);
      var pids := if h.mentions(line) then alive + h.births(line) else alive;
      if !h.mentions(line) && h.pid(line) !in pids then s.(pids := pids)
      else Scope(pids, AddSpec(s.log, h.redact(line)))
  }

  function AddLines(h: Heuristics, s: Scope, lines: seq<string>): Scope {
    if lines == [] then s else AddLine(h, AddLines(h, s, lines[..|lines| - 1]), lines[|lines| - 1])
  }

  lemma {:induction false} AddLinesConcat(h: Heuristics, s: Scope, a: seq<string>, b: seq<string>)
    ensures AddLines(h, s, a + b) == AddLines(h, AddLines(h, s, a), b)
    decreases |b|
  {
    if b == [] {
      assert a + b == a;
    } else {
      AddLinesConcat(h, s, a, b[..|b| - 1]);
      assert (a + b)[..|a + b| - 1] == a + b[..|b| - 1];
    }
  }

  /** Blank lines leave no trace. */
  lemma {:induction false} OnlyNonEmptyLinesCount(h: Heuristics, s: Scope, lines: seq<string>)
    ensures AddLines(h, s, lines) == AddLines(h, s, NonEmpty(lines))
    decreases |lines|
  {
    if lines != [] {
      var init, last := lines[..|lines| - 1], lines[|lines| - 1];
      OnlyNonEmptyLinesCount(h, s, init);
      if last == "" {
        assert NonEmpty(init) + [] == NonEmpty(init);
      } else {
        var kept := NonEmpty(init) + [last];
        assert kept[..|kept| - 1] == NonEmpty(init);
      }
    }
  }

  class ScopedLogWriter {
    const heuristics: Heuristics
    const log: BoundedLineLog
    var pids: set<int>
    var pending: string
    ghost var emitted: seq<string>

    ghost predicate Valid()
      reads this, log
    {
      log.Valid()
    }

    ghost function View(): Scope
      reads this, log
    {
      Scope(pids, log.View())
    }

    ghost function Position(): Cursor
      reads this
    {
      Cursor(emitted, pending)
    }

    constructor (heuristics: Heuristics, pids: set<int>)
      ensures fresh(log) && Valid() && this.heuristics == heuristics
      ensures View() == Scope(pids, Log([], [])) && Position() == Cursor([], "")
    {
      this.heuristics, this.pids, pending, emitted := heuristics, pids, "", [];
      log := new BoundedLineLog();
    }

    method AddLineLocked(raw: string)
      requires Valid()
      modifies this`pids, this`emitted, log
      ensures Valid() && View() == AddLine(heuristics, old(View()), raw)
      ensures emitted == old(emitted) + [raw]
    {
      emitted := emitted + [raw];
      var line := Trim(raw);
      if line == "" { return; }
      var mentioned := heuristics.mentions(line);
      pids := pids - heuristics.deaths(line);
      if mentioned {
        pids := pids + heuristics.births(line);
      }
      if !mentioned && heuristics.pid(line) !in pids { return; }
      log.Add(heuristics.redact(line));
    }

    /** Takes the first complete line off the pending bytes. */
    method DrainLine() returns (ghost line: string)
      requires Valid() && '\n' in pending
      modifies this`pids, this`emitted, this`pending, log
      ensures Valid() && View() == AddLine(heuristics, old(View()), line)
      ensures emitted == old(emitted) + [line] && |pending| < |old(pending)|
      ensures Complete(old(pending)) == [line] + Complete(pending) && Partial(old(pending)) == Partial(pending)
    {
      var index := FirstNewline(pending);
      var first, rest := pending[..index], pending[index + 1..];
      assert pending == first + "\n" + rest;
      FirstLine(first, rest);
      AddLineLocked(first);
      pending := rest;
      line := first;
    }

    /** The complete lines of the pending bytes, in order. */
    method DrainLines()
      requires Valid()
      modifies this`pids, this`emitted, this`pending, log
      ensures Valid() && View() == AddLines(heuristics, old(View()), Complete(old(pending)))
      ensures emitted == old(emitted) + Complete(old(pending)) && pending == Partial(old(pending))
    {
      ghost var drained: seq<string> := [];
      while '\n' in pending
        invariant Valid() && View() == AddLines(heuristics, old(View()), drained)
        invariant emitted == old(emitted) + drained
        invariant drained + Complete(pending) == Complete(old(pending)) && Partial(pending) == Partial(old(pending))
        decreases |pending|
      {
        ghost var line := DrainLine();
        assert (drained + [line])[..|drained|] == drained;
        Associate(drained, [line], Complete(pending));
        drained := drained + [line];
      }
      UnbrokenSplit(pending);
      assert drained + [] == drained;
    }

    method Write(value: string)
      requires Valid()
      modifies this`pids, this`emitted, this`pending, log
      ensures Valid() && Position() == Feed(old(Position()), value)
      ensures old(emitted) <= emitted
      ensures View() == AddLines(heuristics, old(View()), emitted[|old(emitted)|..])
    {
      pending := pending + value;
      ghost var text := pending;
      DrainLines();
      assert emitted[|old(emitted)|..] == Complete(text);
      if |pending| > LIMIT {
        AddLineLocked(pending);
        pending := "";
        ghost var more := Complete(text) + [Partial(text)];
        assert emitted[|old(emitted)|..] == more && more[..|more| - 1] == Complete(text);
      }
    }

    method Snapshot() returns (lines: seq<string>, cut: bool)
      requires Valid()
      modifies this`pids, this`emitted, this`pending, log
      ensures Valid()
      ensures var s := AddLines(heuristics, old(View()), [old(pending)]);
              View() == s && lines == s.log.Lines() && cut == s.log.Truncated()
    {
      assert [pending][..0] == [];
      if |pending| > 0 {
        AddLineLocked(pending);
        pending := "";
      }
      lines, cut := log.Value();
    }
  }

  method FirstNewline(s: string) returns (index: nat)
    requires '\n' in s
    ensures index < |s| && s[index] == '\n' && '\n' !in s[..index]
  {
    index := 0;
    while s[index] != '\n'
      invariant index < |s| && '\n' !in s[..index]
      decreases |s| - index
    {
      index := index + 1;
      assert exists k :: 0 <= k < |s| && s[k] == '\n';
    }
  }

  /** The snapshot after a stream written in these chunks. */
  method Capture(h: Heuristics, pids: set<int>, chunks: seq<string>) returns (lines: seq<string>, cut: bool)
    ensures var s := AddLines(h, Scope(pids, Log([], [])), Handed(chunks));
            lines == s.log.Lines() && cut == s.log.Truncated()
  {
    var start := Scope(pids, Log([], []));
    var w := new ScopedLogWriter(h, pids);
    for i := 0 to |chunks|
      invariant w.Valid() && w.heuristics == h && fresh(w) && fresh(w.log)
      invariant w.Position() == FeedAll(Cursor([], ""), chunks[..i])
      invariant w.View() == AddLines(h, start, w.emitted)
    {
      assert chunks[..i + 1][..i] == chunks[..i];
      ghost var before := w.emitted;
      w.Write(chunks[i]);
      AddLinesConcat(h, start, before, w.emitted[|before|..]);
      assert before + w.emitted[|before|..] == w.emitted;
    }
    assert chunks[..|chunks|] == chunks;
    AddLinesConcat(h, start, w.emitted, [w.pending]);
    lines, cut := w.Snapshot();
  }

  /** When no line runs more than one byte over the limit, the snapshot depends
      on the concatenated bytes alone. */
  lemma SnapshotIgnoresChunks(h: Heuristics, s: Scope, a: seq<string>, b: seq<string>)
    requires Concat(a) == Concat(b) && Bounded(Concat(a))
    ensures AddLines(h, s, Handed(a)) == AddLines(h, s, Handed(b))
  {
    BoundedStreamsIgnoreChunks(a);
    BoundedStreamsIgnoreChunks(b);
    OnlyNonEmptyLinesCount(h, s, Handed(a));
    OnlyNonEmptyLinesCount(h, s, Handed(b));
  }
}
