/** Which lines of a device log belong to the app: those that mention it and
    those of its living processes. */
module LogScope {
  import opened BoundedLog
  import opened LogOrder

  /** Process p belongs to the app after these lines: it did at the start or was
      born in a line that mentions the app, and has not died since. */
  predicate Alive(h: Heuristics, start: set<int>, lines: seq<string>, p: int)
    decreases |lines|
  {
    if lines == [] then p in start
    else
      var before, last := lines[..|lines| - 1], Trim(lines[|lines| - 1]);
      if last == "" then Alive(h, start, before, p)
      else if h.mentions(last) && p in h.births(last) then true
      else p !in h.deaths(last) && Alive(h, start, before, p)
  }

  /** A line that is kept: not blank, and about the app or one of its processes. */
  predicate Belongs(h: Heuristics, start: set<int>, lines: seq<string>)
    requires lines != []
  {
    var last := Trim(lines[|lines| - 1]);
    last != "" && (h.mentions(last) || Alive(h, start, lines, h.pid(last)))
  }

  /** The lines that are kept, redacted, in order. */
  function Scoped(h: Heuristics, start: set<int>, lines: seq<string>): seq<string>
    decreases |lines|
  {
    if lines == [] then []
    else
      Scoped(h, start, lines[..|lines| - 1])
      + if Belongs(h, start, lines) then [h.redact(Trim(lines[|lines| - 1]))] else []
  }

  lemma {:induction false} AddAllSnoc(log: Log, lines: seq<string>, line: string)
    ensures AddAll(log, lines + [line]) == AddSpec(AddAll(log, lines), line)
    decreases |lines|
  {
    var all := lines + [line];
    if lines == [] {
      assert all[1..] == [];
    } else {
      assert all[1..] == lines[1..] + [line];
      AddAllSnoc(AddSpec(log, lines[0]), lines[1..], line);
    }
  }

  /** What a stream of lines leaves: the processes that are alive, and a log of
      exactly the lines that belong to the app. */
  lemma {:induction false} LogHoldsWhatBelongs(h: Heuristics, start: set<int>, log: Log, lines: seq<string>)
    ensures var s := AddLines(h, Scope(start, log), lines);
            (forall p :: p in s.pids <==> Alive(h, start, lines, p))
            && s.log == AddAll(log, Scoped(h, start, lines))
    decreases |lines|
  {
    if lines != [] {
      var before, last := lines[..|lines| - 1], lines[|lines| - 1];
      LogHoldsWhatBelongs(h, start, log, before);
      var next := AddLines(h, Scope(start, log), lines);
      assert forall p :: p in next.pids <==> Alive(h, start, lines, p);
      assert Scoped(h, start, before) + [] == Scoped(h, start, before);
      if Belongs(h, start, lines) { AddAllSnoc(log, Scoped(h, start, before), h.redact(Trim(last))); }
    }
  }
}
