/** Splitting a byte stream into lines, whole or in chunks. A writer keeps the
    unfinished line between chunks, but gives up on one that grows too long. */
module LineChunks {
  import opened Sequences

  const LIMIT := 65536

  /** The lines of a text; the last one is unfinished. */
  function Split(text: string): (lines: seq<string>)
    ensures lines != []
  {
    if text == "" then [""]
    else
      var lines, c := Split(text[..|text| - 1]), text[|text| - 1];
      if c == '\n' then lines + [""]
      else lines[..|lines| - 1] + [lines[|lines| - 1] + [c]]
  }

  function Complete(text: string): seq<string> { Split(text)[..|Split(text)| - 1] }

  function Partial(text: string): string { Split(text)[|Split(text)| - 1] }

  lemma LinesAreUnbroken(text: string)
    ensures forall i :: 0 <= i < |Split(text)| ==> '\n' !in Split(text)[i]
  {
  }

  lemma SplitIs(text: string)
    ensures Split(text) == Complete(text) + [Partial(text)]
  {
  }

  lemma SplitStep(text: string, c: char)
    ensures Complete(text + [c]) == Complete(text) + (if c == '\n' then [Partial(text)] else [])
    ensures Partial(text + [c]) == if c == '\n' then "" else Partial(text) + [c]
  {
    assert (text + [c])[..|text|] == text;
    SplitIs(text);
  }

  /** What comes after a point depends on the unfinished line there only. */
  lemma {:induction false} SplitConcat(a: string, b: string)
    ensures Complete(a + b) == Complete(a) + Complete(Partial(a) + b)
    ensures Partial(a + b) == Partial(Partial(a) + b)
    decreases |b|
  {
    if b == "" {
      assert a + b == a && Partial(a) + b == Partial(a);
      LinesAreUnbroken(a);
      UnbrokenSplit(Partial(a));
    } else {
      var init, c := b[..|b| - 1], b[|b| - 1];
      SplitConcat(a, init);
      assert a + b == (a + init) + [c] && Partial(a) + b == (Partial(a) + init) + [c];
      SplitStep(a + init, c);
      SplitStep(Partial(a) + init, c);
      Associate(Complete(a), Complete(Partial(a) + init), if c == '\n' then [Partial(a + init)] else []);
    }
  }

  lemma {:induction false} UnbrokenSplit(line: string)
    requires '\n' !in line
    ensures Split(line) == [line] && Complete(line) == [] && Partial(line) == line
    decreases |line|
  {
    if line != "" {
      UnbrokenSplit(line[..|line| - 1]);
      SplitStep(line[..|line| - 1], line[|line| - 1]);
      assert line == line[..|line| - 1] + [line[|line| - 1]];
    }
  }

  lemma FirstLine(line: string, rest: string)
    requires '\n' !in line
    ensures Complete(line + "\n" + rest) == [line] + Complete(rest)
    ensures Partial(line + "\n" + rest) == Partial(rest)
  {
    UnbrokenSplit(line);
    SplitStep(line, '\n');
    SplitConcat(line + "\n", rest);
    assert "" + rest == rest;
  }

  // ----- Chunked writing -----------------------------------------------------

  /** The lines handed on so far, and the unfinished one kept back. */
  datatype Cursor = Cursor(emitted: seq<string>, pending: string)

  function Feed(c: Cursor, chunk: string): Cursor {
    var text := c.pending + chunk;
    if |Partial(text)| > LIMIT then Cursor(c.emitted + Complete(text) + [Partial(text)], "")
    else Cursor(c.emitted + Complete(text), Partial(text))
  }

  function FeedAll(c: Cursor, chunks: seq<string>): Cursor {
    if chunks == [] then c else Feed(FeedAll(c, chunks[..|chunks| - 1]), chunks[|chunks| - 1])
  }

  function Concat(chunks: seq<string>): string {
    if chunks == [] then "" else Concat(chunks[..|chunks| - 1]) + chunks[|chunks| - 1]
  }

  /** Everything handed on once the stream has ended. */
  function Handed(chunks: seq<string>): seq<string> {
    var c := FeedAll(Cursor([], ""), chunks); c.emitted + [c.pending]
  }

  function NonEmpty(lines: seq<string>): seq<string> {
    if lines == [] then []
    else
      var last := lines[|lines| - 1];
      NonEmpty(lines[..|lines| - 1]) + if last == "" then [] else [last]
  }

  lemma {:induction false} NonEmptyConcat(a: seq<string>, b: seq<string>)
    ensures NonEmpty(a + b) == NonEmpty(a) + NonEmpty(b)
    decreases |b|
  {
    if b == [] {
      assert a + b == a;
    } else {
      NonEmptyConcat(a, b[..|b| - 1]);
      assert (a + b)[..|a + b| - 1] == a + b[..|b| - 1];
    }
  }

  lemma NonEmptyOne(line: string)
    ensures NonEmpty([line]) == if line == "" then [] else [line]
  {
    assert [line][..0] == [];
  }

  /** What a chunk hands on when no line is pending. */
  function Hands(chunk: string): seq<string> {
    if |Partial(chunk)| > LIMIT then NonEmpty(Complete(chunk)) + [Partial(chunk)] else NonEmpty(Complete(chunk))
  }

  /** What one chunk hands on. */
  lemma FeedHands(c: Cursor, chunk: string)
    ensures var text := c.pending + chunk;
            && NonEmpty(Feed(c, chunk).emitted) == NonEmpty(c.emitted) + Hands(text)
            && Feed(c, chunk).pending == if |Partial(text)| > LIMIT then "" else Partial(text)
  {
    var text := c.pending + chunk;
    NonEmptyConcat(c.emitted, Complete(text));
    if |Partial(text)| > LIMIT {
      NonEmptyConcat(c.emitted + Complete(text), [Partial(text)]);
      NonEmptyOne(Partial(text));
      Associate(NonEmpty(c.emitted), NonEmpty(Complete(text)), [Partial(text)]);
    }
  }

  lemma FeedFresh(c: Cursor, chunk: string)
    requires c.pending == ""
    ensures NonEmpty(Feed(c, chunk).emitted) == NonEmpty(c.emitted) + Hands(chunk)
    ensures Feed(c, chunk).pending == if |Partial(chunk)| > LIMIT then "" else Partial(chunk)
  {
    FeedHands(c, chunk);
    assert c.pending + chunk == chunk;
  }

  // ----- When chunking does not matter ---------------------------------------

  /** No line is longer than the limit by more than one. */
  ghost predicate Bounded(text: string) {
    (forall i :: 0 <= i < |Complete(text)| ==> |Complete(text)[i]| <= LIMIT + 1) && |Partial(text)| <= LIMIT + 1
  }

  lemma {:induction false} BoundedPrefix(a: string, b: string)
    requires Bounded(a + b)
    ensures Bounded(a)
    decreases |b|
  {
    if b == "" {
      assert a + b == a;
    } else {
      var init, c := b[..|b| - 1], b[|b| - 1];
      assert a + b == (a + init) + [c];
      SplitStep(a + init, c);
      var complete := Complete(a + init);
      assert forall i :: 0 <= i < |complete| ==> Complete(a + b)[i] == complete[i];
      if c == '\n' { assert Complete(a + b)[|complete|] == Partial(a + init); }
      BoundedPrefix(a, init);
    }
  }

  /** The cursor has handed on the finished lines of the text, and at most the
      unfinished one besides, if that is one over the limit. */
  ghost predicate Agrees(c: Cursor, text: string) {
    var done := NonEmpty(Complete(text));
    || (c.pending == Partial(text) && |c.pending| <= LIMIT && NonEmpty(c.emitted) == done)
    || (c.pending == "" && |Partial(text)| == LIMIT + 1 && NonEmpty(c.emitted) == done + [Partial(text)])
  }

  lemma FeedKept(c: Cursor, text: string, chunk: string)
    requires Bounded(text + chunk) && c.pending == Partial(text)
    requires NonEmpty(c.emitted) == NonEmpty(Complete(text))
    ensures Agrees(Feed(c, chunk), text + chunk)
  {
    SplitConcat(text, chunk);
    FeedHands(c, chunk);
    NonEmptyConcat(Complete(text), Complete(c.pending + chunk));
  }

  lemma FeedGivenUp(c: Cursor, text: string, chunk: string)
    requires Bounded(text + chunk) && chunk != "" && c.pending == "" && |Partial(text)| == LIMIT + 1
    requires NonEmpty(c.emitted) == NonEmpty(Complete(text)) + [Partial(text)]
    ensures chunk[0] == '\n'
    ensures Agrees(Feed(c, chunk), text + chunk)
  {
    NextIsNewline(text, chunk);
    var rest := chunk[1..];
    assert text + chunk == (text + "\n") + rest;
    assert chunk == "\n" + rest;
    FeedAfterGivenUp(c, text, rest);
    SkipsEmptyLine(c, rest);
    AgreesOnNonEmpty(Feed(c, rest), Feed(c, chunk), text + chunk);
  }

  /** The newline ends the line that was given up; what follows is as if kept. */
  lemma FeedAfterGivenUp(c: Cursor, text: string, rest: string)
    requires Bounded((text + "\n") + rest) && c.pending == "" && Partial(text) != ""
    requires NonEmpty(c.emitted) == NonEmpty(Complete(text)) + [Partial(text)]
    ensures Agrees(Feed(c, rest), (text + "\n") + rest)
  {
    SplitStep(text, '\n');
    NonEmptyConcat(Complete(text), [Partial(text)]);
    NonEmptyOne(Partial(text));
    FeedKept(c, text + "\n", rest);
  }

  lemma NextIsNewline(text: string, chunk: string)
    requires Bounded(text + chunk) && chunk != "" && |Partial(text)| == LIMIT + 1
    ensures chunk[0] == '\n'
  {
    assert text + chunk == (text + [chunk[0]]) + chunk[1..];
    BoundedPrefix(text + [chunk[0]], chunk[1..]);
    SplitStep(text, chunk[0]);
  }

  lemma EmptyFirstLine(rest: string)
    ensures NonEmpty(Complete("\n" + rest)) == NonEmpty(Complete(rest))
    ensures Partial("\n" + rest) == Partial(rest)
  {
    FirstLine("", rest);
    assert "" + "\n" + rest == "\n" + rest;
    NonEmptyConcat([""], Complete(rest));
    NonEmptyOne("");
  }

  lemma SkipsEmptyLine(c: Cursor, rest: string)
    requires c.pending == ""
    ensures NonEmpty(Feed(c, "\n" + rest).emitted) == NonEmpty(Feed(c, rest).emitted)
    ensures Feed(c, "\n" + rest).pending == Feed(c, rest).pending
  {
    EmptyFirstLine(rest);
    FeedFresh(c, "\n" + rest);
    FeedFresh(c, rest);
  }

  lemma AgreesOnNonEmpty(c: Cursor, d: Cursor, text: string)
    requires Agrees(c, text) && c.pending == d.pending && NonEmpty(c.emitted) == NonEmpty(d.emitted)
    ensures Agrees(d, text)
  {
  }

  lemma FeedAgrees(c: Cursor, text: string, chunk: string)
    requires Agrees(c, text) && Bounded(text + chunk)
    ensures Agrees(Feed(c, chunk), text + chunk)
  {
    if chunk == "" {
      assert text + chunk == text && c.pending + chunk == c.pending;
      assert '\n' !in c.pending by { LinesAreUnbroken(text); }
      UnbrokenSplit(c.pending);
      assert c.emitted + [] == c.emitted;
    } else if c.pending == Partial(text) && |c.pending| <= LIMIT {
      FeedKept(c, text, chunk);
    } else {
      FeedGivenUp(c, text, chunk);
    }
  }

  lemma {:induction false} ChunksAgree(chunks: seq<string>)
    requires Bounded(Concat(chunks))
    ensures Agrees(FeedAll(Cursor([], ""), chunks), Concat(chunks))
    decreases |chunks|
  {
    if chunks == [] {
      assert Split("") == [""];
    } else {
      var init, last := chunks[..|chunks| - 1], chunks[|chunks| - 1];
      BoundedPrefix(Concat(init), last);
      ChunksAgree(init);
      FeedAgrees(FeedAll(Cursor([], ""), init), Concat(init), last);
    }
  }

  /** Bounded streams: the lines handed on are the lines of the concatenation,
      however it was cut into chunks. */
  lemma BoundedStreamsIgnoreChunks(chunks: seq<string>)
    requires Bounded(Concat(chunks))
    ensures NonEmpty(Handed(chunks)) == NonEmpty(Split(Concat(chunks)))
  {
    var text, c := Concat(chunks), FeedAll(Cursor([], ""), chunks);
    ChunksAgree(chunks);
    SplitIs(text);
    NonEmptyConcat(c.emitted, [c.pending]);
    NonEmptyConcat(Complete(text), [Partial(text)]);
    NonEmptyOne(c.pending);
    NonEmptyOne(Partial(text));
  }

  // ----- And when it does ----------------------------------------------------

  /** A cut inside a line, one past the limit. */
  ghost predicate CutsLongLine(text: string, n: nat) {
    n < |text| && |Partial(text[..n])| == LIMIT + 1 && text[n] != '\n'
  }

  lemma LimitIsPassed(text: string, c: char)
    requires Bounded(text) && !Bounded(text + [c])
    ensures |Partial(text)| == LIMIT + 1 && c != '\n'
  {
    SplitStep(text, c);
  }

  lemma {:induction false} LongLineCanBeCut(text: string)
    requires !Bounded(text)
    ensures exists n: nat :: CutsLongLine(text, n)
    decreases |text|
  {
    if text != "" {
      var init, c := text[..|text| - 1], text[|text| - 1];
      assert text == init + [c];
      SplitStep(init, c);
      if Bounded(init) {
        LimitIsPassed(init, c);
        assert CutsLongLine(text, |init|);
      } else {
        LongLineCanBeCut(init);
        var n: nat :| CutsLongLine(init, n);
        assert init[..n] == text[..n];
        assert CutsLongLine(text, n);
      }
    }
  }

  function Prepend(p: string, lines: seq<string>): seq<string>
    requires lines != []
  {
    [p + lines[0]] + lines[1..]
  }

  lemma PrependStep(p: string, lines: seq<string>, c: char)
    requires lines != []
    ensures Prepend(p, lines + [""]) == Prepend(p, lines) + [""]
    ensures var l, q := lines[|lines| - 1], Prepend(p, lines);
            Prepend(p, lines[..|lines| - 1] + [l + [c]]) == q[..|q| - 1] + [q[|q| - 1] + [c]]
  {
    if |lines| == 1 {
      assert p + (lines[0] + [c]) == (p + lines[0]) + [c];
    }
  }

  lemma SplitSnoc(text: string, c: char)
    ensures var lines := Split(text);
            Split(text + [c]) == if c == '\n' then lines + [""] else lines[..|lines| - 1] + [lines[|lines| - 1] + [c]]
  {
    assert (text + [c])[..|text|] == text;
  }

  lemma {:induction false} PrefixOfLine(p: string, b: string)
    requires '\n' !in p
    ensures Split(p + b) == Prepend(p, Split(b))
    decreases |b|
  {
    if b == "" {
      UnbrokenSplit(p);
      assert p + b == p && p + "" == p;
    } else {
      var init, c := b[..|b| - 1], b[|b| - 1];
      PrefixOfLine(p, init);
      assert p + b == (p + init) + [c] && b == init + [c];
      SplitSnoc(p + init, c);
      SplitSnoc(init, c);
      PrependStep(p, Split(init), c);
    }
  }

  lemma {:induction false} FirstLineStarts(b: string)
    requires b != "" && b[0] != '\n'
    ensures Split(b)[0] != ""
    decreases |b|
  {
    var init, c := b[..|b| - 1], b[|b| - 1];
    assert b == init + [c];
    SplitStep(init, c);
    SplitIs(init);
    SplitIs(b);
    if init != "" {
      FirstLineStarts(init);
    } else {
      assert Split(init) == [""];
    }
  }

  lemma HandedEnds(chunks: seq<string>)
    ensures var c := FeedAll(Cursor([], ""), chunks);
            NonEmpty(Handed(chunks)) == NonEmpty(c.emitted) + if c.pending == "" then [] else [c.pending]
  {
    var c := FeedAll(Cursor([], ""), chunks);
    NonEmptyConcat(c.emitted, [c.pending]);
    NonEmptyOne(c.pending);
  }

  lemma NonEmptySplit(text: string)
    ensures NonEmpty(Split(text)) == NonEmpty(Complete(text)) + if Partial(text) == "" then [] else [Partial(text)]
  {
    SplitIs(text);
    NonEmptyConcat(Complete(text), [Partial(text)]);
    NonEmptyOne(Partial(text));
  }

  lemma FeedOne(chunk: string)
    ensures FeedAll(Cursor([], ""), [chunk]) == Feed(Cursor([], ""), chunk)
  {
    assert [chunk][..0] == [];
    assert FeedAll(Cursor([], ""), []) == Cursor([], "");
  }

  lemma HandedWhole(text: string)
    ensures NonEmpty(Handed([text])) == NonEmpty(Split(text))
  {
    var start := Cursor([], "");
    var done, last := NonEmpty(Complete(text)), Partial(text);
    FeedOne(text);
    FeedFresh(start, text);
    HandedEnds([text]);
    NonEmptySplit(text);
    assert NonEmpty(start.emitted) == [] && [] + Hands(text) == Hands(text);
  }

  lemma HandedInTwo(text: string, n: nat)
    requires CutsLongLine(text, n)
    ensures NonEmpty(Handed([text[..n], text[n..]]))
            == (NonEmpty(Complete(text[..n])) + [Partial(text[..n])]) + NonEmpty(Split(text[n..]))
  {
    var a, b := text[..n], text[n..];
    var start := Cursor([], "");
    var c := Feed(start, a);
    FeedOne(a);
    FeedFresh(start, a);
    FeedFresh(c, b);
    assert [a, b][..1] == [a];
    assert FeedAll(start, [a, b]) == Feed(c, b);
    HandedEnds([a, b]);
    NonEmptySplit(b);
    var first, done, last := NonEmpty(Complete(a)) + [Partial(a)], NonEmpty(Complete(b)), Partial(b);
    assert NonEmpty(start.emitted) == [] && [] + first == first;
    if |last| > LIMIT {
      assert (first + (done + [last])) + [] == first + (done + [last]);
    } else {
      assert done + [] == done;
      Associate(first, done, if last == "" then [] else [last]);
    }
  }

  lemma PrependKeepsCount(p: string, lines: seq<string>)
    requires lines != [] && lines[0] != ""
    ensures |NonEmpty(Prepend(p, lines))| == |NonEmpty(lines)|
  {
    NonEmptyConcat([p + lines[0]], lines[1..]);
    NonEmptyConcat([lines[0]], lines[1..]);
    NonEmptyOne(p + lines[0]);
    NonEmptyOne(lines[0]);
    assert lines == [lines[0]] + lines[1..];
  }

  lemma SplitAtCut(a: string, b: string)
    ensures Split(a + b) == Complete(a) + Prepend(Partial(a), Split(b))
  {
    var p := Partial(a);
    SplitConcat(a, b);
    SplitIs(a + b);
    SplitIs(p + b);
    LinesAreUnbroken(a);
    PrefixOfLine(p, b);
    Associate(Complete(a), Complete(p + b), [Partial(p + b)]);
  }

  lemma CutAddsALine(a: string, b: string)
    requires b != "" && b[0] != '\n' && Partial(a) != ""
    ensures |NonEmpty(Split(a + b))| == |NonEmpty(Complete(a))| + |NonEmpty(Split(b))|
  {
    SplitAtCut(a, b);
    NonEmptyConcat(Complete(a), Prepend(Partial(a), Split(b)));
    FirstLineStarts(b);
    PrependKeepsCount(Partial(a), Split(b));
  }

  /** The bound is exact: a stream with a longer line can be cut in two so that
      one line more is handed on than when it is written whole. */
  lemma LongLinesDependOnChunks(text: string)
    requires !Bounded(text)
    ensures exists n :: 0 <= n <= |text| &&
              |NonEmpty(Handed([text[..n], text[n..]]))| == |NonEmpty(Handed([text]))| + 1
  {
    LongLineCanBeCut(text);
    var n: nat :| CutsLongLine(text, n);
    assert text == text[..n] + text[n..];
    HandedInTwo(text, n);
    HandedWhole(text);
    CutAddsALine(text[..n], text[n..]);
  }
}
