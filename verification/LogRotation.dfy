/** A rotating log: when a write would overflow the live file, numbered backups
    are shifted and the live file becomes the first of them. File operations are
    assumed to succeed; compression is the identity on content. */
module LogRotation {

  type Bytes = seq<bv8>

  /** path, path.k (or path.k.gz), and the intermediate path.rotate. */
  datatype Name = Live | Backup(index: nat) | Rotating

  datatype Options = Options(maxBytes: nat, backups: nat, compress: bool)
  {
    predicate Valid() { maxBytes >= 1 && backups >= 1 }
  }

  type Files = map<Name, Bytes>

  function ContentOf(files: Files, name: Name): Bytes { if name in files then files[name] else [] }

  /** What a rotation leaves: every backup one number higher, the oldest gone,
      the live file as number one. */
  ghost predicate Shifted(before: Files, after: Files, backups: nat) {
    && Live !in after
    && (forall k :: 1 <= k < backups ==> ContentOf(after, Backup(k + 1)) == ContentOf(before, Backup(k)))
    && ContentOf(after, Backup(1)) == ContentOf(before, Live)
  }

  class FileSystem {
    var files: Files

    constructor (files: Files)
      ensures this.files == files
    {
      this.files := files;
    }

    method Remove(name: Name)
      modifies this
      ensures files == old(files) - {name}
    {
      files := files - {name};
    }

    /** rename of IEEE Std 1003.1: replaces the target; fails without a source. */
    method Rename(source: Name, target: Name) returns (found: bool)
      requires source != target
      modifies this
      ensures found <==> source in old(files)
      ensures files == if found then old(files)[target := old(files)[source]] - {source} else old(files)
    {
      if source !in files { return false; }
      files := files[target := files[source]] - {source};
      return true;
    }

    /** compressFile: refuses to overwrite. */
    method Compress(source: Name, target: Name)
      requires source in files && target !in files
      modifies this
      ensures files == old(files)[target := old(files)[source]]
    {
      files := files[target := files[source]];
    }

    method Append(name: Name, data: Bytes)
      modifies this
      ensures files == old(files)[name := ContentOf(old(files), name) + data]
    {
      files := files[name := ContentOf(files, name) + data];
    }
  }

  /** Backups above `index` have moved up; the others are where they were. */
  ghost predicate ShiftedAbove(before: Files, after: Files, index: nat, n: nat) {
    && (forall k :: index < k < n ==> ContentOf(after, Backup(k + 1)) == ContentOf(before, Backup(k)))
    && (forall k :: 1 <= k <= index ==>
          (Backup(k) in after <==> Backup(k) in before) && ContentOf(after, Backup(k)) == ContentOf(before, Backup(k)))
    && Backup(index + 1) !in after
    && (Live in after <==> Live in before) && ContentOf(after, Live) == ContentOf(before, Live)
  }

  lemma RenameShifts(before: Files, current: Files, next: Files, index: nat, n: nat)
    requires 1 <= index < n && ShiftedAbove(before, current, index, n)
    requires next == if Backup(index) in current
                     then current[Backup(index + 1) := current[Backup(index)]] - {Backup(index)} else current
    ensures ShiftedAbove(before, next, index - 1, n)
  {
    forall k | index - 1 < k < n ensures ContentOf(next, Backup(k + 1)) == ContentOf(before, Backup(k)) {
      if k > index {
        assert ContentOf(current, Backup(k + 1)) == ContentOf(before, Backup(k));
      }
    }
  }

  method ShiftBackups(fs: FileSystem, n: nat)
    requires n >= 1
    modifies fs
    ensures ShiftedAbove(old(fs.files), fs.files, 0, n)
  {
    fs.Remove(Backup(n));
    var index := n - 1;
    while index >= 1
      invariant 0 <= index < n && ShiftedAbove(old(fs.files), fs.files, index, n)
    {
      ghost var current := fs.files;
      var _ := fs.Rename(Backup(index), Backup(index + 1));
      RenameShifts(old(fs.files), current, fs.files, index, n);
      index := index - 1;
    }
  }

  method RotateBackups(fs: FileSystem, options: Options)
    requires options.Valid() && Live in fs.files
    modifies fs
    ensures Shifted(old(fs.files), fs.files, options.backups)
  {
    ShiftBackups(fs, options.backups);
    if !options.compress {
      var _ := fs.Rename(Live, Backup(1));
      return;
    }
    var _ := fs.Rename(Live, Rotating);
    fs.Compress(Rotating, Backup(1));
    fs.Remove(Rotating);
  }

  // ----- What the files hold -------------------------------------------------

  function Join(writes: seq<Bytes>): Bytes {
    if writes == [] then [] else Join(writes[..|writes| - 1]) + writes[|writes| - 1]
  }

  function Flatten(parts: seq<seq<Bytes>>): seq<Bytes> {
    if parts == [] then [] else parts[0] + Flatten(parts[1..])
  }

  lemma {:induction false} FlattenSnoc(parts: seq<seq<Bytes>>, last: seq<Bytes>)
    ensures Flatten(parts + [last]) == Flatten(parts) + last
    decreases |parts|
  {
    var all := parts + [last];
    if parts == [] {
      assert all[1..] == [] && Flatten([]) == [];
      assert last + [] == last && [] + last == last;
    } else {
      FlattenSnoc(parts[1..], last);
      assert all[1..] == parts[1..] + [last];
      assert parts[0] + (Flatten(parts[1..]) + last) == (parts[0] + Flatten(parts[1..])) + last;
    }
  }

  /** One file holds these writes, and is no larger than the limit or than the
      largest of them. */
  ghost predicate Holds(files: Files, name: Name, writes: seq<Bytes>, maxBytes: nat) {
    && ContentOf(files, name) == Join(writes)
    && (|Join(writes)| <= maxBytes || exists w :: w in writes && |Join(writes)| == |w|)
  }

  /** parts[0] is the oldest backup, the last part the live file. */
  ghost predicate Chronicle(files: Files, options: Options, parts: seq<seq<Bytes>>, written: seq<Bytes>) {
    && |parts| == options.backups + 1
    && (forall k :: 1 <= k <= options.backups ==>
          Holds(files, Backup(k), parts[options.backups - k], options.maxBytes))
    && Holds(files, Live, parts[options.backups], options.maxBytes)
    && |Flatten(parts)| <= |written|
    && Flatten(parts) == written[|written| - |Flatten(parts)|..]
  }

  lemma ShiftKeepsChronicle(before: Files, after: Files, options: Options, parts: seq<seq<Bytes>>, written: seq<Bytes>)
    requires options.Valid() && Chronicle(before, options, parts, written)
    requires Shifted(before, after, options.backups)
    ensures Chronicle(after, options, parts[1..] + [[]], written)
  {
    var n, next := options.backups, parts[1..] + [[]];
    forall k | 1 <= k <= n ensures Holds(after, Backup(k), next[n - k], options.maxBytes) {
      assert next[n - k] == parts[n - k + 1];
      if k > 1 {
        assert Holds(before, Backup(k - 1), parts[n - (k - 1)], options.maxBytes);
        assert ContentOf(after, Backup((k - 1) + 1)) == ContentOf(before, Backup(k - 1));
      }
    }
    FlattenShifts(parts);
    SuffixOfSuffix(parts[0], Flatten(next), written);
  }

  lemma FlattenShifts(parts: seq<seq<Bytes>>)
    requires parts != []
    ensures Flatten(parts) == parts[0] + Flatten(parts[1..] + [[]])
  {
    FlattenSnoc(parts[1..], []);
    assert Flatten(parts[1..]) + [] == Flatten(parts[1..]);
  }

  lemma SuffixOfSuffix(a: seq<Bytes>, b: seq<Bytes>, written: seq<Bytes>)
    requires |a + b| <= |written| && a + b == written[|written| - |a + b|..]
    ensures b == written[|written| - |b|..]
  {
    assert (a + b)[|a|..] == b;
  }

  lemma AppendFlattens(init: seq<seq<Bytes>>, last: seq<Bytes>, data: Bytes)
    ensures Flatten(init + [last + [data]]) == Flatten(init + [last]) + [data]
  {
    FlattenSnoc(init, last);
    FlattenSnoc(init, last + [data]);
    assert Flatten(init) + (last + [data]) == (Flatten(init) + last) + [data];
  }

  lemma SuffixGrows(flat: seq<Bytes>, written: seq<Bytes>, data: Bytes)
    requires |flat| <= |written| && flat == written[|written| - |flat|..]
    ensures flat + [data] == (written + [data])[|written| - |flat|..]
  {
  }

  lemma AppendHolds(before: Files, after: Files, live: seq<Bytes>, maxBytes: nat, data: Bytes)
    requires Holds(before, Live, live, maxBytes) && after == before[Live := ContentOf(before, Live) + data]
    requires |ContentOf(before, Live)| == 0 || |ContentOf(before, Live)| + |data| <= maxBytes
    ensures Holds(after, Live, live + [data], maxBytes)
  {
    var all := live + [data];
    assert all[..|all| - 1] == live && all[|all| - 1] == data && data in all;
  }

  lemma AppendKeepsChronicle(before: Files, after: Files, options: Options, parts: seq<seq<Bytes>>,
                             written: seq<Bytes>, data: Bytes)
    requires options.Valid() && Chronicle(before, options, parts, written)
    requires after == before[Live := ContentOf(before, Live) + data]
    requires |ContentOf(before, Live)| == 0 || |ContentOf(before, Live)| + |data| <= options.maxBytes
    ensures var n := options.backups;
            Chronicle(after, options, parts[..n] + [parts[n] + [data]], written + [data])
  {
    var n := options.backups;
    var next := parts[..n] + [parts[n] + [data]];
    AppendHolds(before, after, parts[n], options.maxBytes, data);
    forall k | 1 <= k <= n ensures Holds(after, Backup(k), next[n - k], options.maxBytes) {
      assert Holds(before, Backup(k), parts[n - k], options.maxBytes);
    }
    assert parts == parts[..n] + [parts[n]];
    AppendFlattens(parts[..n], parts[n], data);
    SuffixGrows(Flatten(parts), written, data);
  }

  /** Read in order, the files are one suffix of everything written, cut at
      write boundaries only. */
  lemma {:induction false} JoinFlatten(parts: seq<seq<Bytes>>)
    ensures Join(Flatten(parts)) == Join(seq(|parts|, i requires 0 <= i < |parts| => Join(parts[i])))
    decreases |parts|
  {
    var joined := seq(|parts|, i requires 0 <= i < |parts| => Join(parts[i]));
    if parts != [] {
      var init, last := parts[..|parts| - 1], parts[|parts| - 1];
      JoinFlatten(init);
      assert parts == init + [last];
      FlattenSnoc(init, last);
      JoinConcat(Flatten(init), last);
      assert joined[..|joined| - 1] == seq(|init|, i requires 0 <= i < |init| => Join(init[i]));
    }
  }

  lemma {:induction false} JoinConcat(a: seq<Bytes>, b: seq<Bytes>)
    ensures Join(a + b) == Join(a) + Join(b)
    decreases |b|
  {
    if b == [] {
      assert a + b == a;
    } else {
      var init, last := b[..|b| - 1], b[|b| - 1];
      JoinConcat(a, init);
      assert (a + b)[..|a + b| - 1] == a + init && (a + b)[|a + b| - 1] == last;
      assert (Join(a) + Join(init)) + last == Join(a) + (Join(init) + last);
    }
  }

  /** path.N .. path.1, path */
  ghost function Contents(files: Files, backups: nat): (pieces: seq<Bytes>)
    ensures |pieces| == backups + 1
  {
    seq(backups + 1, i requires 0 <= i <= backups =>
      if i == backups then ContentOf(files, Live) else ContentOf(files, Backup(backups - i)))
  }

  /** Where each piece begins among the writes, and where the last one ends. */
  function Cuts(parts: seq<seq<Bytes>>, end: int): (cuts: seq<int>)
    ensures |cuts| == |parts| + 1
  {
    if parts == [] then [end] else [end - |Flatten(parts)|] + Cuts(parts[1..], end)
  }

  predicate IsRun(part: seq<Bytes>, written: seq<Bytes>, from: int, to: int) {
    0 <= from <= to <= |written| && part == written[from..to]
  }

  predicate IsJoinedRun(piece: Bytes, written: seq<Bytes>, from: int, to: int) {
    0 <= from <= to <= |written| && piece == Join(written[from..to])
  }

  /** The pieces are the runs of writes between neighbouring cuts. */
  ghost predicate CutAt(pieces: seq<Bytes>, written: seq<Bytes>, cuts: seq<int>) {
    && |cuts| == |pieces| + 1 && cuts[|pieces|] == |written|
    && (forall i :: 0 <= i < |pieces| ==> IsJoinedRun(pieces[i], written, cuts[i], cuts[i + 1]))
  }

  lemma {:induction false} CutsDivide(parts: seq<seq<Bytes>>, written: seq<Bytes>)
    requires |Flatten(parts)| <= |written| && Flatten(parts) == written[|written| - |Flatten(parts)|..]
    ensures var cuts := Cuts(parts, |written|);
            && cuts[0] == |written| - |Flatten(parts)| && cuts[|parts|] == |written|
            && (forall i :: 0 <= i < |parts| ==> IsRun(parts[i], written, cuts[i], cuts[i + 1]))
    decreases |parts|
  {
    if parts != [] {
      var cuts, rest := Cuts(parts, |written|), Cuts(parts[1..], |written|);
      SuffixOfSuffix(parts[0], Flatten(parts[1..]), written);
      CutsDivide(parts[1..], written);
      FirstPiece(parts[0], Flatten(parts[1..]), written);
      forall i | 0 <= i < |parts| ensures IsRun(parts[i], written, cuts[i], cuts[i + 1]) {
        if i > 0 { assert IsRun(parts[1..][i - 1], written, rest[i - 1], rest[i]); }
      }
    }
  }

  lemma FirstPiece(a: seq<Bytes>, b: seq<Bytes>, written: seq<Bytes>)
    requires |a + b| <= |written| && a + b == written[|written| - |a + b|..]
    ensures written[|written| - |a + b|..|written| - |b|] == a
  {
    assert (a + b)[..|a|] == a;
  }

  /** What a reader of all files sees: at most backups + 1 pieces, none larger
      than max(maxBytes, one write), together exactly the last writes. */
  lemma FilesAreASuffix(files: Files, options: Options, parts: seq<seq<Bytes>>, written: seq<Bytes>)
    requires options.Valid() && Chronicle(files, options, parts, written)
    ensures exists cuts :: CutAt(Contents(files, options.backups), written, cuts)
    ensures exists j :: 0 <= j <= |written| && Join(Contents(files, options.backups)) == Join(written[j..])
    ensures forall i :: 0 <= i <= options.backups ==>
      var piece := Contents(files, options.backups)[i];
      |piece| <= options.maxBytes || exists w :: w in written && |piece| == |w|
  {
    var n := options.backups;
    var pieces := Contents(files, n);
    forall i | 0 <= i <= n
      ensures pieces[i] == Join(parts[i])
      ensures |pieces[i]| <= options.maxBytes || exists w :: w in written && |pieces[i]| == |w|
    {
      var name := if i == n then Live else Backup(n - i);
      assert Holds(files, name, parts[i], options.maxBytes) by {
        if i < n { assert Holds(files, Backup(n - i), parts[n - (n - i)], options.maxBytes); }
      }
      if |pieces[i]| > options.maxBytes {
        var w :| w in parts[i] && |Join(parts[i])| == |w|;
        PartOfWhole(parts, i, w);
        assert w in written[|written| - |Flatten(parts)|..];
      }
    }
    assert pieces == seq(|parts|, i requires 0 <= i < |parts| => Join(parts[i]));
    JoinFlatten(parts);
    assert 0 <= |written| - |Flatten(parts)| <= |written|;
    CutsDivide(parts, written);
    var cuts := Cuts(parts, |written|);
    forall i | 0 <= i < |pieces| ensures IsJoinedRun(pieces[i], written, cuts[i], cuts[i + 1]) {
      assert IsRun(parts[i], written, cuts[i], cuts[i + 1]);
    }
    assert CutAt(pieces, written, cuts);
  }

  lemma {:induction false} PartOfWhole(parts: seq<seq<Bytes>>, i: nat, w: Bytes)
    requires i < |parts| && w in parts[i]
    ensures w in Flatten(parts)
    decreases |parts|
  {
    if i > 0 {
      PartOfWhole(parts[1..], i - 1, w);
    }
  }

  ghost function Singletons(pieces: seq<Bytes>): (parts: seq<seq<Bytes>>)
    ensures |parts| == |pieces| && forall i :: 0 <= i < |pieces| ==> parts[i] == [pieces[i]]
  {
    seq(|pieces|, i requires 0 <= i < |pieces| => [pieces[i]])
  }

  class Writer {
    const options: Options
    const fs: FileSystem
    var open: bool
    var size: nat
    ghost var parts: seq<seq<Bytes>>
    ghost var written: seq<Bytes>

    ghost predicate Valid()
      reads this, fs
    {
      && options.Valid()
      && Chronicle(fs.files, options, parts, written)
      && (open ==> Live in fs.files && size == |fs.files[Live]|)
    }

    /** Opens the log over whatever an earlier process left; those files count as
        one earlier write each. */
    constructor (fs: FileSystem, options: Options)
      requires options.Valid()
      modifies fs
      ensures Valid() && open && this.fs == fs && this.options == options
      ensures written == Contents(old(fs.files), options.backups)
    {
      this.fs, this.options, open, size := fs, options, true, 0;
      written := Contents(fs.files, options.backups);
      parts := Singletons(Contents(fs.files, options.backups));
      new;
      LeftoversAreAChronicle(fs.files, options, parts, written);
      RotateFullLog();
      OpenLive();
    }

    method ShiftFiles()
      requires options.Valid() && Chronicle(fs.files, options, parts, written) && Live in fs.files
      modifies this`parts, fs
      ensures Chronicle(fs.files, options, parts, written) && Live !in fs.files
      ensures parts == old(parts)[1..] + [[]]
    {
      ghost var before := fs.files;
      RotateBackups(fs, options);
      ShiftKeepsChronicle(before, fs.files, options, parts, written);
      parts := parts[1..] + [[]];
    }

    /** Rotate: a log that is already full starts a new file. */
    method RotateFullLog()
      requires options.Valid() && Chronicle(fs.files, options, parts, written)
      modifies this`parts, fs
      ensures Chronicle(fs.files, options, parts, written)
    {
      if Live in fs.files && |fs.files[Live]| >= options.maxBytes {
        ShiftFiles();
      }
    }

    method OpenLive()
      requires options.Valid() && Chronicle(fs.files, options, parts, written)
      modifies this`open, this`size, fs
      ensures Valid() && open
      ensures Live !in old(fs.files) ==> size == 0
    {
      ghost var before := fs.files;
      if Live !in fs.files {
        fs.Append(Live, []);
      }
      open, size := true, |fs.files[Live]|;
      assert forall name :: ContentOf(fs.files, name) == ContentOf(before, name);
      SameContents(before, fs.files, options, parts, written);
    }

    method Write(data: Bytes) returns (n: nat)
      requires Valid()
      modifies this, fs
      ensures Valid() && open == old(open)
      ensures open ==> n == |data| && written == old(written) + [data]
      ensures !open ==> n == 0 && written == old(written)
      // one file is given up exactly when a nonempty live file would overflow
      ensures open && old(size) > 0 && old(size) + |data| > options.maxBytes ==>
                parts == old(parts)[1..] + [[data]]
      ensures open && !(old(size) > 0 && old(size) + |data| > options.maxBytes) ==>
                parts == old(parts)[..options.backups] + [old(parts)[options.backups] + [data]]
    {
      if !open { return 0; }
      if size > 0 && size + |data| > options.maxBytes {
        open := false;
        ShiftFiles();
        OpenLive();
        assert size == 0;
      }
      ghost var before := fs.files;
      fs.Append(Live, data);
      AppendKeepsChronicle(before, fs.files, options, parts, written, data);
      size := size + |data|;
      assert [] + [data] == [data];
      parts := parts[..options.backups] + [parts[options.backups] + [data]];
      written := written + [data];
      return |data|;
    }

    method Close()
      requires Valid()
      modifies this`open
      ensures Valid() && !open
    {
      open := false;
    }
  }

  lemma SameContents(before: Files, after: Files, options: Options, parts: seq<seq<Bytes>>, written: seq<Bytes>)
    requires Chronicle(before, options, parts, written)
    requires forall name :: ContentOf(after, name) == ContentOf(before, name)
    ensures Chronicle(after, options, parts, written)
  {
    forall k | 1 <= k <= options.backups
      ensures Holds(after, Backup(k), parts[options.backups - k], options.maxBytes)
    {
      assert Holds(before, Backup(k), parts[options.backups - k], options.maxBytes);
    }
  }

  lemma JoinOne(data: Bytes)
    ensures Join([data]) == data
  {
    assert [data][..0] == [];
  }

  lemma LeftoversAreAChronicle(files: Files, options: Options, parts: seq<seq<Bytes>>, written: seq<Bytes>)
    requires options.Valid() && written == Contents(files, options.backups)
    requires |parts| == options.backups + 1 && forall i :: 0 <= i <= options.backups ==> parts[i] == [written[i]]
    ensures Chronicle(files, options, parts, written)
  {
    var n := options.backups;
    forall i | 0 <= i <= n ensures Join(parts[i]) == written[i] && written[i] in parts[i] {
      JoinOne(written[i]);
    }
    forall k | 1 <= k <= n ensures Holds(files, Backup(k), parts[n - k], options.maxBytes) {
      assert written[n - k] == ContentOf(files, Backup(k));
    }
    SingletonsFlatten(parts, written);
  }

  lemma {:induction false} SingletonsFlatten(parts: seq<seq<Bytes>>, written: seq<Bytes>)
    requires |parts| == |written| && forall i :: 0 <= i < |parts| ==> parts[i] == [written[i]]
    ensures Flatten(parts) == written
    decreases |parts|
  {
    if parts != [] {
      SingletonsFlatten(parts[1..], written[1..]);
    }
  }
}
