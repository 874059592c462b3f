/** The canonical form of a UI hierarchy: length-prefixed parts appended to one
    structure buffer and one buffer per attribute, before hashing. */
module CanonicalHierarchy {
  import opened Sequences
  import opened Options

  // ----- Parts ---------------------------------------------------------------

  function Digit(d: nat): char
    requires d < 10
  {
    ['0', '1', '2', '3', '4', '5', '6', '7', '8', '9'][d]
  }

  /** strconv.AppendInt in base ten, for lengths and depths. */
  function Decimal(n: nat): (s: string)
    ensures s != [] && ':' !in s
    ensures |s| == 1 <==> n < 10
    decreases n
  {
    if n < 10 then [Digit(n)] else Decimal(n / 10) + [Digit(n % 10)]
  }

  lemma {:induction false} DecimalIsInjective(m: nat, n: nat)
    requires Decimal(m) == Decimal(n)
    ensures m == n
    decreases m
  {
    if m >= 10 && n >= 10 {
      var s, t := Decimal(m), Decimal(n);
      assert s[..|s| - 1] == Decimal(m / 10) && t[..|t| - 1] == Decimal(n / 10);
      assert s[|s| - 1] == Digit(m % 10) && t[|t| - 1] == Digit(n % 10);
      DecimalIsInjective(m / 10, n / 10);
    }
  }

  /** writeCanonicalPart for one value. */
  function Part(value: string): string { Decimal(|value|) + ":" + value }

  function Parts(values: seq<string>): (s: string)
    ensures s == "" <==> values == []
  {
    if values == [] then "" else Part(values[0]) + Parts(values[1..])
  }

  lemma PartsCons(x: string, rest: seq<string>)
    ensures Parts([x] + rest) == Part(x) + Parts(rest)
  {
    assert ([x] + rest)[1..] == rest;
  }

  lemma PartsOfTwo(x: string, y: string)
    ensures Parts([x, y]) == Part(x) + Part(y)
    ensures Parts([x]) == Part(x)
  {
    PartsCons(y, []);
    PartsCons(x, [y]);
    PartsCons(x, []);
    assert [x, y] == [x] + [y] && [y] == [y] + [] && [x] == [x] + [];
  }

  lemma {:induction false} PartsConcat(xs: seq<string>, ys: seq<string>)
    ensures Parts(xs + ys) == Parts(xs) + Parts(ys)
    decreases |xs|
  {
    if xs == [] {
      assert xs + ys == ys;
    } else {
      PartsConcat(xs[1..], ys);
      TailOfConcat(xs, ys);
      Associate(Part(xs[0]), Parts(xs[1..]), Parts(ys));
    }
  }

  function BeforeColon(s: string): string {
    if s == "" || s[0] == ':' then "" else [s[0]] + BeforeColon(s[1..])
  }

  lemma {:induction false} ColonEndsPrefix(a: string, x: string)
    requires ':' !in a
    ensures BeforeColon(a + ":" + x) == a
    decreases |a|
  {
    var s := a + ":" + x;
    if a == "" {
      assert s[0] == ':';
    } else {
      ColonEndsPrefix(a[1..], x);
      assert s[1..] == a[1..] + ":" + x;
    }
  }

  lemma SameUpToColon(a: string, x: string, b: string, y: string)
    requires ':' !in a && ':' !in b && a + ":" + x == b + ":" + y
    ensures a == b && x == y
  {
    ColonEndsPrefix(a, x);
    ColonEndsPrefix(b, y);
    assert x == (a + ":" + x)[|a| + 1..] && y == (b + ":" + y)[|b| + 1..];
  }

  lemma PartIsPrefixFree(v: string, x: string, w: string, y: string)
    requires Part(v) + x == Part(w) + y
    ensures v == w && x == y
  {
    var a, b := Decimal(|v|), Decimal(|w|);
    assert Part(v) + x == a + ":" + (v + x);
    assert Part(w) + y == b + ":" + (w + y);
    SameUpToColon(a, v + x, b, w + y);
    DecimalIsInjective(|v|, |w|);
    assert v == (v + x)[..|v|] && w == (w + y)[..|w|];
    assert x == (v + x)[|v|..] && y == (w + y)[|w|..];
  }

  /** The length-prefixed form is uniquely decodable. */
  lemma {:induction false} PartsAreInjective(xs: seq<string>, ys: seq<string>)
    requires Parts(xs) == Parts(ys)
    ensures xs == ys
    decreases |xs|
  {
    if xs != [] {
      PartIsPrefixFree(xs[0], Parts(xs[1..]), ys[0], Parts(ys[1..]));
      PartsAreInjective(xs[1..], ys[1..]);
      assert xs == [xs[0]] + xs[1..] && ys == [ys[0]] + ys[1..];
    }
  }

  // ----- Documents -----------------------------------------------------------

  const NAMES: seq<string> := [
    "index", "text", "resource-id", "class", "package", "content-desc",
    "checkable", "checked", "clickable", "enabled", "focusable", "focused",
    "scrollable", "long-clickable", "password", "selected", "bounds"]

  datatype Attribute = Attribute(name: string, value: string)

  datatype Element = Element(name: string, attributes: seq<Attribute>, children: seq<Element>)

  /** What the XML decoder delivers, and the reader looks at. */
  datatype Token = Start(name: string, attributes: seq<Attribute>) | End(name: string)

  /** The value of one attribute: the last occurrence wins. */
  function ValueOf(attributes: seq<Attribute>, name: string): Option<string> {
    if attributes == [] then None
    else
      var last := attributes[|attributes| - 1];
      if last.name == name then Some(last.value) else ValueOf(attributes[..|attributes| - 1], name)
  }

  type Labels = seq<Option<string>>

  function LabelsOf(attributes: seq<Attribute>): (labels: Labels)
    ensures |labels| == |NAMES|
    ensures forall i :: 0 <= i < |NAMES| ==> labels[i] == ValueOf(attributes, NAMES[i])
  {
    seq(|NAMES|, i requires 0 <= i < |NAMES| => ValueOf(attributes, NAMES[i]))
  }

  /** The hierarchy as the comparison sees it: only elements called "node", each
      with its known attributes. */
  datatype Node = Node(labels: Labels, children: seq<Node>)

  function NodesOf(elements: seq<Element>): seq<Node> {
    if elements == [] then []
    else
      var e := elements[0];
      (if e.name == "node" then [Node(LabelsOf(e.attributes), NodesOf(e.children))] else NodesOf(e.children))
      + NodesOf(elements[1..])
  }

  function TokensOf(elements: seq<Element>): seq<Token> {
    if elements == [] then []
    else
      var e := elements[0];
      [Start(e.name, e.attributes)] + TokensOf(e.children) + [End(e.name)] + TokensOf(elements[1..])
  }

  // ----- The buffers ---------------------------------------------------------

  function Structure(forest: seq<Node>, depth: nat): (s: seq<string>)
    ensures forest == [] ==> s == []
    ensures forest != [] ==> s != [] && s[0] == "("
  {
    if forest == [] then []
    else ["(", Decimal(depth)] + Structure(forest[0].children, depth + 1) + [")"] + Structure(forest[1..], depth)
  }

  function Preorder(forest: seq<Node>): seq<Labels> {
    if forest == [] then []
    else [forest[0].labels] + Preorder(forest[0].children) + Preorder(forest[1..])
  }

  /** Presence and value, so that absent and empty differ. */
  function LabelParts(field: Option<string>): seq<string> {
    match field case None => ["0", ""] case Some(value) => ["1", value]
  }

  function ColumnParts(rows: seq<Labels>, column: nat): seq<string>
    requires forall i :: 0 <= i < |rows| ==> column < |rows[i]|
  {
    if rows == [] then [] else LabelParts(rows[0][column]) + ColumnParts(rows[1..], column)
  }

  predicate Regular(forest: seq<Node>) {
    forall i :: 0 <= i < |forest| ==> |forest[i].labels| == |NAMES| && Regular(forest[i].children)
  }

  lemma NodesAreRegular(elements: seq<Element>)
    ensures Regular(NodesOf(elements))
  {
    if elements != [] {
      NodesAreRegular(elements[0].children);
      NodesAreRegular(elements[1..]);
    }
  }

  lemma PreorderIsRegular(forest: seq<Node>)
    requires Regular(forest)
    ensures forall i :: 0 <= i < |Preorder(forest)| ==> |Preorder(forest)[i]| == |NAMES|
  {
    if forest != [] {
      assert Regular(forest[0].children);
      PreorderIsRegular(forest[0].children);
      PreorderIsRegular(forest[1..]);
    }
  }

  // ----- Structure determines shape ------------------------------------------

  predicate SameShape(f: seq<Node>, g: seq<Node>) {
    |f| == |g| && forall i :: 0 <= i < |f| ==> SameShape(f[i].children, g[i].children)
  }

  predicate Closing(rest: seq<string>) { rest == [] || rest[0] == ")" }

  function AfterChildren(f: seq<Node>, r: seq<string>, depth: nat): seq<string>
    requires f != []
  {
    [")"] + (Structure(f[1..], depth) + r)
  }

  lemma StructureUnfolds(f: seq<Node>, r: seq<string>, depth: nat)
    requires f != []
    ensures (Structure(f, depth) + r)[2..] == Structure(f[0].children, depth + 1) + AfterChildren(f, r, depth)
    ensures |Structure(f, depth)| >= 2 && AfterChildren(f, r, depth)[1..] == Structure(f[1..], depth) + r
  {
    assert Structure(f, depth) + r ==
      ["(", Decimal(depth)] + (Structure(f[0].children, depth + 1) + AfterChildren(f, r, depth));
  }

  /** A structure buffer is a bracket word: whatever follows it, it can be read
      in one way only. */
  lemma {:induction false} StructureParses(f: seq<Node>, r: seq<string>, g: seq<Node>, s: seq<string>, depth: nat)
    requires Structure(f, depth) + r == Structure(g, depth) + s
    requires Closing(r) && Closing(s)
    ensures SameShape(f, g) && r == s
    decreases f
  {
    assert f == [] <==> g == [] by {
      assert f == [] ==> Structure(f, depth) + r == r;
      assert g == [] ==> Structure(g, depth) + s == s;
    }
    if f == [] {
      assert Structure(f, depth) + r == r && Structure(g, depth) + s == s;
    } else {
      StructureUnfolds(f, r, depth);
      StructureUnfolds(g, s, depth);
      StructureParses(f[0].children, AfterChildren(f, r, depth), g[0].children, AfterChildren(g, s, depth), depth + 1);
      StructureParses(f[1..], r, g[1..], s, depth);
      SameShapeCons(f, g);
    }
  }

  lemma SameShapeCons(f: seq<Node>, g: seq<Node>)
    requires f != [] && g != [] && SameShape(f[0].children, g[0].children) && SameShape(f[1..], g[1..])
    ensures SameShape(f, g)
  {
    forall i | 0 <= i < |f| ensures SameShape(f[i].children, g[i].children) {
      if i > 0 { assert f[i] == f[1..][i - 1] && g[i] == g[1..][i - 1]; }
    }
  }

  // ----- Buffers determine the forest ----------------------------------------

  lemma {:induction false} SameShapeSameLength(f: seq<Node>, g: seq<Node>)
    requires SameShape(f, g)
    ensures |Preorder(f)| == |Preorder(g)|
    decreases f
  {
    if f != [] {
      assert SameShape(f[0].children, g[0].children);
      SameShapeSameLength(f[0].children, g[0].children);
      SameShapeTail(f, g);
      SameShapeSameLength(f[1..], g[1..]);
    }
  }

  lemma SameShapeTail(f: seq<Node>, g: seq<Node>)
    requires f != [] && SameShape(f, g)
    ensures SameShape(f[1..], g[1..])
  {
    forall i | 0 <= i < |f| - 1 ensures SameShape(f[1..][i].children, g[1..][i].children) {
      assert f[1..][i] == f[i + 1] && g[1..][i] == g[i + 1];
    }
  }

  /** Shape and preorder labels together are the labelled forest. */
  lemma {:induction false} ShapeAndLabelsDetermine(f: seq<Node>, g: seq<Node>)
    requires SameShape(f, g) && Preorder(f) == Preorder(g)
    ensures f == g
    decreases f
  {
    if f != [] {
      var f1, g1 := Preorder(f[0].children), Preorder(g[0].children);
      var f2, g2 := Preorder(f[1..]), Preorder(g[1..]);
      SameShapeTail(f, g);
      SameShapeSameLength(f[0].children, g[0].children);
      var whole := Preorder(f);
      assert whole[0] == f[0].labels && whole[0] == g[0].labels;
      assert whole[1..|f1| + 1] == f1 && whole[1..|g1| + 1] == g1;
      assert whole[|f1| + 1..] == f2 && whole[|g1| + 1..] == g2;
      ShapeAndLabelsDetermine(f[0].children, g[0].children);
      ShapeAndLabelsDetermine(f[1..], g[1..]);
      assert f[0] == Node(f[0].labels, f[0].children) && g[0] == Node(g[0].labels, g[0].children);
      assert f == [f[0]] + f[1..] && g == [g[0]] + g[1..];
    }
  }

  /** One attribute's buffer gives that attribute of every node. */
  lemma {:induction false} ColumnDetermines(f: seq<Labels>, g: seq<Labels>, column: nat)
    requires forall i :: 0 <= i < |f| ==> column < |f[i]|
    requires forall i :: 0 <= i < |g| ==> column < |g[i]|
    requires ColumnParts(f, column) == ColumnParts(g, column)
    ensures |f| == |g| && forall i :: 0 <= i < |f| ==> f[i][column] == g[i][column]
    decreases |f|
  {
    assert f == [] <==> g == [];
    if f != [] {
      var whole := ColumnParts(f, column);
      assert whole[..2] == LabelParts(f[0][column]) && whole[..2] == LabelParts(g[0][column]);
      assert whole[2..] == ColumnParts(f[1..], column) && whole[2..] == ColumnParts(g[1..], column);
      assert whole[..2][0] == LabelParts(f[0][column])[0] && whole[..2][1] == LabelParts(f[0][column])[1];
      ColumnDetermines(f[1..], g[1..], column);
      forall i | 0 <= i < |f| ensures f[i][column] == g[i][column] {
        if i > 0 { assert f[1..][i - 1] == f[i] && g[1..][i - 1] == g[i]; }
      }
    }
  }

  /** What analyzeHierarchy hashes. */
  datatype Buffers = Buffers(structure: string, attributes: seq<string>)

  ghost function Canonical(forest: seq<Node>): (b: Buffers)
    requires Regular(forest)
    ensures |b.attributes| == |NAMES|
  {
    PreorderIsRegular(forest);
    Buffers(Parts(Structure(forest, 0)),
            seq(|NAMES|, i requires 0 <= i < |NAMES| => Parts(ColumnParts(Preorder(forest), i))))
  }

  /** The structure buffer determines the shape of the forest, and only that. */
  lemma StructureDeterminesShape(f: seq<Node>, g: seq<Node>)
    requires Parts(Structure(f, 0)) == Parts(Structure(g, 0))
    ensures SameShape(f, g)
  {
    PartsAreInjective(Structure(f, 0), Structure(g, 0));
    assert Structure(f, 0) + [] == Structure(g, 0) + [];
    StructureParses(f, [], g, [], 0);
  }

  lemma {:induction false} SameShapeSameStructure(f: seq<Node>, g: seq<Node>, depth: nat)
    requires SameShape(f, g)
    ensures Structure(f, depth) == Structure(g, depth)
    decreases f
  {
    if f != [] {
      assert SameShape(f[0].children, g[0].children);
      SameShapeSameStructure(f[0].children, g[0].children, depth + 1);
      SameShapeTail(f, g);
      SameShapeSameStructure(f[1..], g[1..], depth);
    }
  }

  /** All buffers together determine the labelled forest: the canonical form is
      uniquely decodable. */
  lemma CanonicalIsInjective(f: seq<Node>, g: seq<Node>)
    requires Regular(f) && Regular(g)
    ensures Canonical(f) == Canonical(g) <==> f == g
  {
    if Canonical(f) == Canonical(g) {
      StructureDeterminesShape(f, g);
      SameShapeSameLength(f, g);
      PreorderIsRegular(f);
      PreorderIsRegular(g);
      var rows, others := Preorder(f), Preorder(g);
      forall i, j | 0 <= i < |rows| && 0 <= j < |NAMES| ensures rows[i][j] == others[i][j] {
        assert Canonical(f).attributes[j] == Canonical(g).attributes[j];
        PartsAreInjective(ColumnParts(rows, j), ColumnParts(others, j));
        ColumnDetermines(rows, others, j);
      }
      assert forall i :: 0 <= i < |rows| ==> rows[i] == others[i];
      ShapeAndLabelsDetermine(f, g);
    }
  }

  // ----- Reading a document --------------------------------------------------

  /** strconv.Itoa */
  function Itoa(n: int): string { if n >= 0 then Decimal(n) else "-" + Decimal(-n) }

  function ScanStructure(tokens: seq<Token>, depth: int): seq<string> {
    if tokens == [] then []
    else if tokens[0].name != "node" then ScanStructure(tokens[1..], depth)
    else if tokens[0].Start? then ["(", Itoa(depth)] + ScanStructure(tokens[1..], depth + 1)
    else [")"] + ScanStructure(tokens[1..], depth - 1)
  }

  function ScanRows(tokens: seq<Token>): (rows: seq<Labels>)
    ensures forall i :: 0 <= i < |rows| ==> |rows[i]| == |NAMES|
  {
    if tokens == [] then []
    else if tokens[0].Start? && tokens[0].name == "node"
    then [LabelsOf(tokens[0].attributes)] + ScanRows(tokens[1..])
    else ScanRows(tokens[1..])
  }

  lemma TokensUnfold(elements: seq<Element>, rest: seq<Token>)
    requires elements != []
    ensures var e := elements[0];
            TokensOf(elements) + rest ==
              [Start(e.name, e.attributes)] + (TokensOf(e.children) + ([End(e.name)] + (TokensOf(elements[1..]) + rest)))
  {
  }

  /** Scanning a sibling: its start, its children, its end, the others. */
  lemma ScanUnfolds(elements: seq<Element>, rest: seq<Token>, depth: int)
    requires elements != []
    ensures var e := elements[0];
            var inner := [End(e.name)] + (TokensOf(elements[1..]) + rest);
            && ScanStructure(TokensOf(elements) + rest, depth) ==
                 (if e.name == "node" then ["(", Itoa(depth)] + ScanStructure(TokensOf(e.children) + inner, depth + 1)
                  else ScanStructure(TokensOf(e.children) + inner, depth))
            && ScanRows(TokensOf(elements) + rest) ==
                 (if e.name == "node" then [LabelsOf(e.attributes)] else []) + ScanRows(TokensOf(e.children) + inner)
  {
    var e := elements[0];
    var inner := [End(e.name)] + (TokensOf(elements[1..]) + rest);
    TokensUnfold(elements, rest);
    var tokens := TokensOf(elements) + rest;
    assert tokens[0] == Start(e.name, e.attributes);
    assert tokens[1..] == TokensOf(e.children) + inner;
  }

  lemma ScanCloses(name: string, x: seq<Token>, depth: int)
    ensures ScanStructure([End(name)] + x, depth) ==
              if name == "node" then [")"] + ScanStructure(x, depth - 1) else ScanStructure(x, depth)
    ensures ScanRows([End(name)] + x) == ScanRows(x)
  {
    assert ([End(name)] + x)[1..] == x;
  }

  lemma Reassociate<T>(a: seq<T>, b: seq<T>, c: seq<T>, d: seq<T>, e: seq<T>)
    ensures a + (b + (c + (d + e))) == (a + b + c + d) + e
    ensures b + (d + e) == (b + d) + e
  {
  }

  lemma {:induction false} ScanReadsStructure(elements: seq<Element>, rest: seq<Token>, depth: nat)
    ensures ScanStructure(TokensOf(elements) + rest, depth) == Structure(NodesOf(elements), depth) + ScanStructure(rest, depth)
    decreases elements
  {
    if elements == [] {
      assert TokensOf(elements) + rest == rest;
    } else {
      var e, tail := elements[0], elements[1..];
      var afterwards := TokensOf(tail) + rest;
      var inner := [End(e.name)] + afterwards;
      ScanUnfolds(elements, rest, depth);
      ScanReadsStructure(tail, rest, depth);
      if e.name == "node" {
        ScanReadsStructure(e.children, inner, depth + 1);
        ScanCloses(e.name, afterwards, depth + 1);
        NodeStructure(LabelsOf(e.attributes), NodesOf(e.children), NodesOf(tail), depth);
        Reassociate(["(", Decimal(depth)], Structure(NodesOf(e.children), depth + 1), [")"],
                    Structure(NodesOf(tail), depth), ScanStructure(rest, depth));
      } else {
        Reassociate([], Structure(NodesOf(e.children), depth), [], Structure(NodesOf(tail), depth),
                    ScanStructure(rest, depth));
        ScanReadsStructure(e.children, inner, depth);
        ScanCloses(e.name, afterwards, depth);
        StructureConcat(NodesOf(e.children), NodesOf(tail), depth);
      }
    }
  }

  lemma NodeStructure(labels: Labels, children: seq<Node>, tail: seq<Node>, depth: nat)
    ensures Structure([Node(labels, children)] + tail, depth)
            == ["(", Decimal(depth)] + Structure(children, depth + 1) + [")"] + Structure(tail, depth)
    ensures Preorder([Node(labels, children)] + tail) == [labels] + Preorder(children) + Preorder(tail)
  {
    assert ([Node(labels, children)] + tail)[1..] == tail;
  }

  lemma StructureCons(f: seq<Node>, depth: nat)
    requires f != []
    ensures Structure(f, depth)
            == ["(", Decimal(depth)] + Structure(f[0].children, depth + 1) + [")"] + Structure(f[1..], depth)
  {
    assert f == [Node(f[0].labels, f[0].children)] + f[1..];
    NodeStructure(f[0].labels, f[0].children, f[1..], depth);
  }

  lemma {:induction false} StructureConcat(f: seq<Node>, g: seq<Node>, depth: nat)
    ensures Structure(f + g, depth) == Structure(f, depth) + Structure(g, depth)
    decreases |f|
  {
    if f == [] {
      assert f + g == g;
    } else {
      StructureConcat(f[1..], g, depth);
      var first := ["(", Decimal(depth)] + Structure(f[0].children, depth + 1) + [")"];
      StructureCons(f, depth);
      StructureCons(f + g, depth);
      TailOfConcat(f, g);
      Associate(first, Structure(f[1..], depth), Structure(g, depth));
    }
  }

  lemma {:induction false} PreorderConcat(f: seq<Node>, g: seq<Node>)
    ensures Preorder(f + g) == Preorder(f) + Preorder(g)
    decreases |f|
  {
    if f == [] {
      assert f + g == g;
    } else {
      PreorderConcat(f[1..], g);
      assert (f + g)[1..] == f[1..] + g;
    }
  }

  lemma RowsUnfold(elements: seq<Element>)
    requires elements != []
    ensures var e := elements[0];
            Preorder(NodesOf(elements))
            == (if e.name == "node" then [LabelsOf(e.attributes)] else [])
               + Preorder(NodesOf(e.children)) + Preorder(NodesOf(elements[1..]))
  {
    var e, tail := elements[0], elements[1..];
    if e.name == "node" {
      NodeStructure(LabelsOf(e.attributes), NodesOf(e.children), NodesOf(tail), 0);
    } else {
      PreorderConcat(NodesOf(e.children), NodesOf(tail));
      assert [] + Preorder(NodesOf(e.children)) == Preorder(NodesOf(e.children));
    }
  }

  lemma Regroup<T>(a: seq<T>, b: seq<T>, c: seq<T>, d: seq<T>)
    ensures a + (b + (c + d)) == (a + b + c) + d
  {
  }

  lemma {:induction false} ScanReadsRows(elements: seq<Element>, rest: seq<Token>)
    ensures ScanRows(TokensOf(elements) + rest) == Preorder(NodesOf(elements)) + ScanRows(rest)
    decreases elements
  {
    if elements == [] {
      assert TokensOf(elements) + rest == rest;
    } else {
      var e, tail := elements[0], elements[1..];
      var afterwards := TokensOf(tail) + rest;
      ScanUnfolds(elements, rest, 0);
      ScanReadsRows(tail, rest);
      ScanReadsRows(e.children, [End(e.name)] + afterwards);
      ScanCloses(e.name, afterwards, 0);
      RowsUnfold(elements);
      Regroup(if e.name == "node" then [LabelsOf(e.attributes)] else [],
              Preorder(NodesOf(e.children)), Preorder(NodesOf(tail)), ScanRows(rest));
    }
  }

  method ReadAttributes(attributes: seq<Attribute>) returns (labels: Labels)
    ensures labels == LabelsOf(attributes)
  {
    labels := seq(|NAMES|, _ => None);
    for i := 0 to |attributes|
      invariant labels == LabelsOf(attributes[..i])
    {
      assert attributes[..i + 1][..i] == attributes[..i];
      var a := attributes[i];
      var index := 0;
      ghost var before := labels;
      while index < |NAMES|
        invariant 0 <= index <= |NAMES| && |labels| == |NAMES|
        invariant forall k :: 0 <= k < |NAMES| ==>
          labels[k] == if k < index && NAMES[k] == a.name then Some(a.value) else before[k]
      {
        if NAMES[index] == a.name {
          labels := labels[index := Some(a.value)];
        }
        index := index + 1;
      }
    }
    assert attributes[..|attributes|] == attributes;
  }

  /** The buffers hold these parts and rows. */
  ghost predicate Holds(structure: string, columns: seq<string>, parts: seq<string>, rows: seq<Labels>) {
    && structure == Parts(parts)
    && |columns| == |NAMES|
    && (forall k :: 0 <= k < |rows| ==> |rows[k]| == |NAMES|)
    && forall j :: 0 <= j < |NAMES| ==> columns[j] == Parts(ColumnParts(rows, j))
  }

  method OpenNode(structure: string, columns: seq<string>, depth: int, attributes: seq<Attribute>,
                  ghost parts: seq<string>, ghost rows: seq<Labels>)
    returns (newStructure: string, newColumns: seq<string>)
    requires Holds(structure, columns, parts, rows)
    ensures Holds(newStructure, newColumns, parts + ["(", Itoa(depth)], rows + [LabelsOf(attributes)])
  {
    PartsConcat(parts, ["(", Itoa(depth)]);
    PartsOfTwo("(", Itoa(depth));
    newStructure := structure + Part("(") + Part(Itoa(depth));
    var labels := ReadAttributes(attributes);
    newColumns := AppendRow(columns, rows, labels);
  }

  /** parts and rows are what the first i tokens contribute. */
  ghost predicate Scanned(tokens: seq<Token>, i: nat, depth: int, parts: seq<string>, rows: seq<Labels>)
    requires i <= |tokens|
  {
    && parts + ScanStructure(tokens[i..], depth) == ScanStructure(tokens, 0)
    && rows + ScanRows(tokens[i..]) == ScanRows(tokens)
  }

  lemma ScannedStep(tokens: seq<Token>, i: nat, depth: int, parts: seq<string>, rows: seq<Labels>)
    requires i < |tokens| && Scanned(tokens, i, depth, parts, rows)
    ensures var t := tokens[i];
            && (t.name != "node" ==> Scanned(tokens, i + 1, depth, parts, rows))
            && (t.name == "node" && t.Start? ==>
                  Scanned(tokens, i + 1, depth + 1, parts + ["(", Itoa(depth)], rows + [LabelsOf(t.attributes)]))
            && (t.name == "node" && t.End? ==> Scanned(tokens, i + 1, depth - 1, parts + [")"], rows))
  {
    var left := tokens[i..];
    assert left[0] == tokens[i] && left[1..] == tokens[i + 1..];
  }

  /** The loop over the decoder's tokens, writing all buffers as it goes. */
  method AnalyzeHierarchy(tokens: seq<Token>, ghost elements: seq<Element>)
    returns (nodes: nat, structure: string, columns: seq<string>)
    requires tokens == TokensOf(elements)
    ensures Regular(NodesOf(elements)) && Buffers(structure, columns) == Canonical(NodesOf(elements))
    ensures nodes == |Preorder(NodesOf(elements))|
  {
    nodes, structure, columns := 0, "", seq(|NAMES|, _ => "");
    var depth := 0;
    ghost var parts: seq<string>, rows: seq<Labels> := [], [];
    for i := 0 to |tokens|
      invariant Holds(structure, columns, parts, rows) && nodes == |rows|
      invariant Scanned(tokens, i, depth, parts, rows)
    {
      var token := tokens[i];
      ScannedStep(tokens, i, depth, parts, rows);
      if token.name != "node" { continue; }
      if token.Start? {
        nodes := nodes + 1;
        structure, columns := OpenNode(structure, columns, depth, token.attributes, parts, rows);
        parts, rows := parts + ["(", Itoa(depth)], rows + [LabelsOf(token.attributes)];
        depth := depth + 1;
      } else {
        depth := depth - 1;
        PartsConcat(parts, [")"]);
        PartsOfTwo(")", "");
        structure := structure + Part(")");
        parts := parts + [")"];
      }
    }
    assert tokens[|tokens|..] == [] && parts + [] == parts && rows + [] == rows;
    BuffersAreCanonical(elements, parts, rows, structure, columns);
  }

  lemma BuffersAreCanonical(elements: seq<Element>, parts: seq<string>, rows: seq<Labels>,
                            structure: string, columns: seq<string>)
    requires Holds(structure, columns, parts, rows)
    requires parts == ScanStructure(TokensOf(elements), 0) && rows == ScanRows(TokensOf(elements))
    ensures Regular(NodesOf(elements)) && Buffers(structure, columns) == Canonical(NodesOf(elements))
    ensures |rows| == |Preorder(NodesOf(elements))|
  {
    ScanReadsStructure(elements, [], 0);
    ScanReadsRows(elements, []);
    NodesAreRegular(elements);
    assert TokensOf(elements) + [] == TokensOf(elements);
    assert Structure(NodesOf(elements), 0) + [] == Structure(NodesOf(elements), 0);
    assert Preorder(NodesOf(elements)) + [] == Preorder(NodesOf(elements));
  }

  method AppendRow(columns: seq<string>, ghost rows: seq<Labels>, labels: Labels) returns (r: seq<string>)
    requires |columns| == |NAMES| == |labels|
    requires forall k :: 0 <= k < |rows| ==> |rows[k]| == |NAMES|
    requires forall j :: 0 <= j < |NAMES| ==> columns[j] == Parts(ColumnParts(rows, j))
    ensures |r| == |NAMES|
    ensures forall j :: 0 <= j < |NAMES| ==> r[j] == Parts(ColumnParts(rows + [labels], j))
  {
    r := columns;
    for index := 0 to |NAMES|
      invariant |r| == |NAMES|
      invariant forall j :: 0 <= j < |NAMES| ==>
        r[j] == if j < index then Parts(ColumnParts(rows + [labels], j)) else columns[j]
    {
      var present := if labels[index].Some? then "1" else "0";
      var value := if labels[index].Some? then labels[index].value else "";
      ColumnGrows(rows, labels, index);
      r := r[index := r[index] + Part(present) + Part(value)];
    }
  }

  lemma {:induction false} ColumnSnoc(rows: seq<Labels>, labels: Labels, column: nat)
    requires column < |labels| && forall k :: 0 <= k < |rows| ==> column < |rows[k]|
    ensures ColumnParts(rows + [labels], column) == ColumnParts(rows, column) + LabelParts(labels[column])
    decreases |rows|
  {
    var all := rows + [labels];
    if rows == [] {
      assert all[1..] == [];
    } else {
      ColumnSnoc(rows[1..], labels, column);
      assert all[1..] == rows[1..] + [labels];
    }
  }

  lemma ColumnGrows(rows: seq<Labels>, labels: Labels, column: nat)
    requires column < |labels| && forall k :: 0 <= k < |rows| ==> column < |rows[k]|
    ensures var l := LabelParts(labels[column]);
            Parts(ColumnParts(rows + [labels], column)) == Parts(ColumnParts(rows, column)) + Part(l[0]) + Part(l[1])
  {
    var l := LabelParts(labels[column]);
    ColumnSnoc(rows, labels, column);
    PartsConcat(ColumnParts(rows, column), l);
    PartsOfTwo(l[0], l[1]);
    assert l == [l[0], l[1]];
  }

  // ----- Fingerprints --------------------------------------------------------

  /** A hash without collisions, standing in for SHA-256. */
  ghost predicate Injective(hash: string -> string) {
    forall s, t :: hash(s) == hash(t) ==> s == t
  }

  function NamedHashes(hash: string -> string, columns: seq<string>, from: nat): seq<string>
    requires |columns| == |NAMES| && from <= |NAMES|
    decreases |NAMES| - from
  {
    if from == |NAMES| then [] else [NAMES[from], hash(columns[from])] + NamedHashes(hash, columns, from + 1)
  }

  function Fingerprint(hash: string -> string, b: Buffers): string
    requires |b.attributes| == |NAMES|
  {
    hash(Parts([hash(b.structure)] + NamedHashes(hash, b.attributes, 0)))
  }

  lemma {:induction false} NamedHashesDetermine(hash: string -> string, a: seq<string>, b: seq<string>, from: nat)
    requires Injective(hash) && |a| == |b| == |NAMES| && from <= |NAMES|
    requires NamedHashes(hash, a, from) == NamedHashes(hash, b, from)
    ensures a[from..] == b[from..]
    decreases |NAMES| - from
  {
    if from < |NAMES| {
      var xs, ys := NamedHashes(hash, a, from + 1), NamedHashes(hash, b, from + 1);
      SecondAndRest(NAMES[from], hash(a[from]), xs, hash(b[from]), ys);
      NamedHashesDetermine(hash, a, b, from + 1);
      assert a[from..] == [a[from]] + a[from + 1..];
      assert b[from..] == [b[from]] + b[from + 1..];
    }
  }

  lemma SecondAndRest(name: string, x: string, xs: seq<string>, y: string, ys: seq<string>)
    requires [name, x] + xs == [name, y] + ys
    ensures x == y && xs == ys
  {
    var whole := [name, x] + xs;
    assert whole[1] == x && whole[2..] == xs;
    assert ([name, y] + ys)[1] == y && ([name, y] + ys)[2..] == ys;
  }

  /** Two documents have the same combined fingerprint exactly when their nodes,
      nesting, and known attributes (presence and value) are the same. */
  lemma FingerprintDetermines(hash: string -> string, d: seq<Element>, e: seq<Element>)
    requires Injective(hash)
    ensures Regular(NodesOf(d)) && Regular(NodesOf(e))
    ensures Fingerprint(hash, Canonical(NodesOf(d))) == Fingerprint(hash, Canonical(NodesOf(e)))
            <==> NodesOf(d) == NodesOf(e)
  {
    NodesAreRegular(d);
    NodesAreRegular(e);
    var b, c := Canonical(NodesOf(d)), Canonical(NodesOf(e));
    if Fingerprint(hash, b) == Fingerprint(hash, c) {
      var xs := [hash(b.structure)] + NamedHashes(hash, b.attributes, 0);
      var ys := [hash(c.structure)] + NamedHashes(hash, c.attributes, 0);
      PartsAreInjective(xs, ys);
      assert xs[0] == ys[0] && xs[1..] == NamedHashes(hash, b.attributes, 0)
             && ys[1..] == NamedHashes(hash, c.attributes, 0);
      NamedHashesDetermine(hash, b.attributes, c.attributes, 0);
      assert b.attributes[0..] == b.attributes && c.attributes[0..] == c.attributes;
      CanonicalIsInjective(NodesOf(d), NodesOf(e));
    }
  }

  // ----- Node identities -----------------------------------------------------

  /** What a node is matched by across two captures. */
  datatype Anchor = ByResource(id: string) | BySemantics(text: string, description: string) | ByBounds(bounds: string)

  function Value(attributes: map<string, string>, name: string): string {
    if name in attributes then attributes[name] else ""
  }

  function AnchorOf(attributes: map<string, string>): Anchor {
    if Value(attributes, "resource-id") != "" then ByResource(Value(attributes, "resource-id"))
    else if Value(attributes, "text") != "" || Value(attributes, "content-desc") != ""
    then BySemantics(Value(attributes, "text"), Value(attributes, "content-desc"))
    else ByBounds(Value(attributes, "bounds"))
  }

  method NodeIdentity(attributes: map<string, string>) returns (identity: string)
    ensures identity == Parts(IdentityParts(Value(attributes, "class"), AnchorOf(attributes)))
  {
    var className := Value(attributes, "class");
    var resource := Value(attributes, "resource-id");
    identity := Part(className);
    if resource != "" {
      identity := identity + Part("resource-id") + Part(resource);
    } else {
      var text, description := Value(attributes, "text"), Value(attributes, "content-desc");
      if text != "" || description != "" {
        identity := identity + Part("semantic") + Part(text) + Part(description);
      } else {
        identity := identity + Part("bounds") + Part(Value(attributes, "bounds"));
      }
    }
    PartsOfFour(IdentityParts(className, AnchorOf(attributes)));
  }

  function IdentityParts(className: string, anchor: Anchor): seq<string> {
    match anchor
    case ByResource(id) => [className, "resource-id", id]
    case BySemantics(text, description) => [className, "semantic", text, description]
    case ByBounds(bounds) => [className, "bounds", bounds]
  }

  lemma PartsOfFour(p: seq<string>)
    ensures |p| == 3 ==> Parts(p) == Part(p[0]) + Part(p[1]) + Part(p[2])
    ensures |p| == 4 ==> Parts(p) == Part(p[0]) + Part(p[1]) + Part(p[2]) + Part(p[3])
  {
    if |p| == 3 {
      PartsOfTwo(p[0], p[1]);
      PartsOfTwo(p[2], "");
      PartsConcat([p[0], p[1]], [p[2]]);
      assert p == [p[0], p[1]] + [p[2]];
    } else if |p| == 4 {
      PartsOfTwo(p[0], p[1]);
      PartsOfTwo(p[2], p[3]);
      PartsConcat([p[0], p[1]], [p[2], p[3]]);
      assert p == [p[0], p[1]] + [p[2], p[3]];
      Associate(Part(p[0]) + Part(p[1]), Part(p[2]), Part(p[3]));
    }
  }

  /** A resource id decides; without one the wording does, and without any wording
      the bounds do. */
  predicate SameNode(a: map<string, string>, b: map<string, string>) {
    && Value(a, "class") == Value(b, "class")
    && Value(a, "resource-id") == Value(b, "resource-id")
    && (Value(a, "resource-id") == "" ==>
          && Value(a, "text") == Value(b, "text") && Value(a, "content-desc") == Value(b, "content-desc")
          && (Value(a, "text") == "" && Value(a, "content-desc") == "" ==> Value(a, "bounds") == Value(b, "bounds")))
  }

  /** Two nodes share an identity exactly when they are the same in this sense. */
  lemma IdentitiesCollideExactlyWhen(a: map<string, string>, b: map<string, string>)
    ensures Parts(IdentityParts(Value(a, "class"), AnchorOf(a))) == Parts(IdentityParts(Value(b, "class"), AnchorOf(b)))
            <==> SameNode(a, b)
  {
    var p, q := IdentityParts(Value(a, "class"), AnchorOf(a)), IdentityParts(Value(b, "class"), AnchorOf(b));
    if Parts(p) == Parts(q) {
      PartsAreInjective(p, q);
      assert p[0] == q[0] && p[1] == q[1] && p[2] == q[2];
    }
  }
}
