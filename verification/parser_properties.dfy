/**
 * What the block parser guarantees about the tree it builds.
 *
 * The central fact: flattening the tree (every read, print and assignment,
 * then-body before else-body, in order) gives back exactly the read,
 * print and assignment lines of the program, in source order.  However
 * the headers nest and whichever quirk of the block rules applies, no
 * such statement is lost, duplicated or moved.  The lemmas are proved on
 * the classified line list and transferred to the raw lines at the end.
 */
module ParserProperties {
  import opened Text
  import opened Ast
  import opened Classifier
  import opened Parser

  // ---------------------------------------------------------------------------
  // Classification

  /**
   * `Classify` tries the classes in the top-level order, but since the
   * classes are disjoint each class of line gets its own outcome whatever
   * the order, as in the body loops, which try `SI` and `MIENTRAS` in
   * other orders.
   */
  lemma ClassifyExact(l: string)
    ensures Classify(l) == Blank <==> l == []
    ensures Classify(l).Simple? <==> l != [] && (IsLeer(l) || IsImprimir(l) || IsAsignacion(l))
    ensures Classify(l).SiHeader? <==> l != [] && IsSi(l)
    ensures Classify(l).MientrasHeader? <==> l != [] && IsMientras(l)
    ensures Classify(l) == Unrecognized <==> l != [] && !IsStatement(l)
    ensures l != [] && IsLeer(l) ==> Classify(l) == Simple(ParseLeer(l))
    ensures l != [] && IsImprimir(l) ==> Classify(l) == Simple(ParseImprimir(l))
    ensures l != [] && IsAsignacion(l) ==> Classify(l) == Simple(ParseAsignacion(l))
    ensures l != [] && IsSi(l) ==> Classify(l) == SiHeader(ParseSiHeader(l))
    ensures l != [] && IsMientras(l) ==> Classify(l) == MientrasHeader(ParseMientrasHeader(l))
  {
    ClassesExclusive(l);
  }

  /**
   * What the classifier guarantees of every classified line: a simple line
   * holds a read, print or assignment, and the lines that end bodies
   * (`SINO`, `FIN MIENTRAS`) yield no statement of their own.
   */
  ghost predicate DelimitersSilent(cls: seq<LineInfo>) {
    forall k :: 0 <= k < |cls| ==> Silent(cls[k])
  }

  /** One classified line keeps the guarantee; proofs name the line they need it for. */
  predicate Silent(info: LineInfo) {
    && (info.kind.Simple? ==> IsSimpleOp(info.kind.op))
    && (info.sino || info.fin ==> !info.kind.Simple?)
  }

  lemma LineCoherent(line: string)
    ensures Info(line).kind.Simple? ==> IsSimpleOp(Info(line).kind.op)
    ensures Info(line).sino || Info(line).fin ==> !Info(line).kind.Simple?
  {
    if IsSinoLine(line) || IsFinMientrasLine(line) {
      DelimiterNotStatement(line);
      ClassifyExact(Strip(line));
    }
  }

  lemma InfosDelimitersSilent(lines: seq<string>)
    ensures DelimitersSilent(Infos(lines))
  {
    forall k | 0 <= k < |lines|
      ensures Silent(Infos(lines)[k])
    {
      InfoAt(lines, k);
      LineCoherent(lines[k]);
    }
  }

  // ---------------------------------------------------------------------------
  // The statements of a range of lines, and of a tree

  /** The statement a line yields by itself: the read, print or assignment it is, if any. */
  function Own(info: LineInfo): seq<Op> {
    if info.kind.Simple? then [info.kind.op] else []
  }

  /** The read, print and assignment statements of lines `i..j`, in order. */
  function Stmts(cls: seq<LineInfo>, i: nat, j: nat): seq<Op>
    requires i <= j <= |cls|
    decreases j - i
  {
    if i == j then [] else Own(cls[i]) + Stmts(cls, i + 1, j)
  }

  lemma {:induction false} StmtsSplit(cls: seq<LineInfo>, i: nat, j: nat, k: nat)
    requires i <= j <= k <= |cls|
    ensures Stmts(cls, i, k) == Stmts(cls, i, j) + Stmts(cls, j, k)
    decreases j - i
  {
    if i < j {
      StmtsSplit(cls, i + 1, j, k);
      AppendAssoc(Own(cls[i]), Stmts(cls, i + 1, j), Stmts(cls, j, k));
    }
  }

  lemma {:induction false} StmtsSlice(cls: seq<LineInfo>, i: nat, j: nat, a: nat)
    requires i <= j <= |cls| && a <= j - i
    ensures Stmts(cls[i..j], a, j - i) == Stmts(cls, i + a, j)
    decreases j - i - a
  {
    if a < j - i {
      var s := cls[i..j];
      assert s[a] == cls[i + a];
      StmtsSlice(cls, i, j, a + 1);
      assert Stmts(s, a, j - i) == Own(s[a]) + Stmts(s, a + 1, j - i);
      assert Stmts(cls, i + a, j) == Own(cls[i + a]) + Stmts(cls, i + a + 1, j);
    }
  }

  /** Every read, print and assignment of a tree, in pre-order: then-body before else-body. */
  function Flatten(ops: seq<Op>): seq<Op>
    decreases ops
  {
    if ops == [] then [] else FlattenOp(ops[0]) + Flatten(ops[1..])
  }

  function FlattenOp(op: Op): seq<Op>
    decreases op
  {
    match op
    case Si(_, t, e) => Flatten(t) + Flatten(e)
    case Mientras(_, b) => Flatten(b)
    case _ => [op]
  }

  lemma {:induction false} FlattenAppend(a: seq<Op>, b: seq<Op>)
    ensures Flatten(a + b) == Flatten(a) + Flatten(b)
    decreases |a|
  {
    if a != [] {
      assert (a + b)[1..] == a[1..] + b;
      FlattenAppend(a[1..], b);
      AppendAssoc(FlattenOp(a[0]), Flatten(a[1..]), Flatten(b));
    } else {
      assert a + b == b;
    }
  }

  lemma FlattenOne(op: Op)
    ensures Flatten([op]) == FlattenOp(op)
    ensures IsSimpleOp(op) ==> Flatten([op]) == [op]
  {
    assert [op][1..] == [];
  }

  // ---------------------------------------------------------------------------
  // No statement lost, duplicated or moved

  lemma {:induction false} BlocksFlat(cls: seq<LineInfo>)
    requires DelimitersSilent(cls)
    ensures Flatten(Blocks(cls)) == Stmts(cls, 0, |cls|)
    decreases |cls|, 2, 0
  {
    assert DelimitersSilent(cls);
    BlocksFromFlat(cls, 0);
  }

  lemma {:induction false} BlocksFromFlat(cls: seq<LineInfo>, i: nat)
    requires DelimitersSilent(cls) && i <= |cls|
    ensures Flatten(BlocksFrom(cls, i)) == Stmts(cls, i, |cls|)
    decreases |cls|, 1, |cls| - i
  {
    assert DelimitersSilent(cls);
    if i < |cls| {
      match cls[i].kind
      case Blank =>
        BlocksFromFlat(cls, i + 1);
      case Unrecognized =>
        BlocksFromFlat(cls, i + 1);
      case Simple(op) =>
        assert Silent(cls[i]);
        BlocksFromFlat(cls, i + 1);
        FlattenAppend([op], BlocksFrom(cls, i + 1));
        FlattenOne(op);
      case SiHeader(c) =>
        var r := SiAt(cls, i, c);
        SiAtFlat(cls, i, c);
        BlocksFromFlat(cls, r.1);
        FlattenAppend([r.0], BlocksFrom(cls, r.1));
        FlattenOne(r.0);
        StmtsSplit(cls, i, r.1, |cls|);
      case MientrasHeader(c) =>
        var r := MientrasAt(cls, i, c);
        MientrasAtFlat(cls, i, c);
        BlocksFromFlat(cls, r.1);
        FlattenAppend([r.0], BlocksFrom(cls, r.1));
        FlattenOne(r.0);
        StmtsSplit(cls, i, r.1, |cls|);
    }
  }

  lemma {:induction false} SiAtFlat(cls: seq<LineInfo>, i: nat, c: Cond)
    requires DelimitersSilent(cls) && i < |cls| && cls[i].kind.SiHeader?
    ensures FlattenOp(SiAt(cls, i, c).0) == Stmts(cls, i, SiAt(cls, i, c).1)
    decreases |cls|, 1, 0
  {
    assert DelimitersSilent(cls);
    var th := ThenBody(cls, i + 1);
    ThenFlat(cls, i + 1);
    if th.1 < |cls| {
      assert DelimitersSilent(cls);
      assert i < th.1 < |cls|;
      assert Silent(cls[th.1]);
      assert Flatten(th.0) == Stmts(cls, i + 1, th.1);
      var e, end := SiElseFlat(cls, i, c, th.0, th.1);
      SiAtIs(cls, i, c, th.0, th.1, e, end);
    } else {
      SiAtIs(cls, i, c, th.0, th.1, [], th.1);
      SiNoElseFromParts(cls, i, c, th.0, th.1);
    }
  }

  /**
   * A conditional whose then-body `t` covers lines `i+1..mid` and stops at
   * a `SINO` line: with the else-body that follows, it holds the statements
   * from its header to the end of the else-body.
   */
  lemma {:induction false} SiElseFlat(cls: seq<LineInfo>, i: nat, c: Cond, t: seq<Op>, mid: nat) returns (e: seq<Op>, end: nat)
    requires DelimitersSilent(cls) && i < mid < |cls| && cls[i].kind.SiHeader? && !cls[mid].kind.Simple?
    requires Flatten(t) == Stmts(cls, i + 1, mid)
    ensures (e, end) == ElseBody(cls, mid + 1)
    ensures FlattenOp(Si(c, t, e)) == Stmts(cls, i, end)
    decreases |cls|, 0, |cls| + 1
  {
    assert DelimitersSilent(cls);
    ElseFlat(cls, mid + 1);
    e, end := ElseBody(cls, mid + 1).0, ElseBody(cls, mid + 1).1;
    SiFromParts(cls, i, c, t, mid, e, end);
  }

  /**
   * A conditional whose then-body covers lines `i+1..mid` and whose
   * else-body covers `mid+1..end` flattens
   * to the statements of lines `i..end`: the header and the `SINO` line add none.
   */
  lemma SiFromParts(cls: seq<LineInfo>, i: nat, c: Cond, t: seq<Op>, mid: nat, e: seq<Op>, end: nat)
    requires i < mid < end <= |cls| && !cls[i].kind.Simple? && !cls[mid].kind.Simple?
    requires Flatten(t) == Stmts(cls, i + 1, mid)
    requires Flatten(e) == Stmts(cls, mid + 1, end)
    ensures FlattenOp(Si(c, t, e)) == Stmts(cls, i, end)
  {
    assert Stmts(cls, i, end) == Stmts(cls, i + 1, end);
    StmtsSplit(cls, i + 1, mid, end);
    assert Stmts(cls, mid, end) == Stmts(cls, mid + 1, end);
  }

  /** The same without a `SINO` line: the conditional flattens to its then-body, which covers lines `i+1..mid`. */
  lemma SiNoElseFromParts(cls: seq<LineInfo>, i: nat, c: Cond, t: seq<Op>, mid: nat)
    requires i < mid <= |cls| && !cls[i].kind.Simple?
    requires Flatten(t) == Stmts(cls, i + 1, mid)
    ensures FlattenOp(Si(c, t, [])) == Stmts(cls, i, mid)
  {
    assert Stmts(cls, i, mid) == Own(cls[i]) + Stmts(cls, i + 1, mid);
    assert Flatten([]) == [];
  }

  lemma {:induction false} MientrasAtFlat(cls: seq<LineInfo>, i: nat, c: Cond)
    requires DelimitersSilent(cls) && i < |cls| && cls[i].kind.MientrasHeader?
    ensures FlattenOp(MientrasAt(cls, i, c).0) == Stmts(cls, i, MientrasAt(cls, i, c).1)
    decreases |cls|, 1, 0
  {
    assert DelimitersSilent(cls);
    var body := LoopBody(cls, i + 1);
    LoopFlat(cls, i + 1);
    MientrasAtParts(cls, i, c);
    assert Flatten(body.0) == Stmts(cls, i + 1, body.1);
    assert i < body.1 <= |cls|;
    if body.1 < |cls| && cls[body.1].fin {
      assert Silent(cls[body.1]);
      MientrasFromParts(cls, i, c, body.0, body.1, body.1 + 1);
    } else {
      MientrasFromParts(cls, i, c, body.0, body.1, body.1);
    }
  }

  /**
   * A loop whose body covers lines `i+1..mid`, closed by a `FIN MIENTRAS`
   * line (`end == mid + 1`) or not (`end == mid`), flattens to the
   * statements of lines `i..end`: the header and the closing line add none.
   */
  lemma MientrasFromParts(cls: seq<LineInfo>, i: nat, c: Cond, b: seq<Op>, mid: nat, end: nat)
    requires i < mid <= end <= |cls| && end <= mid + 1 && !cls[i].kind.Simple?
    requires mid < end ==> !cls[mid].kind.Simple?
    requires Flatten(b) == Stmts(cls, i + 1, mid)
    ensures FlattenOp(Mientras(c, b)) == Stmts(cls, i, end)
  {
    assert Stmts(cls, i, end) == Stmts(cls, i + 1, end);
    StmtsSplit(cls, i + 1, mid, end);
    if mid < end {
      assert Stmts(cls, mid, end) == Own(cls[mid]) + Stmts(cls, mid + 1, end);
    }
  }

  /** A nested block parsed by the recursive call on `cls[i..j]` yields the statements of those lines. */
  lemma {:induction false} NestedFlat(cls: seq<LineInfo>, i: nat, j: nat)
    requires DelimitersSilent(cls) && 1 <= i <= j <= |cls|
    ensures Flatten(Blocks(cls[i..j])) == Stmts(cls, i, j)
    decreases |cls|, 0, 0
  {
    assert DelimitersSilent(cls);
    assert DelimitersSilent(cls[i..j]) by {
      forall k | 0 <= k < j - i ensures Silent(cls[i..j][k]) {
        assert cls[i..j][k] == cls[i + k] && Silent(cls[i + k]);
      }
    }
    BlocksFlat(cls[i..j]);
    StmtsSlice(cls, i, j, 0);
  }

  lemma {:induction false} ThenFlat(cls: seq<LineInfo>, i: nat)
    requires DelimitersSilent(cls) && 1 <= i <= |cls|
    ensures Flatten(ThenBody(cls, i).0) == Stmts(cls, i, ThenBody(cls, i).1)
    decreases |cls|, 0, |cls| - i + 1
  {
    assert DelimitersSilent(cls);
    if i < |cls| && !cls[i].sino {
      match cls[i].kind
      case Blank =>
        ThenFlat(cls, i + 1);
      case Unrecognized =>
        ThenFlat(cls, i + 1);
      case Simple(op) =>
        assert Silent(cls[i]);
        ThenFlat(cls, i + 1);
        FlattenAppend([op], ThenBody(cls, i + 1).0);
        FlattenOne(op);
      case MientrasHeader(_) =>
        var j := MatchEnd(cls, i + 1, 1);
        NestedFlat(cls, i, j);
        ThenFlat(cls, j);
        FlattenAppend(Blocks(cls[i..j]), ThenBody(cls, j).0);
        StmtsSplit(cls, i, j, ThenBody(cls, j).1);
      case SiHeader(_) =>
        NestedFlat(cls, i, |cls|);
        assert cls[i..] == cls[i..|cls|];
    }
  }

  lemma {:induction false} ElseFlat(cls: seq<LineInfo>, i: nat)
    requires DelimitersSilent(cls) && 1 <= i <= |cls|
    ensures Flatten(ElseBody(cls, i).0) == Stmts(cls, i, ElseBody(cls, i).1)
    decreases |cls|, 0, |cls| - i + 1
  {
    assert DelimitersSilent(cls);
    if i < |cls| {
      match cls[i].kind
      case Blank =>
      case Unrecognized =>
      case Simple(op) =>
        assert Silent(cls[i]);
        ElseFlat(cls, i + 1);
        FlattenAppend([op], ElseBody(cls, i + 1).0);
        FlattenOne(op);
      case MientrasHeader(_) =>
        var j := MatchEnd(cls, i + 1, 1);
        NestedFlat(cls, i, j);
        ElseFlat(cls, j);
        FlattenAppend(Blocks(cls[i..j]), ElseBody(cls, j).0);
        StmtsSplit(cls, i, j, ElseBody(cls, j).1);
      case SiHeader(_) =>
        NestedFlat(cls, i, |cls|);
        assert cls[i..] == cls[i..|cls|];
    }
  }

  lemma {:induction false} LoopFlat(cls: seq<LineInfo>, i: nat)
    requires DelimitersSilent(cls) && 1 <= i <= |cls|
    ensures Flatten(LoopBody(cls, i).0) == Stmts(cls, i, LoopBody(cls, i).1)
    decreases |cls|, 0, |cls| - i + 1
  {
    assert DelimitersSilent(cls);
    if i < |cls| && !cls[i].fin {
      match cls[i].kind
      case Blank =>
        LoopFlat(cls, i + 1);
      case Unrecognized =>
        LoopFlat(cls, i + 1);
      case Simple(op) =>
        assert Silent(cls[i]);
        LoopFlat(cls, i + 1);
        FlattenAppend([op], LoopBody(cls, i + 1).0);
        FlattenOne(op);
      case MientrasHeader(_) =>
        var j := MatchEnd(cls, i + 1, 1);
        NestedFlat(cls, i, j);
        LoopFlat(cls, j);
        FlattenAppend(Blocks(cls[i..j]), LoopBody(cls, j).0);
        StmtsSplit(cls, i, j, LoopBody(cls, j).1);
      case SiHeader(_) =>
        NestedFlat(cls, i, |cls|);
        assert cls[i..] == cls[i..|cls|];
    }
  }

  // ---------------------------------------------------------------------------
  // The program's statements

  /** The statement a raw line yields by itself, if it is a read, print or assignment. */
  function LineStatement(line: string): seq<Op> {
    match Classify(Strip(line))
    case Simple(op) => [op]
    case _ => []
  }

  /** The read, print and assignment lines of a program, as statements, in source order. */
  function SourceStatements(lines: seq<string>): seq<Op> {
    if lines == [] then [] else LineStatement(lines[0]) + SourceStatements(lines[1..])
  }

  lemma {:induction false} InfosStmts(lines: seq<string>, i: nat)
    requires i <= |lines|
    ensures Stmts(Infos(lines), i, |lines|) == SourceStatements(lines[i..])
    decreases |lines| - i
  {
    if i < |lines| {
      InfoAt(lines, i);
      InfosStmts(lines, i + 1);
      assert lines[i..][1..] == lines[i + 1..];
    }
  }

  /**
   * The parser keeps every read, print and assignment of the program, once
   * each and in source order: flattening the tree gives back exactly the
   * statement lines.
   */
  lemma ParsePreservesStatements(lines: seq<string>)
    ensures Flatten(Parse(lines)) == SourceStatements(lines)
  {
    InfosDelimitersSilent(lines);
    BlocksFlat(Infos(lines));
    InfosStmts(lines, 0);
    assert lines[0..] == lines;
  }

  lemma {:induction false} StraightLineFrom(cls: seq<LineInfo>, i: nat)
    requires i <= |cls|
    requires forall k :: i <= k < |cls| ==> !cls[k].kind.SiHeader? && !cls[k].kind.MientrasHeader?
    ensures BlocksFrom(cls, i) == Stmts(cls, i, |cls|)
    decreases |cls| - i
  {
    if i < |cls| {
      StraightLineFrom(cls, i + 1);
    }
  }

  /** A program with no `SI` or `MIENTRAS` header parses to the flat list of its statements. */
  lemma StraightLineProgram(lines: seq<string>)
    requires forall k :: 0 <= k < |lines| ==> !IsSi(Strip(lines[k])) && !IsMientras(Strip(lines[k]))
    ensures Parse(lines) == SourceStatements(lines)
  {
    var cls := Infos(lines);
    forall k | 0 <= k < |cls| ensures !cls[k].kind.SiHeader? && !cls[k].kind.MientrasHeader? {
      InfoFields(lines, k);
      ClassifyExact(Strip(lines[k]));
    }
    StraightLineFrom(cls, 0);
    InfosStmts(lines, 0);
    assert lines[0..] == lines;
  }

  // ---------------------------------------------------------------------------
  // The block rules

  /** The change one line makes to the loop depth in the scan for the closing `FIN MIENTRAS`. */
  function DepthStep(info: LineInfo): int {
    if info.opens then 1 else if info.closes then -1 else 0
  }

  /** The depth after lines `j..k`, starting from depth `d`. */
  function DepthAfter(cls: seq<LineInfo>, j: nat, k: nat, d: int): int
    requires j <= k <= |cls|
    decreases k - j
  {
    if j == k then d else DepthAfter(cls, j + 1, k, d + DepthStep(cls[j]))
  }

  lemma {:induction false} DepthAfterLast(cls: seq<LineInfo>, j: nat, k: nat, d: int)
    requires j <= k < |cls|
    ensures DepthAfter(cls, j, k + 1, d) == DepthAfter(cls, j, k, d) + DepthStep(cls[k])
    decreases k - j
  {
    if j < k {
      DepthAfterLast(cls, j + 1, k, d + DepthStep(cls[j]));
    }
  }

  /**
   * The scan stops at the first line where the depth, counted from `d`,
   * comes back to zero, or at the end of the list if it never does.
   */
  lemma {:induction false} MatchEndIsFirstBalance(cls: seq<LineInfo>, j: nat, d: nat)
    requires j <= |cls|
    ensures forall m :: j <= m < MatchEnd(cls, j, d) ==> DepthAfter(cls, j, m, d) > 0
    ensures MatchEnd(cls, j, d) == |cls| || DepthAfter(cls, j, MatchEnd(cls, j, d), d) == 0
    decreases |cls| - j
  {
    if j < |cls| && d > 0 {
      var d' := if cls[j].opens then d + 1 else if cls[j].closes then d - 1 else d;
      assert d' == d + DepthStep(cls[j]);
      MatchEndIsFirstBalance(cls, j + 1, d');
    }
  }

  /**
   * The slice a nested `MIENTRAS` is parsed from, `cls[i..k]` with
   * `k == MatchEnd(cls, i + 1, 1)`, ends with the `FIN MIENTRAS` line that
   * balances its header, unless it runs to the end of the list.
   */
  lemma NestedLoopEndsAtItsFin(cls: seq<LineInfo>, j: nat)
    requires j <= |cls|
    ensures var k := MatchEnd(cls, j, 1);
      k < |cls| ==> j < k && cls[k - 1].closes && !cls[k - 1].opens && DepthAfter(cls, j, k - 1, 1) == 1
  {
    var k := MatchEnd(cls, j, 1);
    MatchEndIsFirstBalance(cls, j, 1);
    if k < |cls| {
      assert k != j;
      DepthAfterLast(cls, j, k - 1, 1);
      assert DepthAfter(cls, j, k - 1, 1) > 0;
    }
  }

  lemma {:induction false} ThenRunToNestedSi(cls: seq<LineInfo>, i: nat, m: nat)
    requires 1 <= i <= m < |cls|
    requires forall k :: i <= k < m ==> !cls[k].sino && !cls[k].kind.SiHeader? && !cls[k].kind.MientrasHeader?
    requires !cls[m].sino && cls[m].kind.SiHeader?
    ensures ThenBody(cls, i).0 == Stmts(cls, i, m) + Blocks(cls[m..])
    ensures ThenBody(cls, i).1 == |cls|
    decreases m - i
  {
    if i < m {
      ThenRunToNestedSi(cls, i + 1, m);
      AppendAssoc(Own(cls[i]), Stmts(cls, i + 1, m), Blocks(cls[m..]));
    }
  }

  /**
   * A nested `SI` in a then-body is parsed from its header to the end of
   * the program, and the enclosing body stops there: everything after the
   * nested `SI` belongs to it, the enclosing `SI` gets no else-body, and it
   * is the last statement of the enclosing list.
   */
  lemma NestedSiTakesRest(cls: seq<LineInfo>, h: nat, c: Cond, m: nat)
    requires h < m < |cls| && cls[h].kind == SiHeader(c)
    requires forall k :: h < k < m ==> !cls[k].sino && !cls[k].kind.SiHeader? && !cls[k].kind.MientrasHeader?
    requires !cls[m].sino && cls[m].kind.SiHeader?
    ensures BlocksFrom(cls, h) == [Si(c, Stmts(cls, h + 1, m) + Blocks(cls[m..]), [])]
  {
    ThenRunToNestedSi(cls, h + 1, m);
  }

  lemma {:induction false} ElseSimpleRun(cls: seq<LineInfo>, i: nat, b: nat)
    requires 1 <= i <= b < |cls|
    requires forall k :: i <= k < b ==> cls[k].kind.Simple?
    requires cls[b].kind == Blank
    ensures ElseBody(cls, i).0 == Stmts(cls, i, b) && ElseBody(cls, i).1 == b
    decreases b - i
  {
    if i < b {
      ElseSimpleRun(cls, i + 1, b);
    }
  }

  /**
   * An else-body ends at its first blank line: the statements after the
   * blank line are not part of the `SI`, but follow it in the enclosing list.
   */
  lemma ElseEndsAtBlank(cls: seq<LineInfo>, h: nat, c: Cond, b: nat)
    requires h < |cls| && cls[h].kind == SiHeader(c)
    requires var t := ThenBody(cls, h + 1).1; t < |cls| && cls[t].sino && t < b < |cls|
    requires forall k :: ThenBody(cls, h + 1).1 < k < b ==> cls[k].kind.Simple?
    requires cls[b].kind == Blank
    ensures BlocksFrom(cls, h)
      == [Si(c, ThenBody(cls, h + 1).0, Stmts(cls, ThenBody(cls, h + 1).1 + 1, b))] + BlocksFrom(cls, b)
  {
    ElseSimpleRun(cls, ThenBody(cls, h + 1).1 + 1, b);
  }
}
