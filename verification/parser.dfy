/**
 * `analizar_pseudocodigo`: the block parser.  It walks the list of lines
 * with an index, classifies each stripped line and builds the statement
 * tree.  Bodies of `SI` and `MIENTRAS` are collected by inner loops; a
 * nested `MIENTRAS` is delimited by a depth-counting scan and parsed by a
 * recursive call on that slice, and a nested `SI` by a recursive call on
 * all remaining lines.
 *
 * The model separates the two concerns the source interleaves.  `Info`
 * records what the regular expressions say about one line; the block
 * structure is then a function of that sequence of classifications
 * (`Blocks` and the body functions, in the order the source tries its
 * cases).  The methods are the loops themselves, testing the regular
 * expressions line by line, and are proved to compute those functions.
 * Every recursive call is on a strictly shorter slice (it starts at the
 * nested header, after the enclosing header was consumed), which is what
 * the `decreases` clauses check.
 */
module Parser {
  import opened Text
  import opened Ast
  import opened Classifier

  /** What one stripped line is, as the chains of `re.match` tests in every loop decide it. */
  datatype Line =
    | Blank
    | Simple(op: Op)
    | SiHeader(cond: Cond)
    | MientrasHeader(cond: Cond)
    | Unrecognized

  /**
   * The classification of a stripped line, tried in the order of the
   * top-level loop.  The bodies try `SI` and `MIENTRAS` in other orders;
   * the classes are disjoint (`ClassifyExact`), so the order is immaterial.
   */
  function Classify(l: string): Line {
    if l == [] then Blank
    else if IsLeer(l) then Simple(ParseLeer(l))
    else if IsImprimir(l) then Simple(ParseImprimir(l))
    else if IsAsignacion(l) then Simple(ParseAsignacion(l))
    else if IsSi(l) then SiHeader(ParseSiHeader(l))
    else if IsMientras(l) then MientrasHeader(ParseMientrasHeader(l))
    else Unrecognized
  }

  /**
   * Everything the parser asks about one raw line: its class once stripped,
   * whether the raw line is a `SINO` or a `FIN MIENTRAS` line (the body
   * loops test the raw line), and whether the stripped line opens or closes
   * a loop (the depth-counting scan tests the stripped line).
   */
  datatype LineInfo = LineInfo(kind: Line, sino: bool, fin: bool, opens: bool, closes: bool)

  function Info(line: string): LineInfo {
    var l := Strip(line);
    LineInfo(Classify(l), IsSinoLine(line), IsFinMientrasLine(line), IsMientras(l), IsFinMientrasLine(l))
  }

  /** The classification of every line, in order. */
  function Infos(lines: seq<string>): (cls: seq<LineInfo>)
    ensures |cls| == |lines|
  {
    if lines == [] then [] else [Info(lines[0])] + Infos(lines[1..])
  }

  lemma {:induction false} InfoAt(lines: seq<string>, k: nat)
    requires k < |lines|
    ensures Infos(lines)[k] == Info(lines[k])
  {
    if k > 0 {
      InfoAt(lines[1..], k - 1);
    }
  }

  /** What the loops test on line `k` is what its classification records. */
  lemma InfoFields(lines: seq<string>, k: nat)
    requires k < |lines|
    ensures Infos(lines)[k].kind == Classify(Strip(lines[k]))
    ensures Infos(lines)[k].sino == IsSinoLine(lines[k]) && Infos(lines)[k].fin == IsFinMientrasLine(lines[k])
    ensures Infos(lines)[k].opens == IsMientras(Strip(lines[k]))
    ensures Infos(lines)[k].closes == IsFinMientrasLine(Strip(lines[k]))
  {
    InfoAt(lines, k);
  }

  lemma {:induction false} InfosSlice(lines: seq<string>, i: nat, j: nat)
    requires i <= j <= |lines|
    ensures Infos(lines[i..j]) == Infos(lines)[i..j]
  {
    forall k | 0 <= k < j - i
      ensures Infos(lines[i..j])[k] == Infos(lines)[i..j][k]
    {
      InfoAt(lines[i..j], k);
      InfoAt(lines, i + k);
    }
  }

  /** The statements a body has collected, put in front of what the rest of the body yields. */
  function Prepend(ops: seq<Op>, r: (seq<Op>, nat)): (seq<Op>, nat) {
    (ops + r.0, r.1)
  }

  /** What `analizar_pseudocodigo(lines)` returns. */
  function Parse(lines: seq<string>): seq<Op> {
    Blocks(Infos(lines))
  }

  /**
   * The depth-counting scan for the `FIN MIENTRAS` that closes a loop
   * whose header is just before `j`: one more level for each `MIENTRAS`
   * header, one less for each `FIN MIENTRAS` line, stopping one past the
   * line that brings the depth to zero, or at the end of the list.
   */
  function MatchEnd(cls: seq<LineInfo>, j: nat, depth: nat): (k: nat)
    requires j <= |cls|
    ensures j <= k <= |cls|
    decreases |cls| - j
  {
    if j == |cls| || depth == 0 then j
    else
      var d := if cls[j].opens then depth + 1 else if cls[j].closes then depth - 1 else depth;
      MatchEnd(cls, j + 1, d)
  }

  lemma MatchEndStep(cls: seq<LineInfo>, j: nat, depth: nat)
    requires j < |cls| && depth > 0
    ensures MatchEnd(cls, j, depth)
         == MatchEnd(cls, j + 1, if cls[j].opens then depth + 1 else if cls[j].closes then depth - 1 else depth)
  {
  }

  /** The statement tree of a classified list of lines. */
  function Blocks(cls: seq<LineInfo>): seq<Op>
    decreases |cls|, 2, 0
  {
    BlocksFrom(cls, 0)
  }

  /** The statements the top-level loop appends from line `i` on. */
  function BlocksFrom(cls: seq<LineInfo>, i: nat): seq<Op>
    requires i <= |cls|
    decreases |cls|, 1, |cls| - i
  {
    if i == |cls| then []
    else
      match cls[i].kind
      case Blank => BlocksFrom(cls, i + 1)
      case Simple(op) => [op] + BlocksFrom(cls, i + 1)
      case SiHeader(c) =>
        var r := SiAt(cls, i, c);
        [r.0] + BlocksFrom(cls, r.1)
      case MientrasHeader(c) =>
        var r := MientrasAt(cls, i, c);
        [r.0] + BlocksFrom(cls, r.1)
      case Unrecognized => BlocksFrom(cls, i + 1)
  }

  /**
   * The `SI` statement whose header, with condition `c`, is line `i`, and
   * the line where the top-level loop resumes: after the then-body, and
   * after the else-body when a `SINO` line ends the then-body.
   */
  function SiAt(cls: seq<LineInfo>, i: nat, c: Cond): (r: (Op, nat))
    requires i < |cls|
    ensures i < r.1 <= |cls|
    decreases |cls|, 1, 0
  {
    var th := ThenBody(cls, i + 1);
    if th.1 < |cls| && cls[th.1].sino then
      var el := ElseBody(cls, th.1 + 1);
      (Si(c, th.0, el.0), el.1)
    else
      (Si(c, th.0, []), th.1)
  }

  /**
   * The `MIENTRAS` statement whose header, with condition `c`, is line `i`,
   * and the line where the top-level loop resumes: after the body and the
   * `FIN MIENTRAS` line that ends it, if there is one.
   */
  function MientrasAt(cls: seq<LineInfo>, i: nat, c: Cond): (r: (Op, nat))
    requires i < |cls|
    ensures i < r.1 <= |cls|
    decreases |cls|, 1, 0
  {
    var body := LoopBody(cls, i + 1);
    if body.1 < |cls| && cls[body.1].fin then
      (Mientras(c, body.0), body.1 + 1)
    else
      (Mientras(c, body.0), body.1)
  }

  /**
   * The then-body of an `SI` whose header is line `i - 1`: the statements
   * it collects and the line where it stops.  It stops at the first `SINO`
   * line or at the end; after a nested `SI` it has consumed everything.
   */
  function ThenBody(cls: seq<LineInfo>, i: nat): (r: (seq<Op>, nat))
    requires 1 <= i <= |cls|
    ensures i <= r.1 <= |cls|
    ensures r.1 == |cls| || cls[r.1].sino
    decreases |cls|, 0, |cls| - i
  {
    if i == |cls| || cls[i].sino then ([], i)
    else
      match cls[i].kind
      case Blank => ThenBody(cls, i + 1)
      case Simple(op) => Prepend([op], ThenBody(cls, i + 1))
      case MientrasHeader(_) =>
        var j := MatchEnd(cls, i + 1, 1);
        Prepend(Blocks(cls[i..j]), ThenBody(cls, j))
      case SiHeader(_) => (Blocks(cls[i..]), |cls|)
      case Unrecognized => ThenBody(cls, i + 1)
  }

  /**
   * The else-body of an `SI` whose `SINO` is line `i - 1`.  It stops,
   * without consuming it, at the first blank line or line of no statement
   * class; after a nested `SI` it has consumed everything.
   */
  function ElseBody(cls: seq<LineInfo>, i: nat): (r: (seq<Op>, nat))
    requires 1 <= i <= |cls|
    ensures i <= r.1 <= |cls|
    ensures r.1 < |cls| ==> cls[r.1].kind == Blank || cls[r.1].kind == Unrecognized
    decreases |cls|, 0, |cls| - i
  {
    if i == |cls| then ([], i)
    else
      match cls[i].kind
      case Blank => ([], i)
      case Simple(op) => Prepend([op], ElseBody(cls, i + 1))
      case MientrasHeader(_) =>
        var j := MatchEnd(cls, i + 1, 1);
        Prepend(Blocks(cls[i..j]), ElseBody(cls, j))
      case SiHeader(_) => (Blocks(cls[i..]), |cls|)
      case Unrecognized => ([], i)
  }

  /**
   * The body of a `MIENTRAS` whose header is line `i - 1`.  It stops at the
   * first `FIN MIENTRAS` line or at the end; after a nested `SI` it has
   * consumed everything.
   */
  function LoopBody(cls: seq<LineInfo>, i: nat): (r: (seq<Op>, nat))
    requires 1 <= i <= |cls|
    ensures i <= r.1 <= |cls|
    ensures r.1 == |cls| || cls[r.1].fin
    decreases |cls|, 0, |cls| - i
  {
    if i == |cls| || cls[i].fin then ([], i)
    else
      match cls[i].kind
      case Blank => LoopBody(cls, i + 1)
      case Simple(op) => Prepend([op], LoopBody(cls, i + 1))
      case SiHeader(_) => (Blocks(cls[i..]), |cls|)
      case MientrasHeader(_) =>
        var j := MatchEnd(cls, i + 1, 1);
        Prepend(Blocks(cls[i..j]), LoopBody(cls, j))
      case Unrecognized => LoopBody(cls, i + 1)
  }

  /** One step of the top-level loop, as `BlocksFrom` takes it. */
  lemma BlocksStep(cls: seq<LineInfo>, i: nat)
    requires i < |cls|
    ensures (cls[i].kind.Blank? || cls[i].kind.Unrecognized?) ==> BlocksFrom(cls, i) == BlocksFrom(cls, i + 1)
    ensures cls[i].kind.Simple? ==> BlocksFrom(cls, i) == [cls[i].kind.op] + BlocksFrom(cls, i + 1)
    ensures cls[i].kind.SiHeader? ==> var r := SiAt(cls, i, cls[i].kind.cond);
      BlocksFrom(cls, i) == [r.0] + BlocksFrom(cls, r.1)
    ensures cls[i].kind.MientrasHeader? ==> var r := MientrasAt(cls, i, cls[i].kind.cond);
      BlocksFrom(cls, i) == [r.0] + BlocksFrom(cls, r.1)
  {
  }

  /** `SiAt` from its parts: the then-body up to line `mid`, then the else-body if line `mid` is a `SINO`. */
  lemma SiAtIs(cls: seq<LineInfo>, i: nat, c: Cond, t: seq<Op>, mid: nat, e: seq<Op>, end: nat)
    requires i < |cls|
    requires t == ThenBody(cls, i + 1).0 && mid == ThenBody(cls, i + 1).1
    requires if mid < |cls| && cls[mid].sino then e == ElseBody(cls, mid + 1).0 && end == ElseBody(cls, mid + 1).1
             else e == [] && end == mid
    ensures SiAt(cls, i, c).0 == Si(c, t, e) && SiAt(cls, i, c).1 == end
  {
  }

  /** `MientrasAt` component by component. */
  lemma MientrasAtParts(cls: seq<LineInfo>, i: nat, c: Cond)
    requires i < |cls|
    ensures var body := LoopBody(cls, i + 1);
      var r := MientrasAt(cls, i, c);
      && r.0 == Mientras(c, body.0)
      && r.1 == if body.1 < |cls| && cls[body.1].fin then body.1 + 1 else body.1
  {
  }

  /** One line of a then-body, as `ThenBody` takes it. */
  lemma ThenStep(cls: seq<LineInfo>, i: nat)
    requires 1 <= i < |cls| && !cls[i].sino
    ensures (cls[i].kind.Blank? || cls[i].kind.Unrecognized?) ==> ThenBody(cls, i) == ThenBody(cls, i + 1)
    ensures cls[i].kind.Simple? ==>
      ThenBody(cls, i).0 == [cls[i].kind.op] + ThenBody(cls, i + 1).0 && ThenBody(cls, i).1 == ThenBody(cls, i + 1).1
    ensures cls[i].kind.MientrasHeader? ==> var j := MatchEnd(cls, i + 1, 1);
      ThenBody(cls, i).0 == Blocks(cls[i..j]) + ThenBody(cls, j).0 && ThenBody(cls, i).1 == ThenBody(cls, j).1
    ensures cls[i].kind.SiHeader? ==> ThenBody(cls, i).0 == Blocks(cls[i..]) && ThenBody(cls, i).1 == |cls|
  {
  }

  /** One line of an else-body, as `ElseBody` takes it. */
  lemma ElseStep(cls: seq<LineInfo>, i: nat)
    requires 1 <= i < |cls|
    ensures (cls[i].kind.Blank? || cls[i].kind.Unrecognized?) ==> ElseBody(cls, i).0 == [] && ElseBody(cls, i).1 == i
    ensures cls[i].kind.Simple? ==>
      ElseBody(cls, i).0 == [cls[i].kind.op] + ElseBody(cls, i + 1).0 && ElseBody(cls, i).1 == ElseBody(cls, i + 1).1
    ensures cls[i].kind.MientrasHeader? ==> var j := MatchEnd(cls, i + 1, 1);
      ElseBody(cls, i).0 == Blocks(cls[i..j]) + ElseBody(cls, j).0 && ElseBody(cls, i).1 == ElseBody(cls, j).1
    ensures cls[i].kind.SiHeader? ==> ElseBody(cls, i).0 == Blocks(cls[i..]) && ElseBody(cls, i).1 == |cls|
  {
  }

  /** One line of a loop body, as `LoopBody` takes it. */
  lemma LoopStep(cls: seq<LineInfo>, i: nat)
    requires 1 <= i < |cls| && !cls[i].fin
    ensures (cls[i].kind.Blank? || cls[i].kind.Unrecognized?) ==> LoopBody(cls, i) == LoopBody(cls, i + 1)
    ensures cls[i].kind.Simple? ==>
      LoopBody(cls, i).0 == [cls[i].kind.op] + LoopBody(cls, i + 1).0 && LoopBody(cls, i).1 == LoopBody(cls, i + 1).1
    ensures cls[i].kind.MientrasHeader? ==> var j := MatchEnd(cls, i + 1, 1);
      LoopBody(cls, i).0 == Blocks(cls[i..j]) + LoopBody(cls, j).0 && LoopBody(cls, i).1 == LoopBody(cls, j).1
    ensures cls[i].kind.SiHeader? ==> LoopBody(cls, i).0 == Blocks(cls[i..]) && LoopBody(cls, i).1 == |cls|
  {
  }

  // ---------------------------------------------------------------------------
  // The loops

  /** `analizar_pseudocodigo`: the top-level loop. */
  method Analizar(lines: seq<string>) returns (tokens: seq<Op>)
    ensures tokens == Parse(lines)
    decreases |lines|, 4
  {
    ghost var cls := Infos(lines);
    tokens := [];
    var i := 0;
    var n := |lines|;
    while i < n
      invariant i <= n
      invariant tokens + BlocksFrom(cls, i) == Blocks(cls)
      decreases n - i
    {
      BlocksStep(cls, i);
      var kind := Classify(Strip(lines[i]));
      InfoFields(lines, i);
      match kind
      case Blank =>
        i := i + 1;
      case Simple(op) =>
        AppendAssoc(tokens, [op], BlocksFrom(cls, i + 1));
        tokens := tokens + [op];
        i := i + 1;
      case SiHeader(condicion) =>
        var si;
        si, i := ParseSi(lines, i, condicion);
        AppendAssoc(tokens, [si], BlocksFrom(cls, i));
        tokens := tokens + [si];
      case MientrasHeader(condicion) =>
        var mientras;
        mientras, i := ParseMientras(lines, i, condicion);
        AppendAssoc(tokens, [mientras], BlocksFrom(cls, i));
        tokens := tokens + [mientras];
      case Unrecognized =>
        i := i + 1;
    }
  }

  /** The `SI` branch of the top-level loop: the then-body, then the else-body after a `SINO` line. */
  method ParseSi(lines: seq<string>, at: nat, condicion: Cond) returns (si: Op, i: nat)
    requires at < |lines|
    ensures si == SiAt(Infos(lines), at, condicion).0 && i == SiAt(Infos(lines), at, condicion).1
    decreases |lines|, 3
  {
    var entonces, sino;
    entonces, i := ParseThenBody(lines, at + 1);
    ghost var mid := i;
    sino, i := ParseSino(lines, i);
    si := Si(condicion, entonces, sino);
    SiAtIs(Infos(lines), at, condicion, entonces, mid, sino, i);
  }

  /** After a then-body that stopped at line `i`: the `SINO` line and the else-body, if line `i` is a `SINO`. */
  method ParseSino(lines: seq<string>, at: nat) returns (sino: seq<Op>, i: nat)
    requires 1 <= at <= |lines|
    ensures var cls := Infos(lines);
      if at < |lines| && cls[at].sino then sino == ElseBody(cls, at + 1).0 && i == ElseBody(cls, at + 1).1
      else sino == [] && i == at
    decreases |lines|, 2
  {
    sino := [];
    i := at;
    var sinoLine := false;
    if i < |lines| {
      sinoLine := IsSinoLine(lines[i]);
      InfoFields(lines, i);
    }
    if sinoLine {
      sino, i := ParseElseBody(lines, i + 1);
    }
  }

  /** The `MIENTRAS` branch of the top-level loop: the body, then its `FIN MIENTRAS` line if present. */
  method ParseMientras(lines: seq<string>, at: nat, condicion: Cond) returns (mientras: Op, i: nat)
    requires at < |lines|
    ensures mientras == MientrasAt(Infos(lines), at, condicion).0 && i == MientrasAt(Infos(lines), at, condicion).1
    decreases |lines|, 2
  {
    ghost var cls := Infos(lines);
    MientrasAtParts(cls, at, condicion);
    var n := |lines|;
    var cuerpo;
    cuerpo, i := ParseLoopBody(lines, at + 1);
    var finLine := false;
    if i < n {
      finLine := IsFinMientrasLine(lines[i]);
      InfoFields(lines, i);
    }
    if finLine {
      i := i + 1;
    }
    mientras := Mientras(condicion, cuerpo);
  }

  /** The depth-counting scan, as the source writes it after each nested `MIENTRAS` header. */
  method ScanLoopEnd(lines: seq<string>, start: nat) returns (j: nat)
    requires start <= |lines|
    ensures j == MatchEnd(Infos(lines), start, 1)
  {
    ghost var cls := Infos(lines);
    var depth := 1;
    j := start;
    while j < |lines| && depth > 0
      invariant start <= j <= |lines|
      invariant MatchEnd(cls, j, depth) == MatchEnd(cls, start, 1)
      decreases |lines| - j
    {
      var linea := Strip(lines[j]);
      var abre, cierra := IsMientras(linea), IsFinMientrasLine(linea);
      InfoFields(lines, j);
      ghost var next := if cls[j].opens then depth + 1 else if cls[j].closes then depth - 1 else depth;
      MatchEndStep(cls, j, depth);
      if abre {
        depth := depth + 1;
      } else if cierra {
        depth := depth - 1;
      }
      assert depth == next;
      j := j + 1;
    }
  }

  /** A nested block on `lines[i..j]`, parsed by the recursive call, as the body functions see it. */
  method ParseNested(lines: seq<string>, i: nat, j: nat) returns (sub: seq<Op>)
    requires 1 <= i <= j <= |lines|
    ensures sub == Blocks(Infos(lines)[i..j])
    ensures j == |lines| ==> sub == Blocks(Infos(lines)[i..])
    decreases |lines|, 0
  {
    sub := Analizar(lines[i..j]);
    InfosSlice(lines, i, j);
    assert Infos(lines)[i..|lines|] == Infos(lines)[i..];
  }

  /** The then-body loop of an `SI`. */
  method ParseThenBody(lines: seq<string>, start: nat) returns (ops: seq<Op>, i: nat)
    requires 1 <= start <= |lines|
    ensures ops == ThenBody(Infos(lines), start).0 && i == ThenBody(Infos(lines), start).1
    decreases |lines|, 1
  {
    ghost var cls := Infos(lines);
    ops := [];
    i := start;
    var n := |lines|;
    while i < n
      invariant start <= i <= n
      invariant ops + ThenBody(cls, i).0 == ThenBody(cls, start).0
      invariant ThenBody(cls, i).1 == ThenBody(cls, start).1
      decreases n - i
    {
      var sinoLine := IsSinoLine(lines[i]);
      InfoFields(lines, i);
      if sinoLine {
        break;
      }
      ThenStep(cls, i);
      var kind := Classify(Strip(lines[i]));
      InfoFields(lines, i);
      match kind
      case Blank =>
        i := i + 1;
      case Simple(op) =>
        AppendAssoc(ops, [op], ThenBody(cls, i + 1).0);
        ops := ops + [op];
        i := i + 1;
      case MientrasHeader(_) =>
        var j := ScanLoopEnd(lines, i + 1);
        var sub := ParseNested(lines, i, j);
        AppendAssoc(ops, sub, ThenBody(cls, j).0);
        ops := ops + sub;
        i := j;
      case SiHeader(_) =>
        var anidado := ParseNested(lines, i, n);
        ops := ops + anidado;
        i := n;
        break;
      case Unrecognized =>
        i := i + 1;
    }
  }

  /** The else-body loop of an `SI`. */
  method ParseElseBody(lines: seq<string>, start: nat) returns (ops: seq<Op>, i: nat)
    requires 1 <= start <= |lines|
    ensures ops == ElseBody(Infos(lines), start).0 && i == ElseBody(Infos(lines), start).1
    decreases |lines|, 1
  {
    ghost var cls := Infos(lines);
    ops := [];
    i := start;
    var n := |lines|;
    while i < n
      invariant start <= i <= n
      invariant ops + ElseBody(cls, i).0 == ElseBody(cls, start).0
      invariant ElseBody(cls, i).1 == ElseBody(cls, start).1
      decreases n - i
    {
      ElseStep(cls, i);
      var kind := Classify(Strip(lines[i]));
      InfoFields(lines, i);
      match kind
      case Blank =>
        break;
      case Simple(op) =>
        AppendAssoc(ops, [op], ElseBody(cls, i + 1).0);
        ops := ops + [op];
        i := i + 1;
      case MientrasHeader(_) =>
        var j := ScanLoopEnd(lines, i + 1);
        var sub := ParseNested(lines, i, j);
        AppendAssoc(ops, sub, ElseBody(cls, j).0);
        ops := ops + sub;
        i := j;
      case SiHeader(_) =>
        var anidado := ParseNested(lines, i, n);
        ops := ops + anidado;
        i := n;
        break;
      case Unrecognized =>
        break;
    }
  }

  /** The body loop of a `MIENTRAS`. */
  method ParseLoopBody(lines: seq<string>, start: nat) returns (ops: seq<Op>, i: nat)
    requires 1 <= start <= |lines|
    ensures ops == LoopBody(Infos(lines), start).0 && i == LoopBody(Infos(lines), start).1
    decreases |lines|, 1
  {
    ghost var cls := Infos(lines);
    ops := [];
    i := start;
    var n := |lines|;
    while i < n
      invariant start <= i <= n
      invariant ops + LoopBody(cls, i).0 == LoopBody(cls, start).0
      invariant LoopBody(cls, i).1 == LoopBody(cls, start).1
      decreases n - i
    {
      var finLine := IsFinMientrasLine(lines[i]);
      InfoFields(lines, i);
      if finLine {
        break;
      }
      LoopStep(cls, i);
      var kind := Classify(Strip(lines[i]));
      InfoFields(lines, i);
      match kind
      case Blank =>
        i := i + 1;
      case Simple(op) =>
        AppendAssoc(ops, [op], LoopBody(cls, i + 1).0);
        ops := ops + [op];
        i := i + 1;
      case SiHeader(_) =>
        var anidado := ParseNested(lines, i, n);
        ops := ops + anidado;
        i := n;
        break;
      case MientrasHeader(_) =>
        var j := ScanLoopEnd(lines, i + 1);
        var sub := ParseNested(lines, i, j);
        AppendAssoc(ops, sub, LoopBody(cls, j).0);
        ops := ops + sub;
        i := j;
      case Unrecognized =>
        i := i + 1;
    }
  }
}
