/**
 * What the lowering promises: how long each operation's code is, how the
 * label counter moves, which temporaries and constants it adds, how the
 * `FINSI` queue behaves, where the `ENTONCES`/`SINO` labels go, and the
 * layout of the whole program.
 */
module LmcProperties {
  import opened Text
  import opened Ast
  import opened Options
  import opened Symbols
  import opened Lmc
  import Sorting

  // ---------------------------------------------------------------------------
  // Code size

  /** The number of test and branch lines before the bodies of an `SI`. */
  function HeaderSize(cmp: Comparator): nat {
    if cmp == Ge || cmp == Le then 5 else 4
  }

  /** The number of lines an operation lowers to, whatever the generator's state. */
  function OpSize(op: Op): nat
    decreases op
  {
    match op
    case Leer(_) => 2
    case Imprimir(_) => 2
    case Asig(_, _, o, _) => if o == Mul then 14 else if o == Div then 0 else 3
    case Si(c, t, e) => HeaderSize(c.cmp) + BodySize(t) + 1 + BodySize(e)
    case Mientras(_, _) => 0
  }

  function BodySize(ops: seq<Op>): nat
    decreases ops
  {
    if ops == [] then 0 else OpSize(ops[0]) + BodySize(ops[1..])
  }

  lemma {:induction false} OpCodeSize(op: Op, st: GenState)
    requires Covers(st.consts.Keys, OpTokens(op))
    ensures |OpCode(op, st).lines| == OpSize(op)
    decreases op, 1
  {
    if op.Si? {
      SiCodeSize(op, st.ix, st);
    }
  }

  lemma {:induction false} SiCodeSize(op: Op, k: nat, st: GenState)
    requires op.Si? && Covers(st.consts.Keys, OpTokens(op))
    ensures |SiCode(op, k, st).lines| == OpSize(op)
    decreases op, 0
  {
    var c := op.cond;
    var first := if ElseFirst(c.cmp) then op.elseOps else op.thenOps;
    var second := if ElseFirst(c.cmp) then op.thenOps else op.elseOps;
    var l1 := Some(if ElseFirst(c.cmp) then SinoLabel(k) else EntoncesLabel(k));
    var l2 := Some(if ElseFirst(c.cmp) then EntoncesLabel(k) else SinoLabel(k));
    var header := SiHeader(c.cmp, EtiquetaMem(c.left, st.consts), EtiquetaMem(c.right, st.consts),
                           EntoncesLabel(k), SinoLabel(k));
    var b1 := BodyCode(first, l1, st);
    var b2 := BodyCode(second, l2, b1.st);
    assert SiCode(op, k, st).lines == header + b1.lines + ["BRA " + FinsiLabel(k)] + b2.lines;
    assert |header| == HeaderSize(c.cmp);
    BodyCodeSize(first, l1, st);
    BodyCodeSize(second, l2, b1.st);
  }

  /** The code of a list of operations is as long as the sum of their sizes. */
  lemma {:induction false} BodyCodeSize(ops: seq<Op>, etq: Option<string>, st: GenState)
    requires Covers(st.consts.Keys, Tokens(ops))
    ensures |BodyCode(ops, etq, st).lines| == BodySize(ops)
    decreases ops
  {
    if ops != [] {
      var g := OpCode(ops[0], st);
      OpCodeSize(ops[0], st);
      BodyCodeSize(ops[1..], if g.lines != [] then None else etq, g.st);
    }
  }

  // ---------------------------------------------------------------------------
  // The label counter

  /** How many top-level operations move the counter: multiplications and `SI`s. */
  function Bumps(ops: seq<Op>): nat {
    if ops == [] then 0
    else (if ops[0].Si? || (ops[0].Asig? && ops[0].op == Mul) then 1 else 0) + Bumps(ops[1..])
  }

  lemma {:induction false} BodyCodeCounter(ops: seq<Op>, etq: Option<string>, st: GenState)
    requires Covers(st.consts.Keys, Tokens(ops))
    ensures BodyCode(ops, etq, st).st.ix == st.ix + Bumps(ops)
    decreases ops
  {
    if ops != [] {
      var g := OpCode(ops[0], st);
      BodyCodeCounter(ops[1..], if g.lines != [] then None else etq, g.st);
    }
  }

  /**
   * An `SI` moves the counter from `k` to `k + 1` whatever its bodies do:
   * the bodies move it once per multiplication and `SI` at their top level,
   * and `_gen_op` then overwrites it with `k + 1`.
   */
  lemma SiCounter(op: Op, st: GenState)
    requires op.Si? && Covers(st.consts.Keys, OpTokens(op))
    ensures SiCode(op, st.ix, st).st.ix == st.ix + Bumps(op.thenOps) + Bumps(op.elseOps)
    ensures OpCode(op, st).st.ix == st.ix + 1
  {
    var k := st.ix;
    var c := op.cond;
    var first := if ElseFirst(c.cmp) then op.elseOps else op.thenOps;
    var second := if ElseFirst(c.cmp) then op.thenOps else op.elseOps;
    var l1 := Some(if ElseFirst(c.cmp) then SinoLabel(k) else EntoncesLabel(k));
    var b1 := BodyCode(first, l1, st);
    BodyCodeCounter(first, l1, st);
    BodyCodeCounter(second, Some(if ElseFirst(c.cmp) then EntoncesLabel(k) else SinoLabel(k)), b1.st);
  }

  // ---------------------------------------------------------------------------
  // Temporaries and constants

  lemma WithZeroOneIdempotent(consts: map<nat, string>)
    ensures WithZeroOne(WithZeroOne(consts)) == WithZeroOne(consts)
  {
  }

  /** What an operation adds to the temporaries and the constants: `TMPMUL`, 0 and 1 exactly when it multiplies. */
  predicate SymbolsAfter(st: GenState, st': GenState, mul: bool) {
    && st'.tmp == st.tmp + (if mul then {TmpMul} else {})
    && st'.consts == if mul then WithZeroOne(st.consts) else st.consts
  }

  lemma {:induction false} OpCodeSymbols(op: Op, st: GenState)
    requires Covers(st.consts.Keys, OpTokens(op))
    ensures SymbolsAfter(st, OpCode(op, st).st, OpHasMul(op))
    decreases op, 1
  {
    if op.Si? {
      SiCodeSymbols(op, st.ix, st);
    }
  }

  lemma {:induction false} SiCodeSymbols(op: Op, k: nat, st: GenState)
    requires op.Si? && Covers(st.consts.Keys, OpTokens(op))
    ensures SymbolsAfter(st, SiCode(op, k, st).st, OpHasMul(op))
    decreases op, 0
  {
    var c := op.cond;
    var first := if ElseFirst(c.cmp) then op.elseOps else op.thenOps;
    var second := if ElseFirst(c.cmp) then op.thenOps else op.elseOps;
    var l1 := Some(if ElseFirst(c.cmp) then SinoLabel(k) else EntoncesLabel(k));
    var b1 := BodyCode(first, l1, st);
    BodyCodeSymbols(first, l1, st);
    BodyCodeSymbols(second, Some(if ElseFirst(c.cmp) then EntoncesLabel(k) else SinoLabel(k)), b1.st);
    WithZeroOneIdempotent(st.consts);
  }

  /**
   * Lowering a list adds `TMPMUL` to the temporaries, and 0 and 1 to the
   * constants, exactly when it lowers a multiplication (inside `SI`
   * bodies too, never inside `MIENTRAS`), and changes them in no other way.
   */
  lemma {:induction false} BodyCodeSymbols(ops: seq<Op>, etq: Option<string>, st: GenState)
    requires Covers(st.consts.Keys, Tokens(ops))
    ensures SymbolsAfter(st, BodyCode(ops, etq, st).st, HasMul(ops))
    decreases ops
  {
    if ops != [] {
      var g := OpCode(ops[0], st);
      OpCodeSymbols(ops[0], st);
      BodyCodeSymbols(ops[1..], if g.lines != [] then None else etq, g.st);
      WithZeroOneIdempotent(st.consts);
    }
  }

  // ---------------------------------------------------------------------------
  // The FINSI queue

  /** A label an `SI` leaves for the line after it. */
  predicate IsFinsi(s: string) {
    |s| >= 5 && s[..5] == "FINSI"
  }

  /**
   * The pending labels form a first-in first-out queue: the queue before,
   * followed by the labels a lowering adds, is the labels it attaches to
   * lines, in order, followed by the queue after.  Every label added is a
   * `FINSI` label.
   */
  predicate Fifo(st: GenState, r: Emit) {
    && st.pending + r.pushed == r.taken + r.st.pending
    && forall j :: 0 <= j < |r.pushed| ==> IsFinsi(r.pushed[j])
  }

  lemma FinsiLabelIsFinsi(k: nat)
    ensures IsFinsi(FinsiLabel(k))
  {
    assert FinsiLabel(k)[..5] == "FINSI";
  }

  lemma {:induction false} OpCodeFifo(op: Op, st: GenState)
    requires Covers(st.consts.Keys, OpTokens(op))
    ensures Fifo(st, OpCode(op, st))
    decreases op, 1
  {
    if op.Si? {
      SiCodeFifo(op, st.ix, st);
    }
  }

  lemma {:induction false} SiCodeFifo(op: Op, k: nat, st: GenState)
    requires op.Si? && Covers(st.consts.Keys, OpTokens(op))
    ensures Fifo(st, SiCode(op, k, st))
    decreases op, 0
  {
    var c := op.cond;
    var first := if ElseFirst(c.cmp) then op.elseOps else op.thenOps;
    var second := if ElseFirst(c.cmp) then op.thenOps else op.elseOps;
    var l1 := Some(if ElseFirst(c.cmp) then SinoLabel(k) else EntoncesLabel(k));
    var l2 := Some(if ElseFirst(c.cmp) then EntoncesLabel(k) else SinoLabel(k));
    var b1 := BodyCode(first, l1, st);
    var b2 := BodyCode(second, l2, b1.st);
    BodyCodeFifo(first, l1, st);
    BodyCodeFifo(second, l2, b1.st);
    var f := FinsiLabel(k);
    FinsiLabelIsFinsi(k);
    calc {
      st.pending + (b1.pushed + b2.pushed + [f]);
      { AppendAssoc(st.pending, b1.pushed, b2.pushed + [f]); AppendAssoc(b1.pushed, b2.pushed, [f]); }
      (st.pending + b1.pushed) + (b2.pushed + [f]);
      (b1.taken + b1.st.pending) + (b2.pushed + [f]);
      { AppendAssoc(b1.taken, b1.st.pending, b2.pushed + [f]); AppendAssoc(b1.st.pending, b2.pushed, [f]); }
      b1.taken + ((b1.st.pending + b2.pushed) + [f]);
      b1.taken + ((b2.taken + b2.st.pending) + [f]);
      { AppendAssoc(b2.taken, b2.st.pending, [f]); AppendAssoc(b1.taken, b2.taken, b2.st.pending + [f]); }
      (b1.taken + b2.taken) + (b2.st.pending + [f]);
    }
  }

  lemma {:induction false} BodyCodeFifo(ops: seq<Op>, etq: Option<string>, st: GenState)
    requires Covers(st.consts.Keys, Tokens(ops))
    ensures Fifo(st, BodyCode(ops, etq, st))
    decreases ops
  {
    if ops != [] {
      var g := OpCode(ops[0], st);
      var rest := BodyCode(ops[1..], if g.lines != [] then None else etq, g.st);
      OpCodeFifo(ops[0], st);
      BodyCodeFifo(ops[1..], if g.lines != [] then None else etq, g.st);
      calc {
        st.pending + (g.pushed + rest.pushed);
        { AppendAssoc(st.pending, g.pushed, rest.pushed); }
        (g.taken + g.st.pending) + rest.pushed;
        { AppendAssoc(g.taken, g.st.pending, rest.pushed); }
        g.taken + (rest.taken + rest.st.pending);
        { AppendAssoc(g.taken, rest.taken, rest.st.pending); }
        (g.taken + rest.taken) + rest.st.pending;
      }
    }
  }

  lemma SiQueuesItsLabel(op: Op, st: GenState)
    requires op.Si? && Covers(st.consts.Keys, OpTokens(op))
    ensures var p := OpCode(op, st).st.pending; p != [] && p[|p| - 1] == FinsiLabel(st.ix) && IsFinsi(p[|p| - 1])
  {
    FinsiLabelIsFinsi(st.ix);
  }

  /**
   * An `SI` that ends the list leaves its own `FINSI` label, the one named
   * after the counter it found, at the back of the queue: no later line of
   * the list takes it, so after the last operation of a program it is never
   * attached to any line.
   */
  lemma TrailingSiLeavesLabel(pre: seq<Op>, s: Op, etq: Option<string>, st: GenState)
    requires Covers(st.consts.Keys, Tokens(pre + [s]))
    requires s.Si?
    ensures var p := BodyCode(pre + [s], etq, st).st.pending;
      && p != []
      && p[|p| - 1] == FinsiLabel(st.ix + Bumps(pre))
      && IsFinsi(p[|p| - 1])
  {
    BodyStateAppend(pre, s, etq, st);
    BodyCodeCounter(pre, etq, st);
    SiQueuesItsLabel(s, BodyCode(pre, etq, st).st);
  }

  /** The state after a list with one more operation is that operation's state after the list. */
  lemma {:induction false} BodyStateAppend(pre: seq<Op>, s: Op, etq: Option<string>, st: GenState)
    requires Covers(st.consts.Keys, Tokens(pre + [s]))
    ensures Covers(st.consts.Keys, Tokens(pre))
    ensures Covers(BodyCode(pre, etq, st).st.consts.Keys, OpTokens(s))
    ensures BodyCode(pre + [s], etq, st).st == OpCode(s, BodyCode(pre, etq, st).st).st
    decreases pre
  {
    TokensAppend(pre, s);
    if pre == [] {
      assert pre + [s] == [s] && [s][1..] == [];
    } else {
      var g := OpCode(pre[0], st);
      var e := if g.lines != [] then None else etq;
      assert (pre + [s])[0] == pre[0] && (pre + [s])[1..] == pre[1..] + [s];
      BodyStateAppend(pre[1..], s, e, g.st);
    }
  }

  lemma {:induction false} TokensAppend(pre: seq<Op>, s: Op)
    ensures Tokens(pre + [s]) == Tokens(pre) + OpTokens(s)
    decreases pre
  {
    if pre == [] {
      assert pre + [s] == [s] && [s][1..] == [];
    } else {
      assert (pre + [s])[0] == pre[0] && (pre + [s])[1..] == pre[1..] + [s];
      TokensAppend(pre[1..], s);
    }
  }

  // ---------------------------------------------------------------------------
  // Where ENTONCES and SINO go

  /**
   * The `primero` flag of `_gen_si` puts the label on the first line of the
   * whole body: the first line of the first operation whose code is not
   * empty.  A body with no code at all leaves its label unemitted.
   */
  lemma {:induction false} BodyLabelOnFirstLine(ops: seq<Op>, etq: string, st: GenState)
    requires Covers(st.consts.Keys, Tokens(ops))
    ensures BodyCode(ops, Some(etq), st).lines == LabelFirst(Some(etq), BodyCode(ops, None, st).lines)
    ensures BodyCode(ops, Some(etq), st).st == BodyCode(ops, None, st).st
    decreases ops
  {
    if ops != [] {
      var g := OpCode(ops[0], st);
      var rest := BodyCode(ops[1..], None, g.st);
      assert BodyCode(ops, None, st).lines == g.lines + rest.lines;
      if g.lines == [] {
        BodyLabelOnFirstLine(ops[1..], etq, g.st);
        assert BodyCode(ops, Some(etq), st).lines == BodyCode(ops[1..], Some(etq), g.st).lines;
        assert g.lines + rest.lines == rest.lines;
      } else {
        assert BodyCode(ops, Some(etq), st).lines == LabelFirst(Some(etq), g.lines) + rest.lines;
        LabelFirstAppend(Some(etq), g.lines, rest.lines);
      }
    }
  }

  /** Only the first line is labelled, so labelling a non-empty block then appending is labelling the whole. */
  lemma LabelFirstAppend(etq: Option<string>, a: seq<string>, b: seq<string>)
    requires a != []
    ensures LabelFirst(etq, a + b) == LabelFirst(etq, a) + b
  {
  }

  /**
   * `_gen_si` laid out: the header with no label of its own (a pending
   * `FINSI` never lands on it), the first body with its label on its first
   * line, `BRA FINSIk`, the second body likewise; afterwards `FINSIk` is at
   * the back of the queue and the counter is `k + 1`.
   */
  lemma SiLayout(op: Op, st: GenState)
    requires op.Si? && Covers(st.consts.Keys, OpTokens(op))
    ensures var k := st.ix;
      var c := op.cond;
      var header := SiHeader(c.cmp, EtiquetaMem(c.left, st.consts), EtiquetaMem(c.right, st.consts),
                             EntoncesLabel(k), SinoLabel(k));
      var b1 := BodyCode(if ElseFirst(c.cmp) then op.elseOps else op.thenOps, None, st);
      var b2 := BodyCode(if ElseFirst(c.cmp) then op.thenOps else op.elseOps, None, b1.st);
      var r := OpCode(op, st);
      && r.lines == header
           + LabelFirst(Some(if ElseFirst(c.cmp) then SinoLabel(k) else EntoncesLabel(k)), b1.lines)
           + ["BRA " + FinsiLabel(k)]
           + LabelFirst(Some(if ElseFirst(c.cmp) then EntoncesLabel(k) else SinoLabel(k)), b2.lines)
      && r.lines[0] == header[0]
      && r.st == b2.st.(pending := b2.st.pending + [FinsiLabel(k)], ix := k + 1)
  {
    var k := st.ix;
    var c := op.cond;
    var header := SiHeader(c.cmp, EtiquetaMem(c.left, st.consts), EtiquetaMem(c.right, st.consts),
                           EntoncesLabel(k), SinoLabel(k));
    var b1 := BodyCode(if ElseFirst(c.cmp) then op.elseOps else op.thenOps, None, st);
    var b2 := BodyCode(if ElseFirst(c.cmp) then op.thenOps else op.elseOps, None, b1.st);
    var m1 := LabelFirst(Some(if ElseFirst(c.cmp) then SinoLabel(k) else EntoncesLabel(k)), b1.lines);
    var m2 := LabelFirst(Some(if ElseFirst(c.cmp) then EntoncesLabel(k) else SinoLabel(k)), b2.lines);
    OpCodeOfSi(op, st);
    SiCodeLayout(op, k, st);
    HeaderLength(c.cmp, EtiquetaMem(c.left, st.consts), EtiquetaMem(c.right, st.consts), EntoncesLabel(k), SinoLabel(k));
    SplitFour(header, m1, ["BRA " + FinsiLabel(k)], m2);
  }

  /** The header of each comparator is as long as `HeaderSize` says, so never empty. */
  lemma HeaderLength(cmp: Comparator, izq: string, der: string, ent: string, sino: string)
    ensures |SiHeader(cmp, izq, der, ent, sino)| == HeaderSize(cmp)
  {
  }

  lemma SplitFour(h: seq<string>, b1: seq<string>, m: seq<string>, b2: seq<string>)
    ensures |h| + |b1| <= |h + b1 + m + b2|
    ensures (h + b1 + m + b2)[..|h|] == h
    ensures (h + b1 + m + b2)[|h|..|h| + |b1|] == b1
    ensures h != [] ==> (h + b1 + m + b2)[0] == h[0]
  {
  }

  /** `_gen_op` on an `SI` is `_gen_si` with the current index, which it then advances. */
  lemma OpCodeOfSi(op: Op, st: GenState)
    requires op.Si? && Covers(st.consts.Keys, OpTokens(op))
    ensures OpCode(op, st).lines == SiCode(op, st.ix, st).lines
    ensures OpCode(op, st).st == SiCode(op, st.ix, st).st.(ix := st.ix + 1)
  {
  }

  /** `SiCode` with each body's label moved onto that body's first line. */
  lemma SiCodeLayout(op: Op, k: nat, st: GenState)
    requires op.Si? && Covers(st.consts.Keys, OpTokens(op))
    ensures var c := op.cond;
      var header := SiHeader(c.cmp, EtiquetaMem(c.left, st.consts), EtiquetaMem(c.right, st.consts),
                             EntoncesLabel(k), SinoLabel(k));
      var b1 := BodyCode(if ElseFirst(c.cmp) then op.elseOps else op.thenOps, None, st);
      var b2 := BodyCode(if ElseFirst(c.cmp) then op.thenOps else op.elseOps, None, b1.st);
      var r := SiCode(op, k, st);
      && r.lines == header
           + LabelFirst(Some(if ElseFirst(c.cmp) then SinoLabel(k) else EntoncesLabel(k)), b1.lines)
           + ["BRA " + FinsiLabel(k)]
           + LabelFirst(Some(if ElseFirst(c.cmp) then EntoncesLabel(k) else SinoLabel(k)), b2.lines)
      && r.st == b2.st.(pending := b2.st.pending + [FinsiLabel(k)])
  {
    var c := op.cond;
    var first := if ElseFirst(c.cmp) then op.elseOps else op.thenOps;
    var second := if ElseFirst(c.cmp) then op.thenOps else op.elseOps;
    var l1 := if ElseFirst(c.cmp) then SinoLabel(k) else EntoncesLabel(k);
    var l2 := if ElseFirst(c.cmp) then EntoncesLabel(k) else SinoLabel(k);
    BodyLabelOnFirstLine(first, l1, st);
    BodyLabelOnFirstLine(second, l2, BodyCode(first, None, st).st);
  }

  /** The label goes on the first line only, so it commutes with taking a prefix. */
  lemma LabelFirstPrefix(etq: Option<string>, xs: seq<string>, n: nat)
    requires n <= |xs|
    ensures LabelFirst(etq, xs)[..n] == LabelFirst(etq, xs[..n])
  {
  }

  /** A body's code starts with the code of its first operation. */
  lemma BodyStartsWithFirst(ops: seq<Op>, st: GenState)
    requires ops != [] && Covers(st.consts.Keys, Tokens(ops))
    ensures var g := OpCode(ops[0], st).lines;
      var b := BodyCode(ops, None, st).lines;
      |g| <= |b| && b[..|g|] == g
  {
  }

  /** In an `SI` whose then-body comes first, that body's code follows the header, under `ENTONCESk`. */
  lemma ThenFollowsHeader(op: Op, st: GenState)
    requires op.Si? && !ElseFirst(op.cond.cmp) && Covers(st.consts.Keys, OpTokens(op))
    ensures var k := st.ix;
      var c := op.cond;
      var h := SiHeader(c.cmp, EtiquetaMem(c.left, st.consts), EtiquetaMem(c.right, st.consts),
                        EntoncesLabel(k), SinoLabel(k));
      var b1 := LabelFirst(Some(EntoncesLabel(k)), BodyCode(op.thenOps, None, st).lines);
      var r := OpCode(op, st).lines;
      && |h| + |b1| <= |r|
      && r[..|h|] == h
      && r[|h|..|h| + |b1|] == b1
  {
    var k := st.ix;
    var c := op.cond;
    var h := SiHeader(c.cmp, EtiquetaMem(c.left, st.consts), EtiquetaMem(c.right, st.consts),
                      EntoncesLabel(k), SinoLabel(k));
    var t := BodyCode(op.thenOps, None, st);
    var b1 := LabelFirst(Some(EntoncesLabel(k)), t.lines);
    var b2 := LabelFirst(Some(SinoLabel(k)), BodyCode(op.elseOps, None, t.st).lines);
    assert OpCode(op, st).lines == h + b1 + ["BRA " + FinsiLabel(k)] + b2 by {
      SiLayout(op, st);
    }
    SplitFour(h, b1, ["BRA " + FinsiLabel(k)], b2);
  }

  /** The code of an `SI` starts with its header, unlabelled. */
  lemma SiStartsWithHeader(op: Op, st: GenState)
    requires op.Si? && Covers(st.consts.Keys, OpTokens(op))
    ensures var k := st.ix;
      var c := op.cond;
      var h := SiHeader(c.cmp, EtiquetaMem(c.left, st.consts), EtiquetaMem(c.right, st.consts),
                        EntoncesLabel(k), SinoLabel(k));
      var r := OpCode(op, st).lines;
      |h| <= |r| && r[..|h|] == h
  {
    var k := st.ix;
    var c := op.cond;
    var h := SiHeader(c.cmp, EtiquetaMem(c.left, st.consts), EtiquetaMem(c.right, st.consts),
                      EntoncesLabel(k), SinoLabel(k));
    var b1 := BodyCode(if ElseFirst(c.cmp) then op.elseOps else op.thenOps, None, st);
    var b2 := BodyCode(if ElseFirst(c.cmp) then op.thenOps else op.elseOps, None, b1.st);
    var m1 := LabelFirst(Some(if ElseFirst(c.cmp) then SinoLabel(k) else EntoncesLabel(k)), b1.lines);
    var m2 := LabelFirst(Some(if ElseFirst(c.cmp) then EntoncesLabel(k) else SinoLabel(k)), b2.lines);
    assert OpCode(op, st).lines == h + m1 + ["BRA " + FinsiLabel(k)] + m2 by {
      SiLayout(op, st);
    }
    SplitFour(h, m1, ["BRA " + FinsiLabel(k)], m2);
  }

  /**
   * A nested `SI` that opens the then-body of an `SI` (for `=`, `>=`, `<=`
   * and `!=`, whose then-body comes first) is lowered with the same index
   * `k` as its parent: its header branches to the parent's own
   * `ENTONCESk`/`SINOk` names, and its first line carries `ENTONCESk`.
   */
  lemma NestedSiReusesIndex(op: Op, st: GenState)
    requires op.Si? && !ElseFirst(op.cond.cmp) && op.thenOps != [] && op.thenOps[0].Si?
    requires Covers(st.consts.Keys, OpTokens(op))
    ensures Covers(st.consts.Keys, OpTokens(op.thenOps[0]))
    ensures var k := st.ix;
      var c := op.cond;
      var d := op.thenOps[0].cond;
      var outer := OpCode(op, st).lines;
      var h := SiHeader(c.cmp, EtiquetaMem(c.left, st.consts), EtiquetaMem(c.right, st.consts),
                        EntoncesLabel(k), SinoLabel(k));
      var h2 := SiHeader(d.cmp, EtiquetaMem(d.left, st.consts), EtiquetaMem(d.right, st.consts),
                         EntoncesLabel(k), SinoLabel(k));
      && |h| + |h2| <= |outer|
      && outer[..|h|] == h
      && outer[|h|..|h| + |h2|] == LabelFirst(Some(EntoncesLabel(k)), h2)
  {
    var k := st.ix;
    var inner := op.thenOps[0];
    assert OpTokens(inner) <= Tokens(op.thenOps) <= OpTokens(op);
    var d := inner.cond;
    var h2 := SiHeader(d.cmp, EtiquetaMem(d.left, st.consts), EtiquetaMem(d.right, st.consts),
                       EntoncesLabel(k), SinoLabel(k));
    ThenFollowsHeader(op, st);
    SiStartsWithHeader(inner, st);
    BodyStartsWithFirst(op.thenOps, st);
    var g := OpCode(inner, st).lines;
    PrefixOfLabelled(BodyCode(op.thenOps, None, st).lines, g, h2, EntoncesLabel(k));
  }

  /** A prefix of a prefix of a labelled block is a labelled prefix. */
  lemma PrefixOfLabelled(b: seq<string>, g: seq<string>, h2: seq<string>, l: string)
    requires |g| <= |b| && b[..|g|] == g && |h2| <= |g| && g[..|h2|] == h2
    ensures |h2| <= |LabelFirst(Some(l), b)|
    ensures LabelFirst(Some(l), b)[..|h2|] == LabelFirst(Some(l), h2)
  {
    assert b[..|h2|] == h2;
    LabelFirstPrefix(Some(l), b, |h2|);
  }

  // ---------------------------------------------------------------------------
  // Multiplication loop

  /** `line` defines label `l`: it starts with `l` and a space. */
  predicate Defines(line: string, l: string) {
    |line| > |l| && line[..|l| + 1] == l + " "
  }

  /**
   * The loop `_gen_multiplicacion` emits: fourteen lines, `MULTk` defined
   * on the test at line 4 and nowhere else, `FINMULTk` defined on the exit
   * at line 13 and nowhere else, the test leaving to `FINMULTk` and the
   * back edge at line 12 returning to `MULTk`.
   */
  lemma MulLoopLabels(op: Op, consts: map<nat, string>, k: nat)
    requires op.Asig? && Covers(consts.Keys, OwnTokens(op))
    ensures var m := MulCode(op, consts, k);
      && |m| == 14
      && (forall i :: 0 <= i < 14 ==> (Defines(m[i], MultLabel(k)) <==> i == 4))
      && (forall i :: 0 <= i < 14 ==> (Defines(m[i], FinMultLabel(k)) <==> i == 13))
      && m[5] == "BRZ " + FinMultLabel(k)
      && m[12] == "BRA " + MultLabel(k)
  {
    var m := MulCode(op, consts, k);
    var ml, fl := MultLabel(k), FinMultLabel(k);
    var destino := EtiquetaMem(op.dest, consts);
    var izq := EtiquetaMem(op.left, consts);
    var der := EtiquetaMem(op.right, consts);
    var c := WithZeroOne(consts);
    var p := ["LDA " + c[0], "STA " + destino, "LDA " + der, "STA " + TmpMul];
    var q := ["BRZ " + fl, "LDA " + destino, "ADD " + izq, "STA " + destino,
              "LDA " + TmpMul, "SUB " + c[1], "STA " + TmpMul, "BRA " + ml];
    assert m == p + [Labelled(ml, "LDA " + TmpMul)] + q + [Labelled(fl, "LDA " + destino)];
    assert Unlabelled(p) && Unlabelled(q);
    LoopLabelsAt(p, ml, "LDA " + TmpMul, q, fl, "LDA " + destino);
  }

  /**
   * Four unlabelled lines, the loop head under `ml`, eight unlabelled lines
   * and the exit under `fl`: each label is defined on its own line only.
   */
  lemma LoopLabelsAt(p: seq<string>, ml: string, head: string, q: seq<string>, fl: string, exit: string)
    requires |p| == 4 && |q| == 8 && Unlabelled(p) && Unlabelled(q)
    requires |ml| > 0 && |fl| > 0 && ml[0] == 'M' && fl[0] == 'F'
    ensures var m := p + [Labelled(ml, head)] + q + [Labelled(fl, exit)];
      && (forall i :: 0 <= i < 14 ==> (Defines(m[i], ml) <==> i == 4))
      && (forall i :: 0 <= i < 14 ==> (Defines(m[i], fl) <==> i == 13))
  {
    var m := p + [Labelled(ml, head)] + q + [Labelled(fl, exit)];
    DefinesOwn(ml, head);
    DefinesOwn(fl, exit);
    assert Labelled(ml, head)[0] == 'M' && Labelled(fl, exit)[0] == 'F';
    forall i | 0 <= i < 14 && i != 4 && i != 13
      ensures !Defines(m[i], ml) && !Defines(m[i], fl)
    {
      if i < 4 { assert m[i] == p[i]; } else { assert m[i] == q[i - 5]; }
    }
  }

  /** Lines that begin with an instruction, so with no label. */
  predicate Unlabelled(lines: seq<string>) {
    forall i :: 0 <= i < |lines| ==> |lines[i]| > 0 && lines[i][0] in {'L', 'S', 'A', 'B'}
  }

  lemma DefinesOwn(l: string, line: string)
    ensures Defines(Labelled(l, line), l)
  {
    assert Labelled(l, line)[..|l| + 1] == l + " ";
  }

  // ---------------------------------------------------------------------------
  // The whole program

  /** `sorted` on the variable names. */
  ghost function SortedNames(s: set<string>): (r: seq<string>)
    ensures Sorting.Enumerates(r, s, LexLess)
  {
    Sorting.StringOrder(s);
    Sorting.SortedSeq(s, LexLess)
  }

  /** `sorted` on the constant values. */
  ghost function SortedValues(s: set<nat>): (r: seq<nat>)
    ensures Sorting.Enumerates(r, s, Sorting.NatLess)
  {
    Sorting.NatOrder(s);
    Sorting.SortedSeq(s, Sorting.NatLess)
  }

  /**
   * Lowering adds no symbol the collection missed: the constants after the
   * code are exactly the collected ones, and the temporaries are already
   * among the collected variables.
   */
  lemma CodeKeepsSymbols(ops: seq<Op>)
    ensures ProgramCode(ops).st.consts == CollectedConsts(ops)
    ensures ProgramCode(ops).st.tmp <= Vars(ops)
  {
    var init := InitialState(ops);
    CollectedCoversProgram(ops);
    BodyCodeSymbols(ops, None, init);
    var c := CollectedConsts(ops);
    if HasMul(ops) {
      var w := WithZeroOne(c);
      assert forall v :: v in w <==> v in c;
      assert w == c;
    }
  }

  /**
   * The output of `generar_lmc`: the code (one line per instruction, as
   * many as `BodySize` counts), `HLT`, one `DAT` per variable in name order,
   * one `DAT` per constant in value order, the constant `v` stored as
   * `CTEv DAT v`.
   */
  lemma DataSection(ops: seq<Op>)
    ensures var code := ProgramCode(ops).lines;
      var names := SortedNames(Vars(ops));
      var values := SortedValues(Consts(ops));
      && |code| == BodySize(ops)
      && LmcLines(ops) == code + ["HLT"] + VarDats(names) + ConstDats(values, CollectedConsts(ops))
      && (forall k :: 0 <= k < |values| ==>
            ConstDats(values, CollectedConsts(ops))[k] == ConstLabel(values[k]) + " DAT " + NatToString(values[k]))
  {
    var g := ProgramCode(ops);
    CollectedCoversProgram(ops);
    BodyCodeSize(ops, None, InitialState(ops));
    CodeKeepsSymbols(ops);
    assert Vars(ops) + g.st.tmp == Vars(ops);
    assert g.st.consts.Keys == Consts(ops);
  }

  /** A line of the data section is a line of the output. */
  lemma InOutput(ops: seq<Op>, x: string)
    requires x in VarDats(SortedNames(Vars(ops))) || x in ConstDats(SortedValues(Consts(ops)), CollectedConsts(ops))
    ensures x in LmcLines(ops)
  {
    DataSection(ops);
  }

  /** Every collected variable is declared with `DAT`. */
  lemma VarDeclared(ops: seq<Op>, name: string)
    requires name in Vars(ops)
    ensures name + " DAT" in LmcLines(ops)
  {
    var names := SortedNames(Vars(ops));
    var vd := VarDats(names);
    var i :| 0 <= i < |names| && names[i] == name;
    assert vd[i] in vd;
    InOutput(ops, vd[i]);
  }

  /** Every collected constant is declared under its `CTE` label with its value. */
  lemma ConstDeclared(ops: seq<Op>, v: nat)
    requires v in Consts(ops)
    ensures ConstLabel(v) + " DAT " + NatToString(v) in LmcLines(ops)
  {
    DataSection(ops);
    var values := SortedValues(Consts(ops));
    var cd := ConstDats(values, CollectedConsts(ops));
    var i :| 0 <= i < |values| && values[i] == v;
    assert cd[i] in cd;
    InOutput(ops, cd[i]);
  }

  /** The cell of a number in the program is its `CTE` constant, declared with its value. */
  lemma ConstCellDeclared(ops: seq<Op>, tok: string)
    requires tok in Tokens(ops) && IsNumero(tok)
    ensures DigitsValue(tok) in Consts(ops)
    ensures var cell := EtiquetaMem(tok, CollectedConsts(ops));
      && cell == ConstLabel(DigitsValue(tok))
      && cell + " DAT " + NatToString(DigitsValue(tok)) in LmcLines(ops)
  {
    CollectedCoversProgram(ops);
    ConstDeclared(ops, DigitsValue(tok));
  }

  /** The cell of a name in the program is one of the variables, declared with `DAT`. */
  lemma VarCellDeclared(ops: seq<Op>, tok: string)
    requires tok in Tokens(ops) && !IsNumero(tok)
    ensures var cell := EtiquetaMem(tok, CollectedConsts(ops));
      cell in Vars(ops) && cell + " DAT" in LmcLines(ops)
  {
    Symbols.Symbols(ops);
    var cell := Upper(tok);
    assert cell in NamesOf(Tokens(ops));
    VarDeclared(ops, cell);
  }

  /** A program that multiplies also declares the cells the multiplication loop names. */
  lemma MulCellsDeclared(ops: seq<Op>)
    requires HasMul(ops)
    ensures "TMPMUL DAT" in LmcLines(ops)
    ensures "CTE0 DAT 0" in LmcLines(ops) && "CTE1 DAT 1" in LmcLines(ops)
  {
    CollectedCoversProgram(ops);
    VarDeclared(ops, TmpMul);
    ConstDeclared(ops, 0);
    ConstDeclared(ops, 1);
    MulDats();
  }

  // ---------------------------------------------------------------------------
  // Where the SI header branches, on an idealized accumulator

  /** The comparison a condition makes, on integers. */
  predicate Holds(cmp: Comparator, x: int, y: int) {
    match cmp
    case Gt => x > y
    case Lt => x < y
    case Eq => x == y
    case Ge => x >= y
    case Le => x <= y
    case Ne => x != y
  }

  /**
   * Runs a straight run of `LDA`/`SUB`/`BRZ`/`BRP`/`BRA` lines whose
   * operands are the cells `izq` (holding `x`) and `der` (holding `y`):
   * the label of the first branch taken, or `None` when control falls
   * through. The accumulator is an unbounded integer and `BRP` branches on
   * a non-negative one.
   */
  function Route(h: seq<string>, izq: string, der: string, x: int, y: int, acc: int): Option<string>
    decreases |h|
  {
    if h == [] || |h[0]| < 4 then None
    else
      var arg := h[0][4..];
      var v := if arg == izq then x else y;
      match h[0][..4]
      case "LDA " => Route(h[1..], izq, der, x, y, v)
      case "SUB " => Route(h[1..], izq, der, x, y, acc - v)
      case "BRZ " => if acc == 0 then Some(arg) else Route(h[1..], izq, der, x, y, acc)
      case "BRP " => if acc >= 0 then Some(arg) else Route(h[1..], izq, der, x, y, acc)
      case "BRA " => Some(arg)
      case _ => None
  }

  /** Where control goes after the header: the branch's label, or the first body, which carries its own label. */
  function Destination(r: Option<string>, cmp: Comparator, ent: string, sino: string): string {
    match r
    case Some(l) => l
    case None => if ElseFirst(cmp) then sino else ent
  }

  /**
   * Each of the six tests `_gen_si` writes sends control to `ENTONCESk`
   * exactly when the comparison holds and to `SINOk` otherwise, taking
   * into account which body the header falls into.
   */
  lemma HeaderRoutes(cmp: Comparator, izq: string, der: string, ent: string, sino: string, x: int, y: int, acc: int)
    requires izq == der ==> x == y
    ensures Destination(Route(SiHeader(cmp, izq, der, ent, sino), izq, der, x, y, acc), cmp, ent, sino)
         == if Holds(cmp, x, y) then ent else sino
  {
    var h := SiHeader(cmp, izq, der, ent, sino);
    var first, second := if cmp == Lt || cmp == Le then der else izq, if cmp == Lt || cmp == Le then izq else der;
    var d := if cmp == Lt || cmp == Le then y - x else x - y;
    RouteLoad(h, first, izq, der, x, y, acc);
    RouteSub(h[1..], second, izq, der, x, y, if first == izq then x else y);
    var b := h[2..];
    assert Route(h, izq, der, x, y, acc) == Route(b, izq, der, x, y, d);
    match cmp
    case Gt =>
      RouteBrz(b, sino, izq, der, x, y, d);
      RouteBrp(b[1..], ent, izq, der, x, y, d);
      assert b[1..][1..] == [];
    case Lt =>
      RouteBrz(b, sino, izq, der, x, y, d);
      RouteBrp(b[1..], ent, izq, der, x, y, d);
      assert b[1..][1..] == [];
    case Eq =>
      RouteBrz(b, ent, izq, der, x, y, d);
      RouteBra(b[1..], sino, izq, der, x, y, d);
    case Ne =>
      RouteBrz(b, sino, izq, der, x, y, d);
      RouteBra(b[1..], ent, izq, der, x, y, d);
    case Ge =>
      RouteBrz(b, ent, izq, der, x, y, d);
      RouteBrp(b[1..], ent, izq, der, x, y, d);
      RouteBra(b[1..][1..], sino, izq, der, x, y, d);
    case Le =>
      RouteBrz(b, ent, izq, der, x, y, d);
      RouteBrp(b[1..], ent, izq, der, x, y, d);
      RouteBra(b[1..][1..], sino, izq, der, x, y, d);
  }

  lemma RouteLoad(h: seq<string>, a: string, izq: string, der: string, x: int, y: int, acc: int)
    requires h != [] && h[0] == "LDA " + a
    ensures Route(h, izq, der, x, y, acc) == Route(h[1..], izq, der, x, y, if a == izq then x else y)
  {
    assert h[0][..4] == "LDA " && h[0][4..] == a;
  }

  lemma RouteSub(h: seq<string>, a: string, izq: string, der: string, x: int, y: int, acc: int)
    requires h != [] && h[0] == "SUB " + a
    ensures Route(h, izq, der, x, y, acc) == Route(h[1..], izq, der, x, y, acc - if a == izq then x else y)
  {
    assert h[0][..4] == "SUB " && h[0][4..] == a;
  }

  lemma RouteBrz(h: seq<string>, l: string, izq: string, der: string, x: int, y: int, acc: int)
    requires h != [] && h[0] == "BRZ " + l
    ensures Route(h, izq, der, x, y, acc) == if acc == 0 then Some(l) else Route(h[1..], izq, der, x, y, acc)
  {
    assert h[0][..4] == "BRZ " && h[0][4..] == l;
  }

  lemma RouteBrp(h: seq<string>, l: string, izq: string, der: string, x: int, y: int, acc: int)
    requires h != [] && h[0] == "BRP " + l
    ensures Route(h, izq, der, x, y, acc) == if acc >= 0 then Some(l) else Route(h[1..], izq, der, x, y, acc)
  {
    assert h[0][..4] == "BRP " && h[0][4..] == l;
  }

  lemma RouteBra(h: seq<string>, l: string, izq: string, der: string, x: int, y: int, acc: int)
    requires h != [] && h[0] == "BRA " + l
    ensures Route(h, izq, der, x, y, acc) == Some(l)
  {
    assert h[0][..4] == "BRA " && h[0][4..] == l;
  }
}
