/**
 * The LMC generator (`generator.py`): each operation lowered to LMC
 * assembly lines, threaded through the generator's state, then `HLT` and
 * the data section.
 *
 * The lowering is specified here by functions over an explicit state
 * (`GenState`) and carried out by the methods of `Generator`, whose fields
 * are the attributes `generator.py` keeps on the function object `_gen_op`
 * together with the constants dictionary that `generar_lmc` passes by
 * reference to every lowering.
 */
module Lmc {
  import opened Text
  import opened Ast
  import opened Options
  import opened Symbols
  import Sorting

  /** `f"{etq} {linea}"`: a label in front of an instruction. */
  function Labelled(etq: string, line: string): string {
    etq + " " + line
  }

  /** The first line of `lines` with `etq` in front of it, when there is a label and a line. */
  function LabelFirst(etq: Option<string>, lines: seq<string>): (r: seq<string>)
    ensures |r| == |lines|
  {
    if etq.Some? && lines != [] then lines[0 := Labelled(etq.value, lines[0])] else lines
  }

  /** `_etiqueta_mem`: the cell a token names, a constant's label or the upper-cased name. */
  function EtiquetaMem(tok: string, consts: map<nat, string>): (m: string)
    requires IsNumero(tok) ==> DigitsValue(tok) in consts
    ensures IsNumero(tok) && LabelsOk(consts) ==> m == ConstLabel(DigitsValue(tok))
    ensures !IsNumero(tok) ==> TokenVars(tok) == {m}
  {
    if IsNumero(tok) then consts[DigitsValue(tok)] else Upper(tok)
  }

  function MultLabel(k: nat): string { "MULT" + NatToString(k) }
  function FinMultLabel(k: nat): string { "FINMULT" + NatToString(k) }
  function EntoncesLabel(k: nat): string { "ENTONCES" + NatToString(k) }
  function SinoLabel(k: nat): string { "SINO" + NatToString(k) }
  function FinsiLabel(k: nat): string { "FINSI" + NatToString(k) }

  /** What the generator keeps between calls: `_ix_etq`, `_etiquetas_pendientes`, `_vars_tmp` and the constants. */
  datatype GenState = GenState(ix: nat, pending: seq<string>, tmp: set<string>, consts: map<nat, string>)

  /**
   * The result of lowering: the lines, the new state, and, for the
   * statements about the label queue, the pending labels this lowering
   * took from the front of the queue and those it added at the back.
   */
  datatype Emit = Emit(lines: seq<string>, st: GenState, taken: seq<string>, pushed: seq<string>)

  /** `_adjuntar_etiqueta_pendiente`: the oldest pending label goes in front of the first line, if there is one. */
  function Adjuntar(lines: seq<string>, st: GenState): (r: Emit)
    ensures st.pending == r.taken + r.st.pending && r.pushed == []
    ensures r.lines == LabelFirst(if r.taken == [] then None else Some(r.taken[0]), lines)
    ensures |r.taken| == if st.pending != [] && lines != [] then 1 else 0
    ensures r.st.ix == st.ix && r.st.tmp == st.tmp && r.st.consts == st.consts
  {
    if st.pending != [] && lines != [] then
      Emit(LabelFirst(Some(st.pending[0]), lines), st.(pending := st.pending[1..]), [st.pending[0]], [])
    else
      Emit(lines, st, [], [])
  }

  /** The constants after `_gen_multiplicacion` has made sure of 0 and 1. */
  function WithZeroOne(consts: map<nat, string>): (r: map<nat, string>)
    ensures forall v :: v in r <==> v in consts || v == 0 || v == 1
    ensures forall v :: v in consts ==> r[v] == consts[v]
    ensures LabelsOk(consts) ==> LabelsOk(r)
  {
    assert ConstLabel(0) == "CTE0" && ConstLabel(1) == "CTE1";
    var c0 := if 0 in consts then consts else consts[0 := "CTE0"];
    if 1 in c0 then c0 else c0[1 := "CTE1"]
  }

  /** `_gen_asignacion`: `+` and `-` give three lines, any other operator none. */
  function AsigCode(op: Op, consts: map<nat, string>): (lines: seq<string>)
    requires op.Asig? && Covers(consts.Keys, OwnTokens(op))
  {
    var left := "LDA " + EtiquetaMem(op.left, consts);
    var store := "STA " + EtiquetaMem(op.dest, consts);
    match op.op
    case Add => [left, "ADD " + EtiquetaMem(op.right, consts), store]
    case Sub => [left, "SUB " + EtiquetaMem(op.right, consts), store]
    case _ => []
  }

  /** `_gen_multiplicacion` with counter value `k`: repeated addition of the multiplicand, counted down in `TMPMUL`. */
  function MulCode(op: Op, consts: map<nat, string>, k: nat): (lines: seq<string>)
    requires op.Asig? && Covers(consts.Keys, OwnTokens(op))
  {
    var destino := EtiquetaMem(op.dest, consts);
    var izq := EtiquetaMem(op.left, consts);
    var der := EtiquetaMem(op.right, consts);
    var c := WithZeroOne(consts);
    ["LDA " + c[0], "STA " + destino]
      + ["LDA " + der, "STA " + TmpMul]
      + [Labelled(MultLabel(k), "LDA " + TmpMul), "BRZ " + FinMultLabel(k)]
      + ["LDA " + destino, "ADD " + izq, "STA " + destino]
      + ["LDA " + TmpMul, "SUB " + c[1], "STA " + TmpMul]
      + ["BRA " + MultLabel(k)]
      + [Labelled(FinMultLabel(k), "LDA " + destino)]
  }

  /** The comparators whose `SI` lays out the else-body first. */
  predicate ElseFirst(cmp: Comparator) {
    cmp == Gt || cmp == Lt
  }

  /** The test and branches `_gen_si` emits for each comparator, before the bodies. */
  function SiHeader(cmp: Comparator, izq: string, der: string, ent: string, sino: string): seq<string> {
    match cmp
    case Gt => ["LDA " + izq, "SUB " + der, "BRZ " + sino, "BRP " + ent]
    case Lt => ["LDA " + der, "SUB " + izq, "BRZ " + sino, "BRP " + ent]
    case Eq => ["LDA " + izq, "SUB " + der, "BRZ " + ent, "BRA " + sino]
    case Ge => ["LDA " + izq, "SUB " + der, "BRZ " + ent, "BRP " + ent, "BRA " + sino]
    case Le => ["LDA " + der, "SUB " + izq, "BRZ " + ent, "BRP " + ent, "BRA " + sino]
    case Ne => ["LDA " + izq, "SUB " + der, "BRZ " + sino, "BRA " + ent]
  }

  predicate Grows(st: GenState, st': GenState) {
    st.consts.Keys <= st'.consts.Keys
  }

  /** `_gen_op` on state `st`. */
  function OpCode(op: Op, st: GenState): (r: Emit)
    requires Covers(st.consts.Keys, OpTokens(op))
    ensures Grows(st, r.st)
    decreases op, 1
  {
    match op
    case Leer(n) => Adjuntar(["INP", "STA " + EtiquetaMem(n, st.consts)], st)
    case Imprimir(n) => Adjuntar(["LDA " + EtiquetaMem(n, st.consts), "OUT"], st)
    case Asig(_, _, o, _) =>
      if o == Mul then
        var st' := st.(tmp := st.tmp + {TmpMul}, consts := WithZeroOne(st.consts), ix := st.ix + 1);
        Adjuntar(MulCode(op, st.consts, st.ix), st')
      else
        Adjuntar(AsigCode(op, st.consts), st)
    case Si(_, _, _) =>
      var r := SiCode(op, st.ix, st);
      r.(st := r.st.(ix := st.ix + 1))
    case Mientras(_, _) => Emit([], st, [], [])
  }

  /**
   * `_gen_si` with index `k`: the header, the first body, `BRA FINSIk`,
   * the second body; `FINSIk` then joins the pending labels.
   */
  function SiCode(op: Op, k: nat, st: GenState): (r: Emit)
    requires op.Si? && Covers(st.consts.Keys, OpTokens(op))
    ensures Grows(st, r.st)
    decreases op, 0
  {
    var c := op.cond;
    var ent, sino := EntoncesLabel(k), SinoLabel(k);
    var header := SiHeader(c.cmp, EtiquetaMem(c.left, st.consts), EtiquetaMem(c.right, st.consts), ent, sino);
    var first := if ElseFirst(c.cmp) then op.elseOps else op.thenOps;
    var second := if ElseFirst(c.cmp) then op.thenOps else op.elseOps;
    var b1 := BodyCode(first, Some(if ElseFirst(c.cmp) then sino else ent), st);
    var b2 := BodyCode(second, Some(if ElseFirst(c.cmp) then ent else sino), b1.st);
    Emit(header + b1.lines + ["BRA " + FinsiLabel(k)] + b2.lines,
         b2.st.(pending := b2.st.pending + [FinsiLabel(k)]),
         b1.taken + b2.taken, b1.pushed + b2.pushed + [FinsiLabel(k)])
  }

  /**
   * The loop over a body in `_gen_si` (and, with no label, the loop of
   * `generar_lmc`): each operation lowered in turn, the label in front of
   * the first line of the first operation that yields any.
   */
  function BodyCode(ops: seq<Op>, etq: Option<string>, st: GenState): (r: Emit)
    requires Covers(st.consts.Keys, Tokens(ops))
    ensures Grows(st, r.st)
    decreases ops
  {
    if ops == [] then Emit([], st, [], [])
    else
      var g := OpCode(ops[0], st);
      var rest := BodyCode(ops[1..], if g.lines != [] then None else etq, g.st);
      Emit(LabelFirst(etq, g.lines) + rest.lines, rest.st, g.taken + rest.taken, g.pushed + rest.pushed)
  }

  // ---------------------------------------------------------------------------
  // The whole program

  /** The constants dictionary `_recolectar_simbolos` returns, as a value. */
  function CollectedConsts(ops: seq<Op>): (m: map<nat, string>)
    ensures LabelsOk(m) && m.Keys == Consts(ops)
  {
    map v | v in Consts(ops) :: ConstLabel(v)
  }

  /** The state `generar_lmc` lowers from: counter 1, no pending label, no temporary, the collected constants. */
  function InitialState(ops: seq<Op>): GenState {
    GenState(1, [], {}, CollectedConsts(ops))
  }

  /** The code section: the loop of `generar_lmc` over the top-level operations. */
  function ProgramCode(ops: seq<Op>): Emit {
    CollectedCoversProgram(ops);
    BodyCode(ops, None, InitialState(ops))
  }

  /** `f"{v} DAT"` for each variable. */
  function VarDats(names: seq<string>): (r: seq<string>)
    ensures |r| == |names|
  {
    seq(|names|, k requires 0 <= k < |names| => names[k] + " DAT")
  }

  /** `f"{etq} DAT {valor}"` for each constant. */
  function ConstDats(values: seq<nat>, consts: map<nat, string>): (r: seq<string>)
    requires forall k :: 0 <= k < |values| ==> values[k] in consts
    ensures |r| == |values|
  {
    seq(|values|, k requires 0 <= k < |values| => consts[values[k]] + " DAT " + NatToString(values[k]))
  }

  /** The lines `generar_lmc` joins: the code, `HLT`, the variables by name, the constants by value. */
  ghost function LmcLines(ops: seq<Op>): seq<string> {
    var g := ProgramCode(ops);
    Sorting.StringOrder(Vars(ops) + g.st.tmp);
    Sorting.NatOrder(g.st.consts.Keys);
    var names := Sorting.SortedSeq(Vars(ops) + g.st.tmp, LexLess);
    var values := Sorting.SortedSeq(g.st.consts.Keys, Sorting.NatLess);
    g.lines + ["HLT"] + VarDats(names) + ConstDats(values, g.st.consts)
  }

  /** `"\n".join(lines)`. */
  function Join(lines: seq<string>): string {
    if lines == [] then "" else if |lines| == 1 then lines[0] else lines[0] + "\n" + Join(lines[1..])
  }

  // ---------------------------------------------------------------------------
  // The generator, as written

  class Generator {
    /** `_gen_op._ix_etq`: the next label index. */
    var ix: nat
    /** `_gen_op._etiquetas_pendientes`: `FINSI` labels waiting for a line, oldest first. */
    var pending: seq<string>
    /** `_gen_op._vars_tmp`: the temporaries the lowerings have used. */
    var tmp: set<string>
    /** The constants dictionary of the current `generar_lmc` call, shared by every lowering. */
    var consts: map<nat, string>

    function State(): GenState
      reads this
    {
      GenState(ix, pending, tmp, consts)
    }

    /** The attributes as `generator.py` sets them when the module is loaded. */
    constructor ()
      ensures State() == GenState(1, [], {}, map[])
    {
      ix, pending, tmp, consts := 1, [], {}, map[];
    }

    method AdjuntarEtiquetaPendiente(lineas: seq<string>) returns (r: seq<string>)
      modifies this
      ensures r == Adjuntar(lineas, old(State())).lines
      ensures State() == Adjuntar(lineas, old(State())).st
    {
      r := lineas;
      if pending != [] && r != [] {
        var etq := pending[0];
        pending := pending[1..];
        r := r[0 := Labelled(etq, r[0])];
      }
    }

    static method GenAsignacion(op: Op, consts: map<nat, string>) returns (lineas: seq<string>)
      requires op.Asig? && Covers(consts.Keys, OwnTokens(op))
      ensures lineas == AsigCode(op, consts)
    {
      lineas := ["LDA " + EtiquetaMem(op.left, consts)];
      if op.op == Add {
        lineas := lineas + ["ADD " + EtiquetaMem(op.right, consts)];
      } else if op.op == Sub {
        lineas := lineas + ["SUB " + EtiquetaMem(op.right, consts)];
      } else {
        return [];
      }
      lineas := lineas + ["STA " + EtiquetaMem(op.dest, consts)];
    }

    method GenMultiplicacion(op: Op) returns (lineas: seq<string>)
      requires op.Asig? && Covers(consts.Keys, OwnTokens(op))
      modifies this
      ensures lineas == MulCode(op, old(consts), old(ix))
      ensures consts == WithZeroOne(old(consts)) && ix == old(ix) + 1
      ensures pending == old(pending) && tmp == old(tmp)
    {
      var destino := EtiquetaMem(op.dest, consts);
      var izq := EtiquetaMem(op.left, consts);
      var der := EtiquetaMem(op.right, consts);
      if 0 !in consts {
        consts := consts[0 := "CTE0"];
      }
      if 1 !in consts {
        consts := consts[1 := "CTE1"];
      }
      assert consts == WithZeroOne(old(consts));
      var idx := ix;
      var etqLoop, etqFin := MultLabel(idx), FinMultLabel(idx);
      ix := ix + 1;
      lineas := ["LDA " + consts[0], "STA " + destino];
      lineas := lineas + ["LDA " + der, "STA " + TmpMul];
      lineas := lineas + [Labelled(etqLoop, "LDA " + TmpMul), "BRZ " + etqFin];
      lineas := lineas + ["LDA " + destino, "ADD " + izq, "STA " + destino];
      lineas := lineas + ["LDA " + TmpMul, "SUB " + consts[1], "STA " + TmpMul];
      lineas := lineas + ["BRA " + etqLoop];
      lineas := lineas + [Labelled(etqFin, "LDA " + destino)];
    }

    /** The `primero` loop of `_gen_si` over one body. */
    method GenBody(ops: seq<Op>, etq: string) returns (lineas: seq<string>)
      requires Covers(consts.Keys, Tokens(ops))
      modifies this
      ensures lineas == BodyCode(ops, Some(etq), old(State())).lines
      ensures State() == BodyCode(ops, Some(etq), old(State())).st
      decreases ops, 3
    {
      lineas := [];
      var primero := true;
      ghost var whole := BodyCode(ops, Some(etq), old(State()));
      for i := 0 to |ops|
        invariant Covers(consts.Keys, Tokens(ops[i..]))
        invariant lineas + BodyCode(ops[i..], if primero then Some(etq) else None, State()).lines == whole.lines
        invariant BodyCode(ops[i..], if primero then Some(etq) else None, State()).st == whole.st
      {
        ghost var before := State();
        ghost var lab := if primero then Some(etq) else None;
        ghost var g := OpCode(ops[i], before);
        assert ops[i..][1..] == ops[i + 1..];
        ghost var rest := BodyCode(ops[i + 1..], if g.lines != [] then None else lab, g.st);
        assert BodyCode(ops[i..], lab, before).lines == LabelFirst(lab, g.lines) + rest.lines;
        assert BodyCode(ops[i..], lab, before).st == rest.st;
        ghost var done := lineas;
        var gen := GenOp(ops[i]);
        if gen != [] {
          if primero {
            gen := gen[0 := Labelled(etq, gen[0])];
            primero := false;
          }
          lineas := lineas + gen;
        }
        assert (if primero then Some(etq) else None) == (if g.lines != [] then None else lab);
        assert lineas == done + LabelFirst(lab, g.lines);
        AppendAssoc(done, LabelFirst(lab, g.lines), rest.lines);
      }
    }

    method GenSi(op: Op, indice: nat) returns (lineas: seq<string>, nuevo: nat)
      requires op.Si? && Covers(consts.Keys, OpTokens(op))
      modifies this
      ensures lineas == SiCode(op, indice, old(State())).lines
      ensures State() == SiCode(op, indice, old(State())).st
      ensures nuevo == indice + 1
      decreases op, 1
    {
      var c := op.cond;
      var izquierda := EtiquetaMem(c.left, consts);
      var derecha := EtiquetaMem(c.right, consts);
      var etqEntonces, etqSino, etqFinsi := EntoncesLabel(indice), SinoLabel(indice), FinsiLabel(indice);
      lineas := SiHeader(c.cmp, izquierda, derecha, etqEntonces, etqSino);
      var gen: seq<string>;
      if ElseFirst(c.cmp) {
        gen := GenBody(op.elseOps, etqSino);
        lineas := lineas + gen + ["BRA " + etqFinsi];
        gen := GenBody(op.thenOps, etqEntonces);
      } else {
        gen := GenBody(op.thenOps, etqEntonces);
        lineas := lineas + gen + ["BRA " + etqFinsi];
        gen := GenBody(op.elseOps, etqSino);
      }
      lineas := lineas + gen;
      pending := pending + [etqFinsi];
      nuevo := indice + 1;
    }

    method GenOp(op: Op) returns (lineas: seq<string>)
      requires Covers(consts.Keys, OpTokens(op))
      modifies this
      ensures lineas == OpCode(op, old(State())).lines
      ensures State() == OpCode(op, old(State())).st
      decreases op, 3
    {
      match op
      case Leer(n) =>
        lineas := ["INP", "STA " + EtiquetaMem(n, consts)];
        lineas := AdjuntarEtiquetaPendiente(lineas);
      case Imprimir(n) =>
        lineas := ["LDA " + EtiquetaMem(n, consts), "OUT"];
        lineas := AdjuntarEtiquetaPendiente(lineas);
      case Asig(_, _, o, _) =>
        if o == Mul {
          lineas := GenMulOp(op);
        } else {
          lineas := GenAsignacion(op, consts);
          lineas := AdjuntarEtiquetaPendiente(lineas);
        }
      case Si(_, _, _) =>
        lineas := GenSiOp(op);
      case Mientras(_, _) =>
        lineas := [];
    }

    /** The multiplication branch of `_gen_op`: note `TMPMUL`, lower, then attach the oldest pending label. */
    method GenMulOp(op: Op) returns (lineas: seq<string>)
      requires op.Asig? && op.op == Mul && Covers(consts.Keys, OpTokens(op))
      modifies this
      ensures lineas == OpCode(op, old(State())).lines
      ensures State() == OpCode(op, old(State())).st
    {
      ghost var before := State();
      tmp := tmp + {TmpMul};
      lineas := GenMultiplicacion(op);
      assert State() == before.(tmp := before.tmp + {TmpMul}, consts := WithZeroOne(before.consts), ix := before.ix + 1);
      lineas := AdjuntarEtiquetaPendiente(lineas);
    }

    /** The `si` branch of `_gen_op`: `_gen_si` with the current index, which then becomes the index it returns. */
    method GenSiOp(op: Op) returns (lineas: seq<string>)
      requires op.Si? && Covers(consts.Keys, OpTokens(op))
      modifies this
      ensures lineas == OpCode(op, old(State())).lines
      ensures State() == OpCode(op, old(State())).st
      decreases op, 2
    {
      var nuevo: nat;
      lineas, nuevo := GenSi(op, ix);
      ix := nuevo;
    }

    /** The loop of `generar_lmc`: `codigo.extend(_gen_op(op))` for each top-level operation. */
    method GenCodigo(ops: seq<Op>) returns (codigo: seq<string>)
      requires Covers(consts.Keys, Tokens(ops))
      modifies this
      ensures codigo == BodyCode(ops, None, old(State())).lines
      ensures State() == BodyCode(ops, None, old(State())).st
    {
      codigo := [];
      ghost var whole := BodyCode(ops, None, State());
      for i := 0 to |ops|
        invariant Covers(consts.Keys, Tokens(ops[i..]))
        invariant codigo + BodyCode(ops[i..], None, State()).lines == whole.lines
        invariant BodyCode(ops[i..], None, State()).st == whole.st
      {
        ghost var g := OpCode(ops[i], State());
        assert ops[i..][1..] == ops[i + 1..];
        ghost var rest := BodyCode(ops[i + 1..], None, g.st);
        ghost var done := codigo;
        var gen := GenOp(ops[i]);
        codigo := codigo + gen;
        AppendAssoc(done, gen, rest.lines);
      }
      assert ops[|ops|..] == [];
    }

    /**
     * `generar_lmc`: collect the symbols, reset the attributes, lower every
     * operation, then `HLT` and the data section.  The text depends on the
     * operations alone, not on what earlier calls left in the attributes.
     */
    method GenerarLmc(ops: seq<Op>) returns (text: string)
      modifies this
      ensures text == Join(LmcLines(ops))
      ensures State() == ProgramCode(ops).st
    {
      var conjuntoVars, constantes := CollectSymbols(ops);
      assert constantes == CollectedConsts(ops);
      ix, pending, tmp, consts := 1, [], {}, constantes;
      CollectedCoversProgram(ops);
      ghost var program := ProgramCode(ops);
      assert State() == InitialState(ops);
      var codigo := GenCodigo(ops);
      assert codigo == program.lines && State() == program.st;
      codigo := codigo + ["HLT"];
      var conjuntoTotal := conjuntoVars + tmp;
      Sorting.StringOrder(conjuntoTotal);
      var nombres := Sorting.Sort(conjuntoTotal, LexLess);
      codigo := AppendVarDats(codigo, nombres);
      Sorting.NatOrder(consts.Keys);
      var valores := Sorting.Sort(consts.Keys, Sorting.NatLess);
      codigo := AppendConstDats(codigo, valores, consts);
      assert codigo == LmcLines(ops);
      text := Join(codigo);
    }
  }

  /** `for v in sorted(...): codigo.append(f"{v} DAT")` */
  method AppendVarDats(codigo: seq<string>, nombres: seq<string>) returns (r: seq<string>)
    ensures r == codigo + VarDats(nombres)
  {
    r := codigo;
    for i := 0 to |nombres|
      invariant r == codigo + VarDats(nombres[..i])
    {
      assert VarDats(nombres[..i + 1]) == VarDats(nombres[..i]) + [nombres[i] + " DAT"];
      r := r + [nombres[i] + " DAT"];
    }
    assert nombres[..|nombres|] == nombres;
  }

  /** `for valor, etq in sorted(constantes.items()): codigo.append(f"{etq} DAT {valor}")` */
  method AppendConstDats(codigo: seq<string>, valores: seq<nat>, consts: map<nat, string>) returns (r: seq<string>)
    requires forall k :: 0 <= k < |valores| ==> valores[k] in consts
    ensures r == codigo + ConstDats(valores, consts)
  {
    r := codigo;
    for i := 0 to |valores|
      invariant r == codigo + ConstDats(valores[..i], consts)
    {
      assert ConstDats(valores[..i + 1], consts)
        == ConstDats(valores[..i], consts) + [consts[valores[i]] + " DAT " + NatToString(valores[i])];
      r := r + [consts[valores[i]] + " DAT " + NatToString(valores[i])];
    }
    assert valores[..|valores|] == valores;
  }
}
