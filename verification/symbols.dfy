/**
 * `_recolectar_simbolos`: the variables and integer constants a list of
 * operations needs in the data section of the LMC program.
 */
module Symbols {
  import opened Text
  import opened Ast

  /** `_es_numero`: `str.isdigit()`, which on ASCII means a non-empty run of decimal digits. */
  predicate IsNumero(tok: string) {
    AllDigits(tok)
  }

  /** The label of the cell that holds the constant `v`: `f"CTE{v}"`. */
  function ConstLabel(v: nat): string {
    "CTE" + NatToString(v)
  }

  /** The declarations of the cells the multiplication loop uses, written out. */
  lemma MulDats()
    ensures TmpMul + " DAT" == "TMPMUL DAT"
    ensures ConstLabel(0) + " DAT " + NatToString(0) == "CTE0 DAT 0"
    ensures ConstLabel(1) + " DAT " + NatToString(1) == "CTE1 DAT 1"
  {
    assert NatToString(0) == [DigitChar(0)] == "0";
    assert NatToString(1) == [DigitChar(1)] == "1";
  }

  /** Every entry of a constants dictionary maps a value to that value's own label. */
  predicate LabelsOk(consts: map<nat, string>) {
    forall v :: v in consts ==> consts[v] == ConstLabel(v)
  }

  /** The scratch cell of the multiplication loop. */
  const TmpMul: string := "TMPMUL"

  /** What `agregar_token` adds to the variable set for one token. */
  function TokenVars(tok: string): set<string> {
    if IsNumero(tok) then {} else {Upper(tok)}
  }

  /** What `agregar_token` adds to the constants for one token. */
  function TokenConsts(tok: string): set<nat> {
    if IsNumero(tok) then {DigitsValue(tok)} else {}
  }

  // ---------------------------------------------------------------------------
  // What the collection loop computes, one operation at a time

  function OpVars(op: Op): set<string>
    decreases op
  {
    match op
    case Leer(n) => TokenVars(n)
    case Imprimir(n) => TokenVars(n)
    case Asig(d, l, o, r) => TokenVars(d) + TokenVars(l) + TokenVars(r) + (if o == Mul then {TmpMul} else {})
    case Si(c, t, e) => TokenVars(c.left) + TokenVars(c.right) + Vars(t) + Vars(e)
    case Mientras(_, _) => {}
  }

  /** The variable set `_recolectar_simbolos` returns. */
  function Vars(ops: seq<Op>): set<string>
    decreases ops
  {
    if ops == [] then {} else Vars(ops[..|ops| - 1]) + OpVars(ops[|ops| - 1])
  }

  function OpConsts(op: Op): set<nat>
    decreases op
  {
    match op
    case Leer(n) => TokenConsts(n)
    case Imprimir(n) => TokenConsts(n)
    case Asig(d, l, o, r) => TokenConsts(d) + TokenConsts(l) + TokenConsts(r) + (if o == Mul then {0, 1} else {})
    case Si(c, t, e) => TokenConsts(c.left) + TokenConsts(c.right) + Consts(t) + Consts(e)
    case Mientras(_, _) => {}
  }

  /** The keys of the constants dictionary `_recolectar_simbolos` returns. */
  function Consts(ops: seq<Op>): set<nat>
    decreases ops
  {
    if ops == [] then {} else Consts(ops[..|ops| - 1]) + OpConsts(ops[|ops| - 1])
  }

  // ---------------------------------------------------------------------------
  // What the generator reads: the tokens it looks up and the multiplications it lowers

  /** The tokens of one operation that its own lowering passes to `_etiqueta_mem`. */
  function OwnTokens(op: Op): set<string> {
    match op
    case Leer(n) => {n}
    case Imprimir(n) => {n}
    case Asig(d, l, _, r) => {d, l, r}
    case Si(c, _, _) => {c.left, c.right}
    case Mientras(_, _) => {}
  }

  /** Every token the generator looks up, through the bodies of `SI` but not of `MIENTRAS`. */
  function OpTokens(op: Op): set<string>
    decreases op
  {
    match op
    case Si(_, t, e) => OwnTokens(op) + Tokens(t) + Tokens(e)
    case _ => OwnTokens(op)
  }

  function Tokens(ops: seq<Op>): set<string>
    decreases ops
  {
    if ops == [] then {} else OpTokens(ops[0]) + Tokens(ops[1..])
  }

  /** A multiplication the generator lowers: one not inside a `MIENTRAS`. */
  predicate OpHasMul(op: Op)
    decreases op
  {
    match op
    case Asig(_, _, o, _) => o == Mul
    case Si(_, t, e) => HasMul(t) || HasMul(e)
    case _ => false
  }

  predicate HasMul(ops: seq<Op>)
    decreases ops
  {
    ops != [] && (OpHasMul(ops[0]) || HasMul(ops[1..]))
  }

  /** Every numeric token among `toks` has a cell in a dictionary with these keys. */
  predicate Covers(keys: set<nat>, toks: set<string>) {
    forall t :: t in toks && IsNumero(t) ==> DigitsValue(t) in keys
  }

  // ---------------------------------------------------------------------------
  // The collection, as written

  /** `agregar_token`: a number gets a constant cell unless it has one, anything else is a variable. */
  method AddToken(vars: set<string>, consts: map<nat, string>, tok: string)
    returns (vars': set<string>, consts': map<nat, string>)
    ensures vars' == vars + TokenVars(tok)
    ensures forall v :: v in consts' <==> v in consts || v in TokenConsts(tok)
    ensures LabelsOk(consts) ==> LabelsOk(consts')
  {
    vars', consts' := vars, consts;
    if IsNumero(tok) {
      var valor := DigitsValue(tok);
      if valor !in consts' {
        consts' := consts'[valor := ConstLabel(valor)];
      }
    } else {
      vars' := vars' + {Upper(tok)};
    }
  }

  /** `for k, v in inner.items(): consts.setdefault(k, v)`: the entries already present win. */
  method SetDefaults(consts: map<nat, string>, inner: map<nat, string>) returns (r: map<nat, string>)
    ensures forall v :: v in r <==> v in consts || v in inner
    ensures forall v :: v in r ==> r[v] == if v in consts then consts[v] else inner[v]
  {
    r := consts;
    var rest := inner.Keys;
    while rest != {}
      invariant rest <= inner.Keys
      invariant forall v :: v in r <==> v in consts || (v in inner && v !in rest)
      invariant forall v :: v in r ==> r[v] == if v in consts then consts[v] else inner[v]
      decreases |rest|
    {
      var k :| k in rest;
      if k !in r {
        r := r[k := inner[k]];
      }
      rest := rest - {k};
    }
  }

  /** A multiplication needs the scratch cell `TMPMUL` and the constants 0 and 1, each added only if absent. */
  method AddMulSymbols(vars: set<string>, consts: map<nat, string>)
    returns (vars': set<string>, consts': map<nat, string>)
    ensures vars' == vars + {TmpMul}
    ensures forall v :: v in consts' <==> v in consts || v == 0 || v == 1
    ensures LabelsOk(consts) ==> LabelsOk(consts')
  {
    assert ConstLabel(0) == "CTE0" && ConstLabel(1) == "CTE1";
    vars', consts' := vars + {TmpMul}, consts;
    if 0 !in consts' {
      consts' := consts'[0 := "CTE0"];
    }
    if 1 !in consts' {
      consts' := consts'[1 := "CTE1"];
    }
  }

  /**
   * `_recolectar_simbolos`: the variable set and the constants dictionary of
   * a list of operations, every constant under its own `CTE` label.
   */
  method CollectSymbols(ops: seq<Op>) returns (vars: set<string>, consts: map<nat, string>)
    ensures vars == Vars(ops)
    ensures forall v :: v in consts <==> v in Consts(ops)
    ensures LabelsOk(consts)
    decreases ops, 0
  {
    vars, consts := {}, map[];
    for i := 0 to |ops|
      invariant vars == Vars(ops[..i])
      invariant forall v :: v in consts <==> v in Consts(ops[..i])
      invariant LabelsOk(consts)
    {
      assert ops[..i + 1][..i] == ops[..i];
      vars, consts := CollectOp(vars, consts, ops[i]);
    }
    assert ops[..|ops|] == ops;
  }

  /** One turn of the loop of `_recolectar_simbolos`: the symbols of one operation, added to those so far. */
  method CollectOp(vars: set<string>, consts: map<nat, string>, op: Op)
    returns (vars': set<string>, consts': map<nat, string>)
    requires LabelsOk(consts)
    ensures vars' == vars + OpVars(op)
    ensures forall v :: v in consts' <==> v in consts || v in OpConsts(op)
    ensures LabelsOk(consts')
    decreases op, 1
  {
    vars', consts' := vars, consts;
    match op
    case Leer(n) =>
      vars', consts' := AddToken(vars', consts', n);
    case Imprimir(n) =>
      vars', consts' := AddToken(vars', consts', n);
    case Asig(_, _, _, _) =>
      vars', consts' := CollectAsig(vars', consts', op);
    case Si(_, _, _) =>
      vars', consts' := CollectSi(vars', consts', op);
    case Mientras(_, _) =>
  }

  /** The assignment branch of that turn: target and both operands, then what a multiplication needs. */
  method CollectAsig(vars: set<string>, consts: map<nat, string>, op: Op)
    returns (vars': set<string>, consts': map<nat, string>)
    requires op.Asig? && LabelsOk(consts)
    ensures vars' == vars + OpVars(op)
    ensures forall v :: v in consts' <==> v in consts || v in OpConsts(op)
    ensures LabelsOk(consts')
  {
    vars', consts' := AddTokens(vars, consts, op.dest, op.left, op.right);
    if op.op == Mul {
      vars', consts' := AddMulSymbols(vars', consts');
    }
  }

  /** `agregar_token` on the target and the two operands of an assignment, in that order. */
  method AddTokens(vars: set<string>, consts: map<nat, string>, d: string, l: string, r: string)
    returns (vars': set<string>, consts': map<nat, string>)
    requires LabelsOk(consts)
    ensures vars' == vars + TokenVars(d) + TokenVars(l) + TokenVars(r)
    ensures forall v :: v in consts' <==> v in consts || v in TokenConsts(d) || v in TokenConsts(l) || v in TokenConsts(r)
    ensures LabelsOk(consts')
  {
    vars', consts' := AddToken(vars, consts, d);
    vars', consts' := AddToken(vars', consts', l);
    vars', consts' := AddToken(vars', consts', r);
  }

  /** The `si` branch of that turn: both operands, then the symbols of each body merged in with `setdefault`. */
  method CollectSi(vars: set<string>, consts: map<nat, string>, op: Op)
    returns (vars': set<string>, consts': map<nat, string>)
    requires op.Si? && LabelsOk(consts)
    ensures vars' == vars + OpVars(op)
    ensures forall v :: v in consts' <==> v in consts || v in OpConsts(op)
    ensures LabelsOk(consts')
    decreases op, 0
  {
    var c := op.cond;
    vars', consts' := AddToken(vars, consts, c.left);
    vars', consts' := AddToken(vars', consts', c.right);
    var varsInt, constsInt := CollectSymbols(op.thenOps);
    vars' := vars' + varsInt;
    consts' := SetDefaults(consts', constsInt);
    varsInt, constsInt := CollectSymbols(op.elseOps);
    vars' := vars' + varsInt;
    consts' := SetDefaults(consts', constsInt);
  }

  // ---------------------------------------------------------------------------
  // What the collected symbols are

  /** The variable names of a set of tokens: the non-numeric ones, upper-cased. */
  function NamesOf(toks: set<string>): set<string> {
    set t | t in toks && !IsNumero(t) :: Upper(t)
  }

  /** The constant values of a set of tokens: `int(t)` of the numeric ones. */
  function ValuesOf(toks: set<string>): set<nat> {
    set t | t in toks && IsNumero(t) :: DigitsValue(t)
  }

  lemma NamesValuesUnion(a: set<string>, b: set<string>)
    ensures NamesOf(a + b) == NamesOf(a) + NamesOf(b)
    ensures ValuesOf(a + b) == ValuesOf(a) + ValuesOf(b)
  {
  }

  lemma {:induction false} VarsConstsAppend(a: seq<Op>, b: seq<Op>)
    ensures Vars(a + b) == Vars(a) + Vars(b)
    ensures Consts(a + b) == Consts(a) + Consts(b)
    decreases |b|
  {
    if b == [] {
      assert a + b == a;
    } else {
      var n := |b| - 1;
      assert (a + b)[..|a + b| - 1] == a + b[..n];
      VarsConstsAppend(a, b[..n]);
    }
  }

  lemma SingleToken(x: string)
    ensures NamesOf({x}) == TokenVars(x) && ValuesOf({x}) == TokenConsts(x)
  {
  }

  lemma ThreeTokens(d: string, l: string, r: string)
    ensures NamesOf({d, l, r}) == TokenVars(d) + TokenVars(l) + TokenVars(r)
    ensures ValuesOf({d, l, r}) == TokenConsts(d) + TokenConsts(l) + TokenConsts(r)
  {
    var a, b := {d, l}, {r};
    assert {d, l, r} == a + b;
    NamesValuesUnion(a, b);
    TwoTokens(d, l);
    SingleToken(r);
  }

  lemma TwoTokens(d: string, l: string)
    ensures NamesOf({d, l}) == TokenVars(d) + TokenVars(l)
    ensures ValuesOf({d, l}) == TokenConsts(d) + TokenConsts(l)
  {
    var a, b := {d}, {l};
    assert {d, l} == a + b;
    NamesValuesUnion(a, b);
    SingleToken(d);
    SingleToken(l);
  }

  lemma {:induction false} SiSymbols(op: Op)
    requires op.Si?
    ensures OpVars(op) == NamesOf(OpTokens(op)) + (if OpHasMul(op) then {TmpMul} else {})
    ensures OpConsts(op) == ValuesOf(OpTokens(op)) + (if OpHasMul(op) then {0, 1} else {})
    decreases op, 0
  {
    var c, t, e := op.cond, op.thenOps, op.elseOps;
    Symbols(t);
    Symbols(e);
    var own := OwnTokens(op);
    ThreeTokens(c.left, c.right, c.right);
    assert own == {c.left, c.right, c.right};
    NamesValuesUnion(own + Tokens(t), Tokens(e));
    NamesValuesUnion(own, Tokens(t));
    SiVars(NamesOf(own), NamesOf(Tokens(t)), NamesOf(Tokens(e)), HasMul(t), HasMul(e));
    SiConsts(ValuesOf(own), ValuesOf(Tokens(t)), ValuesOf(Tokens(e)), HasMul(t), HasMul(e));
  }

  lemma SiVars(o: set<string>, a: set<string>, b: set<string>, ma: bool, mb: bool)
    ensures o + (a + (if ma then {TmpMul} else {})) + (b + (if mb then {TmpMul} else {}))
      == (o + a + b) + (if ma || mb then {TmpMul} else {})
  {
  }

  lemma SiConsts(o: set<nat>, a: set<nat>, b: set<nat>, ma: bool, mb: bool)
    ensures o + (a + (if ma then {0, 1} else {})) + (b + (if mb then {0, 1} else {}))
      == (o + a + b) + (if ma || mb then {0, 1} else {})
  {
  }

  /** The symbols of one operation, described by its tokens. */
  lemma {:induction false} OpSymbols(op: Op)
    ensures OpVars(op) == NamesOf(OpTokens(op)) + (if OpHasMul(op) then {TmpMul} else {})
    ensures OpConsts(op) == ValuesOf(OpTokens(op)) + (if OpHasMul(op) then {0, 1} else {})
    decreases op, 1
  {
    match op
    case Leer(n) => SingleToken(n);
    case Imprimir(n) => SingleToken(n);
    case Asig(d, l, o, r) => ThreeTokens(d, l, r);
    case Si(_, _, _) => SiSymbols(op);
    case Mientras(_, _) =>
  }

  /**
   * `_recolectar_simbolos` collects exactly this: every token that is not a
   * number, upper-cased, as a variable; every numeric token as one constant
   * per distinct integer value (so `07` and `7` share a cell); and `TMPMUL`,
   * 0 and 1 when there is a multiplication.  Tokens inside a `MIENTRAS`
   * contribute nothing.
   */
  lemma {:induction false} Symbols(ops: seq<Op>)
    ensures Vars(ops) == NamesOf(Tokens(ops)) + (if HasMul(ops) then {TmpMul} else {})
    ensures Consts(ops) == ValuesOf(Tokens(ops)) + (if HasMul(ops) then {0, 1} else {})
    decreases ops, 0
  {
    if ops != [] {
      var first, rest := ops[0], ops[1..];
      assert ops == [first] + rest;
      VarsConstsAppend([first], rest);
      assert [first][..0] == [];
      OpSymbols(first);
      Symbols(rest);
      NamesValuesUnion(OpTokens(first), Tokens(rest));
    }
  }

  /**
   * The collected dictionary has a cell for every number the generator
   * looks up, and for 0 and 1 whenever it lowers a multiplication, so
   * `_etiqueta_mem` never raises `KeyError` on a program's own symbols.
   */
  lemma CollectedCoversProgram(ops: seq<Op>)
    ensures Covers(Consts(ops), Tokens(ops))
    ensures HasMul(ops) ==> 0 in Consts(ops) && 1 in Consts(ops) && TmpMul in Vars(ops)
  {
    Symbols(ops);
  }

  /** Distinct constants get distinct cells: a dictionary whose labels are `CTE` numerals is injective. */
  lemma DistinctCells(consts: map<nat, string>, v: nat, w: nat)
    requires LabelsOk(consts) && v in consts && w in consts
    ensures consts[v] == consts[w] <==> v == w
  {
    if consts[v] == consts[w] {
      assert NatToString(v) == ConstLabel(v)[3..];
      assert NatToString(w) == ConstLabel(w)[3..];
      NatToStringInjective(v, w);
    }
  }
}
