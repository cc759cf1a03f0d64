/**
 * The line classifier of the parser: the `_es_*` predicates, each a full
 * match of one regular expression, and the `_parsear_*` extractors that
 * build a statement from the same line and upper-case its names.
 *
 * Every pattern is read left to right by maximal runs (of whitespace, word
 * characters or digits).  For these patterns the greedy run is the only one
 * that can succeed: each run is followed by an element that cannot start
 * with a character of the run's class, so backtracking never finds another
 * match.  The `...Shape` predicates state the patterns declaratively, by
 * the positions where their parts begin and end; the `...Sound` and
 * `...Complete` lemmas show that the scanners accept exactly the lines of
 * that shape, with exactly those parts as the captures.
 */
module Classifier {
  import opened Text
  import opened Options
  import opened Ast

  // ---------------------------------------------------------------------------
  // Maximal runs

  /** The three classes the patterns repeat: `\s`, `\w` and `\d`. */
  datatype CharClass = Space | Word | Digit

  predicate InClass(c: char, k: CharClass) {
    match k
    case Space => IsSpace(c)
    case Word => IsWordChar(c)
    case Digit => IsDigit(c)
  }

  /** Where the longest run of class `k` from `i` ends: what a greedy `\s*`, `\w*` or `\d*` consumes. */
  function Span(s: string, i: nat, k: CharClass): (j: nat)
    requires i <= |s|
    ensures i <= j <= |s|
    decreases |s| - i
  {
    if i < |s| && InClass(s[i], k) then Span(s, i + 1, k) else i
  }

  /** Every character of `s[i..j]` is of class `k`. */
  ghost predicate Run(s: string, i: nat, j: nat, k: CharClass) {
    i <= j <= |s| && forall m :: i <= m < j ==> InClass(s[m], k)
  }

  /** The run `Span` finds is of class `k` and cannot be extended. */
  lemma {:induction false} SpanIsMaximalRun(s: string, i: nat, k: CharClass)
    requires i <= |s|
    ensures Run(s, i, Span(s, i, k), k)
    ensures Span(s, i, k) == |s| || !InClass(s[Span(s, i, k)], k)
    decreases |s| - i
  {
    if i < |s| && InClass(s[i], k) {
      SpanIsMaximalRun(s, i + 1, k);
    }
  }

  /** A run that cannot be extended is the one `Span` finds. */
  lemma {:induction false} MaximalRunIsSpan(s: string, i: nat, j: nat, k: CharClass)
    requires Run(s, i, j, k) && (j == |s| || !InClass(s[j], k))
    ensures Span(s, i, k) == j
    decreases j - i
  {
    if i < j {
      MaximalRunIsSpan(s, i + 1, j, k);
    }
  }

  /** `s[i..j]` is whitespace, possibly none. */
  ghost predicate Spaces(s: string, i: nat, j: nat) { Run(s, i, j, Space) }

  /** `s[i..j]` matches `\w+`. */
  ghost predicate WordSeg(s: string, i: nat, j: nat) { i < j && Run(s, i, j, Word) }

  /** `s[i..j]` matches `[A-Za-z]\w*`. */
  ghost predicate IdentSeg(s: string, i: nat, j: nat) { WordSeg(s, i, j) && IsLetter(s[i]) }

  /** `s[i..j]` matches `[A-Za-z]\w*|\d+`. */
  ghost predicate OperandSeg(s: string, i: nat, j: nat) {
    IdentSeg(s, i, j) || (i < j && Run(s, i, j, Digit))
  }

  /** The upper-case keyword `kw` occurs at `i` in any case, as `re.IGNORECASE` matches it. */
  predicate KeywordAt(s: string, i: nat, kw: string) {
    i + |kw| <= |s| && forall k :: 0 <= k < |kw| ==> UpperChar(s[i + k]) == kw[k]
  }

  lemma KeywordFirst(s: string, i: nat, kw: string)
    requires IsKeyword(kw) && KeywordAt(s, i, kw)
    ensures i < |s| && UpperChar(s[i]) == kw[0] && IsLetter(s[i]) && IsWordChar(s[i]) && !IsSpace(s[i])
  {
    KeywordCharNotSpace(s[i + 0], kw[0]);
  }

  lemma KeywordAllLetters(s: string, i: nat, kw: string)
    requires IsKeyword(kw) && KeywordAt(s, i, kw)
    ensures forall m :: i <= m < i + |kw| ==> IsWordChar(s[m]) && !IsSpace(s[m])
  {
    forall m | i <= m < i + |kw| ensures IsWordChar(s[m]) && !IsSpace(s[m]) {
      KeywordCharNotSpace(s[i + (m - i)], kw[m - i]);
    }
  }

  // ---------------------------------------------------------------------------
  // `^\s*KW\s+`: the start the four keyword patterns share

  /** `s[a..]` starts with the keyword, `s[b..]` with what follows the whitespace after it. */
  datatype Lead = Lead(a: nat, b: nat)

  ghost predicate LeadShape(s: string, kw: string, l: Lead) {
    && Spaces(s, 0, l.a)
    && KeywordAt(s, l.a, kw)
    && l.a + |kw| < l.b && Spaces(s, l.a + |kw|, l.b)
  }

  function ScanLead(s: string, kw: string): (r: Option<Lead>)
    ensures r.Some? ==> r.value.a + |kw| < r.value.b <= |s|
  {
    var a := Span(s, 0, Space);
    if !KeywordAt(s, a, kw) then None
    else
      var b := Span(s, a + |kw|, Space);
      if b == a + |kw| then None else Some(Lead(a, b))
  }

  lemma LeadSound(s: string, kw: string)
    requires ScanLead(s, kw).Some?
    ensures LeadShape(s, kw, ScanLead(s, kw).value)
    ensures var b := ScanLead(s, kw).value.b; b == |s| || !IsSpace(s[b])
  {
    SpanIsMaximalRun(s, 0, Space);
    SpanIsMaximalRun(s, Span(s, 0, Space) + |kw|, Space);
  }

  lemma LeadComplete(s: string, kw: string, l: Lead)
    requires IsKeyword(kw) && LeadShape(s, kw, l) && (l.b == |s| || !IsSpace(s[l.b]))
    ensures ScanLead(s, kw) == Some(l)
  {
    KeywordFirst(s, l.a, kw);
    MaximalRunIsSpan(s, 0, l.a, Space);
    MaximalRunIsSpan(s, l.a + |kw|, l.b, Space);
  }

  /** Lines that start with keywords of different initials do not both match. */
  lemma LeadsExclusive(s: string, kw1: string, kw2: string)
    requires IsKeyword(kw1) && IsKeyword(kw2) && kw1[0] != kw2[0]
    ensures ScanLead(s, kw1).None? || ScanLead(s, kw2).None?
  {
    var a := Span(s, 0, Space);
    if ScanLead(s, kw1).Some? && ScanLead(s, kw2).Some? {
      KeywordFirst(s, a, kw1);
      KeywordFirst(s, a, kw2);
    }
  }

  // ---------------------------------------------------------------------------
  // `^\s*KW\s+([A-Za-z]\w*)\s*$`: `_es_leer` (KW = LEER) and `_es_imprimir` (KW = IMPRIMIR)

  /** `s[lead.b..c]` is the identifier. */
  datatype IdentCuts = IdentCuts(lead: Lead, c: nat)

  ghost predicate KeywordIdentShape(s: string, kw: string, p: IdentCuts) {
    && LeadShape(s, kw, p.lead)
    && IdentSeg(s, p.lead.b, p.c)
    && Spaces(s, p.c, |s|)
  }

  function ScanKeywordIdent(s: string, kw: string): (r: Option<IdentCuts>)
    ensures r.Some? ==> r.value.lead.b < r.value.c <= |s|
  {
    match ScanLead(s, kw)
    case None => None
    case Some(l) =>
      if l.b == |s| || !IsLetter(s[l.b]) then None
      else
        var c := Span(s, l.b, Word);
        if Span(s, c, Space) == |s| then Some(IdentCuts(l, c)) else None
  }

  /** The match of `^\s*KW\s+([A-Za-z]\w*)\s*$`, with its capture. */
  function MatchKeywordIdent(s: string, kw: string): Option<string> {
    match ScanKeywordIdent(s, kw)
    case None => None
    case Some(p) => Some(s[p.lead.b..p.c])
  }

  lemma KeywordIdentSound(s: string, kw: string)
    requires ScanKeywordIdent(s, kw).Some?
    ensures KeywordIdentShape(s, kw, ScanKeywordIdent(s, kw).value)
  {
    var l := ScanLead(s, kw).value;
    LeadSound(s, kw);
    SpanIsMaximalRun(s, l.b, Word);
    SpanIsMaximalRun(s, Span(s, l.b, Word), Space);
  }

  lemma KeywordIdentComplete(s: string, kw: string, p: IdentCuts)
    requires IsKeyword(kw) && KeywordIdentShape(s, kw, p)
    ensures ScanKeywordIdent(s, kw) == Some(p)
  {
    LeadComplete(s, kw, p.lead);
    MaximalRunIsSpan(s, p.lead.b, p.c, Word);
    MaximalRunIsSpan(s, p.c, |s|, Space);
  }

  /**
   * `re.findall(r"KW\s+([A-Za-z][\w]*)", linea, re.IGNORECASE)[0]`: the
   * capture at the first position from `p` on where the unanchored pattern
   * matches, or None when the list is empty (and `[0]` raises).
   */
  function FindKeywordIdent(s: string, kw: string, p: nat): Option<string>
    requires p <= |s|
    decreases |s| - p
  {
    var b := if p + |kw| <= |s| then Span(s, p + |kw|, Space) else p;
    if KeywordAt(s, p, kw) && b > p + |kw| && b < |s| && IsLetter(s[b]) then
      Some(s[b..Span(s, b, Word)])
    else if p < |s| then FindKeywordIdent(s, kw, p + 1)
    else None
  }

  /**
   * On a line the validator accepts, the extractor's search finds the
   * identifier the validator matched: no earlier position can start a
   * match, because the line begins with whitespace and then the keyword.
   */
  lemma {:induction false} FindAgreesWithMatch(s: string, kw: string, p: nat)
    requires IsKeyword(kw) && ScanKeywordIdent(s, kw).Some?
    requires p <= Span(s, 0, Space)
    ensures FindKeywordIdent(s, kw, p) == MatchKeywordIdent(s, kw)
    decreases Span(s, 0, Space) - p
  {
    var a := Span(s, 0, Space);
    if p < a {
      SpanIsMaximalRun(s, 0, Space);
      assert !KeywordAt(s, p, kw) by {
        if KeywordAt(s, p, kw) {
          KeywordFirst(s, p, kw);
        }
      }
      FindAgreesWithMatch(s, kw, p + 1);
    }
  }

  // ---------------------------------------------------------------------------
  // `^\s*([A-Za-z]\w*)\s*=\s*([A-Za-z]\w*|\d+)\s*([+\-*/])\s*([A-Za-z]\w*|\d+)\s*$`: `_es_asignacion`

  function ArithOpOf(c: char): (r: Option<ArithOp>)
    ensures r.Some? <==> c in "+-*/"
    ensures r.Some? ==> ArithOpText(r.value) == [c]
  {
    if c == '+' then Some(Add)
    else if c == '-' then Some(Sub)
    else if c == '*' then Some(Mul)
    else if c == '/' then Some(Div)
    else None
  }

  /** `[A-Za-z][\w]*|\d+` from `i`: where the operand ends, if one starts there. */
  function SpanOperand(s: string, i: nat): (r: Option<nat>)
    requires i <= |s|
    ensures r.Some? ==> i < r.value <= |s|
  {
    if i < |s| && IsLetter(s[i]) then Some(Span(s, i, Word))
    else if i < |s| && IsDigit(s[i]) then Some(Span(s, i, Digit))
    else None
  }

  lemma SpanOperandIsOperand(s: string, i: nat)
    requires i <= |s| && SpanOperand(s, i).Some?
    ensures OperandSeg(s, i, SpanOperand(s, i).value)
  {
    if IsLetter(s[i]) {
      SpanIsMaximalRun(s, i, Word);
    } else {
      SpanIsMaximalRun(s, i, Digit);
    }
  }

  /** An operand followed by a character that cannot continue it is the one `SpanOperand` finds. */
  lemma OperandIsSpanOperand(s: string, i: nat, j: nat)
    requires OperandSeg(s, i, j)
    requires j == |s| || IsSpace(s[j]) || ArithOpOf(s[j]).Some?
    ensures SpanOperand(s, i) == Some(j)
  {
    if IsLetter(s[i]) {
      MaximalRunIsSpan(s, i, j, Word);
    } else {
      MaximalRunIsSpan(s, i, j, Digit);
    }
  }

  /** `s[d..e]` and `s[g..h]` are the operands of an assignment, `s[f]` its operator. */
  datatype OperationCuts = OperationCuts(d: nat, e: nat, f: nat, g: nat, h: nat)

  /** `s[a..b]` is the destination of an assignment, `s[c]` its `=`. */
  datatype AsigCuts = AsigCuts(a: nat, b: nat, c: nat, rhs: OperationCuts)

  /** `\s*operand\s*[+\-*\/]\s*operand\s*$` from `i` on. */
  ghost predicate OperationShape(s: string, i: nat, q: OperationCuts) {
    && Spaces(s, i, q.d)
    && OperandSeg(s, q.d, q.e)
    && Spaces(s, q.e, q.f) && q.f < |s| && ArithOpOf(s[q.f]).Some?
    && Spaces(s, q.f + 1, q.g)
    && OperandSeg(s, q.g, q.h)
    && Spaces(s, q.h, |s|)
  }

  /** The whole assignment pattern, anchored at both ends. */
  ghost predicate AsignacionShape(s: string, p: AsigCuts) {
    && Spaces(s, 0, p.a)
    && IdentSeg(s, p.a, p.b)
    && Spaces(s, p.b, p.c) && p.c < |s| && s[p.c] == '='
    && OperationShape(s, p.c + 1, p.rhs)
  }

  /** The cuts are in order and `s[f]` is an operator: enough to take the captures. */
  predicate OperationInRange(s: string, q: OperationCuts) {
    q.d <= q.e <= q.f < q.g <= q.h <= |s| && ArithOpOf(s[q.f]).Some?
  }

  predicate AsignacionInRange(s: string, p: AsigCuts) {
    p.a <= p.b <= |s| && OperationInRange(s, p.rhs)
  }

  function ScanOperation(s: string, i: nat): (r: Option<OperationCuts>)
    requires i <= |s|
    ensures r.Some? ==> OperationInRange(s, r.value)
  {
    var d := Span(s, i, Space);
    match SpanOperand(s, d)
    case None => None
    case Some(e) =>
      var f := Span(s, e, Space);
      if f == |s| || ArithOpOf(s[f]).None? then None
      else
        var g := Span(s, f + 1, Space);
        match SpanOperand(s, g)
        case None => None
        case Some(h) => if Span(s, h, Space) == |s| then Some(OperationCuts(d, e, f, g, h)) else None
  }

  function ScanAsignacion(s: string): (r: Option<AsigCuts>)
    ensures r.Some? ==> AsignacionInRange(s, r.value)
  {
    var a := Span(s, 0, Space);
    if a == |s| || !IsLetter(s[a]) then None
    else
      var b := Span(s, a, Word);
      var c := Span(s, b, Space);
      if c == |s| || s[c] != '=' then None
      else
        match ScanOperation(s, c + 1)
        case None => None
        case Some(q) => Some(AsigCuts(a, b, c, q))
  }

  /** The four groups of an assignment line. */
  datatype AsigParts = AsigParts(dest: string, left: string, op: ArithOp, right: string)

  function AsignacionCaptures(s: string, p: AsigCuts): AsigParts
    requires AsignacionInRange(s, p)
  {
    AsigParts(s[p.a..p.b], s[p.rhs.d..p.rhs.e], ArithOpOf(s[p.rhs.f]).value, s[p.rhs.g..p.rhs.h])
  }

  /** The match of the assignment pattern, with its captures. */
  function MatchAsignacion(s: string): Option<AsigParts> {
    match ScanAsignacion(s)
    case None => None
    case Some(p) => Some(AsignacionCaptures(s, p))
  }

  lemma OperationSound(s: string, i: nat)
    requires i <= |s| && ScanOperation(s, i).Some?
    ensures OperationShape(s, i, ScanOperation(s, i).value)
  {
    var d := Span(s, i, Space);
    SpanIsMaximalRun(s, i, Space);
    SpanOperandIsOperand(s, d);
    var e := SpanOperand(s, d).value;
    var f := Span(s, e, Space);
    SpanIsMaximalRun(s, e, Space);
    var g := Span(s, f + 1, Space);
    SpanIsMaximalRun(s, f + 1, Space);
    SpanOperandIsOperand(s, g);
    var h := SpanOperand(s, g).value;
    SpanIsMaximalRun(s, h, Space);
  }

  /** Every line `_es_asignacion` accepts has the assignment's shape. */
  lemma AsignacionSound(s: string)
    requires ScanAsignacion(s).Some?
    ensures AsignacionShape(s, ScanAsignacion(s).value)
  {
    var a := Span(s, 0, Space);
    var b := Span(s, a, Word);
    var c := Span(s, b, Space);
    SpanIsMaximalRun(s, 0, Space);
    SpanIsMaximalRun(s, a, Word);
    SpanIsMaximalRun(s, b, Space);
    OperationSound(s, c + 1);
  }

  lemma OperationComplete(s: string, i: nat, q: OperationCuts)
    requires i <= |s| && OperationShape(s, i, q)
    ensures ScanOperation(s, i) == Some(q)
  {
    MaximalRunIsSpan(s, i, q.d, Space);
    OperandIsSpanOperand(s, q.d, q.e);
    MaximalRunIsSpan(s, q.e, q.f, Space);
    MaximalRunIsSpan(s, q.f + 1, q.g, Space);
    OperandIsSpanOperand(s, q.g, q.h);
    MaximalRunIsSpan(s, q.h, |s|, Space);
  }

  /** Every line of the assignment's shape is accepted, cut where the shape cuts it. */
  lemma AsignacionComplete(s: string, p: AsigCuts)
    requires AsignacionShape(s, p)
    ensures ScanAsignacion(s) == Some(p)
  {
    MaximalRunIsSpan(s, 0, p.a, Space);
    MaximalRunIsSpan(s, p.a, p.b, Word);
    MaximalRunIsSpan(s, p.b, p.c, Space);
    OperationComplete(s, p.c + 1, p.rhs);
  }

  // ---------------------------------------------------------------------------
  // `^\s*KW1\s+(\w+)\s*(>=|<=|!=|=|>|<)\s*(\w+)\s+KW2\s*$`:
  // `_es_si` (SI ... ENTONCES) and `_es_mientras` (MIENTRAS ... HACER)

  ghost predicate ComparatorSeg(s: string, i: nat, j: nat, cmp: Comparator) {
    i <= j <= |s| && s[i..j] == ComparatorText(cmp)
  }

  /** The alternation `(>=|<=|!=|=|>|<)` at `i`, alternatives tried in this order. */
  function ComparatorAt(s: string, i: nat): (r: Option<(Comparator, nat)>)
    requires i <= |s|
    ensures r.Some? ==> ComparatorSeg(s, i, r.value.1, r.value.0)
  {
    if i + 1 < |s| && s[i] == '>' && s[i + 1] == '=' then Some((Ge, i + 2))
    else if i + 1 < |s| && s[i] == '<' && s[i + 1] == '=' then Some((Le, i + 2))
    else if i + 1 < |s| && s[i] == '!' && s[i + 1] == '=' then Some((Ne, i + 2))
    else if i < |s| && s[i] == '=' then Some((Eq, i + 1))
    else if i < |s| && s[i] == '>' then Some((Gt, i + 1))
    else if i < |s| && s[i] == '<' then Some((Lt, i + 1))
    else None
  }

  /**
   * The comparator the alternation picks is the one written in the line:
   * after `>` or `<` comes whitespace or a word character, never `=`, so
   * trying `>=` first cannot take a longer match than the line has.
   */
  lemma ComparatorAtIs(s: string, i: nat, j: nat, cmp: Comparator)
    requires ComparatorSeg(s, i, j, cmp)
    requires j < |s| && (IsSpace(s[j]) || IsWordChar(s[j]))
    ensures ComparatorAt(s, i) == Some((cmp, j))
  {
    assert s[i] == s[i..j][0];
    if j == i + 2 {
      assert s[i + 1] == s[i..j][1];
    }
  }

  /** `s[b..c]` and `s[f..g]` are the operands of a condition, `s[d..e]` its comparator. */
  datatype ComparisonCuts = ComparisonCuts(c: nat, d: nat, e: nat, f: nat, g: nat, cmp: Comparator)

  /** The condition starts at `lead.b`; `s[h..]` starts with the second keyword. */
  datatype HeaderCuts = HeaderCuts(lead: Lead, cond: ComparisonCuts, h: nat)

  /** `(\w+)\s*(>=|<=|!=|=|>|<)\s*(\w+)` from `b` on. */
  ghost predicate ComparisonShape(s: string, b: nat, q: ComparisonCuts) {
    && WordSeg(s, b, q.c)
    && Spaces(s, q.c, q.d)
    && ComparatorSeg(s, q.d, q.e, q.cmp)
    && Spaces(s, q.e, q.f)
    && WordSeg(s, q.f, q.g)
  }

  /** `\s+KW\s*$` from `g` on, the keyword at `h`. */
  ghost predicate TrailShape(s: string, g: nat, kw: string, h: nat) {
    && g < h && Spaces(s, g, h)
    && KeywordAt(s, h, kw)
    && Spaces(s, h + |kw|, |s|)
  }

  /** The whole header pattern, anchored at both ends. */
  ghost predicate CondHeaderShape(s: string, kw1: string, kw2: string, p: HeaderCuts) {
    && LeadShape(s, kw1, p.lead)
    && ComparisonShape(s, p.lead.b, p.cond)
    && TrailShape(s, p.cond.g, kw2, p.h)
  }

  function ScanComparison(s: string, b: nat): (r: Option<ComparisonCuts>)
    requires b <= |s|
    ensures r.Some? ==> b < r.value.c <= r.value.f < r.value.g <= |s|
  {
    if b == |s| || !IsWordChar(s[b]) then None
    else
      var c := Span(s, b, Word);
      var d := Span(s, c, Space);
      match ComparatorAt(s, d)
      case None => None
      case Some((cmp, e)) =>
        var f := Span(s, e, Space);
        if f == |s| || !IsWordChar(s[f]) then None
        else Some(ComparisonCuts(c, d, e, f, Span(s, f, Word), cmp))
  }

  function ScanTrail(s: string, g: nat, kw: string): (r: Option<nat>)
    requires g <= |s|
  {
    var h := Span(s, g, Space);
    if h == g || !KeywordAt(s, h, kw) || Span(s, h + |kw|, Space) != |s| then None else Some(h)
  }

  function ScanCondHeader(s: string, kw1: string, kw2: string): (r: Option<HeaderCuts>)
    ensures r.Some? ==> r.value.lead.b < r.value.cond.c <= r.value.cond.f < r.value.cond.g <= |s|
  {
    match ScanLead(s, kw1)
    case None => None
    case Some(l) =>
      match ScanComparison(s, l.b)
      case None => None
      case Some(q) =>
        match ScanTrail(s, q.g, kw2)
        case None => None
        case Some(h) => Some(HeaderCuts(l, q, h))
  }

  /** The match of the header pattern, with its captures. */
  function MatchCondHeader(s: string, kw1: string, kw2: string): Option<Cond> {
    match ScanCondHeader(s, kw1, kw2)
    case None => None
    case Some(p) => Some(Cond(s[p.lead.b..p.cond.c], p.cond.cmp, s[p.cond.f..p.cond.g]))
  }

  lemma ComparisonSound(s: string, b: nat)
    requires b <= |s| && ScanComparison(s, b).Some?
    ensures ComparisonShape(s, b, ScanComparison(s, b).value)
  {
    var c := Span(s, b, Word);
    var d := Span(s, c, Space);
    var e := ComparatorAt(s, d).value.1;
    var f := Span(s, e, Space);
    SpanIsMaximalRun(s, b, Word);
    SpanIsMaximalRun(s, c, Space);
    SpanIsMaximalRun(s, e, Space);
    SpanIsMaximalRun(s, f, Word);
  }

  lemma TrailSound(s: string, g: nat, kw: string)
    requires g <= |s| && ScanTrail(s, g, kw).Some?
    ensures TrailShape(s, g, kw, ScanTrail(s, g, kw).value)
  {
    var h := Span(s, g, Space);
    SpanIsMaximalRun(s, g, Space);
    SpanIsMaximalRun(s, h + |kw|, Space);
  }

  /** Every line `_es_si` or `_es_mientras` accepts has the header's shape. */
  lemma CondHeaderSound(s: string, kw1: string, kw2: string)
    requires ScanCondHeader(s, kw1, kw2).Some?
    ensures CondHeaderShape(s, kw1, kw2, ScanCondHeader(s, kw1, kw2).value)
  {
    var l := ScanLead(s, kw1).value;
    var q := ScanComparison(s, l.b).value;
    LeadSound(s, kw1);
    ComparisonSound(s, l.b);
    TrailSound(s, q.g, kw2);
  }

  lemma ComparisonComplete(s: string, b: nat, q: ComparisonCuts)
    requires ComparisonShape(s, b, q) && q.g < |s| && IsSpace(s[q.g])
    ensures ScanComparison(s, b) == Some(q)
  {
    assert s[q.d] == s[q.d..q.e][0];
    MaximalRunIsSpan(s, b, q.c, Word);
    MaximalRunIsSpan(s, q.c, q.d, Space);
    ComparatorAtIs(s, q.d, q.e, q.cmp);
    MaximalRunIsSpan(s, q.e, q.f, Space);
    MaximalRunIsSpan(s, q.f, q.g, Word);
  }

  lemma TrailComplete(s: string, g: nat, kw: string, h: nat)
    requires IsKeyword(kw) && TrailShape(s, g, kw, h)
    ensures ScanTrail(s, g, kw) == Some(h)
  {
    KeywordFirst(s, h, kw);
    MaximalRunIsSpan(s, g, h, Space);
    MaximalRunIsSpan(s, h + |kw|, |s|, Space);
  }

  /** Every line of the header's shape is accepted, cut where the shape cuts it. */
  lemma CondHeaderComplete(s: string, kw1: string, kw2: string, p: HeaderCuts)
    requires IsKeyword(kw1) && IsKeyword(kw2) && CondHeaderShape(s, kw1, kw2, p)
    ensures ScanCondHeader(s, kw1, kw2) == Some(p)
  {
    LeadComplete(s, kw1, p.lead);
    ComparisonComplete(s, p.lead.b, p.cond);
    TrailComplete(s, p.cond.g, kw2, p.h);
  }

  // ---------------------------------------------------------------------------
  // `^\s*SINO\s*$` and `^\s*FIN\s+MIENTRAS\s*$`, both with re.IGNORECASE

  /** The `SINO` line that ends a then-body. */
  predicate IsSinoLine(s: string) {
    var a := Span(s, 0, Space);
    KeywordAt(s, a, "SINO") && Span(s, a + 4, Space) == |s|
  }

  /** The `FIN MIENTRAS` line that closes a loop. */
  predicate IsFinMientrasLine(s: string) {
    match ScanLead(s, "FIN")
    case None => false
    case Some(l) => KeywordAt(s, l.b, "MIENTRAS") && Span(s, l.b + 8, Space) == |s|
  }

  // ---------------------------------------------------------------------------
  // The five statement classes

  /** `_es_leer` */
  predicate IsLeer(line: string) { ScanKeywordIdent(line, "LEER").Some? }

  /** `_es_imprimir` */
  predicate IsImprimir(line: string) { ScanKeywordIdent(line, "IMPRIMIR").Some? }

  /** `_es_asignacion` */
  predicate IsAsignacion(line: string) { ScanAsignacion(line).Some? }

  /** `_es_si` */
  predicate IsSi(line: string) { ScanCondHeader(line, "SI", "ENTONCES").Some? }

  /** `_es_mientras` */
  predicate IsMientras(line: string) { ScanCondHeader(line, "MIENTRAS", "HACER").Some? }

  /** A line of one of the five statement classes. */
  predicate IsStatement(line: string) {
    IsLeer(line) || IsImprimir(line) || IsAsignacion(line) || IsSi(line) || IsMientras(line)
  }

  /**
   * A line that starts with a keyword, whitespace and then a word
   * character is not an assignment: its first word is followed by that
   * word character, not by `=`.
   */
  lemma LeadNotAsignacion(s: string, kw: string)
    requires IsKeyword(kw) && ScanLead(s, kw).Some?
    requires var b := ScanLead(s, kw).value.b; b < |s| && IsWordChar(s[b])
    ensures !IsAsignacion(s)
  {
    var l := ScanLead(s, kw).value;
    LeadSound(s, kw);
    KeywordAllLetters(s, l.a, kw);
    MaximalRunIsSpan(s, l.a, l.a + |kw|, Word);
    MaximalRunIsSpan(s, l.a + |kw|, l.b, Space);
  }

  lemma LeerNotAsignacion(s: string)
    requires IsLeer(s)
    ensures !IsAsignacion(s)
  {
    LeadNotAsignacion(s, "LEER");
  }

  lemma ImprimirNotAsignacion(s: string)
    requires IsImprimir(s)
    ensures !IsAsignacion(s)
  {
    LeadNotAsignacion(s, "IMPRIMIR");
  }

  lemma SiNotAsignacion(s: string)
    requires IsSi(s)
    ensures !IsAsignacion(s)
  {
    LeadNotAsignacion(s, "SI");
  }

  lemma MientrasNotAsignacion(s: string)
    requires IsMientras(s)
    ensures !IsAsignacion(s)
  {
    LeadNotAsignacion(s, "MIENTRAS");
  }

  /** The five classes are pairwise exclusive, so the order they are tried in never decides a line. */
  lemma ClassesExclusive(s: string)
    ensures IsLeer(s) ==> !IsImprimir(s) && !IsAsignacion(s) && !IsSi(s) && !IsMientras(s)
    ensures IsImprimir(s) ==> !IsAsignacion(s) && !IsSi(s) && !IsMientras(s)
    ensures IsAsignacion(s) ==> !IsSi(s) && !IsMientras(s)
    ensures IsSi(s) ==> !IsMientras(s)
  {
    LeadsExclusive(s, "LEER", "IMPRIMIR");
    LeadsExclusive(s, "LEER", "SI");
    LeadsExclusive(s, "LEER", "MIENTRAS");
    LeadsExclusive(s, "IMPRIMIR", "SI");
    LeadsExclusive(s, "IMPRIMIR", "MIENTRAS");
    LeadsExclusive(s, "SI", "MIENTRAS");
    if IsLeer(s) { LeerNotAsignacion(s); }
    if IsImprimir(s) { ImprimirNotAsignacion(s); }
    if IsSi(s) { SiNotAsignacion(s); }
    if IsMientras(s) { MientrasNotAsignacion(s); }
  }

  /** A keyword line starts, after its indentation, with the keyword's initial in some case. */
  lemma LeadInitial(s: string, kw: string)
    requires IsKeyword(kw)
    ensures ScanLead(s, kw).Some? ==> UpperChar(s[Span(s, 0, Space)]) == kw[0]
  {
    if ScanLead(s, kw).Some? {
      KeywordFirst(s, Span(s, 0, Space), kw);
    }
  }

  lemma SinoNotSi(s: string)
    requires IsSinoLine(s)
    ensures ScanLead(s, "SI").None?
  {
    var a := Span(s, 0, Space);
    assert UpperChar(s[a + 2]) == "SINO"[2];
    KeywordCharNotSpace(s[a + 2], 'N');
  }

  lemma SinoNotAsignacion(s: string)
    requires IsSinoLine(s)
    ensures !IsAsignacion(s)
  {
    var a := Span(s, 0, Space);
    KeywordAllLetters(s, a, "SINO");
    SpanIsMaximalRun(s, a + 4, Space);
    MaximalRunIsSpan(s, a, a + 4, Word);
  }

  /** A stray `SINO` line is none of the five statements. */
  lemma SinoLineNotStatement(s: string)
    requires IsSinoLine(s)
    ensures !IsStatement(s)
  {
    KeywordFirst(s, Span(s, 0, Space), "SINO");
    LeadInitial(s, "LEER");
    LeadInitial(s, "IMPRIMIR");
    LeadInitial(s, "MIENTRAS");
    SinoNotSi(s);
    SinoNotAsignacion(s);
  }

  /** A stray `FIN MIENTRAS` line is none of the five statements. */
  lemma FinLineNotStatement(s: string)
    requires IsFinMientrasLine(s)
    ensures !IsStatement(s)
  {
    var l := ScanLead(s, "FIN").value;
    KeywordFirst(s, l.b, "MIENTRAS");
    LeadNotAsignacion(s, "FIN");
    LeadInitial(s, "FIN");
    LeadInitial(s, "LEER");
    LeadInitial(s, "IMPRIMIR");
    LeadInitial(s, "SI");
    LeadInitial(s, "MIENTRAS");
  }

  /** `s[a..e]` with whitespace-only text around it strips to exactly `s[a..e]`. */
  lemma StripToSegment(s: string, a: nat, e: nat)
    requires a < e <= |s| && Spaces(s, 0, a) && Spaces(s, e, |s|)
    requires !IsSpace(s[a]) && !IsSpace(s[e - 1])
    ensures Strip(s) == s[a..e]
  {
    assert s == s[..a] + s[a..e] + s[e..];
    assert AllSpace(s[..a]) by {
      forall m | 0 <= m < a ensures IsSpace(s[..a][m]) { assert InClass(s[m], Space); }
    }
    assert AllSpace(s[e..]) by {
      forall m | 0 <= m < |s| - e ensures IsSpace(s[e..][m]) { assert InClass(s[e + m], Space); }
    }
    StripPadded(s[..a], s[a..e], s[e..]);
  }

  lemma KeywordInSegment(s: string, a: nat, e: nat, i: nat, kw: string)
    requires a <= e <= |s| && a + i + |kw| <= e && KeywordAt(s, a + i, kw)
    ensures KeywordAt(s[a..e], i, kw)
  {
    forall k | 0 <= k < |kw| ensures UpperChar(s[a..e][i + k]) == kw[k] {
      assert s[a..e][i + k] == s[a + i + k];
    }
  }

  lemma SpacesInSegment(s: string, a: nat, e: nat, i: nat, j: nat)
    requires a <= e <= |s| && i <= j && a + j <= e && Spaces(s, a + i, a + j)
    ensures Spaces(s[a..e], i, j)
  {
    forall k | i <= k < j ensures InClass(s[a..e][k], Space) {
      assert s[a..e][k] == s[a + k];
    }
  }

  /** A `SINO` line stripped is still a `SINO` line. */
  lemma SinoLineStrips(s: string)
    requires IsSinoLine(s)
    ensures IsSinoLine(Strip(s))
  {
    var a := Span(s, 0, Space);
    SpanIsMaximalRun(s, 0, Space);
    SpanIsMaximalRun(s, a + 4, Space);
    KeywordAllLetters(s, a, "SINO");
    StripToSegment(s, a, a + 4);
    var t := s[a..a + 4];
    assert !InClass(t[0], Space);
    assert Span(t, 0, Space) == 0;
    KeywordInSegment(s, a, a + 4, 0, "SINO");
  }

  /** `FIN`, whitespace and `MIENTRAS` with nothing around them make a `FIN MIENTRAS` line. */
  lemma FinLineOfParts(t: string, b: nat)
    requires KeywordAt(t, 0, "FIN") && 3 < b && Spaces(t, 3, b)
    requires KeywordAt(t, b, "MIENTRAS") && b + 8 == |t|
    ensures IsFinMientrasLine(t)
  {
    KeywordFirst(t, b, "MIENTRAS");
    LeadComplete(t, "FIN", Lead(0, b));
  }

  /** A `FIN MIENTRAS` line stripped is still a `FIN MIENTRAS` line. */
  lemma FinLineStrips(s: string)
    requires IsFinMientrasLine(s)
    ensures IsFinMientrasLine(Strip(s))
  {
    var l := ScanLead(s, "FIN").value;
    var e := l.b + 8;
    LeadSound(s, "FIN");
    SpanIsMaximalRun(s, e, Space);
    KeywordFirst(s, l.a, "FIN");
    KeywordAllLetters(s, l.b, "MIENTRAS");
    StripToSegment(s, l.a, e);
    var t := s[l.a..e];
    var b := l.b - l.a;
    KeywordInSegment(s, l.a, e, 0, "FIN");
    KeywordInSegment(s, l.a, e, b, "MIENTRAS");
    SpacesInSegment(s, l.a, e, 3, b);
    FinLineOfParts(t, b);
  }

  /**
   * The lines that end a body are consumed without producing a statement,
   * and rightly so: stripped, as the statement tests see them, they are
   * none of the five statements.
   */
  lemma DelimiterNotStatement(s: string)
    requires IsSinoLine(s) || IsFinMientrasLine(s)
    ensures !IsStatement(Strip(s))
  {
    if IsSinoLine(s) {
      SinoLineStrips(s);
      SinoLineNotStatement(Strip(s));
    } else {
      FinLineStrips(s);
      FinLineNotStatement(Strip(s));
    }
  }

  // ---------------------------------------------------------------------------
  // The extractors

  /** A token of an assignment: an identifier or a digit string. */
  predicate IsOperandToken(t: string) { IsIdent(t) || AllDigits(t) }

  lemma IdentCapture(s: string, i: nat, j: nat)
    requires IdentSeg(s, i, j)
    ensures IsIdent(s[i..j]) && IsIdent(Upper(s[i..j])) && Upper(Upper(s[i..j])) == Upper(s[i..j])
  {
    assert s[i..j][0] == s[i];
    UpperKeepsClasses(s[i..j]);
    UpperIdempotent(s[i..j]);
  }

  lemma OperandCapture(s: string, i: nat, j: nat)
    requires OperandSeg(s, i, j)
    ensures IsOperandToken(Upper(s[i..j])) && Upper(Upper(s[i..j])) == Upper(s[i..j])
  {
    if IdentSeg(s, i, j) {
      IdentCapture(s, i, j);
    } else {
      UpperKeepsClasses(s[i..j]);
      UpperIdempotent(s[i..j]);
    }
  }

  /** The name a LEER or IMPRIMIR line gives is an identifier, and stays one upper-cased. */
  lemma KeywordIdentCapture(s: string, kw: string)
    requires ScanKeywordIdent(s, kw).Some?
    ensures var t := MatchKeywordIdent(s, kw).value;
      IsIdent(Upper(t)) && Upper(Upper(t)) == Upper(t)
  {
    var p := ScanKeywordIdent(s, kw).value;
    KeywordIdentSound(s, kw);
    IdentCapture(s, p.lead.b, p.c);
  }

  /** The destination of an assignment is an identifier, its operands identifiers or digit strings. */
  lemma AsignacionCapture(s: string)
    requires ScanAsignacion(s).Some?
    ensures var m := MatchAsignacion(s).value;
      && IsIdent(Upper(m.dest)) && IsOperandToken(Upper(m.left)) && IsOperandToken(Upper(m.right))
      && Upper(Upper(m.dest)) == Upper(m.dest) && Upper(Upper(m.left)) == Upper(m.left)
      && Upper(Upper(m.right)) == Upper(m.right)
  {
    var p := ScanAsignacion(s).value;
    AsignacionSound(s);
    IdentCapture(s, p.a, p.b);
    OperandCapture(s, p.rhs.d, p.rhs.e);
    OperandCapture(s, p.rhs.g, p.rhs.h);
  }

  /** Both operands of a condition are non-empty runs of word characters. */
  lemma CondHeaderCapture(s: string, kw1: string, kw2: string)
    requires ScanCondHeader(s, kw1, kw2).Some?
    ensures var m := MatchCondHeader(s, kw1, kw2).value;
      |m.left| > 0 && AllWord(m.left) && |m.right| > 0 && AllWord(m.right)
  {
    CondHeaderSound(s, kw1, kw2);
  }

  /**
   * `_parsear_leer`: the identifier `findall` extracts, upper-cased.  On
   * every line `_es_leer` accepts the search succeeds (the `[0]` never
   * raises) and yields the identifier the validator matched.
   */
  function ParseLeer(line: string): (op: Op)
    requires IsLeer(line)
    ensures op == Leer(Upper(MatchKeywordIdent(line, "LEER").value))
    ensures IsIdent(op.name) && Upper(op.name) == op.name
  {
    FindAgreesWithMatch(line, "LEER", 0);
    KeywordIdentCapture(line, "LEER");
    Leer(Upper(FindKeywordIdent(line, "LEER", 0).value))
  }

  /** `_parsear_imprimir`: as `ParseLeer`, with the keyword IMPRIMIR. */
  function ParseImprimir(line: string): (op: Op)
    requires IsImprimir(line)
    ensures op == Imprimir(Upper(MatchKeywordIdent(line, "IMPRIMIR").value))
    ensures IsIdent(op.name) && Upper(op.name) == op.name
  {
    FindAgreesWithMatch(line, "IMPRIMIR", 0);
    KeywordIdentCapture(line, "IMPRIMIR");
    Imprimir(Upper(FindKeywordIdent(line, "IMPRIMIR", 0).value))
  }

  /** `_parsear_asignacion`: the four captures, names and literals upper-cased, the operator as written. */
  function ParseAsignacion(line: string): (op: Op)
    requires IsAsignacion(line)
    ensures var m := MatchAsignacion(line).value;
      op == Asig(Upper(m.dest), Upper(m.left), m.op, Upper(m.right))
    ensures IsIdent(op.dest) && IsOperandToken(op.left) && IsOperandToken(op.right)
    ensures Upper(op.dest) == op.dest && Upper(op.left) == op.left && Upper(op.right) == op.right
  {
    AsignacionCapture(line);
    var m := MatchAsignacion(line).value;
    Asig(Upper(m.dest), Upper(m.left), m.op, Upper(m.right))
  }

  /** The condition of a header line, its operands upper-cased. */
  function HeaderCond(line: string, kw1: string, kw2: string): (c: Cond)
    requires ScanCondHeader(line, kw1, kw2).Some?
    ensures var m := MatchCondHeader(line, kw1, kw2).value;
      c == Cond(Upper(m.left), m.cmp, Upper(m.right))
    ensures |c.left| > 0 && AllWord(c.left) && Upper(c.left) == c.left
    ensures |c.right| > 0 && AllWord(c.right) && Upper(c.right) == c.right
  {
    CondHeaderCapture(line, kw1, kw2);
    var m := MatchCondHeader(line, kw1, kw2).value;
    UpperKeepsClasses(m.left);
    UpperKeepsClasses(m.right);
    UpperIdempotent(m.left);
    UpperIdempotent(m.right);
    Cond(Upper(m.left), m.cmp, Upper(m.right))
  }

  /** `_parsear_encabezado_si` */
  function ParseSiHeader(line: string): (c: Cond)
    requires IsSi(line)
    ensures var m := MatchCondHeader(line, "SI", "ENTONCES").value;
      c == Cond(Upper(m.left), m.cmp, Upper(m.right))
  {
    HeaderCond(line, "SI", "ENTONCES")
  }

  /** `_parsear_encabezado_mientras` */
  function ParseMientrasHeader(line: string): (c: Cond)
    requires IsMientras(line)
    ensures var m := MatchCondHeader(line, "MIENTRAS", "HACER").value;
      c == Cond(Upper(m.left), m.cmp, Upper(m.right))
  {
    HeaderCond(line, "MIENTRAS", "HACER")
  }
}
