# TranspiladorLMC, modelled in Dafny

TranspiladorLMC translates a small Spanish pseudocode into assembly for the
Little Man Computer (LMC). The pseudocode has these statements:

- `LEER x` reads a value;
- `IMPRIMIR x` prints a value;
- `d = a op b` assigns, where `op` is one of `+ - * /`;
- `SI a cmp b ENTONCES … [SINO …]` is a conditional;
- `MIENTRAS a cmp b HACER … FIN MIENTRAS` is a loop.

The translator works in two stages.

1. **The parser** (`parser.py`) classifies each stripped line with regular
   expressions and builds a statement tree. Bodies are collected by inner
   loops. A nested `MIENTRAS` is found by a depth-counting scan and parsed
   recursively. A nested `SI` is parsed recursively from its header to the
   end of the program.
2. **The generator** (`generator.py`) works in four steps:
   - it collects the variables and integer constants;
   - it lowers each statement to LMC lines, keeping a label counter, a
     queue of pending `FINSI` labels and a set of temporaries as
     attributes of `_gen_op`;
   - it appends `HLT`;
   - it emits the data section: one `DAT` per variable in name order, then
     one `CTEv DAT v` per constant in value order.

The project is split by concern:

- `text.dfy`: the character classes, `str.upper`, `str.strip`, `int`/`str`
  on numerals, and the string order.
- `sorting.dfy`: Python's `sorted` on a set.
- `ast.dfy`: the statement tree.
- `classifier.dfy`: the `_es_*` and `_parsear_*` functions.
- `parser.dfy`: `analizar_pseudocodigo`.
- `parser_properties.dfy`: what the parser guarantees.
- `symbols.dfy`: `_recolectar_simbolos`.
- `generator.dfy`: the lowering.
- `generator_properties.dfy`: what the generated code guarantees.

The regular expressions are modelled as deterministic scanners over maximal
runs. Each pattern has a declarative shape, and two lemmas prove that its
scanner accepts exactly the lines of that shape with exactly those captures.

The loops of the source are methods, each proved to compute a specification
function. The generator's attributes are the fields of the class
`Lmc.Generator`. Their pure counterparts are `GenState` and the functions
`OpCode`, `SiCode` and `BodyCode`.

The central proved facts are:

- The parser loses, duplicates and reorders no read, print or assignment
  line (`ParserProperties.ParsePreservesStatements`).
- The collected symbols are exactly the program's tokens: names
  upper-cased, numerals by value (`Symbols.Symbols`). They cover every
  lookup the lowering makes (`Symbols.CollectedCoversProgram`).
- The output's data section declares every cell a program token names
  (`LmcProperties.ConstCellDeclared`, `LmcProperties.VarCellDeclared`), and
  a program that multiplies also declares `TMPMUL`, `CTE0` and `CTE1`, the
  cells the multiplication loop adds (`LmcProperties.MulCellsDeclared`).
- `FINSI` labels move through a first-in first-out queue
  (`LmcProperties.BodyCodeFifo`).
- The branch header of each comparator routes to the right body on an
  idealized accumulator (`LmcProperties.HeaderRoutes`).
- The result of `generar_lmc` depends on its argument alone
  (`Lmc.Generator.GenerarLmc`).

The source's quirks are modelled as written, and lemmas exhibit them:

- `MIENTRAS` generates no code and contributes no symbols.
- A nested `SI` swallows the rest of the program
  (`ParserProperties.NestedSiTakesRest`).
- An else-body stops at its first blank line
  (`ParserProperties.ElseEndsAtBlank`).
- A nested `SI` at the head of a then-body reuses its parent's label index
  (`LmcProperties.NestedSiReusesIndex`).
- A trailing `SI` leaves its own `FINSI` label pending, so that label is
  never attached to a line (`LmcProperties.TrailingSiLeavesLabel`).

## Model

| member | source | states |
|---|---|---|
| Text.StripSplit | TranspiladorLMC/src/parser.py:63 | `str.strip()` leaves the line as whitespace, the stripped text, whitespace; the stripped text neither starts nor ends with whitespace |
| Text.StripPadded | TranspiladorLMC/src/parser.py:84 | stripping a non-blank-ended middle surrounded by whitespace gives back exactly that middle |
| Text.StripEmptyIffBlank | TranspiladorLMC/src/parser.py:64 | a line strips to nothing exactly when it is all whitespace, which is when `if not linea` skips it |
| Text.UpperIdempotent | TranspiladorLMC/src/parser.py:15 | upper-casing a captured name twice changes nothing |
| Text.UpperKeepsClasses | TranspiladorLMC/src/parser.py:15 | `upper()` keeps a word a word, an identifier an identifier, and leaves a digit string unchanged |
| Text.DigitsValueOfNatToString | TranspiladorLMC/src/generator.py:15-17 | `int(str(n)) == n` for every natural `n` |
| Text.NatToStringInjective | TranspiladorLMC/src/generator.py:17 | distinct values get distinct numerals, in both directions |
| Text.LexLessIrreflexive | TranspiladorLMC/src/generator.py:305 | no string sorts before itself |
| Text.LexLessTransitive | TranspiladorLMC/src/generator.py:305 | the string order is transitive |
| Text.LexLessTotal | TranspiladorLMC/src/generator.py:305 | any two distinct strings are ordered one way or the other |
| Sorting.LeastExists | TranspiladorLMC/src/generator.py:305 | a non-empty set under a strict total order has a least element |
| Sorting.EnumerationExists | TranspiladorLMC/src/generator.py:305-308 | every finite set under a strict total order has an ascending enumeration |
| Sorting.EnumerationUnique | TranspiladorLMC/src/generator.py:305-308 | two ascending enumerations of one set are equal, so `sorted` is determined by the set |
| Sorting.SortedSeq | TranspiladorLMC/src/generator.py:305-308 | `sorted(s)` lists each element of `s` once, in strictly ascending order, and nothing else |
| Sorting.Sort | TranspiladorLMC/src/generator.py:305-308 | the selection loop returns `sorted(s)`, with one entry per element of the set |
| Sorting.StringOrder | TranspiladorLMC/src/generator.py:305 | the code-point order on strings is a strict total order, so `sorted` on the variable names is well defined |
| Sorting.NatOrder | TranspiladorLMC/src/generator.py:307 | `<` is a strict total order on the constant values |
| Classifier.SpanIsMaximalRun | TranspiladorLMC/src/parser.py:7-8 | a scanned run is in its class and cannot be extended |
| Classifier.MaximalRunIsSpan | TranspiladorLMC/src/parser.py:7-8 | every run that cannot be extended is the scanned one |
| Classifier.LeadSound | TranspiladorLMC/src/parser.py:18-19 | an accepted lead is whitespace, the keyword in any case, and at least one whitespace character |
| Classifier.LeadComplete | TranspiladorLMC/src/parser.py:18-19 | every line with that lead is accepted, with those exact cut points |
| Classifier.LeadsExclusive | TranspiladorLMC/src/parser.py:18-37 | no line starts with two keywords that begin with different letters |
| Classifier.KeywordIdentSound | TranspiladorLMC/src/parser.py:18-19 | a line accepted as `LEER`/`IMPRIMIR` is lead, identifier, whitespace, end of line |
| Classifier.KeywordIdentComplete | TranspiladorLMC/src/parser.py:27-28 | every line of that shape is accepted, capturing exactly that identifier |
| Classifier.FindAgreesWithMatch | TranspiladorLMC/src/parser.py:22-24 | on a line the full match accepts, the first `findall` hit is the full match's identifier, so `[0]` never fails |
| Classifier.ArithOpOf | TranspiladorLMC/src/parser.py:12 | the operator class `[+\-*/]` accepts exactly these four characters, each as its own operator |
| Classifier.SpanOperandIsOperand | TranspiladorLMC/src/parser.py:7-8 | a scanned operand is an identifier or a digit run |
| Classifier.OperandIsSpanOperand | TranspiladorLMC/src/parser.py:7-8 | an operand followed by whitespace, an operator or the end is found by the scanner |
| Classifier.OperationSound | TranspiladorLMC/src/parser.py:7-8 | an accepted right-hand side is operand, operator, operand, separated by optional whitespace, then trailing whitespace |
| Classifier.OperationComplete | TranspiladorLMC/src/parser.py:7-8 | every right-hand side of that shape is accepted with those cut points |
| Classifier.AsignacionSound | TranspiladorLMC/src/parser.py:7-8 | a line accepted by `_es_asignacion` is identifier, `=`, operation, in that exact shape |
| Classifier.AsignacionComplete | TranspiladorLMC/src/parser.py:7-8 | every assignment line of that shape is accepted with those cut points |
| Classifier.ComparatorAt | TranspiladorLMC/src/parser.py:37 | a recognised comparator is one of `>= <= != = > <`, the two-character one preferred |
| Classifier.ComparatorAtIs | TranspiladorLMC/src/parser.py:37 | a comparator followed by whitespace or a word character is recognised as itself, not as its one-character prefix |
| Classifier.ComparisonSound | TranspiladorLMC/src/parser.py:36-37 | an accepted comparison is word, comparator, word, with optional whitespace between |
| Classifier.ComparisonComplete | TranspiladorLMC/src/parser.py:36-37 | every comparison of that shape that is followed by whitespace is accepted with those cut points |
| Classifier.TrailSound | TranspiladorLMC/src/parser.py:36-37 | an accepted trail is whitespace, the closing keyword, whitespace, end of line |
| Classifier.TrailComplete | TranspiladorLMC/src/parser.py:47-48 | every trail of that shape is accepted |
| Classifier.CondHeaderSound | TranspiladorLMC/src/parser.py:36-37 | a line accepted by `_es_si`/`_es_mientras` has exactly the header shape |
| Classifier.CondHeaderComplete | TranspiladorLMC/src/parser.py:47-48 | every header of that shape is accepted with those cut points |
| Classifier.LeerNotAsignacion | TranspiladorLMC/src/parser.py:67-78 | a `LEER` line is never an assignment |
| Classifier.ImprimirNotAsignacion | TranspiladorLMC/src/parser.py:71-78 | an `IMPRIMIR` line is never an assignment |
| Classifier.SiNotAsignacion | TranspiladorLMC/src/parser.py:75-79 | an `SI` header is never an assignment |
| Classifier.MientrasNotAsignacion | TranspiladorLMC/src/parser.py:75-159 | a `MIENTRAS` header is never an assignment |
| Classifier.ClassesExclusive | TranspiladorLMC/src/parser.py:67-79 | the five line classes are pairwise disjoint |
| Classifier.SinoNotSi | TranspiladorLMC/src/parser.py:83 | a `SINO` line does not start with the `SI` lead |
| Classifier.SinoLineNotStatement | TranspiladorLMC/src/parser.py:119 | a `SINO` line is of no statement class |
| Classifier.FinLineNotStatement | TranspiladorLMC/src/parser.py:163 | a `FIN MIENTRAS` line is of no statement class |
| Classifier.SinoLineStrips | TranspiladorLMC/src/parser.py:83 | a raw `SINO` line is still a `SINO` line once stripped |
| Classifier.FinLineStrips | TranspiladorLMC/src/parser.py:103 | a raw `FIN MIENTRAS` line is still one once stripped, so the depth scan sees what the body loop sees |
| Classifier.DelimiterNotStatement | TranspiladorLMC/src/parser.py:83-163 | a `SINO` or `FIN MIENTRAS` line, stripped, yields no statement |
| Classifier.KeywordIdentCapture | TranspiladorLMC/src/parser.py:22-24 | the captured name is an identifier, and upper-casing it is idempotent |
| Classifier.AsignacionCapture | TranspiladorLMC/src/parser.py:11-15 | the captures are an identifier and two operands, and upper-casing them is idempotent |
| Classifier.CondHeaderCapture | TranspiladorLMC/src/parser.py:40-44 | the captured operands are non-empty words |
| Classifier.ParseLeer | TranspiladorLMC/src/parser.py:22-24 | the statement reads the captured identifier, upper-cased, which is an upper-case identifier |
| Classifier.ParseImprimir | TranspiladorLMC/src/parser.py:31-33 | the statement prints the captured identifier, upper-cased |
| Classifier.ParseAsignacion | TranspiladorLMC/src/parser.py:11-15 | the statement is built from the four captures, with the target and operands upper-cased and the operator kept |
| Classifier.HeaderCond | TranspiladorLMC/src/parser.py:40-55 | the condition is the three captures, with the operands upper-cased non-empty words |
| Classifier.ParseSiHeader | TranspiladorLMC/src/parser.py:40-44 | the `SI` condition is the header's captures, upper-cased |
| Classifier.ParseMientrasHeader | TranspiladorLMC/src/parser.py:51-55 | the `MIENTRAS` condition is the header's captures, upper-cased |
| Parser.Infos | TranspiladorLMC/src/parser.py:61-63 | one classification per line |
| Parser.InfoAt | TranspiladorLMC/src/parser.py:63 | the classification of line `k` is that line's own |
| Parser.InfoFields | TranspiladorLMC/src/parser.py:63-103 | each recorded flag is the regex test the loops run: the class of the stripped line, `SINO`/`FIN MIENTRAS` on the raw line, the depth tests on the stripped line |
| Parser.InfosSlice | TranspiladorLMC/src/parser.py:106 | classifying a slice is slicing the classification, so a recursive call on `lineas[i:j]` sees the same lines |
| Parser.MatchEnd | TranspiladorLMC/src/parser.py:97-105 | the scan ends between its start and the end of the list |
| Parser.SiAt | TranspiladorLMC/src/parser.py:79-158 | the loop resumes strictly after the `SI` header and within the list |
| Parser.MientrasAt | TranspiladorLMC/src/parser.py:159-200 | the loop resumes strictly after the `MIENTRAS` header and within the list |
| Parser.ThenBody | TranspiladorLMC/src/parser.py:83-117 | a then-body stops at a `SINO` line or at the end of the list |
| Parser.ElseBody | TranspiladorLMC/src/parser.py:118-156 | an else-body stops at a blank or unrecognised line, or at the end of the list |
| Parser.LoopBody | TranspiladorLMC/src/parser.py:163-195 | a loop body stops at a `FIN MIENTRAS` line or at the end of the list |
| Parser.Analizar | TranspiladorLMC/src/parser.py:58-202 | the top-level loop returns the statement tree `Parse(lines)` |
| Parser.ParseSi | TranspiladorLMC/src/parser.py:79-158 | the `SI` branch builds the `SI` of `SiAt` and resumes where it says |
| Parser.ParseSino | TranspiladorLMC/src/parser.py:118-156 | after a `SINO` line, the else-body; with no `SINO` line, an empty else-body and no line consumed |
| Parser.ParseMientras | TranspiladorLMC/src/parser.py:159-200 | the `MIENTRAS` branch builds the loop of `MientrasAt`, skipping its `FIN MIENTRAS` |
| Parser.ScanLoopEnd | TranspiladorLMC/src/parser.py:97-105 | the depth-counting loop stops where `MatchEnd` does |
| Parser.ParseNested | TranspiladorLMC/src/parser.py:106-111 | the recursive call on a slice parses that slice's classification |
| Parser.ParseThenBody | TranspiladorLMC/src/parser.py:83-117 | the then-loop computes `ThenBody` |
| Parser.ParseElseBody | TranspiladorLMC/src/parser.py:121-156 | the else-loop computes `ElseBody` |
| Parser.ParseLoopBody | TranspiladorLMC/src/parser.py:163-195 | the loop-body loop computes `LoopBody` |
| ParserProperties.ClassifyExact | TranspiladorLMC/src/parser.py:64-79 | each class of line gets its own outcome, in both directions, whatever order the loops test the classes in |
| ParserProperties.LineCoherent | TranspiladorLMC/src/parser.py:83-163 | a simple line holds a read, print or assignment, and a `SINO` or `FIN MIENTRAS` line is never simple |
| ParserProperties.InfosDelimitersSilent | TranspiladorLMC/src/parser.py:83-163 | this holds for every line of a program |
| ParserProperties.StmtsSplit | TranspiladorLMC/src/parser.py:62 | the statements of adjacent line ranges concatenate |
| ParserProperties.FlattenAppend | TranspiladorLMC/src/parser.py:107 | flattening distributes over concatenation, as `extend` needs |
| ParserProperties.BlocksFlat | TranspiladorLMC/src/parser.py:58-202 | the tree of any classified list flattens to the statements of its lines |
| ParserProperties.SiAtFlat | TranspiladorLMC/src/parser.py:79-158 | an `SI` flattens to the statements of the lines it consumed |
| ParserProperties.SiFromParts | TranspiladorLMC/src/parser.py:157 | an `SI` built from a then-body and an else-body flattens to the statements of both ranges; the header and `SINO` lines add none |
| ParserProperties.SiElseFlat | TranspiladorLMC/src/parser.py:118-157 | when the then-body stops at a `SINO` line, the else-body that follows completes the `SI`, and together they hold the statements from the header to the end of the else-body |
| ParserProperties.SiNoElseFromParts | TranspiladorLMC/src/parser.py:79-117 | an `SI` with no `SINO` flattens to its then-body's statements; the header adds none |
| ParserProperties.MientrasFromParts | TranspiladorLMC/src/parser.py:159-200 | a `MIENTRAS` flattens to its body's statements; the header and the closing `FIN MIENTRAS` add none |
| ParserProperties.MientrasAtFlat | TranspiladorLMC/src/parser.py:159-200 | a `MIENTRAS` flattens to the statements of the lines it consumed |
| ParserProperties.NestedFlat | TranspiladorLMC/src/parser.py:106-111 | a recursive call on `lineas[i:j]` yields the statements of those lines |
| ParserProperties.ThenFlat | TranspiladorLMC/src/parser.py:83-117 | a then-body flattens to the statements of its lines |
| ParserProperties.ElseFlat | TranspiladorLMC/src/parser.py:118-156 | an else-body flattens to the statements of its lines |
| ParserProperties.LoopFlat | TranspiladorLMC/src/parser.py:163-195 | a loop body flattens to the statements of its lines |
| ParserProperties.InfosStmts | TranspiladorLMC/src/parser.py:62-78 | the statements of the classified lines are the read, print and assignment lines of the raw program |
| ParserProperties.ParsePreservesStatements | TranspiladorLMC/src/parser.py:58-202 | flattening the parsed tree gives every read, print and assignment line of the program, once each, in source order |
| ParserProperties.StraightLineProgram | TranspiladorLMC/src/parser.py:62-78 | a program with no `SI` or `MIENTRAS` header parses to its statement lines in order |
| ParserProperties.DepthAfterLast | TranspiladorLMC/src/parser.py:99-105 | the depth after one more line is the depth before it plus that line's change |
| ParserProperties.MatchEndIsFirstBalance | TranspiladorLMC/src/parser.py:97-105 | the depth scan stops one past the first line that balances the depth, or at the end of the list |
| ParserProperties.NestedLoopEndsAtItsFin | TranspiladorLMC/src/parser.py:97-108 | the slice of a nested `MIENTRAS` ends with the `FIN MIENTRAS` that balances it, unless it runs to the end |
| ParserProperties.ThenRunToNestedSi | TranspiladorLMC/src/parser.py:110-114 | a then-body with a nested `SI` collects the statements before it, then the parse of everything from it to the end |
| ParserProperties.NestedSiTakesRest | TranspiladorLMC/src/parser.py:110-114 | an `SI` whose then-body holds a nested `SI` is the last top-level statement, with no else-body |
| ParserProperties.ElseSimpleRun | TranspiladorLMC/src/parser.py:121-136 | an else-body of simple lines ends at the first blank line, without consuming it |
| ParserProperties.ElseEndsAtBlank | TranspiladorLMC/src/parser.py:123-124 | the statements after the else-body's first blank line follow the `SI` at top level instead of belonging to it |
| Symbols.AddToken | TranspiladorLMC/src/generator.py:12-19 | a numeral adds its value as a constant with its own `CTE` label, unless present; any other token adds its upper-cased name |
| Symbols.SetDefaults | TranspiladorLMC/src/generator.py:41-42 | `setdefault` for each inner entry: the union of keys, where entries already present win |
| Symbols.AddMulSymbols | TranspiladorLMC/src/generator.py:29-35 | a multiplication adds `TMPMUL` and the constants 0 and 1 |
| Symbols.CollectSymbols | TranspiladorLMC/src/generator.py:8-47 | the loop returns `Vars(ops)` and a dictionary keyed by `Consts(ops)`, each value under its own label |
| Symbols.CollectOp | TranspiladorLMC/src/generator.py:21-46 | one turn adds exactly that operation's symbols, and a `MIENTRAS` adds nothing |
| Symbols.CollectAsig | TranspiladorLMC/src/generator.py:25-35 | an assignment adds its three tokens' symbols, plus the multiplication's symbols for `*` |
| Symbols.AddTokens | TranspiladorLMC/src/generator.py:26-28 | the symbols of the target and both operands are added |
| Symbols.CollectSi | TranspiladorLMC/src/generator.py:36-46 | an `SI` adds its operands' symbols and those of both bodies |
| Symbols.VarsConstsAppend | TranspiladorLMC/src/generator.py:21 | the symbols of a concatenation are the union of the parts' symbols |
| Symbols.OpSymbols | TranspiladorLMC/src/generator.py:21-46 | one operation's symbols are the names and values of the tokens it looks up, plus `TMPMUL`, 0 and 1 if it multiplies |
| Symbols.Symbols | TranspiladorLMC/src/generator.py:8-47 | the collected variables are every non-numeric token, upper-cased; the constants are the value of every numeric token; plus `TMPMUL`, 0 and 1 exactly when a multiplication is lowered |
| Symbols.CollectedCoversProgram | TranspiladorLMC/src/generator.py:50-53 | every numeral the generator looks up has a constant, so `_etiqueta_mem` never raises `KeyError` on the program's own tokens |
| Symbols.DistinctCells | TranspiladorLMC/src/generator.py:17 | distinct constants get distinct cells, in both directions |
| Lmc.LabelFirst | TranspiladorLMC/src/generator.py:287-291 | labelling the first line keeps the number of lines |
| Lmc.EtiquetaMem | TranspiladorLMC/src/generator.py:50-53 | a numeral names its constant's `CTE` cell; any other token names the variable the collection added for it |
| Lmc.Adjuntar | TranspiladorLMC/src/generator.py:287-291 | the oldest pending label is removed and put on the first line exactly when there are both a label and a line; nothing else changes |
| Lmc.WithZeroOne | TranspiladorLMC/src/generator.py:74-78 | 0 and 1 are added with their own labels, and existing entries are kept |
| Lmc.OpCode | TranspiladorLMC/src/generator.py:259-280 | lowering never removes a constant |
| Lmc.SiCode | TranspiladorLMC/src/generator.py:108-256 | lowering an `SI` never removes a constant |
| Lmc.BodyCode | TranspiladorLMC/src/generator.py:121-137 | lowering a body never removes a constant |
| Lmc.CollectedConsts | TranspiladorLMC/src/generator.py:295 | the collected dictionary maps each constant of the program to its own label |
| Lmc.VarDats | TranspiladorLMC/src/generator.py:305-306 | one `DAT` line per variable |
| Lmc.ConstDats | TranspiladorLMC/src/generator.py:307-308 | one `DAT` line per constant |
| Lmc.Generator.constructor | TranspiladorLMC/src/generator.py:282-284 | the attributes start at counter 1, no pending label, no temporary |
| Lmc.Generator.AdjuntarEtiquetaPendiente | TranspiladorLMC/src/generator.py:287-291 | the method updates the lines and the queue as `Adjuntar` specifies |
| Lmc.Generator.GenAsignacion | TranspiladorLMC/src/generator.py:56-66 | `+` and `-` give `LDA`, `ADD`/`SUB`, `STA`; other operators give no lines |
| Lmc.Generator.GenMultiplicacion | TranspiladorLMC/src/generator.py:69-105 | emits the repeated-addition loop labelled with the current counter, adds 0 and 1 to the constants and advances the counter by one |
| Lmc.Generator.GenBody | TranspiladorLMC/src/generator.py:121-137 | the `primero` loop lowers each operation in turn and labels the first non-empty one, as `BodyCode` specifies |
| Lmc.Generator.GenSi | TranspiladorLMC/src/generator.py:108-256 | emits the header, the two bodies in comparator order and `BRA FINSIk`; queues `FINSIk`; returns `k + 1` |
| Lmc.Generator.GenOp | TranspiladorLMC/src/generator.py:259-280 | dispatches on the statement as `OpCode` specifies; `MIENTRAS` gives no lines and no change |
| Lmc.Generator.GenMulOp | TranspiladorLMC/src/generator.py:268-272 | records `TMPMUL`, lowers the multiplication, attaches a pending label |
| Lmc.Generator.GenSiOp | TranspiladorLMC/src/generator.py:276-279 | lowers an `SI` with the current counter, then sets the counter to the returned one |
| Lmc.Generator.GenCodigo | TranspiladorLMC/src/generator.py:299-301 | the top-level loop computes `BodyCode` with no label |
| Lmc.Generator.GenerarLmc | TranspiladorLMC/src/generator.py:294-309 | the text is the joined lines of `LmcLines(ops)`, whatever state earlier calls left behind, and the attributes end as lowering the whole program from the reset state leaves them |
| Lmc.AppendVarDats | TranspiladorLMC/src/generator.py:305-306 | appends one `v DAT` per name, in order |
| Lmc.AppendConstDats | TranspiladorLMC/src/generator.py:307-308 | appends one `etq DAT v` per value, in order |
| LmcProperties.OpCodeSize | TranspiladorLMC/src/generator.py:259-280 | the number of lines one statement lowers to: 2 for a read or print, 3 for `+`/`-`, 0 for `/`, 14 for `*`, the header plus bodies plus 1 for `SI`, 0 for `MIENTRAS` |
| LmcProperties.SiCodeSize | TranspiladorLMC/src/generator.py:108-256 | an `SI` lowers to its header's size, both bodies and one `BRA` |
| LmcProperties.BodyCodeSize | TranspiladorLMC/src/generator.py:300-301 | a body's line count is the sum over its statements, independent of the state |
| LmcProperties.BodyCodeCounter | TranspiladorLMC/src/generator.py:259-280 | the counter advances by one per top-level multiplication and per `SI`, and nothing else |
| LmcProperties.SiCounter | TranspiladorLMC/src/generator.py:276-278 | the counter advances inside an `SI`'s bodies, yet `_gen_op` overwrites it with the `SI`'s own index plus one |
| LmcProperties.WithZeroOneIdempotent | TranspiladorLMC/src/generator.py:75-78 | ensuring 0 and 1 twice is ensuring them once |
| LmcProperties.OpCodeSymbols | TranspiladorLMC/src/generator.py:259-280 | lowering adds 0 and 1 to the constants and `TMPMUL` to the temporaries exactly when it multiplies, and nothing else |
| LmcProperties.SiCodeSymbols | TranspiladorLMC/src/generator.py:108-256 | the same for an `SI` |
| LmcProperties.BodyCodeSymbols | TranspiladorLMC/src/generator.py:300-301 | the same for a body |
| LmcProperties.FinsiLabelIsFinsi | TranspiladorLMC/src/generator.py:114 | `FINSIk` is a `FINSI` label |
| LmcProperties.OpCodeFifo | TranspiladorLMC/src/generator.py:259-291 | the pending labels behave as a first-in first-out queue, and only `FINSI` labels enter it |
| LmcProperties.SiCodeFifo | TranspiladorLMC/src/generator.py:108-256 | the same for an `SI`, which pushes its own `FINSI` last |
| LmcProperties.BodyCodeFifo | TranspiladorLMC/src/generator.py:300-301 | the same for a body |
| LmcProperties.SiQueuesItsLabel | TranspiladorLMC/src/generator.py:138 | after an `SI`, the newest pending label is its own `FINSIk` |
| LmcProperties.TrailingSiLeavesLabel | TranspiladorLMC/src/generator.py:300-309 | when the last statement of a list is an `SI`, the newest pending label at the end is that `SI`'s own `FINSIk`, `k` being the counter after the statements before it, so no line of the list carries it |
| LmcProperties.BodyStateAppend | TranspiladorLMC/src/generator.py:300-301 | the state after one more operation is that operation's state after the list, whatever label the list started with |
| LmcProperties.BodyLabelOnFirstLine | TranspiladorLMC/src/generator.py:121-128 | the `primero` flag puts the label on the first line of the whole body code, and changes nothing else |
| LmcProperties.SiLayout | TranspiladorLMC/src/generator.py:108-279 | an `SI` lowers to its header, then the first body with its label, `BRA FINSIk`, then the second body with its label; `FINSIk` is queued and the counter becomes `k + 1` |
| LmcProperties.OpCodeOfSi | TranspiladorLMC/src/generator.py:276-279 | `_gen_op` on an `SI` is `_gen_si` with the current counter, which is then advanced |
| LmcProperties.SiCodeLayout | TranspiladorLMC/src/generator.py:108-256 | `_gen_si` lays out header, labelled first body, `BRA`, labelled second body |
| LmcProperties.LabelFirstPrefix | TranspiladorLMC/src/generator.py:290 | labelling the first line commutes with taking a prefix |
| LmcProperties.BodyStartsWithFirst | TranspiladorLMC/src/generator.py:122-128 | a body's code starts with its first statement's code |
| LmcProperties.ThenFollowsHeader | TranspiladorLMC/src/generator.py:162-184 | for `=`, `>=`, `<=` and `!=`, the then-body's code follows the header directly, under `ENTONCESk` |
| LmcProperties.NestedSiReusesIndex | TranspiladorLMC/src/generator.py:276-277 | a nested `SI` at the head of a then-body is lowered with its parent's index `k`, so it branches to the parent's own labels |
| LmcProperties.PrefixOfLabelled | TranspiladorLMC/src/generator.py:126 | a prefix of a prefix keeps its first-line label |
| LmcProperties.MulLoopLabels | TranspiladorLMC/src/generator.py:87-105 | the multiplication code is 14 lines; `MULTk` is defined only on line 4, `FINMULTk` only on line 13; line 5 exits to `FINMULTk`, line 12 jumps back to `MULTk` |
| LmcProperties.LoopLabelsAt | TranspiladorLMC/src/generator.py:95-104 | each loop label is defined on its own line only |
| LmcProperties.DefinesOwn | TranspiladorLMC/src/generator.py:95 | a labelled line defines its label |
| LmcProperties.SortedNames | TranspiladorLMC/src/generator.py:305 | the variable names listed once each, in string order |
| LmcProperties.SortedValues | TranspiladorLMC/src/generator.py:307 | the constant values listed once each, in numeric order |
| LmcProperties.CodeKeepsSymbols | TranspiladorLMC/src/generator.py:304 | after lowering, the constants are exactly the collected ones, and the temporaries are already collected variables |
| LmcProperties.DataSection | TranspiladorLMC/src/generator.py:294-309 | the output is the code, `HLT`, the sorted variable names, then each sorted constant as `CTEv DAT v` |
| LmcProperties.InOutput | TranspiladorLMC/src/generator.py:304-308 | every data line is a line of the output |
| LmcProperties.ConstCellDeclared | TranspiladorLMC/src/generator.py:50-52 | the cell of every numeral in the program is its `CTE` constant, declared in the output with its value |
| LmcProperties.VarCellDeclared | TranspiladorLMC/src/generator.py:53 | the cell of every name in the program is a collected variable, declared in the output with `DAT` |
| LmcProperties.VarDeclared | TranspiladorLMC/src/generator.py:304-306 | every collected variable appears in the output as `name DAT` |
| LmcProperties.ConstDeclared | TranspiladorLMC/src/generator.py:307-308 | every collected constant appears in the output as `CTEv DAT v` |
| LmcProperties.MulCellsDeclared | TranspiladorLMC/src/generator.py:89-104 | a program with a multiplication declares `TMPMUL DAT`, `CTE0 DAT 0` and `CTE1 DAT 1`, the cells its loop names besides the operands |
| LmcProperties.HeaderRoutes | TranspiladorLMC/src/generator.py:116-255 | on an idealized accumulator, each comparator's header jumps to `ENTONCESk` exactly when the comparison holds, and otherwise to `SINOk` |
| LmcProperties.RouteLoad | TranspiladorLMC/src/generator.py:117 | `LDA` loads the named operand |
| LmcProperties.RouteSub | TranspiladorLMC/src/generator.py:118 | `SUB` subtracts the named operand |
| LmcProperties.RouteBrz | TranspiladorLMC/src/generator.py:119 | `BRZ` jumps on zero and otherwise falls through |
| LmcProperties.RouteBrp | TranspiladorLMC/src/generator.py:120 | `BRP` jumps on zero or positive and otherwise falls through |
| LmcProperties.RouteBra | TranspiladorLMC/src/generator.py:237 | `BRA` always jumps |

## Left out

- `gui.py`, `main.py` and `utils.py` are not part of this model. They hold file and window I/O around the two core functions.
- Characters beyond ASCII are not modelled. `str.isspace`, `\s`, `\w`, `str.isdigit` and `str.upper` are modelled on ASCII only; on other characters Python's versions accept more.
- Regex backtracking is not modelled. Each pattern is read by greedy maximal runs. A comment in `classifier.dfy` argues that, for these patterns, no other split can match.
- The `assert m` in `_parsear_asignacion` and the header parsers is not modelled. It becomes a precondition that the line matched, which the parser always meets.
- The `findall(...)[0]` of `_parsear_leer`/`_parsear_imprimir` is not modelled as an `IndexError` path. `Classifier.FindAgreesWithMatch` shows that the lookup cannot fail on a line the full match accepts.
- `Parser.Classify` tries the classes in the top-level order, while the body loops try `SI` and `MIENTRAS` in another order. `ParserProperties.ClassifyExact` proves the order makes no difference.
- The body loops are written with explicit `break` guards where the source uses `while … and not …`.
- The run-time meaning of LMC is not modelled. The exception is `LmcProperties.HeaderRoutes`, which runs one header on an unbounded integer accumulator where `BRP` branches on a result of zero or more. A real LMC has a 3-digit accumulator and its own negative flag, so subtraction can wrap.
- Global label uniqueness is not proved, because the source does not have it. A nested `SI` reuses its parent's index, which `LmcProperties.NestedSiReusesIndex` exhibits. A trailing `SI` leaves its own `FINSI` label pending, never attached to a line, which `LmcProperties.TrailingSiLeavesLabel` exhibits. A multiplication inside an `SI` body advances the counter, and the `SI` then overwrites it, so a later label can repeat (`LmcProperties.SiCounter`).
- `MIENTRAS` lowering is not modelled, because `_gen_op` emits nothing for it. Its body's symbols are not collected either.
- `Lmc.EtiquetaMem`: the `KeyError` for a numeral with no constant is a precondition. `Symbols.CollectedCoversProgram` proves that `generar_lmc` always meets it.
- `sorted(constantes.items())` is modelled as a sort of the keys, each paired with its value. `Symbols.LabelsOk` makes each value determined by its key, and keys are distinct.
- The attributes `_gen_op` keeps across calls are the fields of `Lmc.Generator`. `generar_lmc` resets them, so `Lmc.Generator.GenerarLmc` has no precondition on them. A direct call to `_gen_op` outside `generar_lmc` is not modelled.
- The six comparator branches of `_gen_si` are modelled as one table of header lines (`Lmc.SiHeader`), followed by the two body loops in the order each branch uses.
- Integer width is not modelled: the counter and the constant values are unbounded, as Python's `int` is. LMC's range of 0 to 999 for `DAT` values is not checked, because the source does not check it either.
