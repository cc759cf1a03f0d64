/** The failure-compatible optional value used by the matchers. */
module Options {
  datatype Option<+T> = None | Some(value: T)
}

/**
 * The operation tree the parser builds and the generator lowers: one
 * constructor per statement kind of the pseudocode.  Names and literals are
 * kept as the (upper-cased) tokens of the source line.
 */
module Ast {

  /** The operator of an assignment; `_es_asignacion` accepts `+ - * /`. */
  datatype ArithOp = Add | Sub | Mul | Div

  /** The comparator of a condition, listed in the order the header regex tries them. */
  datatype Comparator = Ge | Le | Ne | Eq | Gt | Lt

  datatype Cond = Cond(left: string, cmp: Comparator, right: string)

  datatype Op =
    | Leer(name: string)
    | Imprimir(name: string)
    | Asig(dest: string, left: string, op: ArithOp, right: string)
    | Si(cond: Cond, thenOps: seq<Op>, elseOps: seq<Op>)
    | Mientras(cond: Cond, body: seq<Op>)

  /** A statement with no body: a read, a print or an assignment. */
  predicate IsSimpleOp(op: Op) {
    op.Leer? || op.Imprimir? || op.Asig?
  }

  function ArithOpText(op: ArithOp): string {
    match op
    case Add => "+"
    case Sub => "-"
    case Mul => "*"
    case Div => "/"
  }

  function ComparatorText(c: Comparator): string {
    match c
    case Ge => ">="
    case Le => "<="
    case Ne => "!="
    case Eq => "="
    case Gt => ">"
    case Lt => "<"
  }
}
