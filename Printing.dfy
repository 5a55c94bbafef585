/** Reference definitions the parser is checked against: a conventional
    arithmetic expression language with its evaluator, and printers that turn
    arithmetic expressions, filter formulas and CEPL trees back into token
    sequences, parenthesising every operand so that no precedence or
    associativity question arises. */
module Printing {
  import opened Tokens
  import opened Ast

  /** A token made up by the printer; only its kind and text matter. */
  function Sym(kind: TokenKind, text: string): Token {
    Token(kind, text, 0.0)
  }

  function NumberToken(r: real): Token {
    Token(NumberLit, "", r)
  }

  function Parens(w: seq<Token>): seq<Token> {
    [Sym(LParen, "(")] + w + [Sym(RParen, ")")]
  }

  /** The `n` tokens of `ts` from index `pos` on, built one token at a time.
      It is the slice `ts[pos..pos + n]` (WindowIsSlice); the layout proofs
      unfold it a token at a time, which the solver handles more cheaply than
      reasoning about slices of concatenations. */
  function Window(ts: seq<Token>, pos: nat, n: nat): seq<Token>
    requires pos + n <= |ts|
    decreases n
  {
    if n == 0 then [] else [ts[pos]] + Window(ts, pos + 1, n - 1)
  }

  lemma {:induction false} WindowIsSlice(ts: seq<Token>, pos: nat, n: nat)
    requires pos + n <= |ts|
    ensures Window(ts, pos, n) == ts[pos..pos + n]
    decreases n
  {
    if n > 0 {
      WindowIsSlice(ts, pos + 1, n - 1);
    }
  }

  /** `ts` holds the word `w` starting at index `pos`. */
  predicate Spells(ts: seq<Token>, pos: nat, w: seq<Token>) {
    pos + |w| <= |ts| && Window(ts, pos, |w|) == w
  }

  datatype ArithOp = AddOp | SubOp | MulOp | DivOp

  /** Arithmetic with explicit grouping: the tree, not the token order, says
      what applies to what. */
  datatype Arith = Lit(r: real) | Negate(e: Arith) | Bin(op: ArithOp, left: Arith, right: Arith)

  function Apply(op: ArithOp, a: Num, b: Num): Num {
    match op
    case AddOp => Add(a, b)
    case SubOp => Sub(a, b)
    case MulOp => Mul(a, b)
    case DivOp => Div(a, b)
  }

  /** The conventional meaning of an arithmetic tree. */
  function Eval(e: Arith): Num {
    match e
    case Lit(r) => Finite(r)
    case Negate(x) => Neg(Eval(x))
    case Bin(op, l, r) => Apply(op, Eval(l), Eval(r))
  }

  function OpKind(op: ArithOp): TokenKind {
    match op
    case AddOp => PlusSign
    case SubOp => MinusSign
    case MulOp => MultSign
    case DivOp => DivSign
  }

  function OpToken(op: ArithOp): Token {
    Sym(OpKind(op), "")
  }

  /** Every operand in parentheses: `- ( e )`, `( l ) op ( r )`. */
  function PrintArith(e: Arith): seq<Token> {
    match e
    case Lit(r) => [NumberToken(r)]
    case Negate(x) => [Sym(MinusSign, "-")] + Parens(PrintArith(x))
    case Bin(op, l, r) => Parens(PrintArith(l)) + [OpToken(op)] + Parens(PrintArith(r))
  }

  /** The tokens of a VALUE operand: its number, or `1 / 0` for a non-finite value. */
  function PrintNum(v: Num): seq<Token> {
    match v
    case Finite(r) => [NumberToken(r)]
    case NonFinite => [NumberToken(1.0), Sym(DivSign, "/"), NumberToken(0.0)]
  }

  function PrintVarProp(n: Node): seq<Token>
    requires IsVarProp(n)
  {
    [n.children[0].payload.tok, Sym(DotSign, "."), n.children[1].payload.tok]
  }

  function ConnectiveText(tag: NodeType): string {
    if tag == PredOr then "or" else "and"
  }

  /** `not ( f )`, `( a ) and ( b )`, `( a ) or ( b )`, and predicates in
      their own operand order. */
  function PrintFormula(f: Node): seq<Token>
    requires WfFormula(f)
    decreases f
  {
    if f.tag == PredNot then
      [Sym(NotKw, "not")] + Parens(PrintFormula(f.children[0]))
    else if f.tag == Predicate then
      if IsVarProp(f.children[0]) then
        PrintVarProp(f.children[0]) + [f.children[1].payload.tok] + PrintNum(f.children[2].payload.num)
      else
        PrintNum(f.children[0].payload.num) + [f.children[1].payload.tok] + PrintVarProp(f.children[2])
    else
      Parens(PrintFormula(f.children[0])) + [Sym(FiltConnective, ConnectiveText(f.tag))]
      + Parens(PrintFormula(f.children[1]))
  }

  /** `r as x`, `( e ) +`, `( e ) filter f`, `( a ) : ( b )`, `( a ) | ( b )`. */
  function PrintCepl(n: Node): seq<Token>
    requires WfCepl(n)
    decreases n
  {
    if n.tag == Assign then
      [n.children[0].payload.tok, Sym(AsKw, "as"), n.children[1].payload.tok]
    else if n.tag == Kleene then
      Parens(PrintCepl(n.children[0])) + [Sym(PlusSign, "+")]
    else if n.tag == Filter then
      Parens(PrintCepl(n.children[0])) + [Sym(FilterKw, "filter")] + PrintFormula(n.children[1])
    else if n.tag == Seq then
      Parens(PrintCepl(n.children[0])) + [Sym(ColonSign, ":")] + Parens(PrintCepl(n.children[1]))
    else
      Parens(PrintCepl(n.children[0])) + [Sym(BarSign, "|")] + Parens(PrintCepl(n.children[1]))
  }
}
