/** The evaluating arithmetic sub-grammar (parseExpression through parseValue).
    It builds no tree: it folds the numbers while parsing and packages the
    result as one VALUE leaf. Both chains are right-recursive, so `-` and `/`
    associate to the right: `10 - 2 - 3` is `10 - (2 - 3)`.

    Each production is a function of the token sequence and the cursor
    position; it returns the value and the new position, or the index of the
    token that was unexpected. */
module Arithmetic {
  import opened Tokens
  import opened Ast

  /** parseExpression: a signed term, then an optional `+`/`-` chain folded
      into it. The operator is the lookahead before the chain is parsed. */
  function Expression(ts: seq<Token>, pos: nat): (r: Parsed<Node>)
    requires At(ts, pos)
    ensures Advances(ts, pos, r)
    ensures r.Parsed? ==> IsValue(r.value)
    decreases |ts| - pos, 4
  {
    match SignedTerm(ts, pos)
    case Unexpected(at) => Unexpected(at)
    case Parsed(a, p) =>
      var op := ts[p].kind;
      match SumOp(ts, p)
      case Unexpected(at) => Unexpected(at)
      case Parsed(b, q) =>
        var v := if op == PlusSign then Add(a, b) else if op == MinusSign then Sub(a, b) else a;
        Parsed(ValueLeaf(v), q)
  }

  /** parseSumOp: if the lookahead is `+` or `-`, consume it and return the
      value of the rest of the chain; otherwise consume nothing and return 0. */
  function SumOp(ts: seq<Token>, pos: nat): (r: Parsed<Num>)
    requires At(ts, pos)
    ensures Stays(ts, pos, r)
    ensures (ts[pos].kind != PlusSign && ts[pos].kind != MinusSign) ==> r == Parsed(Finite(0.0), pos)
    decreases |ts| - pos, 4
  {
    if ts[pos].kind == PlusSign || ts[pos].kind == MinusSign then
      match SignedTerm(ts, Next(ts, pos))
      case Unexpected(at) => Unexpected(at)
      case Parsed(a, p) =>
        var op := ts[p].kind;
        match SumOp(ts, p)
        case Unexpected(at) => Unexpected(at)
        case Parsed(b, q) =>
          Parsed(if op == PlusSign then Add(a, b) else if op == MinusSign then Sub(a, b) else a, q)
    else
      Parsed(Finite(0.0), pos)
  }

  /** parseSignedTerm: a leading `-` negates the whole term. */
  function SignedTerm(ts: seq<Token>, pos: nat): (r: Parsed<Num>)
    requires At(ts, pos)
    ensures Advances(ts, pos, r)
    ensures ts[pos].kind == MinusSign && Term(ts, pos + 1).Parsed? ==>
      r == Parsed(Neg(Term(ts, pos + 1).value), Term(ts, pos + 1).pos)
    ensures ts[pos].kind != MinusSign ==> r == Term(ts, pos)
    decreases |ts| - pos, 3
  {
    if ts[pos].kind == MinusSign then
      match Term(ts, Next(ts, pos))
      case Unexpected(at) => Unexpected(at)
      case Parsed(a, p) => Parsed(Neg(a), p)
    else
      Term(ts, pos)
  }

  /** parseTerm: a factor, then an optional `*`/`/` chain folded into it. */
  function Term(ts: seq<Token>, pos: nat): (r: Parsed<Num>)
    requires At(ts, pos)
    ensures Advances(ts, pos, r)
    decreases |ts| - pos, 2
  {
    match Factor(ts, pos)
    case Unexpected(at) => Unexpected(at)
    case Parsed(a, p) =>
      var op := ts[p].kind;
      match TermOp(ts, p)
      case Unexpected(at) => Unexpected(at)
      case Parsed(b, q) =>
        Parsed(if op == MultSign then Mul(a, b) else if op == DivSign then Div(a, b) else a, q)
  }

  /** parseTermOp: if the lookahead is `*` or `/`, consume it and return the
      value of the rest of the chain; otherwise consume nothing and return 0. */
  function TermOp(ts: seq<Token>, pos: nat): (r: Parsed<Num>)
    requires At(ts, pos)
    ensures Stays(ts, pos, r)
    ensures (ts[pos].kind != MultSign && ts[pos].kind != DivSign) ==> r == Parsed(Finite(0.0), pos)
    decreases |ts| - pos, 2
  {
    if ts[pos].kind == MultSign || ts[pos].kind == DivSign then
      match SignedFactor(ts, Next(ts, pos))
      case Unexpected(at) => Unexpected(at)
      case Parsed(a, p) =>
        var op := ts[p].kind;
        match TermOp(ts, p)
        case Unexpected(at) => Unexpected(at)
        case Parsed(b, q) =>
          Parsed(if op == MultSign then Mul(a, b) else if op == DivSign then Div(a, b) else a, q)
    else
      Parsed(Finite(0.0), pos)
  }

  /** parseSignedFactor: a leading `-` negates the factor. */
  function SignedFactor(ts: seq<Token>, pos: nat): (r: Parsed<Num>)
    requires At(ts, pos)
    ensures Advances(ts, pos, r)
    ensures ts[pos].kind == MinusSign && Factor(ts, pos + 1).Parsed? ==>
      r == Parsed(Neg(Factor(ts, pos + 1).value), Factor(ts, pos + 1).pos)
    ensures ts[pos].kind != MinusSign ==> r == Factor(ts, pos)
    decreases |ts| - pos, 1
  {
    if ts[pos].kind == MinusSign then
      match Factor(ts, Next(ts, pos))
      case Unexpected(at) => Unexpected(at)
      case Parsed(a, p) => Parsed(Neg(a), p)
    else
      Factor(ts, pos)
  }

  /** parseFactor: a parenthesised expression (its VALUE leaf's number) or a number. */
  function Factor(ts: seq<Token>, pos: nat): (r: Parsed<Num>)
    requires At(ts, pos)
    ensures Advances(ts, pos, r)
    decreases |ts| - pos, 0
  {
    if ts[pos].kind == LParen then
      match Expression(ts, Next(ts, pos))
      case Unexpected(at) => Unexpected(at)
      case Parsed(n, p) =>
        if ts[p].kind != RParen then Unexpected(p)
        else Parsed(n.payload.num, Next(ts, p))
    else
      NumberValue(ts, pos)
  }

  /** parseValue: a NUMBER token, or an error at the lookahead. */
  function NumberValue(ts: seq<Token>, pos: nat): (r: Parsed<Num>)
    requires At(ts, pos)
    ensures Advances(ts, pos, r)
    ensures r.Parsed? <==> ts[pos].kind == NumberLit
    ensures ts[pos].kind != NumberLit ==> r == Unexpected(pos)
    ensures r.Parsed? ==> r.value == Finite(ts[pos].number) && r.pos == pos + 1
  {
    if ts[pos].kind != NumberLit then Unexpected(pos)
    else Parsed(Finite(ts[pos].number), Next(ts, pos))
  }

  /** `( e` with anything but `)` after the expression is an error at that token. */
  lemma {:induction false} UnclosedFactor(ts: seq<Token>, pos: nat, n: Node, p: nat)
    requires At(ts, pos) && ts[pos].kind == LParen && Expression(ts, pos + 1) == Parsed(n, p)
    requires ts[p].kind != RParen
    ensures Factor(ts, pos) == Unexpected(p)
  {
  }

  /** A lookahead that can start no operand (not a NUMBER, `(` or `-`) is an
      error right there: the expression is missing. */
  lemma {:induction false} MissingExpression(ts: seq<Token>, pos: nat)
    requires At(ts, pos) && ts[pos].kind != NumberLit && ts[pos].kind != LParen && ts[pos].kind != MinusSign
    ensures Expression(ts, pos) == Unexpected(pos)
  {
    assert Factor(ts, pos) == Unexpected(pos);
    assert Term(ts, pos) == Unexpected(pos);
  }
}
