/** The parser is a left inverse of the printers: parsing the tokens of a
    fully parenthesised expression, formula or CEPL tree gives back its value
    or the tree itself, and consumes exactly its tokens. */
module RoundTrip {
  import opened Tokens
  import opened Ast
  import opened Arithmetic
  import opened Formulas
  import opened CeplGrammar
  import opened Printing

  /** A lookahead that ends an arithmetic chain. */
  predicate ArithStop(k: TokenKind) {
    k != PlusSign && k != MinusSign && k != MultSign && k != DivSign
  }

  lemma {:induction false} SpellsSplit(ts: seq<Token>, pos: nat, a: seq<Token>, b: seq<Token>)
    requires Spells(ts, pos, a + b)
    ensures Spells(ts, pos, a) && Spells(ts, pos + |a|, b)
  {
    WindowIsSlice(ts, pos, |a + b|);
    WindowIsSlice(ts, pos, |a|);
    WindowIsSlice(ts, pos + |a|, |b|);
    assert ts[pos..pos + |a|] == (a + b)[..|a|];
    assert ts[pos + |a|..pos + |a| + |b|] == (a + b)[|a|..];
  }

  lemma {:induction false} SpellsToken(ts: seq<Token>, pos: nat, t: Token)
    requires Spells(ts, pos, [t])
    ensures pos < |ts| && ts[pos] == t
  {
    WindowIsSlice(ts, pos, 1);
    assert ts[pos..pos + 1][0] == ts[pos];
  }

  lemma {:induction false} SpellsParens(ts: seq<Token>, pos: nat, w: seq<Token>)
    requires Spells(ts, pos, Parens(w))
    ensures pos + |w| + 1 < |ts|
    ensures ts[pos].kind == LParen && Spells(ts, pos + 1, w) && ts[pos + 1 + |w|].kind == RParen
  {
    SpellsSplit(ts, pos, [Sym(LParen, "(")] + w, [Sym(RParen, ")")]);
    SpellsSplit(ts, pos, [Sym(LParen, "(")], w);
    SpellsToken(ts, pos, Sym(LParen, "("));
    SpellsToken(ts, pos + 1 + |w|, Sym(RParen, ")"));
  }

  /** `( l ) op ( r )`: where the operator and the right operand sit. */
  lemma {:induction false} SpellsInfix(ts: seq<Token>, pos: nat, l: seq<Token>, t: Token, r: seq<Token>)
    requires Spells(ts, pos, Parens(l) + [t] + Parens(r))
    ensures Spells(ts, pos, Parens(l)) && pos + |Parens(l)| < |ts| && ts[pos + |Parens(l)|] == t
    ensures Spells(ts, pos + |Parens(l)| + 1, Parens(r))
  {
    SpellsSplit(ts, pos, Parens(l) + [t], Parens(r));
    SpellsSplit(ts, pos, Parens(l), [t]);
    SpellsToken(ts, pos + |Parens(l)|, t);
  }

  /** Where the pieces of `l t r` sit. */
  lemma {:induction false} TripleLayout(ts: seq<Token>, pos: nat, l: seq<Token>, t: Token, r: seq<Token>)
    requires Spells(ts, pos, l + [t] + r)
    ensures pos + |l| + |r| + 1 <= |ts|
    ensures Spells(ts, pos, l) && ts[pos + |l|] == t && Spells(ts, pos + |l| + 1, r)
  {
    SpellsSplit(ts, pos, l + [t], r);
    SpellsSplit(ts, pos, l, [t]);
    SpellsToken(ts, pos + |l|, t);
  }

  /** The tokens from pos up to m are `(`, the words w, and `)`. */
  predicate ParenWords(ts: seq<Token>, pos: nat, w: seq<Token>, m: nat) {
    m == pos + |w| + 2 && m <= |ts| && ts[pos].kind == LParen && Spells(ts, pos + 1, w) && ts[m - 1].kind == RParen
  }

  /** Where the pieces of `( l ) t ( r )` sit when m is the position of t and
      q the end. */
  lemma {:induction false} OperatorLayout(ts: seq<Token>, pos: nat, l: seq<Token>, t: Token, r: seq<Token>, m: nat, q: nat)
    requires Spells(ts, pos, Parens(l) + [t] + Parens(r))
    requires m == pos + |l| + 2 && q == m + |r| + 3
    ensures ParenWords(ts, pos, l, m) && ts[m] == t && ParenWords(ts, m + 1, r, q)
  {
    InfixLayout(ts, pos, l, t, r, m - 1, q);
  }

  /** Where the pieces of `( l ) t r` sit when m is the position of t and q
      the end. */
  lemma {:induction false} PrefixedLayout(ts: seq<Token>, pos: nat, l: seq<Token>, t: Token, r: seq<Token>, m: nat, q: nat)
    requires Spells(ts, pos, Parens(l) + [t] + r)
    requires m == pos + |l| + 2 && q == m + 1 + |r|
    ensures ParenWords(ts, pos, l, m) && ts[m] == t && Spells(ts, m + 1, r) && q <= |ts|
  {
    TripleLayout(ts, pos, Parens(l), t, r);
    SpellsParens(ts, pos, l);
  }

  /** Where the pieces of `( l ) t ( r )` sit, with m the closing parenthesis
      of the left operand and q the position just past the whole. */
  lemma {:induction false} InfixLayout(ts: seq<Token>, pos: nat, l: seq<Token>, t: Token, r: seq<Token>, m: nat, q: nat)
    requires Spells(ts, pos, Parens(l) + [t] + Parens(r)) && m == pos + |l| + 1 && q == m + |r| + 4
    ensures q <= |ts| && ts[pos].kind == LParen && Spells(ts, pos + 1, l) && ts[m].kind == RParen
    ensures ts[m + 1] == t && ts[m + 2].kind == LParen && Spells(ts, m + 3, r) && ts[q - 1].kind == RParen
  {
    SpellsInfix(ts, pos, l, t, r);
    SpellsParens(ts, pos, l);
    SpellsParens(ts, m + 2, r);
  }

  /** Where the pieces of `t ( w )` sit. */
  lemma {:induction false} PrefixLayout(ts: seq<Token>, pos: nat, t: Token, w: seq<Token>)
    requires Spells(ts, pos, [t] + Parens(w))
    ensures pos + |w| + 3 <= |ts|
    ensures ts[pos] == t && ts[pos + 1].kind == LParen && Spells(ts, pos + 2, w) && ts[pos + |w| + 2].kind == RParen
  {
    SpellsSplit(ts, pos, [t], Parens(w));
    SpellsToken(ts, pos, t);
    SpellsParens(ts, pos + 1, w);
  }

  /** `( e )`: a parenthesised expression read as a factor. */
  lemma {:induction false} ParenFactor(ts: seq<Token>, pos: nat, v: Num, q: nat)
    requires At(ts, pos) && ts[pos].kind == LParen && pos + 1 < |ts|
    requires Expression(ts, pos + 1) == Parsed(ValueLeaf(v), q) && ts[q].kind == RParen
    ensures Factor(ts, pos) == Parsed(v, q + 1)
  {
  }

  /** A term that is a single factor, not followed by `*` or `/`. */
  lemma {:induction false} FactorAsSignedTerm(ts: seq<Token>, pos: nat, v: Num, q: nat)
    requires At(ts, pos) && ts[pos].kind != MinusSign
    requires Factor(ts, pos) == Parsed(v, q) && (ts[q].kind != MultSign && ts[q].kind != DivSign)
    ensures SignedTerm(ts, pos) == Parsed(v, q)
  {
    assert Term(ts, pos) == Parsed(v, q);
  }

  /** An expression that is a single signed term followed by a chain stop. */
  lemma {:induction false} SignedTermAsExpression(ts: seq<Token>, pos: nat, v: Num, q: nat)
    requires At(ts, pos) && SignedTerm(ts, pos) == Parsed(v, q) && ArithStop(ts[q].kind)
    ensures Expression(ts, pos) == Parsed(ValueLeaf(v), q)
  {
  }

  /** The tokens from pos up to q spell the arithmetic tree e, and the token
      at q ends an arithmetic chain. */
  predicate PrintedArith(ts: seq<Token>, pos: nat, e: Arith, q: nat) {
    EndsWithEof(ts) && Spells(ts, pos, PrintArith(e))
    && q == pos + |PrintArith(e)| && q < |ts| && ArithStop(ts[q].kind)
  }

  /** Parsing the tokens of an arithmetic tree, followed by a token that
      ends the chain at q, yields a VALUE leaf holding the tree's
      conventional value. */
  lemma {:induction false} ArithRoundTrip(ts: seq<Token>, pos: nat, e: Arith, q: nat)
    requires PrintedArith(ts, pos, e, q)
    ensures Expression(ts, pos) == Parsed(ValueLeaf(Eval(e)), q)
    decreases e, 1
  {
    match e
    case Lit(r) => LitRoundTrip(ts, pos, r, q);
    case Negate(x) => NegateRoundTrip(ts, pos, e, q);
    case Bin(op, l, r) => BinRoundTrip(ts, pos, e, pos + |PrintArith(l)| + 2, q);
  }

  /** A single number token followed by a chain stop. */
  lemma {:induction false} LitRoundTrip(ts: seq<Token>, pos: nat, r: real, q: nat)
    requires PrintedArith(ts, pos, Lit(r), q)
    ensures Expression(ts, pos) == Parsed(ValueLeaf(Finite(r)), q)
  {
    SpellsToken(ts, pos, NumberToken(r));
    FactorAsSignedTerm(ts, pos, Finite(r), q);
    SignedTermAsExpression(ts, pos, Finite(r), q);
  }

  /** The tokens from pos up to q spell `( x )`. */
  predicate PrintedParenArith(ts: seq<Token>, pos: nat, x: Arith, q: nat) {
    1 <= q && PrintedArith(ts, pos + 1, x, q - 1) && ts[pos].kind == LParen && ts[q - 1].kind == RParen
  }

  /** `( x )` followed by anything, read as a factor ending at q. */
  lemma {:induction false} ParenArith(ts: seq<Token>, pos: nat, x: Arith, q: nat)
    requires PrintedParenArith(ts, pos, x, q)
    ensures Factor(ts, pos) == Parsed(Eval(x), q)
    decreases x, 2
  {
    ArithRoundTrip(ts, pos + 1, x, q - 1);
    ParenFactor(ts, pos, Eval(x), q - 1);
  }

  /** Where the operand of a printed negation `- ( x )` sits. */
  lemma {:induction false} NegateLayout(ts: seq<Token>, pos: nat, e: Arith, q: nat)
    requires e.Negate? && PrintedArith(ts, pos, e, q)
    ensures ts[pos].kind == MinusSign && PrintedParenArith(ts, pos + 1, e.e, q)
  {
    PrefixLayout(ts, pos, Sym(MinusSign, "-"), PrintArith(e.e));
  }

  /** `- ( x )` followed by a chain stop at q. */
  lemma {:induction false} NegateRoundTrip(ts: seq<Token>, pos: nat, e: Arith, q: nat)
    requires e.Negate? && PrintedArith(ts, pos, e, q)
    ensures Expression(ts, pos) == Parsed(ValueLeaf(Eval(e)), q)
    decreases e, 0
  {
    NegateLayout(ts, pos, e, q);
    ParenArith(ts, pos + 1, e.e, q);
    NegatedFactor(ts, pos, Eval(e.e), q);
  }

  /** Where the operands and the operator of a printed `( l ) op ( r )` sit;
      m is the operator's position. */
  lemma {:induction false} BinLayout(ts: seq<Token>, pos: nat, e: Arith, m: nat, q: nat)
    requires e.Bin? && PrintedArith(ts, pos, e, q) && m == pos + |PrintArith(e.left)| + 2
    ensures PrintedParenArith(ts, pos, e.left, m) && ts[m] == OpToken(e.op) && PrintedParenArith(ts, m + 1, e.right, q)
  {
    InfixLayout(ts, pos, PrintArith(e.left), OpToken(e.op), PrintArith(e.right), m - 1, q);
  }

  /** `( l ) op ( r )` followed by a chain stop at q; m is the operator's position. */
  lemma {:induction false} BinRoundTrip(ts: seq<Token>, pos: nat, e: Arith, m: nat, q: nat)
    requires e.Bin? && PrintedArith(ts, pos, e, q) && m == pos + |PrintArith(e.left)| + 2
    ensures Expression(ts, pos) == Parsed(ValueLeaf(Eval(e)), q)
    decreases e, 0
  {
    BinLayout(ts, pos, e, m, q);
    ParenArith(ts, pos, e.left, m);
    ParenArith(ts, m + 1, e.right, q);
    BinaryOfFactors(ts, pos, e.op, Eval(e.left), m, Eval(e.right), q);
  }

  /** `- f` with a chain stop after the factor f is the negation of f. */
  lemma {:induction false} NegatedFactor(ts: seq<Token>, pos: nat, v: Num, q: nat)
    requires At(ts, pos) && ts[pos].kind == MinusSign && pos + 1 < |ts|
    requires Factor(ts, pos + 1) == Parsed(v, q) && ArithStop(ts[q].kind)
    ensures Expression(ts, pos) == Parsed(ValueLeaf(Neg(v)), q)
  {
    assert Term(ts, pos + 1) == Parsed(v, q);
    SignedTermAsExpression(ts, pos, Neg(v), q);
  }

  /** `f op g` for two unsigned factors and any of the four operators,
      followed by a chain stop: the operator applied to their values. */
  lemma {:induction false} BinaryOfFactors(ts: seq<Token>, pos: nat, op: ArithOp, a: Num, m: nat, b: Num, q: nat)
    requires At(ts, pos) && ts[pos].kind != MinusSign && Factor(ts, pos) == Parsed(a, m)
    requires ts[m].kind == OpKind(op) && m + 1 < |ts| && ts[m + 1].kind != MinusSign
    requires Factor(ts, m + 1) == Parsed(b, q) && ArithStop(ts[q].kind)
    ensures Expression(ts, pos) == Parsed(ValueLeaf(Apply(op, a, b)), q)
  {
    if op == MulOp || op == DivOp {
      SingleFactorChain(ts, m, b, q);
      ProductTerm(ts, pos, a, m, b, q);
      SignedTermAsExpression(ts, pos, Apply(op, a, b), q);
    } else {
      FactorAsSignedTerm(ts, pos, a, m);
      FactorAsSignedTerm(ts, m + 1, b, q);
      SingleTermChain(ts, m, b, q);
      SumExpression(ts, pos, a, m, b, q);
    }
  }

  /** `* f` or `/ f` with a chain stop after the factor f: the chain's value is f's. */
  lemma {:induction false} SingleFactorChain(ts: seq<Token>, pos: nat, v: Num, q: nat)
    requires At(ts, pos) && (ts[pos].kind == MultSign || ts[pos].kind == DivSign)
    requires pos + 1 < |ts| && ts[pos + 1].kind != MinusSign
    requires Factor(ts, pos + 1) == Parsed(v, q) && ArithStop(ts[q].kind)
    ensures TermOp(ts, pos) == Parsed(v, q)
  {
    assert SignedFactor(ts, pos + 1) == Parsed(v, q);
  }

  /** A factor followed by a `*`/`/` chain: the factor combined with the chain's value. */
  lemma {:induction false} ProductTerm(ts: seq<Token>, pos: nat, a: Num, m: nat, b: Num, q: nat)
    requires At(ts, pos) && ts[pos].kind != MinusSign && Factor(ts, pos) == Parsed(a, m)
    requires (ts[m].kind == MultSign || ts[m].kind == DivSign) && TermOp(ts, m) == Parsed(b, q)
    ensures SignedTerm(ts, pos) == Term(ts, pos)
    ensures Term(ts, pos) == Parsed(if ts[m].kind == MultSign then Mul(a, b) else Div(a, b), q)
  {
  }

  /** `+ t` or `- t` with a chain stop after the signed term t: the chain's value is t's. */
  lemma {:induction false} SingleTermChain(ts: seq<Token>, pos: nat, v: Num, q: nat)
    requires At(ts, pos) && (ts[pos].kind == PlusSign || ts[pos].kind == MinusSign)
    requires pos + 1 < |ts| && SignedTerm(ts, pos + 1) == Parsed(v, q) && ArithStop(ts[q].kind)
    ensures SumOp(ts, pos) == Parsed(v, q)
  {
  }

  /** A signed term followed by a `+`/`-` chain: the term combined with the chain's value. */
  lemma {:induction false} SumExpression(ts: seq<Token>, pos: nat, a: Num, m: nat, b: Num, q: nat)
    requires At(ts, pos) && SignedTerm(ts, pos) == Parsed(a, m)
    requires (ts[m].kind == PlusSign || ts[m].kind == MinusSign) && SumOp(ts, m) == Parsed(b, q)
    ensures Expression(ts, pos) == Parsed(ValueLeaf(if ts[m].kind == PlusSign then Add(a, b) else Sub(a, b)), q)
  {
  }
}
