/** How the grammar groups its operators. Each lemma is stated over every
    token sequence whose tokens have the given kinds, wherever it starts and
    whatever the token after it is, as long as that token ends the phrase;
    a few concrete inputs follow as instances. */
module Grouping {
  import opened Tokens
  import opened Ast
  import opened Arithmetic
  import opened Formulas
  import opened CeplGrammar
  import opened Printing
  import opened RoundTrip
  import opened TreeRoundTrip

  // ARITHMETIC

  /** The number a NUMBER token at i stands for. */
  function NumAt(ts: seq<Token>, i: nat): Num
    requires i < |ts|
  {
    Finite(ts[i].number)
  }

  /** A NUMBER token is a factor on its own. */
  lemma {:induction false} NumberFactor(ts: seq<Token>, i: nat)
    requires At(ts, i) && ts[i].kind == NumberLit
    ensures Factor(ts, i) == Parsed(NumAt(ts, i), i + 1)
  {
  }

  /** One inner link of the `+`/`-` chain: the operator after the term picks
      how the term combines with the rest of the chain. */
  lemma {:induction false} SumLink(ts: seq<Token>, pos: nat, a: Num, m: nat, b: Num, q: nat)
    requires At(ts, pos) && (ts[pos].kind == PlusSign || ts[pos].kind == MinusSign) && pos + 1 < |ts|
    requires SignedTerm(ts, pos + 1) == Parsed(a, m) && (ts[m].kind == PlusSign || ts[m].kind == MinusSign)
    requires SumOp(ts, m) == Parsed(b, q)
    ensures SumOp(ts, pos) == Parsed(if ts[m].kind == PlusSign then Add(a, b) else Sub(a, b), q)
  {
  }

  /** One inner link of the `*`/`/` chain. */
  lemma {:induction false} ProductLink(ts: seq<Token>, pos: nat, a: Num, m: nat, b: Num, q: nat)
    requires At(ts, pos) && (ts[pos].kind == MultSign || ts[pos].kind == DivSign) && pos + 1 < |ts|
    requires SignedFactor(ts, pos + 1) == Parsed(a, m) && (ts[m].kind == MultSign || ts[m].kind == DivSign)
    requires TermOp(ts, m) == Parsed(b, q)
    ensures TermOp(ts, pos) == Parsed(if ts[m].kind == MultSign then Mul(a, b) else Div(a, b), q)
  {
  }

  /** `x + y * z` is x + (y * z): the product is folded inside the term. */
  lemma {:induction false} ProductBindsTighter(ts: seq<Token>, pos: nat)
    requires EndsWithEof(ts) && pos + 5 < |ts|
    requires ts[pos].kind == NumberLit && ts[pos + 1].kind == PlusSign && ts[pos + 2].kind == NumberLit
    requires ts[pos + 3].kind == MultSign && ts[pos + 4].kind == NumberLit && ArithStop(ts[pos + 5].kind)
    ensures Expression(ts, pos) ==
      Parsed(ValueLeaf(Add(NumAt(ts, pos), Mul(NumAt(ts, pos + 2), NumAt(ts, pos + 4)))), pos + 5)
  {
    var x, y, z := NumAt(ts, pos), NumAt(ts, pos + 2), NumAt(ts, pos + 4);
    NumberFactor(ts, pos + 4);
    SingleFactorChain(ts, pos + 3, z, pos + 5);
    NumberFactor(ts, pos + 2);
    ProductTerm(ts, pos + 2, y, pos + 3, z, pos + 5);
    SingleTermChain(ts, pos + 1, Mul(y, z), pos + 5);
    NumberFactor(ts, pos);
    FactorAsSignedTerm(ts, pos, x, pos + 1);
    SumExpression(ts, pos, x, pos + 1, Mul(y, z), pos + 5);
  }

  /** `x - y - z` is x - (y - z): the `+`/`-` chain groups to the right. */
  lemma {:induction false} DifferenceGroupsRight(ts: seq<Token>, pos: nat)
    requires EndsWithEof(ts) && pos + 5 < |ts|
    requires ts[pos].kind == NumberLit && ts[pos + 1].kind == MinusSign && ts[pos + 2].kind == NumberLit
    requires ts[pos + 3].kind == MinusSign && ts[pos + 4].kind == NumberLit && ArithStop(ts[pos + 5].kind)
    ensures Expression(ts, pos) ==
      Parsed(ValueLeaf(Sub(NumAt(ts, pos), Sub(NumAt(ts, pos + 2), NumAt(ts, pos + 4)))), pos + 5)
  {
    var x, y, z := NumAt(ts, pos), NumAt(ts, pos + 2), NumAt(ts, pos + 4);
    NumberFactor(ts, pos + 4);
    FactorAsSignedTerm(ts, pos + 4, z, pos + 5);
    SingleTermChain(ts, pos + 3, z, pos + 5);
    NumberFactor(ts, pos + 2);
    FactorAsSignedTerm(ts, pos + 2, y, pos + 3);
    SumLink(ts, pos + 1, y, pos + 3, z, pos + 5);
    NumberFactor(ts, pos);
    FactorAsSignedTerm(ts, pos, x, pos + 1);
    SumExpression(ts, pos, x, pos + 1, Sub(y, z), pos + 5);
  }

  /** `x / y / z` is x / (y / z): the `*`/`/` chain groups to the right. */
  lemma {:induction false} QuotientGroupsRight(ts: seq<Token>, pos: nat)
    requires EndsWithEof(ts) && pos + 5 < |ts|
    requires ts[pos].kind == NumberLit && ts[pos + 1].kind == DivSign && ts[pos + 2].kind == NumberLit
    requires ts[pos + 3].kind == DivSign && ts[pos + 4].kind == NumberLit && ArithStop(ts[pos + 5].kind)
    ensures Expression(ts, pos) ==
      Parsed(ValueLeaf(Div(NumAt(ts, pos), Div(NumAt(ts, pos + 2), NumAt(ts, pos + 4)))), pos + 5)
  {
    var x, y, z := NumAt(ts, pos), NumAt(ts, pos + 2), NumAt(ts, pos + 4);
    NumberFactor(ts, pos + 4);
    SingleFactorChain(ts, pos + 3, z, pos + 5);
    NumberFactor(ts, pos + 2);
    assert SignedFactor(ts, pos + 2) == Parsed(y, pos + 3);
    ProductLink(ts, pos + 1, y, pos + 3, z, pos + 5);
    NumberFactor(ts, pos);
    ProductTerm(ts, pos, x, pos + 1, Div(y, z), pos + 5);
    SignedTermAsExpression(ts, pos, Div(x, Div(y, z)), pos + 5);
  }

  /** `- x * y` is -(x * y): a leading minus negates the whole term. */
  lemma {:induction false} MinusNegatesTerm(ts: seq<Token>, pos: nat)
    requires EndsWithEof(ts) && pos + 4 < |ts|
    requires ts[pos].kind == MinusSign && ts[pos + 1].kind == NumberLit && ts[pos + 2].kind == MultSign
    requires ts[pos + 3].kind == NumberLit && ArithStop(ts[pos + 4].kind)
    ensures Expression(ts, pos) == Parsed(ValueLeaf(Neg(Mul(NumAt(ts, pos + 1), NumAt(ts, pos + 3)))), pos + 4)
  {
    var x, y := NumAt(ts, pos + 1), NumAt(ts, pos + 3);
    NumberFactor(ts, pos + 3);
    SingleFactorChain(ts, pos + 2, y, pos + 4);
    NumberFactor(ts, pos + 1);
    ProductTerm(ts, pos + 1, x, pos + 2, y, pos + 4);
    assert SignedTerm(ts, pos) == Parsed(Neg(Mul(x, y)), pos + 4);
    SignedTermAsExpression(ts, pos, Neg(Mul(x, y)), pos + 4);
  }

  /** `x * - y` is x * (-y): a minus after `*` or `/` negates only the factor it precedes. */
  lemma {:induction false} MinusNegatesFactor(ts: seq<Token>, pos: nat)
    requires EndsWithEof(ts) && pos + 4 < |ts|
    requires ts[pos].kind == NumberLit && ts[pos + 1].kind == MultSign && ts[pos + 2].kind == MinusSign
    requires ts[pos + 3].kind == NumberLit && ArithStop(ts[pos + 4].kind)
    ensures Expression(ts, pos) == Parsed(ValueLeaf(Mul(NumAt(ts, pos), Neg(NumAt(ts, pos + 3)))), pos + 4)
  {
    var x, y := NumAt(ts, pos), NumAt(ts, pos + 3);
    NumberFactor(ts, pos + 3);
    assert SignedFactor(ts, pos + 2) == Parsed(Neg(y), pos + 4);
    assert TermOp(ts, pos + 1) == Parsed(Neg(y), pos + 4);
    NumberFactor(ts, pos);
    assert Term(ts, pos) == Parsed(Mul(x, Neg(y)), pos + 4);
    SignedTermAsExpression(ts, pos, Mul(x, Neg(y)), pos + 4);
  }

  /** `x + t`, where t can start no signed term (not a NUMBER, `(` or `-`), is an error at t. */
  lemma {:induction false} MissingOperand(ts: seq<Token>, pos: nat)
    requires EndsWithEof(ts) && pos + 2 < |ts|
    requires ts[pos].kind == NumberLit && ts[pos + 1].kind == PlusSign
    requires ts[pos + 2].kind != NumberLit && ts[pos + 2].kind != LParen && ts[pos + 2].kind != MinusSign
    ensures Expression(ts, pos) == Unexpected(pos + 2)
  {
    NumberFactor(ts, pos);
    FactorAsSignedTerm(ts, pos, NumAt(ts, pos), pos + 1);
    assert Factor(ts, pos + 2) == Unexpected(pos + 2);
    assert SignedTerm(ts, pos + 2) == Unexpected(pos + 2);
    assert SumOp(ts, pos + 1) == Unexpected(pos + 2);
  }

  /** `2 + 3 * 4` is 14. */
  lemma {:induction false} PrecedenceExample()
    ensures Expression([NumberToken(2.0), Sym(PlusSign, "+"), NumberToken(3.0), Sym(MultSign, "*"),
                        NumberToken(4.0), Sym(Eof, "")], 0) == Parsed(ValueLeaf(Finite(14.0)), 5)
  {
    var ts := [NumberToken(2.0), Sym(PlusSign, "+"), NumberToken(3.0), Sym(MultSign, "*"), NumberToken(4.0), Sym(Eof, "")];
    ProductBindsTighter(ts, 0);
  }

  /** `2 * - 3` is -6. */
  lemma {:induction false} NegatedFactorExample()
    ensures Expression([NumberToken(2.0), Sym(MultSign, "*"), Sym(MinusSign, "-"), NumberToken(3.0), Sym(Eof, "")], 0)
      == Parsed(ValueLeaf(Finite(-6.0)), 4)
  {
    var ts := [NumberToken(2.0), Sym(MultSign, "*"), Sym(MinusSign, "-"), NumberToken(3.0), Sym(Eof, "")];
    MinusNegatesFactor(ts, 0);
    assert NumAt(ts, 0) == Finite(2.0) && NumAt(ts, 3) == Finite(3.0);
    assert Mul(Finite(2.0), Neg(Finite(3.0))) == Finite(-6.0);
  }

  /** `10 - 2 - 3` is 11, not 5. */
  lemma {:induction false} DifferenceExample()
    ensures Expression([NumberToken(10.0), Sym(MinusSign, "-"), NumberToken(2.0), Sym(MinusSign, "-"),
                        NumberToken(3.0), Sym(Eof, "")], 0) == Parsed(ValueLeaf(Finite(11.0)), 5)
  {
    var ts := [NumberToken(10.0), Sym(MinusSign, "-"), NumberToken(2.0), Sym(MinusSign, "-"), NumberToken(3.0), Sym(Eof, "")];
    DifferenceGroupsRight(ts, 0);
  }

  /** `8 / 4 / 2` is 4, not 1. */
  lemma {:induction false} QuotientExample()
    ensures Expression([NumberToken(8.0), Sym(DivSign, "/"), NumberToken(4.0), Sym(DivSign, "/"),
                        NumberToken(2.0), Sym(Eof, "")], 0) == Parsed(ValueLeaf(Finite(4.0)), 5)
  {
    var ts := [NumberToken(8.0), Sym(DivSign, "/"), NumberToken(4.0), Sym(DivSign, "/"), NumberToken(2.0), Sym(Eof, "")];
    QuotientGroupsRight(ts, 0);
    assert NumAt(ts, 0) == Finite(8.0) && NumAt(ts, 2) == Finite(4.0) && NumAt(ts, 4) == Finite(2.0);
    assert Div(Finite(4.0), Finite(2.0)) == Finite(2.0);
    assert Div(Finite(8.0), Finite(2.0)) == Finite(4.0);
  }

  // FILTER FORMULAS

  /** The tokens from i are `WORD . WORD op NUMBER`. */
  predicate SimplePredicateTokens(ts: seq<Token>, i: nat) {
    i + 5 < |ts| && ts[i].kind == Word && ts[i + 1].kind == DotSign && ts[i + 2].kind == Word
    && ts[i + 3].kind == PredOperator && ts[i + 4].kind == NumberLit
  }

  /** The PREDICATE node for `WORD . WORD op NUMBER` at i. */
  function SimplePredicate(ts: seq<Token>, i: nat): Node
    requires i + 4 < |ts|
  {
    Branch(Predicate, [Branch(VarProp, [Leaf(Variable, ts[i]), Leaf(Property, ts[i + 2])]),
                       Leaf(PredOp, ts[i + 3]), ValueLeaf(NumAt(ts, i + 4))])
  }

  /** A simple predicate is read, then the continuation decides what follows. */
  lemma {:induction false} SimplePredicateStep(ts: seq<Token>, i: nat)
    requires EndsWithEof(ts) && SimplePredicateTokens(ts, i) && ArithStop(ts[i + 5].kind)
    ensures FilterFormula(ts, i) == FilterContinuation(ts, i + 5, SimplePredicate(ts, i))
  {
    var v := Branch(VarProp, [Leaf(Variable, ts[i]), Leaf(Property, ts[i + 2])]);
    assert VariableRef(ts, i) == Parsed(v, i + 3);
    NumberFactor(ts, i + 4);
    FactorAsSignedTerm(ts, i + 4, NumAt(ts, i + 4), i + 5);
    SignedTermAsExpression(ts, i + 4, NumAt(ts, i + 4), i + 5);
    PropertyFirstStep(ts, i, v, i + 3, ValueLeaf(NumAt(ts, i + 4)), i + 5);
    WordFormula(ts, i);
  }

  /** A simple predicate followed by no connective is the whole formula. */
  lemma {:induction false} LonePredicate(ts: seq<Token>, i: nat)
    requires EndsWithEof(ts) && SimplePredicateTokens(ts, i) && FormulaStop(ts[i + 5].kind)
    ensures FilterFormula(ts, i) == Parsed(SimplePredicate(ts, i), i + 5)
  {
    SimplePredicateStep(ts, i);
  }

  /** `not p and q` is NOT (p and q): `not` takes the whole formula after it,
      continuation included. */
  lemma {:induction false} NotTakesWholeFormula(ts: seq<Token>, pos: nat)
    requires EndsWithEof(ts) && SimplePredicateTokens(ts, pos + 1) && ts[pos].kind == NotKw
    requires ts[pos + 6].kind == FiltConnective && SimplePredicateTokens(ts, pos + 7) && FormulaStop(ts[pos + 12].kind)
    ensures FilterFormula(ts, pos) ==
      Parsed(Branch(PredNot, [Branch(Connective(ts[pos + 6]), [SimplePredicate(ts, pos + 1), SimplePredicate(ts, pos + 7)])]), pos + 12)
  {
    LonePredicate(ts, pos + 7);
    ConnectiveStep(ts, pos + 6, SimplePredicate(ts, pos + 1), SimplePredicate(ts, pos + 7), pos + 12);
    SimplePredicateStep(ts, pos + 1);
    NotStep(ts, pos, Branch(Connective(ts[pos + 6]), [SimplePredicate(ts, pos + 1), SimplePredicate(ts, pos + 7)]), pos + 12);
  }

  /** `p c1 q c2 r` is p c1 (q c2 r): `and` and `or` share one level and group
      to the right, whichever of the two each connective is. */
  lemma {:induction false} ConnectivesGroupRight(ts: seq<Token>, pos: nat)
    requires EndsWithEof(ts) && SimplePredicateTokens(ts, pos) && ts[pos + 5].kind == FiltConnective
    requires SimplePredicateTokens(ts, pos + 6) && ts[pos + 11].kind == FiltConnective
    requires SimplePredicateTokens(ts, pos + 12) && FormulaStop(ts[pos + 17].kind)
    ensures FilterFormula(ts, pos) ==
      Parsed(Branch(Connective(ts[pos + 5]), [SimplePredicate(ts, pos),
        Branch(Connective(ts[pos + 11]), [SimplePredicate(ts, pos + 6), SimplePredicate(ts, pos + 12)])]), pos + 17)
  {
    var inner := Branch(Connective(ts[pos + 11]), [SimplePredicate(ts, pos + 6), SimplePredicate(ts, pos + 12)]);
    LonePredicate(ts, pos + 12);
    ConnectiveStep(ts, pos + 11, SimplePredicate(ts, pos + 6), SimplePredicate(ts, pos + 12), pos + 17);
    SimplePredicateStep(ts, pos + 6);
    ConnectiveStep(ts, pos + 5, SimplePredicate(ts, pos), inner, pos + 17);
    SimplePredicateStep(ts, pos);
  }

  // CEPL EXPRESSIONS

  /** The ASSIGN node of a `RELATION as WORD` binding at i. */
  function Binding(ts: seq<Token>, i: nat): Node
    requires i + 2 < |ts|
  {
    Branch(Assign, [Leaf(Relation, ts[i]), Leaf(Variable, ts[i + 2])])
  }

  /** The tokens from i are `RELATION as WORD`. */
  predicate BindingTokens(ts: seq<Token>, i: nat) {
    i + 3 < |ts| && ts[i].kind == RelationName && ts[i + 1].kind == AsKw && ts[i + 2].kind == Word
  }

  /** `a : b | c` is SEQ(a, OR(b, c)): `:` and `|` share one level and the
      right operand is everything after the operator. */
  lemma {:induction false} SequenceGroupsRight(ts: seq<Token>, pos: nat, a: Node, m: nat, b: Node, k: nat, c: Node, q: nat)
    requires At(ts, pos) && Primary(ts, pos) == Parsed(a, m) && (ts[m].kind == ColonSign || ts[m].kind == BarSign)
    requires m + 1 < |ts| && Primary(ts, m + 1) == Parsed(b, k) && (ts[k].kind == ColonSign || ts[k].kind == BarSign)
    requires k + 1 < |ts| && Primary(ts, k + 1) == Parsed(c, q) && CeplStop(ts[q].kind)
    ensures Cepl(ts, pos) == Parsed(Branch(if ts[m].kind == ColonSign then Seq else Or,
      [a, Branch(if ts[k].kind == ColonSign then Seq else Or, [b, c])]), q)
  {
    PrimaryThenPostfix(ts, k + 1, c, q);
    NoPostfix(ts, q, c);
    PrimaryThenPostfix(ts, m + 1, b, k);
    SequencePostfix(ts, k, b, c, q);
    PrimaryThenPostfix(ts, pos, a, m);
    SequencePostfix(ts, m, a, Branch(if ts[k].kind == ColonSign then Seq else Or, [b, c]), q);
  }

  /** `R as x : S as y | T as z` is accepted as SEQ(R, OR(S, T)). */
  lemma {:induction false} SequenceExample(ts: seq<Token>)
    requires |ts| == 12 && ts[11].kind == Eof && BindingTokens(ts, 0) && ts[3].kind == ColonSign
    requires BindingTokens(ts, 4) && ts[7].kind == BarSign && BindingTokens(ts, 8)
    ensures Parse(ts) == Ok(Branch(Seq, [Binding(ts, 0), Branch(Or, [Binding(ts, 4), Binding(ts, 8)])]))
  {
    AssignPrimary(ts, 0);
    AssignPrimary(ts, 4);
    AssignPrimary(ts, 8);
    SequenceGroupsRight(ts, 0, Binding(ts, 0), 3, Binding(ts, 4), 7, Binding(ts, 8), 11);
    ParseOutcome(ts);
  }

  /** `R as x + filter p` is FILTER(KLEENE(R), p): Kleene applies before
      the filter. */
  lemma {:induction false} KleeneFilterExample(ts: seq<Token>, pos: nat)
    requires EndsWithEof(ts) && BindingTokens(ts, pos) && ts[pos + 3].kind == PlusSign && ts[pos + 4].kind == FilterKw
    requires SimplePredicateTokens(ts, pos + 5) && CeplStop(ts[pos + 10].kind)
    ensures Cepl(ts, pos) == Parsed(Branch(Filter, [Branch(Kleene, [Binding(ts, pos)]), SimplePredicate(ts, pos + 5)]), pos + 10)
  {
    AssignPrimary(ts, pos);
    PrimaryThenPostfix(ts, pos, Binding(ts, pos), pos + 3);
    LonePredicate(ts, pos + 5);
    KleeneThenFilter(ts, pos + 3, Binding(ts, pos), SimplePredicate(ts, pos + 5), pos + 10);
  }

  /** `R as x + +` is rejected at the second `+`: one Kleene star at most. */
  lemma {:induction false} SecondPlusRejected(ts: seq<Token>)
    requires |ts| == 6 && ts[5].kind == Eof && BindingTokens(ts, 0) && ts[3].kind == PlusSign && ts[4].kind == PlusSign
    ensures Parse(ts) == Err(4)
  {
    AssignPrimary(ts, 0);
    PrimaryThenPostfix(ts, 0, Binding(ts, 0), 3);
    KleenePostfix(ts, 3, Binding(ts, 0));
    ParseOutcome(ts);
  }

  /** `x . a > t`, where t can start no expression, is an error at t: the
      value compared with the property is required. */
  lemma {:induction false} MissingComparand(ts: seq<Token>, pos: nat)
    requires EndsWithEof(ts) && pos + 4 < |ts|
    requires ts[pos].kind == Word && ts[pos + 1].kind == DotSign && ts[pos + 2].kind == Word && ts[pos + 3].kind == PredOperator
    requires ts[pos + 4].kind != NumberLit && ts[pos + 4].kind != LParen && ts[pos + 4].kind != MinusSign
    ensures FilterFormula(ts, pos) == Unexpected(pos + 4)
  {
    MissingExpression(ts, pos + 4);
    assert PropertyFirst(ts, pos) == Unexpected(pos + 4);
  }

  /** `R as x filter` with nothing after `filter` is rejected at the end of
      input: the filter's formula is required. */
  lemma {:induction false} EmptyFilterRejected(ts: seq<Token>)
    requires |ts| == 5 && ts[4].kind == Eof && BindingTokens(ts, 0) && ts[3].kind == FilterKw
    ensures Parse(ts) == Err(4)
  {
    AssignPrimary(ts, 0);
    PrimaryThenPostfix(ts, 0, Binding(ts, 0), 3);
    MissingFormula(ts, 4);
    ParseOutcome(ts);
  }

  /** `( R as x )` gives the same tree as `R as x`: parentheses add no node. */
  lemma {:induction false} ParenthesesAddNoNode(ts: seq<Token>)
    requires |ts| == 6 && ts[5].kind == Eof && ts[0].kind == LParen && BindingTokens(ts, 1) && ts[4].kind == RParen
    ensures Parse(ts) == Ok(Binding(ts, 1))
    ensures Parse(ts[1..4] + [ts[5]]) == Ok(Binding(ts, 1))
  {
    ParenthesisedBinding(ts);
    BareBinding(ts);
  }

  /** `( R as x )` followed by EOF. */
  lemma {:induction false} ParenthesisedBinding(ts: seq<Token>)
    requires |ts| == 6 && ts[5].kind == Eof && ts[0].kind == LParen && BindingTokens(ts, 1) && ts[4].kind == RParen
    ensures Parse(ts) == Ok(Binding(ts, 1))
  {
    AssignPrimary(ts, 1);
    PrimaryThenPostfix(ts, 1, Binding(ts, 1), 4);
    NoPostfix(ts, 4, Binding(ts, 1));
    ParenPrimary(ts, 0, Binding(ts, 1), 4);
    PrimaryThenPostfix(ts, 0, Binding(ts, 1), 5);
    NoPostfix(ts, 5, Binding(ts, 1));
    ParseOutcome(ts);
  }

  /** The same binding without the parentheses, followed by EOF. */
  lemma {:induction false} BareBinding(ts: seq<Token>)
    requires |ts| == 6 && ts[5].kind == Eof && BindingTokens(ts, 1)
    ensures Parse(ts[1..4] + [ts[5]]) == Ok(Binding(ts, 1))
  {
    var bare := ts[1..4] + [ts[5]];
    assert bare[0] == ts[1] && bare[2] == ts[3] && bare[3].kind == Eof;
    AssignPrimary(bare, 0);
    PrimaryThenPostfix(bare, 0, Binding(bare, 0), 3);
    NoPostfix(bare, 3, Binding(bare, 0));
    ParseOutcome(bare);
  }
}
