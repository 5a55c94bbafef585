/** Round trips for the two tree-building grammars: a filter formula or a
    CEPL tree, printed with every operand in parentheses, parses back to
    itself, and a whole printed program followed by EOF is accepted. */
module TreeRoundTrip {
  import opened Tokens
  import opened Ast
  import opened Arithmetic
  import opened Formulas
  import opened CeplGrammar
  import opened Printing
  import opened RoundTrip

  /** A lookahead that ends a filter formula. */
  predicate FormulaStop(k: TokenKind) {
    ArithStop(k) && k != FiltConnective
  }

  /** A lookahead that ends a CEPL expression. */
  predicate CeplStop(k: TokenKind) {
    FormulaStop(k) && (k != FilterKw && k != ColonSign && k != BarSign)
  }

  /** The tokens from pos up to q spell the VALUE operand v, and the token at
      q ends an arithmetic chain. */
  predicate PrintedNum(ts: seq<Token>, pos: nat, v: Num, q: nat) {
    EndsWithEof(ts) && Spells(ts, pos, PrintNum(v)) && q == pos + |PrintNum(v)| && q < |ts| && ArithStop(ts[q].kind)
  }

  /** The tokens of a VALUE operand parse back to that value. */
  lemma {:induction false} NumRoundTrip(ts: seq<Token>, pos: nat, v: Num, q: nat)
    requires PrintedNum(ts, pos, v, q)
    ensures ts[pos].kind == NumberLit && Expression(ts, pos) == Parsed(ValueLeaf(v), q)
  {
    match v
    case Finite(r) =>
      SpellsToken(ts, pos, NumberToken(r));
      LitRoundTrip(ts, pos, r, q);
    case NonFinite =>
      NonFiniteLayout(ts, pos, q);
      BinaryOfFactors(ts, pos, DivOp, Finite(1.0), pos + 1, Finite(0.0), q);
  }

  /** Where the tokens of `1 / 0` sit. */
  lemma {:induction false} NonFiniteLayout(ts: seq<Token>, pos: nat, q: nat)
    requires PrintedNum(ts, pos, NonFinite, q)
    ensures q == pos + 3 && ts[pos] == NumberToken(1.0) && ts[pos + 1] == Sym(DivSign, "/")
    ensures ts[pos + 2] == NumberToken(0.0)
  {
    SpellsSplit(ts, pos, [NumberToken(1.0), Sym(DivSign, "/")], [NumberToken(0.0)]);
    SpellsSplit(ts, pos, [NumberToken(1.0)], [Sym(DivSign, "/")]);
    SpellsToken(ts, pos, NumberToken(1.0));
    SpellsToken(ts, pos + 1, Sym(DivSign, "/"));
    SpellsToken(ts, pos + 2, NumberToken(0.0));
  }

  /** The tokens from pos on spell the variable-property reference n, and
      something follows it. */
  predicate PrintedVarProp(ts: seq<Token>, pos: nat, n: Node) {
    IsVarProp(n) && EndsWithEof(ts) && Spells(ts, pos, PrintVarProp(n)) && pos + 3 < |ts|
  }

  /** The tokens of a variable-property reference parse back to it. */
  lemma {:induction false} VarPropRoundTrip(ts: seq<Token>, pos: nat, n: Node)
    requires PrintedVarProp(ts, pos, n)
    ensures ts[pos].kind == Word && VariableRef(ts, pos) == Parsed(n, pos + 3)
  {
    var w := PrintVarProp(n);
    SpellsSplit(ts, pos, w[..2], [w[2]]);
    SpellsSplit(ts, pos, [w[0]], [w[1]]);
    SpellsToken(ts, pos, w[0]);
    SpellsToken(ts, pos + 1, w[1]);
    SpellsToken(ts, pos + 2, w[2]);
    assert n.children == [Leaf(Variable, w[0]), Leaf(Property, w[2])];
  }

  /** The tokens from pos up to q spell the well-formed formula f, and the
      token at q ends a formula. */
  predicate PrintedFormula(ts: seq<Token>, pos: nat, f: Node, q: nat) {
    WfFormula(f) && EndsWithEof(ts) && Spells(ts, pos, PrintFormula(f))
    && q == pos + |PrintFormula(f)| && q < |ts| && FormulaStop(ts[q].kind)
  }

  /** Parsing the tokens of a well-formed formula, followed by a token that
      ends it at q, gives back the formula. */
  lemma {:induction false} FormulaRoundTrip(ts: seq<Token>, pos: nat, f: Node, q: nat)
    requires PrintedFormula(ts, pos, f, q)
    ensures FilterFormula(ts, pos) == Parsed(f, q)
    decreases f, 2
  {
    if f.tag == PredNot {
      NotRoundTrip(ts, pos, f, q);
    } else if f.tag == Predicate {
      if IsVarProp(f.children[0]) {
        PropertyFirstRoundTrip(ts, pos, f, q);
      } else {
        NumberFirstRoundTrip(ts, pos, f, q);
      }
    } else {
      ConnectiveRoundTrip(ts, pos, f, q);
    }
  }

  /** The tokens from pos up to q spell `( f )` for the well-formed formula
      f, and the token at q ends a formula. */
  predicate PrintedParenFormula(ts: seq<Token>, pos: nat, f: Node, q: nat) {
    WfFormula(f) && EndsWithEof(ts) && ParenWords(ts, pos, PrintFormula(f), q) && q < |ts| && FormulaStop(ts[q].kind)
  }

  /** `( f )` followed by a token that ends a formula at q parses back to f. */
  lemma {:induction false} ParenFormulaRoundTrip(ts: seq<Token>, pos: nat, f: Node, q: nat)
    requires PrintedParenFormula(ts, pos, f, q)
    ensures FilterFormula(ts, pos) == Parsed(f, q)
    decreases f, 4
  {
    ParenFormulaLayout(ts, pos, f, q);
    InnerFormulaRoundTrip(ts, pos, f, q);
  }

  /** The formula inside `( f )`: f is printed from pos + 1 up to the `)` at
      q - 1, and the token at q does not continue a formula. */
  lemma {:induction false} ParenFormulaLayout(ts: seq<Token>, pos: nat, f: Node, q: nat)
    requires PrintedParenFormula(ts, pos, f, q)
    ensures At(ts, pos) && ts[pos].kind == LParen && 1 <= q && PrintedFormula(ts, pos + 1, f, q - 1)
    ensures ts[q - 1].kind == RParen && q < |ts| && ts[q].kind != FiltConnective
  {
  }

  /** `( f )` ending at q with nothing after it that continues a formula. */
  lemma {:induction false} InnerFormulaRoundTrip(ts: seq<Token>, pos: nat, f: Node, q: nat)
    requires At(ts, pos) && ts[pos].kind == LParen && 1 <= q && PrintedFormula(ts, pos + 1, f, q - 1)
    requires ts[q - 1].kind == RParen && q < |ts| && ts[q].kind != FiltConnective
    ensures FilterFormula(ts, pos) == Parsed(f, q)
    decreases f, 3
  {
    var p := q - 1;
    FormulaRoundTrip(ts, pos + 1, f, p);
    ParenthesisedAlone(ts, pos, f, p);
  }

  // PRED_NOT

  /** The operand of a well-formed PRED_NOT node, the `not` token, and the
      printed form of the node. */
  lemma {:induction false} NotParts(f: Node) returns (g: Node, w: seq<Token>, k: Token)
    requires WfFormula(f) && f.tag == PredNot
    ensures f == Branch(PredNot, [g]) && WfFormula(g) && w == PrintFormula(g) && k.kind == NotKw
    ensures PrintFormula(f) == [k] + Parens(w)
  {
    g, w, k := f.children[0], PrintFormula(f.children[0]), Sym(NotKw, "not");
  }

  /** Where the operand of a printed PRED_NOT node sits: `( g )` from pos + 1
      up to q. */
  lemma {:induction false} NotOperand(ts: seq<Token>, pos: nat, f: Node, q: nat) returns (g: Node)
    requires PrintedFormula(ts, pos, f, q) && f.tag == PredNot
    ensures f == Branch(PredNot, [g]) && At(ts, pos) && ts[pos].kind == NotKw && pos + 1 < |ts|
    ensures PrintedParenFormula(ts, pos + 1, g, q)
  {
    var w, k;
    g, w, k := NotParts(f);
    PrefixLayout(ts, pos, k, w);
  }

  lemma {:induction false} NotRoundTrip(ts: seq<Token>, pos: nat, f: Node, q: nat)
    requires PrintedFormula(ts, pos, f, q) && f.tag == PredNot
    ensures FilterFormula(ts, pos) == Parsed(f, q)
    decreases f, 1
  {
    var g := NotOperand(ts, pos, f, q);
    assert g in f.children;
    ParenFormulaRoundTrip(ts, pos + 1, g, q);
    NotStep(ts, pos, g, q);
  }

  /** `not f` wraps the formula f read after it. */
  lemma {:induction false} NotStep(ts: seq<Token>, pos: nat, f: Node, q: nat)
    requires At(ts, pos) && ts[pos].kind == NotKw && pos + 1 < |ts| && FilterFormula(ts, pos + 1) == Parsed(f, q)
    ensures FilterFormula(ts, pos) == Parsed(Branch(PredNot, [f]), q)
  {
  }

  // PRED_AND and PRED_OR

  /** A well-formed conjunction or disjunction has exactly its two operands
      and no payload. */
  lemma {:induction false} ConnectiveShape(f: Node)
    requires WfFormula(f) && (f.tag == PredAnd || f.tag == PredOr)
    ensures f == Branch(f.tag, [f.children[0], f.children[1]])
  {
  }

  /** The printed form of a conjunction or disjunction. */
  lemma {:induction false} PrintConnective(f: Node)
    requires WfFormula(f) && (f.tag == PredAnd || f.tag == PredOr)
    ensures PrintFormula(f) == Parens(PrintFormula(f.children[0])) + [Sym(FiltConnective, ConnectiveText(f.tag))]
      + Parens(PrintFormula(f.children[1]))
  {
  }

  /** The connective printed for a tag is read back as that tag. */
  lemma {:induction false} ConnectiveOfText(tag: NodeType)
    requires tag == PredAnd || tag == PredOr
    ensures Connective(Sym(FiltConnective, ConnectiveText(tag))) == tag
  {
    if tag == PredAnd {
      assert "and"[0] != "or"[0];
    }
  }

  /** The connective token the printer writes for a PRED_AND or PRED_OR node
      is read back as that node's tag, so the node is the connective of that
      token over its two operands. */
  lemma {:induction false} ConnectiveShapeAt(f: Node, t: Token)
    requires WfFormula(f) && (f.tag == PredAnd || f.tag == PredOr) && t == Sym(FiltConnective, ConnectiveText(f.tag))
    ensures f == Branch(Connective(t), [f.children[0], f.children[1]])
  {
    ConnectiveShape(f);
    ConnectiveOfText(f.tag);
  }

  /** The operands of a well-formed PRED_AND or PRED_OR node are well formed. */
  lemma {:induction false} ConnectiveOperandsWf(f: Node)
    requires WfFormula(f) && (f.tag == PredAnd || f.tag == PredOr)
    ensures WfFormula(f.children[0]) && WfFormula(f.children[1])
  {
  }

  /** The tokens from pos up to q spell `( a ) k ( b )` for well-formed
      formulas a and b, and the token at q ends a formula. */
  predicate PrintedConnective(ts: seq<Token>, pos: nat, a: Node, k: Token, b: Node, q: nat) {
    WfFormula(a) && WfFormula(b) && EndsWithEof(ts)
    && Spells(ts, pos, Parens(PrintFormula(a)) + [k] + Parens(PrintFormula(b)))
    && q == pos + |PrintFormula(a)| + |PrintFormula(b)| + 5 && q < |ts| && FormulaStop(ts[q].kind)
  }

  /** A printed PRED_AND or PRED_OR node is its two operands around the
      connective token of its tag. */
  lemma {:induction false} PrintedAsConnective(ts: seq<Token>, pos: nat, f: Node, q: nat)
    requires PrintedFormula(ts, pos, f, q) && (f.tag == PredAnd || f.tag == PredOr)
    ensures PrintedConnective(ts, pos, f.children[0], Sym(FiltConnective, ConnectiveText(f.tag)), f.children[1], q)
  {
    ConnectiveOperandsWf(f);
    PrintConnective(f);
  }

  /** Where the operands of a printed PRED_AND or PRED_OR node sit: a from
      pos + 1 up to the `)` at m, the connective at m + 1, and `( b )` from
      m + 2 up to q. */
  lemma {:induction false} ConnectiveOperands(ts: seq<Token>, pos: nat, f: Node, q: nat) returns (a: Node, m: nat, b: Node)
    requires PrintedFormula(ts, pos, f, q) && (f.tag == PredAnd || f.tag == PredOr)
    ensures m + 2 < |ts| && ts[m + 1] == Sym(FiltConnective, ConnectiveText(f.tag))
    ensures a == f.children[0] && b == f.children[1]
    ensures At(ts, pos) && ts[pos].kind == LParen && PrintedFormula(ts, pos + 1, a, m) && ts[m].kind == RParen
    ensures PrintedParenFormula(ts, m + 2, b, q)
  {
    a, b := f.children[0], f.children[1];
    PrintedAsConnective(ts, pos, f, q);
    m := ConnectiveOperandsAt(ts, pos, a, Sym(FiltConnective, ConnectiveText(f.tag)), b, q);
  }

  /** Where the pieces of `( a ) k ( b )` sit, with m the closing parenthesis
      of a. */
  lemma {:induction false} ConnectiveOperandsAt(ts: seq<Token>, pos: nat, a: Node, k: Token, b: Node, q: nat) returns (m: nat)
    requires PrintedConnective(ts, pos, a, k, b, q)
    ensures m + 2 < |ts| && ts[m + 1] == k
    ensures At(ts, pos) && ts[pos].kind == LParen && PrintedFormula(ts, pos + 1, a, m) && ts[m].kind == RParen
    ensures PrintedParenFormula(ts, m + 2, b, q)
  {
    m := pos + |PrintFormula(a)| + 1;
    LeftOperandAt(ts, pos, a, k, b, m, q);
    RightOperandAt(ts, pos, a, k, b, m, q);
  }

  /** The left operand of `( a ) k ( b )`, closed by the parenthesis at m. */
  lemma {:induction false} LeftOperandAt(ts: seq<Token>, pos: nat, a: Node, k: Token, b: Node, m: nat, q: nat)
    requires PrintedConnective(ts, pos, a, k, b, q) && m == pos + |PrintFormula(a)| + 1
    ensures At(ts, pos) && ts[pos].kind == LParen && PrintedFormula(ts, pos + 1, a, m) && ts[m].kind == RParen
  {
    var wa, wb := PrintFormula(a), PrintFormula(b);
    ConnectiveWords(ts, pos, wa, k, wb, m, q);
    LeftOperandFormula(ts, pos, a, wa, m + 1);
  }

  /** The connective and the right operand of `( a ) k ( b )`, given the
      closing parenthesis m of a. */
  lemma {:induction false} RightOperandAt(ts: seq<Token>, pos: nat, a: Node, k: Token, b: Node, m: nat, q: nat)
    requires PrintedConnective(ts, pos, a, k, b, q) && m == pos + |PrintFormula(a)| + 1
    ensures m + 2 < |ts| && ts[m + 1] == k
    ensures PrintedParenFormula(ts, m + 2, b, q)
  {
    var wa, wb := PrintFormula(a), PrintFormula(b);
    ConnectiveWords(ts, pos, wa, k, wb, m, q);
    RightOperandFormula(ts, m + 2, b, wb, q);
  }

  /** Where `( wa ) k ( wb )` puts its pieces, with m the closing parenthesis
      of the left operand. */
  lemma {:induction false} ConnectiveWords(ts: seq<Token>, pos: nat, wa: seq<Token>, k: Token, wb: seq<Token>, m: nat, q: nat)
    requires Spells(ts, pos, Parens(wa) + [k] + Parens(wb)) && q == pos + |wa| + |wb| + 5
    requires m == pos + |wa| + 1
    ensures ParenWords(ts, pos, wa, m + 1) && ts[m + 1] == k && ParenWords(ts, m + 2, wb, q)
  {
    OperatorLayout(ts, pos, wa, k, wb, m + 1, q);
  }

  /** `( a )` ending at m, followed by a token, holds the formula a. */
  lemma {:induction false} LeftOperandFormula(ts: seq<Token>, pos: nat, a: Node, wa: seq<Token>, m: nat)
    requires WfFormula(a) && wa == PrintFormula(a) && EndsWithEof(ts) && ParenWords(ts, pos, wa, m)
    ensures At(ts, pos) && ts[pos].kind == LParen && PrintedFormula(ts, pos + 1, a, m - 1) && ts[m - 1].kind == RParen
  {
  }

  /** `( b )` ending at q, followed by a token that ends a formula. */
  lemma {:induction false} RightOperandFormula(ts: seq<Token>, pos: nat, b: Node, wb: seq<Token>, q: nat)
    requires WfFormula(b) && wb == PrintFormula(b) && EndsWithEof(ts) && ParenWords(ts, pos, wb, q)
    requires q < |ts| && FormulaStop(ts[q].kind)
    ensures PrintedParenFormula(ts, pos, b, q)
  {
  }

  /** `( a ) and/or ( b )` followed by a token that ends a formula at q
      parses back to the conjunction or disjunction of a and b. */
  lemma {:induction false} ConnectiveRoundTrip(ts: seq<Token>, pos: nat, f: Node, q: nat)
    requires PrintedFormula(ts, pos, f, q) && (f.tag == PredAnd || f.tag == PredOr)
    ensures FilterFormula(ts, pos) == Parsed(f, q)
    decreases f, 1
  {
    var a, m, b := ConnectiveOperands(ts, pos, f, q);
    ConnectiveShapeAt(f, ts[m + 1]);
    ConnectiveRight(ts, pos, f, a, m, b, q);
  }

  /** `( a ) and/or ( b )`, once the operands are located. */
  lemma {:induction false} ConnectiveRight(ts: seq<Token>, pos: nat, f: Node, a: Node, m: nat, b: Node, q: nat)
    requires m + 2 < |ts| && ts[m + 1].kind == FiltConnective && f == Branch(Connective(ts[m + 1]), [a, b])
    requires At(ts, pos) && ts[pos].kind == LParen && PrintedFormula(ts, pos + 1, a, m) && ts[m].kind == RParen
    requires PrintedParenFormula(ts, m + 2, b, q)
    ensures FilterFormula(ts, pos) == Parsed(f, q)
    decreases f, 0
  {
    assert a in f.children;
    FormulaRoundTrip(ts, pos + 1, a, m);
    ConnectiveTail(ts, pos, f, a, m, b, q);
  }

  /** `( a ) and/or b`, once a is known to be read from pos + 1 up to m. */
  lemma {:induction false} ConnectiveTail(ts: seq<Token>, pos: nat, f: Node, a: Node, m: nat, b: Node, q: nat)
    requires At(ts, pos + 1) && FilterFormula(ts, pos + 1) == Parsed(a, m) && ts[pos].kind == LParen
    requires m + 2 < |ts| && ts[m].kind == RParen && ts[m + 1].kind == FiltConnective
    requires f == Branch(Connective(ts[m + 1]), [a, b]) && PrintedParenFormula(ts, m + 2, b, q)
    ensures FilterFormula(ts, pos) == Parsed(f, q)
    decreases f, -1
  {
    assert b in f.children;
    ParenFormulaRoundTrip(ts, m + 2, b, q);
    ParenthesisedThenConnective(ts, pos, a, m, b, q);
  }

  /** `( a ) and/or b`: the parenthesised formula continued by the rest. */
  lemma {:induction false} ParenthesisedThenConnective(ts: seq<Token>, pos: nat, a: Node, m: nat, b: Node, q: nat)
    requires At(ts, pos) && ts[pos].kind == LParen && FilterFormula(ts, pos + 1) == Parsed(a, m)
    requires ts[m].kind == RParen && m + 1 < |ts| && ts[m + 1].kind == FiltConnective
    requires m + 2 < |ts| && FilterFormula(ts, m + 2) == Parsed(b, q)
    ensures FilterFormula(ts, pos) == Parsed(Branch(Connective(ts[m + 1]), [a, b]), q)
  {
    ConnectiveStep(ts, m + 1, a, b, q);
    ParenthesisedStep(ts, pos, a, m);
  }

  /** `( a )` with nothing after it that continues a formula. */
  lemma {:induction false} ParenthesisedAlone(ts: seq<Token>, pos: nat, a: Node, m: nat)
    requires At(ts, pos) && ts[pos].kind == LParen && FilterFormula(ts, pos + 1) == Parsed(a, m)
    requires ts[m].kind == RParen && m + 1 < |ts| && ts[m + 1].kind != FiltConnective
    ensures FilterFormula(ts, pos) == Parsed(a, m + 1)
  {
    ParenthesisedStep(ts, pos, a, m);
  }

  /** `( a )` followed by whatever continues it. */
  lemma {:induction false} ParenthesisedStep(ts: seq<Token>, pos: nat, a: Node, m: nat)
    requires At(ts, pos) && ts[pos].kind == LParen && FilterFormula(ts, pos + 1) == Parsed(a, m)
    requires ts[m].kind == RParen && m + 1 < |ts|
    ensures FilterFormula(ts, pos) == FilterContinuation(ts, m + 1, a)
  {
  }

  /** `and b` / `or b` after a formula `prev`. */
  lemma {:induction false} ConnectiveStep(ts: seq<Token>, p: nat, prev: Node, b: Node, q: nat)
    requires At(ts, p) && ts[p].kind == FiltConnective && p + 1 < |ts|
    requires FilterFormula(ts, p + 1) == Parsed(b, q)
    ensures FilterContinuation(ts, p, prev) == Parsed(Branch(Connective(ts[p]), [prev, b]), q)
  {
  }

  /** A formula that starts with a word is a property-first predicate. */
  lemma {:induction false} WordFormula(ts: seq<Token>, pos: nat)
    requires At(ts, pos) && ts[pos].kind == Word
    ensures FilterFormula(ts, pos) == PropertyFirst(ts, pos)
  {
  }

  /** A formula that starts with a number is a number-first predicate. */
  lemma {:induction false} NumberFormula(ts: seq<Token>, pos: nat)
    requires At(ts, pos) && ts[pos].kind == NumberLit
    ensures FilterFormula(ts, pos) == NumberFirst(ts, pos)
  {
  }

  /** The operands of a well-formed property-first predicate, and its printed form. */
  lemma {:induction false} PropertyFirstParts(f: Node) returns (v: Node, t: Token, n: Num)
    requires WfFormula(f) && f.tag == Predicate && IsVarProp(f.children[0])
    ensures f == Branch(Predicate, [v, Leaf(PredOp, t), ValueLeaf(n)]) && IsVarProp(v) && t.kind == PredOperator
    ensures PrintFormula(f) == PrintVarProp(v) + [t] + PrintNum(n)
  {
    v, t, n := f.children[0], f.children[1].payload.tok, f.children[2].payload.num;
  }

  /** The operands of a well-formed number-first predicate, and its printed form. */
  lemma {:induction false} NumberFirstParts(f: Node) returns (n: Num, t: Token, v: Node)
    requires WfFormula(f) && f.tag == Predicate && !IsVarProp(f.children[0])
    ensures f == Branch(Predicate, [ValueLeaf(n), Leaf(PredOp, t), v]) && IsVarProp(v) && t.kind == PredOperator
    ensures PrintFormula(f) == PrintNum(n) + [t] + PrintVarProp(v)
  {
    n, t, v := f.children[0].payload.num, f.children[1].payload.tok, f.children[2];
  }

  /** Where the pieces of a printed `WORD . WORD op value` sit. */
  lemma {:induction false} PropertyFirstLayout(ts: seq<Token>, pos: nat, v: Node, t: Token, n: Num, q: nat)
    requires IsVarProp(v) && EndsWithEof(ts) && Spells(ts, pos, PrintVarProp(v) + [t] + PrintNum(n))
    requires q == pos + |PrintVarProp(v) + [t] + PrintNum(n)| && q < |ts| && FormulaStop(ts[q].kind)
    ensures PrintedVarProp(ts, pos, v) && ts[pos + 3] == t && PrintedNum(ts, pos + 4, n, q)
  {
    TripleLayout(ts, pos, PrintVarProp(v), t, PrintNum(n));
  }

  lemma {:induction false} PropertyFirstRoundTrip(ts: seq<Token>, pos: nat, f: Node, q: nat)
    requires WfFormula(f) && f.tag == Predicate && IsVarProp(f.children[0])
    requires EndsWithEof(ts) && Spells(ts, pos, PrintFormula(f))
    requires q == pos + |PrintFormula(f)| && q < |ts| && FormulaStop(ts[q].kind)
    ensures FilterFormula(ts, pos) == Parsed(f, q)
  {
    var v, t, n := PropertyFirstParts(f);
    PropertyFirstLayout(ts, pos, v, t, n, q);
    VarPropRoundTrip(ts, pos, v);
    NumRoundTrip(ts, pos + 4, n, q);
    PropertyFirstGlue(ts, pos, v, ValueLeaf(n), q);
  }

  /** `WORD . WORD op value` with nothing after it that continues a formula. */
  lemma {:induction false} PropertyFirstGlue(ts: seq<Token>, pos: nat, v: Node, e: Node, q: nat)
    requires At(ts, pos) && ts[pos].kind == Word && VariableRef(ts, pos) == Parsed(v, pos + 3)
    requires ts[pos + 3].kind == PredOperator && pos + 4 < |ts| && Expression(ts, pos + 4) == Parsed(e, q)
    requires ts[q].kind != FiltConnective
    ensures FilterFormula(ts, pos) == Parsed(Branch(Predicate, [v, Leaf(PredOp, ts[pos + 3]), e]), q)
  {
    PropertyFirstStep(ts, pos, v, pos + 3, e, q);
    WordFormula(ts, pos);
  }

  /** Where the pieces of a printed `value op WORD . WORD` sit; m is the
      operator's position. */
  lemma {:induction false} NumberFirstLayout(ts: seq<Token>, pos: nat, n: Num, t: Token, v: Node, q: nat) returns (m: nat)
    requires IsVarProp(v) && EndsWithEof(ts) && Spells(ts, pos, PrintNum(n) + [t] + PrintVarProp(v))
    requires q == pos + |PrintNum(n) + [t] + PrintVarProp(v)| && q < |ts| && FormulaStop(ts[q].kind)
    requires t.kind == PredOperator
    ensures PrintedNum(ts, pos, n, m) && ts[m] == t && PrintedVarProp(ts, m + 1, v) && q == m + 4
  {
    m := pos + |PrintNum(n)|;
    TripleLayout(ts, pos, PrintNum(n), t, PrintVarProp(v));
  }

  lemma {:induction false} NumberFirstRoundTrip(ts: seq<Token>, pos: nat, f: Node, q: nat)
    requires WfFormula(f) && f.tag == Predicate && !IsVarProp(f.children[0])
    requires EndsWithEof(ts) && Spells(ts, pos, PrintFormula(f))
    requires q == pos + |PrintFormula(f)| && q < |ts| && FormulaStop(ts[q].kind)
    ensures FilterFormula(ts, pos) == Parsed(f, q)
  {
    var n, t, v := NumberFirstParts(f);
    var m := NumberFirstLayout(ts, pos, n, t, v, q);
    VarPropRoundTrip(ts, m + 1, v);
    NumRoundTrip(ts, pos, n, m);
    NumberFirstGlue(ts, pos, ValueLeaf(n), m, v, q);
  }

  /** `value op WORD . WORD` with nothing after it that continues a formula. */
  lemma {:induction false} NumberFirstGlue(ts: seq<Token>, pos: nat, e: Node, m: nat, v: Node, q: nat)
    requires At(ts, pos) && ts[pos].kind == NumberLit && Expression(ts, pos) == Parsed(e, m)
    requires ts[m].kind == PredOperator && m + 1 < |ts| && VariableRef(ts, m + 1) == Parsed(v, q)
    requires ts[q].kind != FiltConnective
    ensures FilterFormula(ts, pos) == Parsed(Branch(Predicate, [e, Leaf(PredOp, ts[m]), v]), q)
  {
    NumberFirstStep(ts, pos, e, m, v, q);
    NumberFormula(ts, pos);
  }
}
