/** The whole parser is a left inverse of the CEPL printer: a well-formed CEPL
    tree, printed with every operand in parentheses and followed by EOF, is
    accepted by parse and gives back the same tree. */
module CeplRoundTrip {
  import opened Tokens
  import opened Ast
  import opened Formulas
  import opened CeplGrammar
  import opened Printing
  import opened RoundTrip
  import opened TreeRoundTrip

  /** w is the printed form of the well-formed CEPL tree n. */
  predicate PrintsCepl(n: Node, w: seq<Token>) {
    WfCepl(n) && w == PrintCepl(n)
  }

  /** w is the printed form of the well-formed filter formula f. */
  predicate PrintsFormula(f: Node, w: seq<Token>) {
    WfFormula(f) && w == PrintFormula(f)
  }

  /** The tokens from pos up to q spell w, and the token at q ends a CEPL
      expression. */
  predicate Placed(ts: seq<Token>, pos: nat, w: seq<Token>, q: nat) {
    EndsWithEof(ts) && Spells(ts, pos, w) && q == pos + |w| && q < |ts| && CeplStop(ts[q].kind)
  }

  /** The tokens from pos up to q spell the well-formed CEPL tree n, and the
      token at q ends a CEPL expression. */
  predicate PrintedCepl(ts: seq<Token>, pos: nat, n: Node, q: nat) {
    WfCepl(n) && Placed(ts, pos, PrintCepl(n), q)
  }

  /** The tokens from pos up to q spell `( n )`. */
  predicate PrintedParenCepl(ts: seq<Token>, pos: nat, n: Node, q: nat) {
    1 <= q && PrintedCepl(ts, pos + 1, n, q - 1) && ts[pos].kind == LParen && ts[q - 1].kind == RParen
  }

  /** A printed program followed by the end of input is accepted and gives
      back the tree that was printed. */
  lemma {:induction false} ParsePrintRoundTrip(n: Node)
    requires WfCepl(n)
    ensures Parse(PrintCepl(n) + [Sym(Eof, "")]) == Ok(n)
  {
    var ts := PrintCepl(n) + [Sym(Eof, "")];
    WholeLayout(n, PrintCepl(n), ts);
    CeplRoundTrip(ts, 0, n, |PrintCepl(n)|);
    ParseOutcome(ts);
  }

  /** A printed program followed by EOF spells the program from 0, up to EOF. */
  lemma {:induction false} WholeLayout(n: Node, w: seq<Token>, ts: seq<Token>)
    requires PrintsCepl(n, w) && ts == w + [Sym(Eof, "")]
    ensures PrintedCepl(ts, 0, n, |w|)
  {
    SpellsPrefix(w, ts);
    CeplAt(ts, 0, n, w, |w|);
  }

  /** A sequence followed by EOF spells the sequence from 0, up to EOF. */
  lemma {:induction false} SpellsPrefix(w: seq<Token>, ts: seq<Token>)
    requires ts == w + [Sym(Eof, "")]
    ensures Spells(ts, 0, w) && EndsWithEof(ts) && |w| < |ts| && ts[|w|].kind == Eof
  {
    WindowIsSlice(ts, 0, |w|);
    assert ts[0..|w|] == w;
  }

  /** Packs the facts about a CEPL tree n spelt from pos up to q. */
  lemma {:induction false} CeplAt(ts: seq<Token>, pos: nat, n: Node, w: seq<Token>, q: nat)
    requires PrintsCepl(n, w) && Placed(ts, pos, w, q)
    ensures PrintedCepl(ts, pos, n, q)
  {
  }

  /** Packs the facts about `( a )` spelt from pos up to m. */
  lemma {:induction false} ParenCeplAt(ts: seq<Token>, pos: nat, a: Node, wa: seq<Token>, m: nat)
    requires PrintsCepl(a, wa) && EndsWithEof(ts) && ParenWords(ts, pos, wa, m)
    ensures PrintedParenCepl(ts, pos, a, m)
  {
    CeplAt(ts, pos + 1, a, wa, m - 1);
  }

  /** Packs the facts about a formula f spelt from pos up to q. */
  lemma {:induction false} FormulaAt(ts: seq<Token>, pos: nat, f: Node, wf: seq<Token>, q: nat)
    requires PrintsFormula(f, wf) && Placed(ts, pos, wf, q)
    ensures PrintedFormula(ts, pos, f, q)
  {
  }

  /** Parsing the tokens of a well-formed CEPL tree, followed by a token that
      ends it at q, gives back the tree. */
  lemma {:induction false} CeplRoundTrip(ts: seq<Token>, pos: nat, n: Node, q: nat)
    requires PrintedCepl(ts, pos, n, q)
    ensures Cepl(ts, pos) == Parsed(n, q)
    decreases n, 2
  {
    if n.tag == Assign {
      AssignRoundTrip(ts, pos, n, q);
    } else if n.tag == Kleene {
      KleeneRoundTrip(ts, pos, n, q);
    } else if n.tag == Filter {
      FilterRoundTrip(ts, pos, n, q);
    } else {
      SequenceRoundTrip(ts, pos, n, q);
    }
  }

  /** `( n )` read as a primary ending at q. */
  lemma {:induction false} ParenCeplRoundTrip(ts: seq<Token>, pos: nat, n: Node, q: nat)
    requires PrintedParenCepl(ts, pos, n, q)
    ensures Primary(ts, pos) == Parsed(n, q)
    decreases n, 3
  {
    var p := q - 1;
    assert At(ts, pos) && ts[p].kind == RParen && PrintedCepl(ts, pos + 1, n, p);
    CeplRoundTrip(ts, pos + 1, n, p);
    ParenPrimary(ts, pos, n, p);
  }

  /** A token that ends a CEPL expression is no postfix operator. */
  lemma {:induction false} StopIsNoPostfix(ts: seq<Token>, q: nat, n: Node)
    requires At(ts, q) && CeplStop(ts[q].kind)
    ensures Postfix(ts, q, n) == Parsed(n, q)
  {
    NoPostfix(ts, q, n);
  }

  // ASSIGN

  /** The tokens of a well-formed ASSIGN node, and its printed form. */
  lemma {:induction false} AssignParts(n: Node) returns (r: Token, w: Token)
    requires WfCepl(n) && n.tag == Assign
    ensures n == Branch(Assign, [Leaf(Relation, r), Leaf(Variable, w)]) && r.kind == RelationName && w.kind == Word
    ensures PrintCepl(n) == [r, Sym(AsKw, "as"), w]
  {
    r, w := n.children[0].payload.tok, n.children[1].payload.tok;
  }

  /** Where the tokens of a printed `RELATION as WORD` sit. */
  lemma {:induction false} AssignLayout(ts: seq<Token>, pos: nat, r: Token, w: Token, q: nat)
    requires Spells(ts, pos, [r, Sym(AsKw, "as"), w]) && q == pos + 3
    ensures ts[pos] == r && ts[pos + 1].kind == AsKw && ts[pos + 2] == w
  {
    SpellsSplit(ts, pos, [r, Sym(AsKw, "as")], [w]);
    SpellsSplit(ts, pos, [r], [Sym(AsKw, "as")]);
    SpellsToken(ts, pos, r);
    SpellsToken(ts, pos + 1, Sym(AsKw, "as"));
    SpellsToken(ts, pos + 2, w);
  }

  /** `RELATION as WORD` followed by a token that ends the expression. */
  lemma {:induction false} AssignGlue(ts: seq<Token>, pos: nat, q: nat)
    requires At(ts, pos) && ts[pos].kind == RelationName && ts[pos + 1].kind == AsKw && ts[pos + 2].kind == Word
    requires q == pos + 3 && q < |ts| && CeplStop(ts[q].kind)
    ensures Cepl(ts, pos) == Parsed(Branch(Assign, [Leaf(Relation, ts[pos]), Leaf(Variable, ts[pos + 2])]), q)
  {
    AssignPrimary(ts, pos);
    PrimaryThenPostfix(ts, pos, Branch(Assign, [Leaf(Relation, ts[pos]), Leaf(Variable, ts[pos + 2])]), q);
    StopIsNoPostfix(ts, q, Branch(Assign, [Leaf(Relation, ts[pos]), Leaf(Variable, ts[pos + 2])]));
  }

  lemma {:induction false} AssignRoundTrip(ts: seq<Token>, pos: nat, n: Node, q: nat)
    requires PrintedCepl(ts, pos, n, q) && n.tag == Assign
    ensures Cepl(ts, pos) == Parsed(n, q)
  {
    var r, w := AssignParts(n);
    AssignLayout(ts, pos, r, w, q);
    AssignGlue(ts, pos, q);
  }

  // KLEENE

  /** The operand of a well-formed KLEENE node, its printed form wa, and the
      printed form of the node. */
  lemma {:induction false} KleeneParts(n: Node) returns (a: Node, wa: seq<Token>)
    requires WfCepl(n) && n.tag == Kleene
    ensures n == Branch(Kleene, [a]) && PrintsCepl(a, wa)
    ensures PrintCepl(n) == Parens(wa) + [Sym(PlusSign, "+")]
  {
    a := n.children[0];
    wa := PrintCepl(a);
  }

  /** Where the pieces of `( wa ) +` sit. */
  lemma {:induction false} KleeneLayout(ts: seq<Token>, pos: nat, wa: seq<Token>, q: nat)
    requires Spells(ts, pos, Parens(wa) + [Sym(PlusSign, "+")]) && q == pos + |wa| + 3
    ensures ParenWords(ts, pos, wa, q - 1) && ts[q - 1].kind == PlusSign
  {
    SpellsSplit(ts, pos, Parens(wa), [Sym(PlusSign, "+")]);
    SpellsToken(ts, q - 1, Sym(PlusSign, "+"));
    SpellsParens(ts, pos, wa);
  }

  /** `( a ) +` followed by a token that ends the expression. */
  lemma {:induction false} KleeneGlue(ts: seq<Token>, pos: nat, a: Node, q: nat)
    requires At(ts, pos) && 1 <= q && Primary(ts, pos) == Parsed(a, q - 1) && ts[q - 1].kind == PlusSign
    requires q < |ts| && CeplStop(ts[q].kind)
    ensures Cepl(ts, pos) == Parsed(Branch(Kleene, [a]), q)
  {
    var p := q - 1;
    assert CeplStop(ts[p + 1].kind);
    PrimaryThenPostfix(ts, pos, a, p);
    KleenePostfix(ts, p, a);
  }

  lemma {:induction false} KleeneRoundTrip(ts: seq<Token>, pos: nat, n: Node, q: nat)
    requires PrintedCepl(ts, pos, n, q) && n.tag == Kleene
    ensures Cepl(ts, pos) == Parsed(n, q)
    decreases n, 1
  {
    var a := KleeneOperand(ts, pos, n, q);
    assert a in n.children;
    ParenCeplRoundTrip(ts, pos, a, q - 1);
    KleeneGlue(ts, pos, a, q);
  }

  /** Where the operand of a printed KLEENE node sits: `( a )` up to the `+`
      at q - 1. */
  lemma {:induction false} KleeneOperand(ts: seq<Token>, pos: nat, n: Node, q: nat) returns (a: Node)
    requires PrintedCepl(ts, pos, n, q) && n.tag == Kleene
    ensures n == Branch(Kleene, [a]) && PrintedParenCepl(ts, pos, a, q - 1)
    ensures ts[q - 1].kind == PlusSign && q < |ts| && CeplStop(ts[q].kind)
  {
    var wa;
    a, wa := KleeneParts(n);
    KleeneLayout(ts, pos, wa, q);
    ParenCeplAt(ts, pos, a, wa, q - 1);
  }

  // FILTER

  /** A well-formed FILTER node has exactly its operand and its formula, and
      no payload. */
  lemma {:induction false} FilterShape(n: Node)
    requires WfCepl(n) && n.tag == Filter
    ensures n == Branch(Filter, [n.children[0], n.children[1]])
  {
  }

  /** The printed form of a FILTER node. */
  lemma {:induction false} PrintFilter(n: Node)
    requires WfCepl(n) && n.tag == Filter
    ensures PrintCepl(n) == Parens(PrintCepl(n.children[0])) + [Sym(FilterKw, "filter")] + PrintFormula(n.children[1])
  {
  }

  /** The operand and the formula of a well-formed FILTER node are well formed. */
  lemma {:induction false} FilterOperandsWf(n: Node)
    requires WfCepl(n) && n.tag == Filter
    ensures WfCepl(n.children[0]) && WfFormula(n.children[1])
  {
  }

  /** The tokens from pos up to q spell `( a ) k f` for a well-formed CEPL
      tree a and a well-formed formula f, and the token at q ends a CEPL
      expression. */
  predicate PrintedFilter(ts: seq<Token>, pos: nat, a: Node, k: Token, f: Node, q: nat) {
    WfCepl(a) && WfFormula(f) && EndsWithEof(ts)
    && Spells(ts, pos, Parens(PrintCepl(a)) + [k] + PrintFormula(f))
    && q == pos + |PrintCepl(a)| + |PrintFormula(f)| + 3 && q < |ts| && CeplStop(ts[q].kind)
  }

  /** A printed FILTER node is its operand in parentheses, the `filter`
      keyword, and its formula. */
  lemma {:induction false} PrintedAsFilter(ts: seq<Token>, pos: nat, n: Node, q: nat)
    requires PrintedCepl(ts, pos, n, q) && n.tag == Filter
    ensures PrintedFilter(ts, pos, n.children[0], Sym(FilterKw, "filter"), n.children[1], q)
  {
    FilterOperandsWf(n);
    PrintFilter(n);
  }

  /** Where the pieces of `( a ) k f` sit: `( a )` up to m, k at m, and the
      formula f from m + 1 up to q. */
  lemma {:induction false} FilterOperandsAt(ts: seq<Token>, pos: nat, a: Node, k: Token, f: Node, q: nat) returns (m: nat)
    requires PrintedFilter(ts, pos, a, k, f, q)
    ensures PrintedParenCepl(ts, pos, a, m) && ts[m] == k && m + 1 < |ts| && PrintedFormula(ts, m + 1, f, q)
    ensures CeplStop(ts[q].kind)
  {
    var wa, wf := PrintCepl(a), PrintFormula(f);
    m := pos + |wa| + 2;
    PrefixedLayout(ts, pos, wa, k, wf, m, q);
    FilterPieces(ts, pos, a, wa, k, f, wf, m, q);
  }

  /** `( wa ) k wf` laid out, said of the tree a and the formula f. */
  lemma {:induction false} FilterPieces(ts: seq<Token>, pos: nat, a: Node, wa: seq<Token>, k: Token, f: Node, wf: seq<Token>, m: nat, q: nat)
    requires PrintsCepl(a, wa) && PrintsFormula(f, wf) && EndsWithEof(ts)
    requires ParenWords(ts, pos, wa, m) && ts[m] == k && Spells(ts, m + 1, wf) && q == m + 1 + |wf| && q < |ts| && CeplStop(ts[q].kind)
    ensures PrintedParenCepl(ts, pos, a, m) && ts[m] == k && m + 1 < |ts| && PrintedFormula(ts, m + 1, f, q)
  {
    ParenCeplAt(ts, pos, a, wa, m);
    FormulaAt(ts, m + 1, f, wf, q);
  }

  /** Where the operands of a printed FILTER node sit: `( a )` up to m, the
      `filter` keyword at m, and the formula f from m + 1 up to q. */
  lemma {:induction false} FilterOperands(ts: seq<Token>, pos: nat, n: Node, q: nat) returns (a: Node, m: nat, f: Node)
    requires PrintedCepl(ts, pos, n, q) && n.tag == Filter
    ensures a == n.children[0] && f == n.children[1]
    ensures PrintedParenCepl(ts, pos, a, m) && ts[m].kind == FilterKw && m + 1 < |ts| && PrintedFormula(ts, m + 1, f, q)
    ensures CeplStop(ts[q].kind)
  {
    a, f := n.children[0], n.children[1];
    PrintedAsFilter(ts, pos, n, q);
    m := FilterOperandsAt(ts, pos, a, Sym(FilterKw, "filter"), f, q);
  }

  lemma {:induction false} FilterRoundTrip(ts: seq<Token>, pos: nat, n: Node, q: nat)
    requires PrintedCepl(ts, pos, n, q) && n.tag == Filter
    ensures Cepl(ts, pos) == Parsed(n, q)
    decreases n, 1
  {
    var a, m, f := FilterOperands(ts, pos, n, q);
    FilterShape(n);
    FilterRight(ts, pos, n, a, m, f, q);
  }

  /** `( a ) filter f`, once the operand and the formula are located. */
  lemma {:induction false} FilterRight(ts: seq<Token>, pos: nat, n: Node, a: Node, m: nat, f: Node, q: nat)
    requires n == Branch(Filter, [a, f]) && PrintedParenCepl(ts, pos, a, m)
    requires ts[m].kind == FilterKw && m + 1 < |ts| && PrintedFormula(ts, m + 1, f, q) && CeplStop(ts[q].kind)
    ensures Cepl(ts, pos) == Parsed(n, q)
    decreases n, 0
  {
    FormulaRoundTrip(ts, m + 1, f, q);
    FilterTail(ts, pos, n, a, m, f, q);
  }

  /** `( a ) filter f`, once f is known to be read as a formula from m + 1 up to q. */
  lemma {:induction false} FilterTail(ts: seq<Token>, pos: nat, n: Node, a: Node, m: nat, f: Node, q: nat)
    requires At(ts, m + 1) && FilterFormula(ts, m + 1) == Parsed(f, q) && CeplStop(ts[q].kind)
    requires n == Branch(Filter, [a, f]) && PrintedParenCepl(ts, pos, a, m) && ts[m].kind == FilterKw
    ensures Cepl(ts, pos) == Parsed(n, q)
    decreases n, -1
  {
    assert a in n.children;
    ParenCeplRoundTrip(ts, pos, a, m);
    FilterGlue(ts, pos, a, m, f, q);
  }

  /** `( a ) filter f` followed by a token that ends the expression. */
  lemma {:induction false} FilterGlue(ts: seq<Token>, pos: nat, a: Node, m: nat, f: Node, q: nat)
    requires At(ts, pos) && Primary(ts, pos) == Parsed(a, m) && ts[m].kind == FilterKw
    requires m + 1 < |ts| && FilterFormula(ts, m + 1) == Parsed(f, q) && CeplStop(ts[q].kind)
    ensures Cepl(ts, pos) == Parsed(Branch(Filter, [a, f]), q)
  {
    PrimaryThenPostfix(ts, pos, a, m);
    FilterPostfix(ts, m, a, f, q);
  }

  // SEQ and OR

  /** The operands and the operator token of a well-formed SEQ or OR node,
      the operands' printed forms, and the printed form of the node. */
  lemma {:induction false} SequenceParts(n: Node) returns (a: Node, wa: seq<Token>, t: Token, b: Node, wb: seq<Token>)
    requires WfCepl(n) && n.tag != Assign && n.tag != Kleene && n.tag != Filter
    ensures n == Branch(if t.kind == ColonSign then Seq else Or, [a, b]) && PrintsCepl(a, wa) && PrintsCepl(b, wb)
    ensures t.kind == ColonSign || t.kind == BarSign
    ensures PrintCepl(n) == Parens(wa) + [t] + Parens(wb)
  {
    a, b := n.children[0], n.children[1];
    wa, wb := PrintCepl(a), PrintCepl(b);
    t := if n.tag == Seq then Sym(ColonSign, ":") else Sym(BarSign, "|");
  }

  /** `( a ) : ( b )` or `( a ) | ( b )` followed by a token that ends the
      expression. */
  lemma {:induction false} SequenceGlue(ts: seq<Token>, pos: nat, a: Node, m: nat, b: Node, q: nat)
    requires At(ts, pos) && Primary(ts, pos) == Parsed(a, m) && (ts[m].kind == ColonSign || ts[m].kind == BarSign)
    requires m + 1 < |ts| && Primary(ts, m + 1) == Parsed(b, q) && CeplStop(ts[q].kind)
    ensures Cepl(ts, pos) == Parsed(Branch(if ts[m].kind == ColonSign then Seq else Or, [a, b]), q)
  {
    PrimaryThenPostfix(ts, m + 1, b, q);
    StopIsNoPostfix(ts, q, b);
    PrimaryThenPostfix(ts, pos, a, m);
    SequencePostfix(ts, m, a, b, q);
  }

  lemma {:induction false} SequenceRoundTrip(ts: seq<Token>, pos: nat, n: Node, q: nat)
    requires PrintedCepl(ts, pos, n, q) && n.tag != Assign && n.tag != Kleene && n.tag != Filter
    ensures Cepl(ts, pos) == Parsed(n, q)
    decreases n, 1
  {
    var a, m, b := SequenceOperands(ts, pos, n, q);
    assert a in n.children;
    ParenCeplRoundTrip(ts, pos, a, m);
    SequenceTail(ts, pos, n, a, m, b, q);
  }

  /** `( a ) : ( b )` or `( a ) | ( b )`, once `( a )` is known to be read up
      to m. */
  lemma {:induction false} SequenceTail(ts: seq<Token>, pos: nat, n: Node, a: Node, m: nat, b: Node, q: nat)
    requires At(ts, pos) && Primary(ts, pos) == Parsed(a, m) && (ts[m].kind == ColonSign || ts[m].kind == BarSign)
    requires n == Branch(if ts[m].kind == ColonSign then Seq else Or, [a, b])
    requires m + 1 < |ts| && PrintedParenCepl(ts, m + 1, b, q) && CeplStop(ts[q].kind)
    ensures Cepl(ts, pos) == Parsed(n, q)
    decreases n, 0
  {
    assert b in n.children;
    ParenCeplRoundTrip(ts, m + 1, b, q);
    SequenceGlue(ts, pos, a, m, b, q);
  }

  /** Where the operands of a printed SEQ or OR node sit: `( a )` up to m,
      the operator at m, and `( b )` from m + 1 up to q. */
  lemma {:induction false} SequenceOperands(ts: seq<Token>, pos: nat, n: Node, q: nat) returns (a: Node, m: nat, b: Node)
    requires PrintedCepl(ts, pos, n, q) && n.tag != Assign && n.tag != Kleene && n.tag != Filter
    ensures m + 1 < |ts| && n == Branch(if ts[m].kind == ColonSign then Seq else Or, [a, b])
    ensures PrintedParenCepl(ts, pos, a, m) && (ts[m].kind == ColonSign || ts[m].kind == BarSign)
    ensures PrintedParenCepl(ts, m + 1, b, q) && CeplStop(ts[q].kind)
  {
    var wa, t, wb;
    a, wa, t, b, wb := SequenceParts(n);
    m := pos + |wa| + 2;
    OperandsAt(ts, pos, a, wa, t, b, wb, m, q);
  }

  /** Packs the facts about `( a ) t ( b )` spelt from pos up to q, where m
      is the position of t. */
  lemma {:induction false} OperandsAt(ts: seq<Token>, pos: nat, a: Node, wa: seq<Token>, t: Token, b: Node, wb: seq<Token>, m: nat, q: nat)
    requires PrintsCepl(a, wa) && PrintsCepl(b, wb) && Placed(ts, pos, Parens(wa) + [t] + Parens(wb), q)
    requires m == pos + |wa| + 2
    ensures m + 1 < |ts| && ts[m] == t && PrintedParenCepl(ts, pos, a, m) && PrintedParenCepl(ts, m + 1, b, q)
  {
    OperatorLayout(ts, pos, wa, t, wb, m, q);
    ParenCeplAt(ts, pos, a, wa, m);
    ParenCeplAt(ts, m + 1, b, wb, q);
  }
}
