/** The CEPL expression grammar (parse, parseCEPL, parseCEPLOP, parseFilterOp).
    After the primary the postfix layers apply in a fixed order: Kleene `+`,
    then `filter`, then `:`/`|`, whose right operand is a whole new CEPL
    expression, so both group to the right at one level. */
module CeplGrammar {
  import opened Tokens
  import opened Ast
  import opened Formulas

  /** parse: one CEPL expression that must be followed by the end of input. */
  function Parse(ts: seq<Token>): (r: Result<Node>)
    requires EndsWithEof(ts)
    ensures r.Ok? ==> WfCepl(r.value)
    ensures r.Err? ==> r.at < |ts|
  {
    CeplShape(ts, 0);
    match Cepl(ts, 0)
    case Unexpected(at) => Err(at)
    case Parsed(n, p) => if ts[p].kind != Eof then Err(p) else Ok(n)
  }

  /** parseCEPL: a primary, then the postfix layers. */
  function Cepl(ts: seq<Token>, pos: nat): (r: Parsed<Node>)
    requires At(ts, pos)
    ensures Advances(ts, pos, r)
    decreases |ts| - pos, 1
  {
    match Primary(ts, pos)
    case Unexpected(at) => Unexpected(at)
    case Parsed(n, p) => Postfix(ts, p, n)
  }

  /** The postfix layers of parseCEPL applied to the primary n: an optional
      Kleene `+`, then the filter layer, then the `:`/`|` layer. */
  function Postfix(ts: seq<Token>, pos: nat, n: Node): (r: Parsed<Node>)
    requires At(ts, pos)
    ensures Stays(ts, pos, r)
    decreases |ts| - pos, 3
  {
    var (k, q) := if ts[pos].kind == PlusSign then (Branch(Kleene, [n]), Next(ts, pos)) else (n, pos);
    match FilterOp(ts, q, k)
    case Unexpected(at) => Unexpected(at)
    case Parsed(f, s) => CeplOp(ts, s, f)
  }

  /** The primary of parseCEPL: `( expression )`, or `RELATION as WORD` as
      ASSIGN [RELATION, VARIABLE]; any other lookahead is unexpected (the
      source's check that the node is still empty). */
  function Primary(ts: seq<Token>, pos: nat): (r: Parsed<Node>)
    requires At(ts, pos)
    ensures Advances(ts, pos, r)
    ensures (ts[pos].kind != LParen && ts[pos].kind != RelationName) ==> r == Unexpected(pos)
    decreases |ts| - pos, 0
  {
    if ts[pos].kind == LParen then
      match Cepl(ts, Next(ts, pos))
      case Unexpected(at) => Unexpected(at)
      case Parsed(n, p) => if ts[p].kind != RParen then Unexpected(p) else Parsed(n, Next(ts, p))
    else if ts[pos].kind == RelationName then
      var p := Next(ts, pos);
      if ts[p].kind != AsKw then Unexpected(p)
      else
        var q := Next(ts, p);
        if ts[q].kind != Word then Unexpected(q)
        else Parsed(Branch(Assign, [Leaf(Relation, ts[pos]), Leaf(Variable, ts[q])]), Next(ts, q))
    else
      Unexpected(pos)
  }

  /** parseCEPLOP: `:` gives SEQ and `|` gives OR, with children [prev, the
      whole CEPL expression after the operator]; otherwise `prev` unchanged. */
  function CeplOp(ts: seq<Token>, pos: nat, prev: Node): (r: Parsed<Node>)
    requires At(ts, pos)
    ensures Stays(ts, pos, r)
    ensures (ts[pos].kind != ColonSign && ts[pos].kind != BarSign) ==> r == Parsed(prev, pos)
    decreases |ts| - pos, 2
  {
    if ts[pos].kind == ColonSign || ts[pos].kind == BarSign then
      match Cepl(ts, Next(ts, pos))
      case Unexpected(at) => Unexpected(at)
      case Parsed(b, p) => Parsed(Branch(if ts[pos].kind == ColonSign then Seq else Or, [prev, b]), p)
    else
      Parsed(prev, pos)
  }

  /** parseFilterOp: `filter` gives FILTER [prev, formula]; otherwise `prev` unchanged. */
  function FilterOp(ts: seq<Token>, pos: nat, prev: Node): (r: Parsed<Node>)
    requires At(ts, pos)
    ensures Stays(ts, pos, r)
    ensures ts[pos].kind != FilterKw ==> r == Parsed(prev, pos)
  {
    if ts[pos].kind == FilterKw then
      match FilterFormula(ts, Next(ts, pos))
      case Unexpected(at) => Unexpected(at)
      case Parsed(f, p) => Parsed(Branch(Filter, [prev, f]), p)
    else
      Parsed(prev, pos)
  }

  /** Every CEPL tree the parser builds is well formed. */
  lemma {:induction false} CeplShape(ts: seq<Token>, pos: nat)
    requires At(ts, pos)
    ensures Cepl(ts, pos).Parsed? ==> WfCepl(Cepl(ts, pos).value)
    decreases |ts| - pos, 1
  {
    PrimaryShape(ts, pos);
    match Primary(ts, pos)
    case Unexpected(_) =>
    case Parsed(n, p) => PostfixShape(ts, p, n);
  }

  /** The postfix layers keep a well-formed tree well formed. */
  lemma {:induction false} PostfixShape(ts: seq<Token>, pos: nat, n: Node)
    requires At(ts, pos)
    ensures WfCepl(n) && Postfix(ts, pos, n).Parsed? ==> WfCepl(Postfix(ts, pos, n).value)
    decreases |ts| - pos, 3
  {
    var (k, q) := if ts[pos].kind == PlusSign then (Branch(Kleene, [n]), pos + 1) else (n, pos);
    FilterOpShape(ts, q, k);
    match FilterOp(ts, q, k)
    case Unexpected(_) =>
    case Parsed(f, s) => CeplOpShape(ts, s, f);
  }

  lemma {:induction false} PrimaryShape(ts: seq<Token>, pos: nat)
    requires At(ts, pos)
    ensures Primary(ts, pos).Parsed? ==> WfCepl(Primary(ts, pos).value)
    decreases |ts| - pos, 0
  {
    if ts[pos].kind == LParen {
      CeplShape(ts, pos + 1);
    }
  }

  /** The `:`/`|` layer keeps a well-formed tree well formed. */
  lemma {:induction false} CeplOpShape(ts: seq<Token>, pos: nat, prev: Node)
    requires At(ts, pos)
    ensures WfCepl(prev) && CeplOp(ts, pos, prev).Parsed? ==> WfCepl(CeplOp(ts, pos, prev).value)
    decreases |ts| - pos, 2
  {
    if ts[pos].kind == ColonSign || ts[pos].kind == BarSign {
      CeplShape(ts, pos + 1);
    }
  }

  /** The filter layer keeps a well-formed tree well formed. */
  lemma {:induction false} FilterOpShape(ts: seq<Token>, pos: nat, prev: Node)
    requires At(ts, pos)
    ensures WfCepl(prev) && FilterOp(ts, pos, prev).Parsed? ==> WfCepl(FilterOp(ts, pos, prev).value)
  {
    if ts[pos].kind == FilterKw {
      FormulaShape(ts, pos + 1);
    }
  }

  /** parse accepts exactly when parseCEPL succeeds and the end of input
      follows; anything else left over is an error at that token. */
  lemma {:induction false} ParseOutcome(ts: seq<Token>)
    requires EndsWithEof(ts)
    ensures Cepl(ts, 0).Unexpected? ==> Parse(ts) == Err(Cepl(ts, 0).at)
    ensures Cepl(ts, 0).Parsed? && ts[Cepl(ts, 0).pos].kind != Eof ==> Parse(ts) == Err(Cepl(ts, 0).pos)
    ensures Cepl(ts, 0).Parsed? && ts[Cepl(ts, 0).pos].kind == Eof ==> Parse(ts) == Ok(Cepl(ts, 0).value)
  {
  }

  /** With the only EOF token at the end, an accepted input was consumed
      entirely: parseCEPL stopped at the last index. */
  lemma {:induction false} ParseConsumesAll(ts: seq<Token>)
    requires OnlyFinalEof(ts)
    ensures Parse(ts).Ok? <==> Cepl(ts, 0).Parsed? && Cepl(ts, 0).pos == |ts| - 1
  {
    ParseOutcome(ts);
  }

  /** A parenthesised expression is its inner tree: parentheses add no node. */
  lemma {:induction false} ParenPrimary(ts: seq<Token>, pos: nat, n: Node, m: nat)
    requires At(ts, pos) && ts[pos].kind == LParen && Cepl(ts, pos + 1) == Parsed(n, m)
    ensures ts[m].kind == RParen ==> Primary(ts, pos) == Parsed(n, m + 1)
    ensures ts[m].kind != RParen ==> Primary(ts, pos) == Unexpected(m)
  {
  }

  /** `RELATION as WORD` is ASSIGN [RELATION leaf, VARIABLE leaf]; a missing
      `as` or WORD is an error at the token found in its place. */
  lemma {:induction false} AssignPrimary(ts: seq<Token>, pos: nat)
    requires At(ts, pos) && ts[pos].kind == RelationName
    ensures ts[pos + 1].kind != AsKw ==> Primary(ts, pos) == Unexpected(pos + 1)
    ensures ts[pos + 1].kind == AsKw && ts[pos + 2].kind != Word ==> Primary(ts, pos) == Unexpected(pos + 2)
    ensures ts[pos + 1].kind == AsKw && ts[pos + 2].kind == Word ==>
      Primary(ts, pos) == Parsed(Branch(Assign, [Leaf(Relation, ts[pos]), Leaf(Variable, ts[pos + 2])]), pos + 3)
  {
  }

  /** parseCEPL is the primary followed by the postfix layers. */
  lemma {:induction false} PrimaryThenPostfix(ts: seq<Token>, pos: nat, n: Node, p: nat)
    requires At(ts, pos) && Primary(ts, pos) == Parsed(n, p)
    ensures Cepl(ts, pos) == Postfix(ts, p, n)
  {
  }

  /** No postfix operator: the primary is the whole expression. */
  lemma {:induction false} NoPostfix(ts: seq<Token>, pos: nat, n: Node)
    requires At(ts, pos)
    requires ts[pos].kind != PlusSign && ts[pos].kind != FilterKw && ts[pos].kind != ColonSign && ts[pos].kind != BarSign
    ensures Postfix(ts, pos, n) == Parsed(n, pos)
  {
  }

  /** One `+` wraps the primary in KLEENE; the token after it is never
      absorbed as a second `+`. */
  lemma {:induction false} KleenePostfix(ts: seq<Token>, pos: nat, n: Node)
    requires At(ts, pos) && ts[pos].kind == PlusSign
    requires ts[pos + 1].kind != FilterKw && ts[pos + 1].kind != ColonSign && ts[pos + 1].kind != BarSign
    ensures Postfix(ts, pos, n) == Parsed(Branch(Kleene, [n]), pos + 1)
  {
  }

  /** `filter` after the (possibly Kleene-wrapped) primary gives FILTER over it. */
  lemma {:induction false} FilterPostfix(ts: seq<Token>, pos: nat, n: Node, f: Node, q: nat)
    requires At(ts, pos) && ts[pos].kind == FilterKw && FilterFormula(ts, pos + 1) == Parsed(f, q)
    requires ts[q].kind != ColonSign && ts[q].kind != BarSign
    ensures Postfix(ts, pos, n) == Parsed(Branch(Filter, [n, f]), q)
  {
  }

  /** Kleene binds before filter: `p + filter f` is FILTER (KLEENE p, f). */
  lemma {:induction false} KleeneThenFilter(ts: seq<Token>, pos: nat, n: Node, f: Node, q: nat)
    requires At(ts, pos) && ts[pos].kind == PlusSign && ts[pos + 1].kind == FilterKw
    requires FilterFormula(ts, pos + 2) == Parsed(f, q) && ts[q].kind != ColonSign && ts[q].kind != BarSign
    ensures Postfix(ts, pos, n) == Parsed(Branch(Filter, [Branch(Kleene, [n]), f]), q)
  {
  }

  /** `:` or `|` after the primary takes the whole CEPL expression that
      follows as its right operand, so both group to the right. */
  lemma {:induction false} SequencePostfix(ts: seq<Token>, pos: nat, n: Node, b: Node, q: nat)
    requires At(ts, pos) && (ts[pos].kind == ColonSign || ts[pos].kind == BarSign)
    requires Cepl(ts, pos + 1) == Parsed(b, q)
    ensures Postfix(ts, pos, n) == Parsed(Branch(if ts[pos].kind == ColonSign then Seq else Or, [n, b]), q)
  {
  }
}
