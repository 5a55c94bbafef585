/** The filter formula grammar (parseFilterFormula, parseFilterContinuation)
    and the variable-property reference (parseVariable). `and`/`or` share one
    level and the continuation re-enters the formula grammar, so chains group
    to the right, and `not` takes the whole formula after it. */
module Formulas {
  import opened Tokens
  import opened Ast
  import opened Arithmetic

  /** parseFilterFormula: `not` formula, `( formula )` followed by the
      continuation, or one of the two predicate forms. */
  function FilterFormula(ts: seq<Token>, pos: nat): (r: Parsed<Node>)
    requires At(ts, pos)
    ensures Advances(ts, pos, r)
    decreases |ts| - pos, 1
  {
    if ts[pos].kind == NotKw then
      match FilterFormula(ts, Next(ts, pos))
      case Unexpected(at) => Unexpected(at)
      case Parsed(f, p) => Parsed(Branch(PredNot, [f]), p)
    else if ts[pos].kind == LParen then
      match FilterFormula(ts, Next(ts, pos))
      case Unexpected(at) => Unexpected(at)
      case Parsed(f, p) =>
        if ts[p].kind != RParen then Unexpected(p)
        else FilterContinuation(ts, Next(ts, p), f)
    else if ts[pos].kind == Word then
      PropertyFirst(ts, pos)
    else
      NumberFirst(ts, pos)
  }

  /** The predicate `WORD . WORD op expression` of parseFilterFormula, as
      PREDICATE [VAR_PROP, PRED_OP, VALUE], followed by the continuation. */
  function PropertyFirst(ts: seq<Token>, pos: nat): (r: Parsed<Node>)
    requires At(ts, pos)
    ensures Advances(ts, pos, r)
    ensures VariableRef(ts, pos).Unexpected? ==> r == VariableRef(ts, pos)
    ensures VariableRef(ts, pos).Parsed? && ts[pos + 3].kind != PredOperator ==> r == Unexpected(pos + 3)
    decreases |ts| - pos, 0
  {
    match VariableRef(ts, pos)
    case Unexpected(at) => Unexpected(at)
    case Parsed(v, p) =>
      if ts[p].kind != PredOperator then Unexpected(p)
      else
        match Expression(ts, Next(ts, p))
        case Unexpected(at) => Unexpected(at)
        case Parsed(e, q) => FilterContinuation(ts, q, Branch(Predicate, [v, Leaf(PredOp, ts[p]), e]))
  }

  /** The predicate `expression op WORD . WORD` of parseFilterFormula, as
      PREDICATE [VALUE, PRED_OP, VAR_PROP], followed by the continuation. */
  function NumberFirst(ts: seq<Token>, pos: nat): (r: Parsed<Node>)
    requires At(ts, pos)
    ensures Advances(ts, pos, r)
    ensures Expression(ts, pos).Unexpected? ==> r == Expression(ts, pos)
    ensures Expression(ts, pos).Parsed? && ts[Expression(ts, pos).pos].kind != PredOperator ==>
      r == Unexpected(Expression(ts, pos).pos)
    decreases |ts| - pos, 0
  {
    match Expression(ts, pos)
    case Unexpected(at) => Unexpected(at)
    case Parsed(e, p) =>
      if ts[p].kind != PredOperator then Unexpected(p)
      else
        match VariableRef(ts, Next(ts, p))
        case Unexpected(at) => Unexpected(at)
        case Parsed(v, q) => FilterContinuation(ts, q, Branch(Predicate, [e, Leaf(PredOp, ts[p]), v]))
  }

  /** The connective a FILT_OP token stands for: the text "or" is a
      disjunction, any other text a conjunction. */
  function Connective(t: Token): (tag: NodeType)
    ensures tag == PredOr <==> t.text == "or"
    ensures tag == PredAnd || tag == PredOr
  {
    if t.text == "or" then PredOr else PredAnd
  }

  /** parseFilterContinuation: if the lookahead is `and`/`or`, consume it and
      combine `prev` with the whole formula that follows; otherwise return
      `prev` unchanged. */
  function FilterContinuation(ts: seq<Token>, pos: nat, prev: Node): (r: Parsed<Node>)
    requires At(ts, pos)
    ensures Stays(ts, pos, r)
    ensures ts[pos].kind != FiltConnective ==> r == Parsed(prev, pos)
    decreases |ts| - pos, 2
  {
    if ts[pos].kind == FiltConnective then
      match FilterFormula(ts, Next(ts, pos))
      case Unexpected(at) => Unexpected(at)
      case Parsed(f, p) => Parsed(Branch(Connective(ts[pos]), [prev, f]), p)
    else
      Parsed(prev, pos)
  }

  /** parseVariable: `WORD . WORD` as VAR_PROP [VARIABLE, PROPERTY]; the first
      token out of place is the error. */
  function VariableRef(ts: seq<Token>, pos: nat): (r: Parsed<Node>)
    requires At(ts, pos)
    ensures Advances(ts, pos, r)
    ensures r.Parsed? ==> IsVarProp(r.value) && r.pos == pos + 3
    ensures ts[pos].kind != Word ==> r == Unexpected(pos)
    ensures ts[pos].kind == Word && ts[pos + 1].kind != DotSign ==> r == Unexpected(pos + 1)
    ensures ts[pos].kind == Word && ts[pos + 1].kind == DotSign && ts[pos + 2].kind != Word ==> r == Unexpected(pos + 2)
  {
    if ts[pos].kind != Word then Unexpected(pos)
    else
      var p := Next(ts, pos);
      if ts[p].kind != DotSign then Unexpected(p)
      else
        var q := Next(ts, p);
        if ts[q].kind != Word then Unexpected(q)
        else Parsed(Branch(VarProp, [Leaf(Variable, ts[pos]), Leaf(Property, ts[q])]), Next(ts, q))
  }

  /** `( f` with anything but `)` after the formula is an error at that token. */
  lemma {:induction false} UnclosedFormula(ts: seq<Token>, pos: nat, f: Node, p: nat)
    requires At(ts, pos) && ts[pos].kind == LParen && FilterFormula(ts, pos + 1) == Parsed(f, p)
    requires ts[p].kind != RParen
    ensures FilterFormula(ts, pos) == Unexpected(p)
  {
  }

  /** A lookahead that can start no formula (not `not`, `(`, a WORD, a NUMBER
      or `-`) is an error right there: the formula is missing. */
  lemma {:induction false} MissingFormula(ts: seq<Token>, pos: nat)
    requires At(ts, pos) && ts[pos].kind != NotKw && ts[pos].kind != LParen && ts[pos].kind != Word
    requires ts[pos].kind != NumberLit && ts[pos].kind != MinusSign
    ensures FilterFormula(ts, pos) == Unexpected(pos)
  {
    MissingExpression(ts, pos);
  }

  /** Every formula the parser builds is well formed. */
  lemma {:induction false} FormulaShape(ts: seq<Token>, pos: nat)
    requires At(ts, pos)
    ensures FilterFormula(ts, pos).Parsed? ==> WfFormula(FilterFormula(ts, pos).value)
    decreases |ts| - pos, 1
  {
    if ts[pos].kind == NotKw || ts[pos].kind == LParen {
      FormulaShape(ts, pos + 1);
      var r := FilterFormula(ts, pos + 1);
      if ts[pos].kind == LParen && r.Parsed? && ts[r.pos].kind == RParen {
        ContinuationShape(ts, r.pos + 1, r.value);
      }
    } else if ts[pos].kind == Word {
      PropertyFirstShape(ts, pos);
    } else {
      NumberFirstShape(ts, pos);
    }
  }

  /** A PREDICATE node with a VALUE and a variable-property reference on
      either side of a comparison operator is a well-formed formula. */
  lemma {:induction false} PredicateNodeShape(x: Node, t: Token, y: Node)
    requires t.kind == PredOperator
    requires (IsVarProp(x) && IsValue(y)) || (IsValue(x) && IsVarProp(y))
    ensures WfFormula(Branch(Predicate, [x, Leaf(PredOp, t), y]))
  {
  }

  /** One successful pass through the property-first predicate. */
  lemma {:induction false} PropertyFirstStep(ts: seq<Token>, pos: nat, v: Node, p: nat, e: Node, q: nat)
    requires At(ts, pos) && VariableRef(ts, pos) == Parsed(v, p)
    requires ts[p].kind == PredOperator && p + 1 < |ts| && Expression(ts, p + 1) == Parsed(e, q)
    ensures PropertyFirst(ts, pos) == FilterContinuation(ts, q, Branch(Predicate, [v, Leaf(PredOp, ts[p]), e]))
  {
    assert Next(ts, p) == p + 1;
  }

  /** One successful pass through the number-first predicate. */
  lemma {:induction false} NumberFirstStep(ts: seq<Token>, pos: nat, e: Node, p: nat, v: Node, q: nat)
    requires At(ts, pos) && Expression(ts, pos) == Parsed(e, p)
    requires ts[p].kind == PredOperator && p + 1 < |ts| && VariableRef(ts, p + 1) == Parsed(v, q)
    ensures NumberFirst(ts, pos) == FilterContinuation(ts, q, Branch(Predicate, [e, Leaf(PredOp, ts[p]), v]))
  {
    assert Next(ts, p) == p + 1;
  }

  lemma {:induction false} PropertyFirstShape(ts: seq<Token>, pos: nat)
    requires At(ts, pos)
    ensures PropertyFirst(ts, pos).Parsed? ==> WfFormula(PropertyFirst(ts, pos).value)
    decreases |ts| - pos, 0
  {
    var v := VariableRef(ts, pos);
    if v.Parsed? && ts[v.pos].kind == PredOperator {
      var e := Expression(ts, v.pos + 1);
      if e.Parsed? {
        var node := Branch(Predicate, [v.value, Leaf(PredOp, ts[v.pos]), e.value]);
        PropertyFirstStep(ts, pos, v.value, v.pos, e.value, e.pos);
        PredicateNodeShape(v.value, ts[v.pos], e.value);
        ContinuationShape(ts, e.pos, node);
      }
    }
  }

  lemma {:induction false} NumberFirstShape(ts: seq<Token>, pos: nat)
    requires At(ts, pos)
    ensures NumberFirst(ts, pos).Parsed? ==> WfFormula(NumberFirst(ts, pos).value)
    decreases |ts| - pos, 0
  {
    var e := Expression(ts, pos);
    if e.Parsed? && ts[e.pos].kind == PredOperator {
      var v := VariableRef(ts, e.pos + 1);
      if v.Parsed? {
        var node := Branch(Predicate, [e.value, Leaf(PredOp, ts[e.pos]), v.value]);
        NumberFirstStep(ts, pos, e.value, e.pos, v.value, v.pos);
        PredicateNodeShape(e.value, ts[e.pos], v.value);
        ContinuationShape(ts, v.pos, node);
      }
    }
  }

  /** The continuation keeps a well-formed formula well formed. */
  lemma {:induction false} ContinuationShape(ts: seq<Token>, pos: nat, prev: Node)
    requires At(ts, pos)
    ensures WfFormula(prev) && FilterContinuation(ts, pos, prev).Parsed? ==>
      WfFormula(FilterContinuation(ts, pos, prev).value)
    decreases |ts| - pos, 2
  {
    if ts[pos].kind == FiltConnective {
      FormulaShape(ts, pos + 1);
    }
  }
}
