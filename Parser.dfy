/** The parser object: one token sequence, a cursor into it (c_tok) and the
    token under the cursor (lookahead). Every production is a method that
    advances the cursor as it consumes tokens; each is proved to return what
    the corresponding grammar function returns and to leave the cursor where
    that function says the next lookahead is. */
module CeplParser {
  import opened Tokens
  import opened Ast
  import opened Arithmetic
  import opened Formulas
  import opened CeplGrammar

  class Parser {
    const tokens: seq<Token>
    var cTok: nat
    var lookahead: Token

    /** The cursor is inside the sequence and the lookahead is the token under it. */
    ghost predicate Valid()
      reads this
    {
      At(tokens, cTok) && lookahead == tokens[cTok]
    }

    /** The token sequence comes from the lexer, which ends it with EOF. */
    constructor (tokens: seq<Token>)
      requires EndsWithEof(tokens)
      ensures Valid() && this.tokens == tokens && cTok == 0
    {
      this.tokens := tokens;
      cTok := 0;
      lookahead := tokens[0];
    }

    /** nextToken: only called when the lookahead is not the end of input, so
        the cursor never leaves the sequence. */
    method NextToken()
      requires Valid() && lookahead.kind != Eof
      modifies this
      ensures Valid() && cTok == old(cTok) + 1
    {
      cTok := cTok + 1;
      lookahead := tokens[cTok];
    }

    /** parse: restart at the first token, parse one expression, and demand
        that the end of input follows it. */
    method Parse() returns (r: Result<Node>)
      requires EndsWithEof(tokens)
      modifies this
      ensures Valid()
      ensures r == CeplGrammar.Parse(tokens)
    {
      cTok := 0;
      lookahead := tokens[0];
      var node :- ParseCepl();
      if lookahead.kind != Eof {
        return Err(cTok);
      }
      return Ok(node);
    }

    /** parseCEPL: a primary, an optional Kleene `+`, the filter layer, then
        the `:`/`|` layer. */
    method ParseCepl() returns (r: Result<Node>)
      requires Valid()
      modifies this
      ensures Valid()
      ensures Outcome(r, cTok) == Cepl(tokens, old(cTok))
      decreases |tokens| - cTok, 1
    {
      ghost var start := cTok;
      var node :- ParsePrimary();
      ghost var primary, p := node, cTok;
      assert Cepl(tokens, start) == Postfix(tokens, p, primary);
      if lookahead.kind == PlusSign {
        NextToken();
        node := Branch(Kleene, [node]);
      }
      var filtered := ParseFilterOp(node);
      if filtered.Err? {
        assert Postfix(tokens, p, primary) == Unexpected(filtered.at);
        return filtered;
      }
      assert Postfix(tokens, p, primary) == CeplOp(tokens, cTok, filtered.value);
      r := ParseCeplOp(filtered.value);
    }

    /** The first half of parseCEPL: `( expression )` or `RELATION as WORD`;
        any other lookahead leaves the node empty, which is an error there. */
    method ParsePrimary() returns (r: Result<Node>)
      requires Valid()
      modifies this
      ensures Valid()
      ensures Outcome(r, cTok) == Primary(tokens, old(cTok))
      decreases |tokens| - cTok, 0
    {
      if lookahead.kind == LParen {
        NextToken();
        var node :- ParseCepl();
        if lookahead.kind != RParen {
          return Err(cTok);
        }
        NextToken();
        r := Ok(node);
      } else if lookahead.kind == RelationName {
        var relation := Leaf(Relation, lookahead);
        NextToken();
        if lookahead.kind != AsKw {
          return Err(cTok);
        }
        NextToken();
        if lookahead.kind != Word {
          return Err(cTok);
        }
        r := Ok(Branch(Assign, [relation, Leaf(Variable, lookahead)]));
        NextToken();
      } else {
        r := Err(cTok);
      }
    }

    method ParseCeplOp(prev: Node) returns (r: Result<Node>)
      requires Valid()
      modifies this
      ensures Valid()
      ensures Outcome(r, cTok) == CeplOp(tokens, old(cTok), prev)
      decreases |tokens| - cTok, 2
    {
      if lookahead.kind == ColonSign {
        NextToken();
        var right :- ParseCepl();
        r := Ok(Branch(Seq, [prev, right]));
      } else if lookahead.kind == BarSign {
        NextToken();
        var right :- ParseCepl();
        r := Ok(Branch(Or, [prev, right]));
      } else {
        r := Ok(prev);
      }
    }

    method ParseFilterOp(prev: Node) returns (r: Result<Node>)
      requires Valid()
      modifies this
      ensures Valid()
      ensures Outcome(r, cTok) == FilterOp(tokens, old(cTok), prev)
    {
      if lookahead.kind == FilterKw {
        NextToken();
        var formula :- ParseFilterFormula();
        r := Ok(Branch(Filter, [prev, formula]));
      } else {
        r := Ok(prev);
      }
    }

    method ParseFilterFormula() returns (r: Result<Node>)
      requires Valid()
      modifies this
      ensures Valid()
      ensures Outcome(r, cTok) == FilterFormula(tokens, old(cTok))
      decreases |tokens| - cTok, 2
    {
      if lookahead.kind == NotKw {
        NextToken();
        var inner :- ParseFilterFormula();
        r := Ok(Branch(PredNot, [inner]));
      } else if lookahead.kind == LParen {
        NextToken();
        var node :- ParseFilterFormula();
        if lookahead.kind != RParen {
          return Err(cTok);
        }
        NextToken();
        r := ParseFilterContinuation(node);
      } else if lookahead.kind == Word {
        r := ParsePropertyFirst();
      } else {
        r := ParseNumberFirst();
      }
    }

    /** The `WORD . WORD op expression` branch of parseFilterFormula. */
    method ParsePropertyFirst() returns (r: Result<Node>)
      requires Valid()
      modifies this
      ensures Valid()
      ensures Outcome(r, cTok) == PropertyFirst(tokens, old(cTok))
      decreases |tokens| - cTok, 1
    {
      ghost var start := cTok;
      var variable :- ParseVariable();
      if lookahead.kind != PredOperator {
        return Err(cTok);
      }
      ghost var at := cTok;
      var op := Leaf(PredOp, lookahead);
      NextToken();
      var value :- ParseExpression();
      PropertyFirstStep(tokens, start, variable, at, value, cTok);
      r := ParseFilterContinuation(Branch(Predicate, [variable, op, value]));
    }

    /** The `expression op WORD . WORD` branch of parseFilterFormula. */
    method ParseNumberFirst() returns (r: Result<Node>)
      requires Valid()
      modifies this
      ensures Valid()
      ensures Outcome(r, cTok) == NumberFirst(tokens, old(cTok))
      decreases |tokens| - cTok, 1
    {
      ghost var start := cTok;
      var value :- ParseExpression();
      if lookahead.kind != PredOperator {
        return Err(cTok);
      }
      ghost var at := cTok;
      var op := Leaf(PredOp, lookahead);
      NextToken();
      var variable :- ParseVariable();
      NumberFirstStep(tokens, start, value, at, variable, cTok);
      r := ParseFilterContinuation(Branch(Predicate, [value, op, variable]));
    }

    method ParseFilterContinuation(prev: Node) returns (r: Result<Node>)
      requires Valid()
      modifies this
      ensures Valid()
      ensures Outcome(r, cTok) == FilterContinuation(tokens, old(cTok), prev)
      decreases |tokens| - cTok, 0
    {
      if lookahead.kind == FiltConnective {
        var tag := Connective(lookahead);
        NextToken();
        var right :- ParseFilterFormula();
        r := Ok(Branch(tag, [prev, right]));
      } else {
        r := Ok(prev);
      }
    }

    method ParseVariable() returns (r: Result<Node>)
      requires Valid()
      modifies this
      ensures Valid()
      ensures Outcome(r, cTok) == VariableRef(tokens, old(cTok))
    {
      if lookahead.kind != Word {
        return Err(cTok);
      }
      var variable := Leaf(Variable, lookahead);
      NextToken();
      if lookahead.kind != DotSign {
        return Err(cTok);
      }
      NextToken();
      if lookahead.kind != Word {
        return Err(cTok);
      }
      r := Ok(Branch(VarProp, [variable, Leaf(Property, lookahead)]));
      NextToken();
    }

    method ParseExpression() returns (r: Result<Node>)
      requires Valid()
      modifies this
      ensures Valid()
      ensures Outcome(r, cTok) == Expression(tokens, old(cTok))
      decreases |tokens| - cTok, 4
    {
      var a :- ParseSignedTerm();
      var op := lookahead.kind;
      var b :- ParseSumOp();
      if op == PlusSign {
        a := Add(a, b);
      } else if op == MinusSign {
        a := Sub(a, b);
      }
      r := Ok(ValueLeaf(a));
    }

    method ParseSumOp() returns (r: Result<Num>)
      requires Valid()
      modifies this
      ensures Valid()
      ensures Outcome(r, cTok) == SumOp(tokens, old(cTok))
      decreases |tokens| - cTok, 4
    {
      if lookahead.kind == PlusSign || lookahead.kind == MinusSign {
        NextToken();
        var a :- ParseSignedTerm();
        var op := lookahead.kind;
        var b :- ParseSumOp();
        if op == PlusSign {
          return Ok(Add(a, b));
        } else if op == MinusSign {
          return Ok(Sub(a, b));
        }
        return Ok(a);
      }
      return Ok(Finite(0.0));
    }

    method ParseSignedTerm() returns (r: Result<Num>)
      requires Valid()
      modifies this
      ensures Valid()
      ensures Outcome(r, cTok) == SignedTerm(tokens, old(cTok))
      decreases |tokens| - cTok, 3
    {
      if lookahead.kind == MinusSign {
        NextToken();
        var a :- ParseTerm();
        r := Ok(Neg(a));
      } else {
        r := ParseTerm();
      }
    }

    method ParseTerm() returns (r: Result<Num>)
      requires Valid()
      modifies this
      ensures Valid()
      ensures Outcome(r, cTok) == Term(tokens, old(cTok))
      decreases |tokens| - cTok, 2
    {
      var a :- ParseFactor();
      var op := lookahead.kind;
      var b :- ParseTermOp();
      if op == MultSign {
        return Ok(Mul(a, b));
      } else if op == DivSign {
        return Ok(Div(a, b));
      }
      return Ok(a);
    }

    method ParseTermOp() returns (r: Result<Num>)
      requires Valid()
      modifies this
      ensures Valid()
      ensures Outcome(r, cTok) == TermOp(tokens, old(cTok))
      decreases |tokens| - cTok, 2
    {
      if lookahead.kind == MultSign || lookahead.kind == DivSign {
        NextToken();
        var a :- ParseSignedFactor();
        var op := lookahead.kind;
        var b :- ParseTermOp();
        if op == MultSign {
          return Ok(Mul(a, b));
        } else if op == DivSign {
          return Ok(Div(a, b));
        }
        return Ok(a);
      }
      return Ok(Finite(0.0));
    }

    method ParseSignedFactor() returns (r: Result<Num>)
      requires Valid()
      modifies this
      ensures Valid()
      ensures Outcome(r, cTok) == SignedFactor(tokens, old(cTok))
      decreases |tokens| - cTok, 1
    {
      if lookahead.kind == MinusSign {
        NextToken();
        var a :- ParseFactor();
        r := Ok(Neg(a));
      } else {
        r := ParseFactor();
      }
    }

    method ParseFactor() returns (r: Result<Num>)
      requires Valid()
      modifies this
      ensures Valid()
      ensures Outcome(r, cTok) == Factor(tokens, old(cTok))
      decreases |tokens| - cTok, 0
    {
      if lookahead.kind == LParen {
        NextToken();
        var value :- ParseExpression();
        if lookahead.kind != RParen {
          return Err(cTok);
        }
        NextToken();
        r := Ok(value.payload.num);
      } else {
        r := ParseValue();
      }
    }

    method ParseValue() returns (r: Result<Num>)
      requires Valid()
      modifies this
      ensures Valid()
      ensures Outcome(r, cTok) == NumberValue(tokens, old(cTok))
    {
      if lookahead.kind != NumberLit {
        return Err(cTok);
      }
      r := Ok(Finite(lookahead.number));
      NextToken();
    }
  }
}
