/** The syntax tree the parser builds, and the shape every node of a given tag
    must have. */
module Ast {
  import opened Tokens

  /** Node tags. Source names: ASSIGN, RELATION, VARIABLE, KLEENE, SEQ, OR,
      FILTER, PRED_NOT, PREDICATE, PRED_OP, VAR_PROP, PROPERTY, VALUE, PRED_AND,
      PRED_OR. */
  datatype NodeType =
    | Assign | Relation | Variable | Kleene | Seq | Or | Filter
    | PredNot | Predicate | PredOp | VarProp | Property | Value | PredAnd | PredOr

  /** A number as the arithmetic sub-parser computes it. Division by zero gives
      a non-finite result (an infinity or NaN), which absorbs every further
      operation. */
  datatype Num = Finite(r: real) | NonFinite

  function Neg(a: Num): Num {
    if a.Finite? then Finite(-a.r) else NonFinite
  }

  function Add(a: Num, b: Num): Num {
    if a.Finite? && b.Finite? then Finite(a.r + b.r) else NonFinite
  }

  function Sub(a: Num, b: Num): Num {
    if a.Finite? && b.Finite? then Finite(a.r - b.r) else NonFinite
  }

  function Mul(a: Num, b: Num): Num {
    if a.Finite? && b.Finite? then Finite(a.r * b.r) else NonFinite
  }

  function Div(a: Num, b: Num): Num {
    if a.Finite? && b.Finite? && b.r != 0.0 then Finite(a.r / b.r) else NonFinite
  }

  /** What a node carries besides its children: the token of a terminal (a
      relation, variable, property or comparison operator), or the number a
      VALUE node was folded to. */
  datatype Payload = NoPayload | Lexeme(tok: Token) | Computed(num: Num)

  datatype Node = Node(tag: NodeType, children: seq<Node>, payload: Payload)

  function Leaf(tag: NodeType, t: Token): Node {
    Node(tag, [], Lexeme(t))
  }

  function Branch(tag: NodeType, children: seq<Node>): Node {
    Node(tag, children, NoPayload)
  }

  function ValueLeaf(v: Num): Node {
    Node(Value, [], Computed(v))
  }

  /** A terminal node of the given tag holding a token of the given kind. */
  predicate IsLeafOf(n: Node, tag: NodeType, kind: TokenKind) {
    n.tag == tag && n.children == [] && n.payload.Lexeme? && n.payload.tok.kind == kind
  }

  predicate IsValue(n: Node) {
    n.tag == Value && n.children == [] && n.payload.Computed?
  }

  /** A variable-property reference: exactly [VARIABLE, PROPERTY], both WORD tokens. */
  predicate IsVarProp(n: Node) {
    n.tag == VarProp && n.payload == NoPayload && |n.children| == 2
    && IsLeafOf(n.children[0], Variable, Word)
    && IsLeafOf(n.children[1], Property, Word)
  }

  /** A well-formed filter formula: every node has the children its tag fixes. */
  predicate WfFormula(n: Node)
    decreases n
  {
    n.payload == NoPayload &&
    match n.tag
    case PredNot => |n.children| == 1 && WfFormula(n.children[0])
    case PredAnd => |n.children| == 2 && WfFormula(n.children[0]) && WfFormula(n.children[1])
    case PredOr => |n.children| == 2 && WfFormula(n.children[0]) && WfFormula(n.children[1])
    case Predicate =>
      |n.children| == 3 && IsLeafOf(n.children[1], PredOp, PredOperator) &&
      ((IsVarProp(n.children[0]) && IsValue(n.children[2])) ||
       (IsValue(n.children[0]) && IsVarProp(n.children[2])))
    case _ => false
  }

  /** A well-formed CEPL expression: an ASSIGN of a relation to a variable, or
      a KLEENE, FILTER, SEQ or OR node over well-formed operands. */
  predicate WfCepl(n: Node)
    decreases n
  {
    n.payload == NoPayload &&
    match n.tag
    case Assign =>
      |n.children| == 2 && IsLeafOf(n.children[0], Relation, RelationName)
      && IsLeafOf(n.children[1], Variable, Word)
    case Kleene => |n.children| == 1 && WfCepl(n.children[0])
    case Filter => |n.children| == 2 && WfCepl(n.children[0]) && WfFormula(n.children[1])
    case Seq => |n.children| == 2 && WfCepl(n.children[0]) && WfCepl(n.children[1])
    case Or => |n.children| == 2 && WfCepl(n.children[0]) && WfCepl(n.children[1])
    case _ => false
  }
}
