/** Tokens as the external lexer delivers them, and the token cursor shared by
    every production of the parser (the fields c_tok and lookahead of the
    parser class, advanced by nextToken). */
module Tokens {

  /** The token kinds the parser tests for. Source names: Lp, Rp, RELATION, AS,
      WORD, PLUS, FILTER, NOT, PRED_OP, DOT, FILT_OP, COLON, OR, MINUS, MULT, DIV,
      NUMBER, EOF. */
  datatype TokenKind =
    | LParen | RParen | RelationName | AsKw | Word | PlusSign | FilterKw | NotKw
    | PredOperator | DotSign | FiltConnective | ColonSign | BarSign
    | MinusSign | MultSign | DivSign | NumberLit | Eof

  /** A lexical unit: its kind, its source text and (meaningful for NUMBER
      tokens only) the number its text denotes. The line and column the lexer
      records are diagnostics only; an error here names the offending token
      by its index in the sequence. */
  datatype Token = Token(kind: TokenKind, text: string, number: real)

  /** What the lexer guarantees: the stream is terminated by an end-of-input token. */
  predicate EndsWithEof(ts: seq<Token>) {
    |ts| > 0 && ts[|ts| - 1].kind == Eof
  }

  /** The end-of-input token is the last token and no other token has that kind. */
  predicate OnlyFinalEof(ts: seq<Token>) {
    EndsWithEof(ts) && forall i :: 0 <= i < |ts| - 1 ==> ts[i].kind != Eof
  }

  /** A cursor position from which `ts[pos]` is the lookahead token. */
  predicate At(ts: seq<Token>, pos: nat) {
    EndsWithEof(ts) && pos < |ts|
  }

  /** nextToken: move past the lookahead, which must not be the end-of-input
      token; the new position is again a valid cursor, so the cursor never
      leaves the token sequence. */
  function Next(ts: seq<Token>, pos: nat): (p: nat)
    requires At(ts, pos) && ts[pos].kind != Eof
    ensures At(ts, p) && p == pos + 1
  {
    pos + 1
  }

  /** The outcome of one production started at some position: the value it
      built and the position of the new lookahead, or an Unexpected Token
      error at the index of the offending token. */
  datatype Parsed<+T> = Parsed(value: T, pos: nat) | Unexpected(at: nat)
  {
    predicate IsFailure() { Unexpected? }

    function PropagateFailure<U>(): Parsed<U>
      requires Unexpected?
    {
      Unexpected(at)
    }

    function Extract(): (T, nat)
      requires Parsed?
    {
      (value, pos)
    }
  }

  /** A production started at `pos` that consumes at least one token: on
      success the new lookahead lies after `pos` and inside the sequence; on
      failure the offending token is at or after `pos`. */
  predicate Advances<T>(ts: seq<Token>, pos: nat, r: Parsed<T>) {
    match r
    case Parsed(_, p) => pos < p < |ts|
    case Unexpected(at) => pos <= at < |ts|
  }

  /** Like Advances, for an optional production that may consume nothing. */
  predicate Stays<T>(ts: seq<Token>, pos: nat, r: Parsed<T>) {
    match r
    case Parsed(_, p) => pos <= p < |ts|
    case Unexpected(at) => pos <= at < |ts|
  }

  /** The outcome of a whole parse, and of each parsing method of the parser
      class: a value, or an Unexpected Token error at the index of the
      offending token (the source throws a ParserException there). */
  datatype Result<+T> = Ok(value: T) | Err(at: nat)
  {
    predicate IsFailure() { Err? }

    function PropagateFailure<U>(): Result<U>
      requires Err?
    {
      Err(at)
    }

    function Extract(): T
      requires Ok?
    {
      value
    }
  }

  /** A method outcome read as a production outcome, given the cursor the method left. */
  function Outcome<T>(r: Result<T>, cursor: nat): Parsed<T> {
    match r
    case Ok(v) => Parsed(v, cursor)
    case Err(at) => Unexpected(at)
  }
}
