# CEPL parser, modelled in Dafny

This project models the recursive-descent parser of CEPL, a language for
composing event-stream relations, together with proofs about it. CEPL
programs combine relations by sequencing (`:`), alternation (`|`),
repetition (Kleene `+`) and filtering (`filter` followed by a predicate
formula over variable properties and arithmetic). The parser reads a token
sequence that the lexer ends with EOF. It builds an AST and folds arithmetic
into a single VALUE leaf while it parses.

The model has two layers.

- **The grammar as functions** (`Arithmetic`, `Formulas`, `CeplGrammar`). Each
  production takes the token sequence and the cursor position. It returns
  `Parsed(value, next position)` or `Unexpected(index of the offending
  token)`. An error is the token at which `throwError` would be raised.
- **The parser object** (`CeplParser.Parser`). This is a class with the token
  sequence, the cursor `cTok` and the `lookahead` field. Each production is a
  method that advances the cursor through `NextToken` and mirrors the
  corresponding Java method branch by branch. Three methods have no Java
  method of their own: `ParsePrimary` is the primary part of `parseCEPL`
  (Parser.java:33-59), and `ParsePropertyFirst` and `ParseNumberFirst` are the
  two predicate branches of `parseFilterFormula` (Parser.java:126-147), each
  moved into a method of its own. Each method is proved to return
  what the corresponding grammar function returns and to leave the cursor
  where that function says. `NextToken` requires the lookahead not to be EOF
  and the class invariant keeps the cursor inside the sequence, so every
  method is proved never to read past the last token.

The properties are proved about the functions:

- **Well-formedness.** Every tree the parser returns is well formed: ASSIGN
  has exactly [RELATION, VARIABLE], and predicates keep their children in
  input order.
- **Whole input.** `parse` succeeds only when parseCEPL stops at EOF.
- **Round trip.** Independent printers, which parenthesise every operand,
  are proved to be right inverses. `Parse(PrintCepl(n) + [EOF]) == Ok(n)` for
  every well-formed tree. Likewise for filter formulas, and for arithmetic
  trees, which come back as their conventional value.
- **Grouping.** The grouping quirks of the grammar are stated over any token
  sequence of the given kinds. `:`/`|`, `and`/`or` and the arithmetic chains
  all group to the right, so `10 - 2 - 3` is 11 and `8 / 4 / 2` is 4. `not`
  takes the whole following formula. Kleene applies before `filter`, and a
  second `+` is rejected.

Arithmetic is exact: `Num` is a `Finite(real)` or `NonFinite`. Division by
zero gives `NonFinite`, and `NonFinite` absorbs every later operation. It
stands for the infinities and NaN of the source's doubles.

## Model

| member | source | states |
|---|---|---|
| Tokens.Next | src/cepl/parser/Parser.java:292-294 | nextToken: when the lookahead is not EOF, the next cursor position is still a valid index and lies after the current one |
| CeplParser.Parser.NextToken | src/cepl/parser/Parser.java:292-294 | advances the cursor by one and keeps the lookahead equal to the token under the cursor; callable only when the lookahead is not EOF |
| CeplParser.Parser.Parse | src/cepl/parser/Parser.java:21-29 | restarts at token 0 and returns exactly what the grammar function Parse returns |
| CeplParser.Parser.ParseCepl | src/cepl/parser/Parser.java:31-72 | result and final cursor equal those of the grammar function Cepl at the starting cursor |
| CeplParser.Parser.ParsePrimary | src/cepl/parser/Parser.java:33-59 | result and final cursor equal those of Primary: `( cepl )` or `RELATION as WORD`, otherwise an error at the lookahead |
| CeplParser.Parser.ParseCeplOp | src/cepl/parser/Parser.java:75-93 | result and final cursor equal those of CeplOp |
| CeplParser.Parser.ParseFilterOp | src/cepl/parser/Parser.java:95-108 | result and final cursor equal those of FilterOp |
| CeplParser.Parser.ParseFilterFormula | src/cepl/parser/Parser.java:110-149 | result and final cursor equal those of FilterFormula |
| CeplParser.Parser.ParsePropertyFirst | src/cepl/parser/Parser.java:126-136 | result and final cursor equal those of PropertyFirst |
| CeplParser.Parser.ParseNumberFirst | src/cepl/parser/Parser.java:137-147 | result and final cursor equal those of NumberFirst |
| CeplParser.Parser.ParseFilterContinuation | src/cepl/parser/Parser.java:151-163 | result and final cursor equal those of FilterContinuation |
| CeplParser.Parser.ParseVariable | src/cepl/parser/Parser.java:165-182 | result and final cursor equal those of VariableRef |
| CeplParser.Parser.ParseExpression | src/cepl/parser/Parser.java:184-197 | result and final cursor equal those of Expression |
| CeplParser.Parser.ParseSumOp | src/cepl/parser/Parser.java:199-214 | result and final cursor equal those of SumOp |
| CeplParser.Parser.ParseSignedTerm | src/cepl/parser/Parser.java:216-224 | result and final cursor equal those of SignedTerm |
| CeplParser.Parser.ParseTerm | src/cepl/parser/Parser.java:226-237 | result and final cursor equal those of Term |
| CeplParser.Parser.ParseTermOp | src/cepl/parser/Parser.java:239-254 | result and final cursor equal those of TermOp |
| CeplParser.Parser.ParseSignedFactor | src/cepl/parser/Parser.java:256-264 | result and final cursor equal those of SignedFactor |
| CeplParser.Parser.ParseFactor | src/cepl/parser/Parser.java:266-280 | result and final cursor equal those of Factor |
| CeplParser.Parser.ParseValue | src/cepl/parser/Parser.java:282-289 | result and final cursor equal those of NumberValue |
| CeplGrammar.Parse | src/cepl/parser/Parser.java:21-29 | an accepted input yields a well-formed CEPL tree; a rejected one names a token index inside the input |
| CeplGrammar.Cepl | src/cepl/parser/Parser.java:31-72 | success consumes at least one token and stops at a valid index; a failure names an index at or after the start |
| CeplGrammar.Primary | src/cepl/parser/Parser.java:33-59 | a lookahead that is neither `(` nor RELATION is an error at that very token (the empty-node check) |
| CeplGrammar.CeplOp | src/cepl/parser/Parser.java:75-93 | with no `:`/`\|` lookahead the input node is returned unchanged at the same position |
| CeplGrammar.FilterOp | src/cepl/parser/Parser.java:95-108 | with no `filter` lookahead the input node is returned unchanged at the same position |
| CeplGrammar.Postfix | src/cepl/parser/Parser.java:61-69 | the postfix layers after a primary never move the cursor backwards and stop at a valid index |
| CeplGrammar.PrimaryShape | src/cepl/parser/Parser.java:33-59 | every node a primary yields is a well-formed CEPL tree |
| CeplGrammar.PostfixShape | src/cepl/parser/Parser.java:61-69 | the Kleene, filter and sequence layers keep a well-formed tree well formed |
| CeplGrammar.CeplOpShape | src/cepl/parser/Parser.java:75-93 | SEQ/OR built from well-formed operands is well formed |
| CeplGrammar.FilterOpShape | src/cepl/parser/Parser.java:95-108 | FILTER over a well-formed tree and a parsed formula is well formed |
| CeplGrammar.PrimaryThenPostfix | src/cepl/parser/Parser.java:31-72 | proof step: parseCEPL is a primary followed by its postfix layers, read from where the primary stopped |
| CeplGrammar.CeplShape | src/cepl/parser/Parser.java:31-72 | every tree parseCEPL returns is well formed (ASSIGN [RELATION, VARIABLE], KLEENE/FILTER/SEQ/OR with the right children) |
| CeplGrammar.ParseOutcome | src/cepl/parser/Parser.java:21-29 | parse fails with parseCEPL's error, fails at the token after the expression when it is not EOF, and otherwise returns the tree |
| CeplGrammar.ParseConsumesAll | src/cepl/parser/Parser.java:21-29 | with EOF only at the end, parse accepts if and only if parseCEPL succeeds and stops at the last index |
| CeplGrammar.ParenPrimary | src/cepl/parser/Parser.java:34-41 | `( e )` yields e's tree itself (no extra node); a missing `)` is an error at the token in its place |
| CeplGrammar.AssignPrimary | src/cepl/parser/Parser.java:42-55 | a missing `as` or WORD is an error at the token found in its place; otherwise ASSIGN [RELATION leaf, VARIABLE leaf] three tokens on |
| CeplGrammar.NoPostfix | src/cepl/parser/Parser.java:61-69 | with no `+`, `filter`, `:` or `\|` after it, the primary is the whole expression |
| CeplGrammar.KleenePostfix | src/cepl/parser/Parser.java:61-66 | one `+` wraps the primary in KLEENE and the next token, even another `+`, is left unread |
| CeplGrammar.FilterPostfix | src/cepl/parser/Parser.java:95-103 | `filter f` after the primary gives FILTER [primary, f] |
| CeplGrammar.KleeneThenFilter | src/cepl/parser/Parser.java:61-68 | `p + filter f` is FILTER [KLEENE [p], f]: the Kleene layer applies before the filter layer |
| CeplGrammar.SequencePostfix | src/cepl/parser/Parser.java:75-88 | `:` gives SEQ and `\|` gives OR over [primary, the whole CEPL expression after the operator] |
| Formulas.FilterFormula | src/cepl/parser/Parser.java:110-149 | success consumes at least one token and stops at a valid index (the missing-`)` error is stated by Formulas.UnclosedFormula) |
| Formulas.PropertyFirst | src/cepl/parser/Parser.java:126-136 | a failed variable reference is the predicate's error, and a non-PRED_OP token after a complete reference is an error at that token; success consumes at least one token |
| Formulas.NumberFirst | src/cepl/parser/Parser.java:137-147 | a failed expression is the predicate's error, and a non-PRED_OP token after the expression is an error at that token; success consumes at least one token |
| Formulas.Connective | src/cepl/parser/Parser.java:154 | the connective is PRED_OR exactly when the token text is "or", and PRED_AND otherwise |
| Formulas.FilterContinuation | src/cepl/parser/Parser.java:151-163 | with no `and`/`or` lookahead the formula so far is returned unchanged at the same position |
| Formulas.VariableRef | src/cepl/parser/Parser.java:165-182 | a missing first WORD, `.` or second WORD is an error at the token found in its place; a successful reference is a VAR_PROP and consumes exactly three tokens |
| Formulas.UnclosedFormula | src/cepl/parser/Parser.java:117-121 | `( f` followed by anything but `)` is an error at that token |
| Formulas.MissingFormula | src/cepl/parser/Parser.java:110-147 | a lookahead that can start no formula (not `not`, `(`, WORD, NUMBER or `-`) is an error at that token |
| Formulas.FormulaShape | src/cepl/parser/Parser.java:110-149 | every formula the parser returns is well formed; predicates are [VAR_PROP, PRED_OP, VALUE] or [VALUE, PRED_OP, VAR_PROP] |
| Formulas.PredicateNodeShape | src/cepl/parser/Parser.java:126-147 | a PREDICATE whose middle child is a PRED_OP leaf and whose outer children are one VAR_PROP and one VALUE is well formed |
| Formulas.PropertyFirstShape | src/cepl/parser/Parser.java:126-136 | every predicate read from a leading WORD is well formed |
| Formulas.NumberFirstShape | src/cepl/parser/Parser.java:137-147 | every predicate read from a leading expression is well formed |
| Formulas.PropertyFirstStep | src/cepl/parser/Parser.java:126-136 | proof step: a leading WORD gives PREDICATE [VAR_PROP, PRED_OP, VALUE], in input order, handed to the continuation |
| Formulas.NumberFirstStep | src/cepl/parser/Parser.java:137-147 | proof step: any other lead gives PREDICATE [VALUE, PRED_OP, VAR_PROP], in input order, handed to the continuation |
| Formulas.ContinuationShape | src/cepl/parser/Parser.java:151-163 | the continuation keeps a well-formed formula well formed |
| Arithmetic.Expression | src/cepl/parser/Parser.java:184-197 | success is a single VALUE leaf and consumes at least one token |
| Arithmetic.SumOp | src/cepl/parser/Parser.java:199-214 | with no `+`/`-` lookahead the chain is 0 and nothing is consumed |
| Arithmetic.SignedTerm | src/cepl/parser/Parser.java:216-224 | after a leading `-`, a term read as v gives -v ending where the term ends; without one it is the term itself |
| Arithmetic.Term | src/cepl/parser/Parser.java:226-237 | success consumes at least one token and stops at a valid index |
| Arithmetic.SignedFactor | src/cepl/parser/Parser.java:256-264 | after a leading `-`, a factor read as v gives -v ending where the factor ends; without one it is the factor itself |
| Arithmetic.Factor | src/cepl/parser/Parser.java:266-280 | success consumes at least one token and stops at a valid index (the missing-`)` error is stated by Arithmetic.UnclosedFactor) |
| Arithmetic.UnclosedFactor | src/cepl/parser/Parser.java:267-272 | `( e` followed by anything but `)` is an error at that token |
| Arithmetic.MissingExpression | src/cepl/parser/Parser.java:184-289 | a lookahead that can start no operand (not NUMBER, `(` or `-`) is an error at that token |
| Arithmetic.TermOp | src/cepl/parser/Parser.java:239-254 | with no `*`/`/` lookahead the chain is 0 and nothing is consumed |
| Arithmetic.NumberValue | src/cepl/parser/Parser.java:282-289 | succeeds if and only if the lookahead is a NUMBER, then with that token's number one token on; anything else is an error at the lookahead |
| RoundTrip.ArithRoundTrip | src/cepl/parser/Parser.java:184-289 | a fully parenthesised arithmetic tree, followed by a token that ends the chain, parses to one VALUE leaf holding the tree's value |
| RoundTrip.ParenArith | src/cepl/parser/Parser.java:266-280 | a parenthesised arithmetic tree read as a factor yields the tree's value |
| RoundTrip.LitRoundTrip | src/cepl/parser/Parser.java:282-289 | a printed literal parses back to its value |
| RoundTrip.NegateRoundTrip | src/cepl/parser/Parser.java:216-224 | a printed negation parses back to the negated value |
| RoundTrip.BinRoundTrip | src/cepl/parser/Parser.java:184-254 | a printed binary operation parses back to the value of the operation applied to the operands |
| RoundTrip.ParenFactor | src/cepl/parser/Parser.java:270-275 | proof step: a parenthesised expression read as a factor yields the expression's value, one past the `)` |
| RoundTrip.FactorAsSignedTerm | src/cepl/parser/Parser.java:216-237 | proof step: a factor with no leading `-` and no `*`/`/` after it is the whole signed term |
| RoundTrip.SignedTermAsExpression | src/cepl/parser/Parser.java:184-197 | proof step: a signed term followed by a token that ends the chain is the whole expression |
| RoundTrip.NegatedFactor | src/cepl/parser/Parser.java:216-224 | `- f` on its own evaluates to the negation of f |
| RoundTrip.BinaryOfFactors | src/cepl/parser/Parser.java:184-254 | two factors joined by one operator evaluate to that operator applied to them |
| RoundTrip.SingleFactorChain | src/cepl/parser/Parser.java:239-254 | proof step: a `*`/`/` chain of one factor is that factor's value |
| RoundTrip.ProductTerm | src/cepl/parser/Parser.java:226-237 | proof step: a factor followed by a `*`/`/` chain is their product or quotient |
| RoundTrip.SingleTermChain | src/cepl/parser/Parser.java:199-214 | proof step: a `+`/`-` chain of one term is that term's value |
| RoundTrip.SumExpression | src/cepl/parser/Parser.java:184-197 | proof step: a term followed by a `+`/`-` chain is their sum or difference |
| TreeRoundTrip.NumRoundTrip | src/cepl/parser/Parser.java:282-289 | the printed form of any VALUE (finite or not) parses back to that VALUE |
| TreeRoundTrip.VarPropRoundTrip | src/cepl/parser/Parser.java:165-182 | the three tokens of a VAR_PROP parse back to it |
| TreeRoundTrip.FormulaRoundTrip | src/cepl/parser/Parser.java:110-163 | the printed form of any well-formed formula, followed by a token that ends it, parses back to the same formula |
| TreeRoundTrip.ParenFormulaRoundTrip | src/cepl/parser/Parser.java:117-125 | `( f )` alone parses back to f, with no extra node |
| TreeRoundTrip.NotRoundTrip | src/cepl/parser/Parser.java:112-116 | a printed PRED_NOT formula parses back to itself |
| TreeRoundTrip.NotStep | src/cepl/parser/Parser.java:112-116 | proof step: `not` wraps the entire formula parsed after it in PRED_NOT |
| TreeRoundTrip.ConnectiveRoundTrip | src/cepl/parser/Parser.java:151-163 | a printed PRED_AND/PRED_OR formula parses back to itself |
| TreeRoundTrip.PropertyFirstRoundTrip | src/cepl/parser/Parser.java:126-136 | a printed predicate that starts with a VAR_PROP parses back to itself |
| TreeRoundTrip.NumberFirstRoundTrip | src/cepl/parser/Parser.java:137-147 | a printed predicate that starts with a VALUE parses back to itself |
| TreeRoundTrip.ConnectiveOfText | src/cepl/parser/Parser.java:154 | the printed connective text is read back as the same connective |
| TreeRoundTrip.ConnectiveStep | src/cepl/parser/Parser.java:151-163 | proof step: a connective followed by a formula b joins the formula so far and b under that connective |
| TreeRoundTrip.WordFormula | src/cepl/parser/Parser.java:126-136 | proof step: a formula that starts with a WORD is read as a property-first predicate |
| TreeRoundTrip.NumberFormula | src/cepl/parser/Parser.java:137-147 | proof step: a formula that starts with a NUMBER is read as a number-first predicate |
| TreeRoundTrip.ParenthesisedStep | src/cepl/parser/Parser.java:117-125 | proof step: after `( f )` the continuation carries on from f |
| TreeRoundTrip.ParenthesisedAlone | src/cepl/parser/Parser.java:117-125 | `( f )` followed by no connective is f itself |
| TreeRoundTrip.ParenthesisedThenConnective | src/cepl/parser/Parser.java:117-125 | `( a ) c b` is c [a, b] |
| CeplRoundTrip.ParsePrintRoundTrip | src/cepl/parser/Parser.java:21-29 | for every well-formed CEPL tree n, parse of its printed form followed by EOF returns exactly n |
| CeplRoundTrip.CeplRoundTrip | src/cepl/parser/Parser.java:31-108 | the printed form of any well-formed CEPL tree, followed by a token that ends it, parses back to the same tree |
| CeplRoundTrip.ParenCeplRoundTrip | src/cepl/parser/Parser.java:34-41 | `( n )` read as a primary yields n itself |
| CeplRoundTrip.AssignRoundTrip | src/cepl/parser/Parser.java:42-55 | a printed ASSIGN parses back to itself |
| CeplRoundTrip.KleeneRoundTrip | src/cepl/parser/Parser.java:61-66 | a printed KLEENE parses back to itself |
| CeplRoundTrip.FilterRoundTrip | src/cepl/parser/Parser.java:95-108 | a printed FILTER parses back to itself |
| CeplRoundTrip.SequenceRoundTrip | src/cepl/parser/Parser.java:75-93 | a printed SEQ or OR parses back to itself |
| CeplRoundTrip.StopIsNoPostfix | src/cepl/parser/Parser.java:61-69 | a token that ends a CEPL expression starts no postfix layer |
| Grouping.ProductBindsTighter | src/cepl/parser/Parser.java:184-237 | `x + y * z` evaluates to x + (y * z) |
| Grouping.DifferenceGroupsRight | src/cepl/parser/Parser.java:184-214 | `x - y - z` evaluates to x - (y - z) |
| Grouping.QuotientGroupsRight | src/cepl/parser/Parser.java:226-254 | `x / y / z` evaluates to x / (y / z) |
| Grouping.MinusNegatesTerm | src/cepl/parser/Parser.java:216-224 | a leading `-` negates the whole term: `- x * y` is -(x * y) |
| Grouping.MinusNegatesFactor | src/cepl/parser/Parser.java:256-260 | a `-` after `*` negates only the factor it precedes: `x * - y` is x * (-y) |
| Grouping.NegatedFactorExample | src/cepl/parser/Parser.java:256-260 | `2 * - 3` is -6 |
| Grouping.MissingOperand | src/cepl/parser/Parser.java:282-285 | `x +` followed by a token that can start no signed term (not a NUMBER, `(` or `-`) is an error at that token |
| Grouping.SimplePredicateStep | src/cepl/parser/Parser.java:126-136 | `WORD . WORD op NUMBER` is PREDICATE [VAR_PROP, PRED_OP, VALUE] passed to the continuation |
| Grouping.LonePredicate | src/cepl/parser/Parser.java:126-163 | such a predicate with no connective after it is the whole formula |
| Grouping.PrecedenceExample | src/cepl/parser/Parser.java:184-237 | `2 + 3 * 4` is 14 |
| Grouping.DifferenceExample | src/cepl/parser/Parser.java:199-214 | `10 - 2 - 3` is 11 |
| Grouping.QuotientExample | src/cepl/parser/Parser.java:239-254 | `8 / 4 / 2` is 4 |
| Grouping.NotTakesWholeFormula | src/cepl/parser/Parser.java:112-116 | `not p and q` is PRED_NOT [p and q]: `not` takes the whole formula including its continuation |
| Grouping.ConnectivesGroupRight | src/cepl/parser/Parser.java:151-163 | `p c1 q c2 r` is c1 [p, c2 [q, r]] whichever of `and`/`or` each connective is |
| Grouping.SequenceGroupsRight | src/cepl/parser/Parser.java:75-93 | `a : b \| c` is SEQ [a, OR [b, c]], and likewise for any mix of `:` and `\|` |
| Grouping.SequenceExample | src/cepl/parser/Parser.java:75-93 | `R as x : S as y \| T as z` is accepted as SEQ [R, OR [S, T]] |
| Grouping.KleeneFilterExample | src/cepl/parser/Parser.java:61-68 | `R as x + filter p` is FILTER [KLEENE [ASSIGN], p] |
| Grouping.SecondPlusRejected | src/cepl/parser/Parser.java:61-66 | `R as x + +` is rejected at the second `+` |
| Grouping.MissingComparand | src/cepl/parser/Parser.java:126-136 | `x . a > t`, where t can start no expression, is an error at t |
| Grouping.EmptyFilterRejected | src/cepl/parser/Parser.java:95-108 | `R as x filter` followed by EOF is rejected at the EOF |
| Grouping.ParenthesesAddNoNode | src/cepl/parser/Parser.java:34-41 | `( R as x )` and `R as x` are accepted as the same ASSIGN tree |

## Left out

- The constructor's file loading and the tokenizer. The model starts from a token sequence that ends with EOF, which is what the lexer guarantees. The model's constructor takes that sequence.
- `main`, `setVars` and `print`. These are command-line handling and output.
- IEEE doubles. Arithmetic is exact over reals. Every infinity and NaN is one absorbing `NonFinite` value, so the model does not capture that `x / Infinity` is 0 or that NaN compares unequal. It also omits rounding, including a finite result that overflows to Infinity.
- Arithmetic.Expression: the source stores the folded value in the VALUE node as its decimal text (`"" + a`, Parser.java:195). The model's VALUE leaf holds the number itself.
- Arithmetic.Factor: the source writes the inner expression's value as text and reads it back with `Double.parseDouble`. The model treats that text round trip as the identity.
- Arithmetic.NumberValue: the source converts the NUMBER token's text with `Double.parseDouble` (Parser.java:286). The model replaces that call with the token's `number` field and treats the conversion as exact.
- The internals of `throwError` and message formatting. An error is the index of the offending token, and `throwError` is taken to always throw.
- The mutation of nodes after construction. The source creates a node and then sets its type and appends its children. The node cannot be observed before it is returned, so the model builds each node as one immutable value.
- The unused `StringFormatter` import.
- Token line and column numbers. They only appear in error messages, so a token is modelled by its kind, text and numeric value.
