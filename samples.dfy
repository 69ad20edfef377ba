/**
 * Whole programs run through the lexer and the parser. The first part states,
 * for any token stream of a given shape, the tree the parser builds: these are
 * the precedence, associativity, grouping and tuple rules of
 * `ParseBinaryExpression` and `ParseBracketExpression`. The second part takes
 * short inputs, written as their character codes, and derives `ParseText`'s
 * result for each from those shapes one token at a time.
 */
module Samples {
  import opened Wrappers
  import opened Chars
  import opened Tokens
  import opened Scanner
  import opened Ast
  import opened Grammar
  import ScannerFacts
  import GrammarFacts
  import Precedence

  /** The node `ParseAtomExpression` builds for a `DigitLiteral` token. */
  function LiteralAt(s: Cursor): Expression {
    Expression.DigitLiteral(LineOf(s), s.digit)
  }

  lemma LiteralAtom(s: Cursor, s': Cursor)
    requires s.token == Token.DigitLiteral && Next(s) == Success(s')
    ensures ParseAtom(s) == Ok(LiteralAt(s), s')
  {
    assert Advance(s) == Ok((), s');
  }

  /** Level 0 of `ParseBinaryExpression` is the atom itself when no `-` precedes it. */
  lemma AtomAtZero(s: Cursor, e: Expression, s': Cursor)
    requires s.token != Token.Minus && ParseAtom(s) == Ok(e, s')
    ensures ParseBinary(s, 0) == Ok(e, s')
  {
    assert TryMatchToken(s, Token.Minus) == Ok(false, s);
  }

  /**
   * A level returns what the level below returned when no operator of at
   * most its own priority follows.
   */
  lemma OneUp(s: Cursor, k: nat, e: Expression, s': Cursor)
    requires 1 <= k && ParseBinary(s, k - 1) == Ok(e, s') && !OperatorWithin(s'.token, k)
    ensures ParseBinary(s, k) == Ok(e, s')
  {
  }

  /** An atom that no operator follows is a whole expression. */
  lemma AtomExpression(s: Cursor, e: Expression, s': Cursor)
    requires s.token != Token.Minus && ParseAtom(s) == Ok(e, s') && !IsBinaryOperator(s'.token)
    ensures ParseExpression(s) == Ok(e, s')
  {
    AtomAtZero(s, e, s');
    OneUp(s, 1, e, s');
    OneUp(s, 2, e, s');
    OneUp(s, 3, e, s');
    OneUp(s, 4, e, s');
  }

  /** A literal that no operator follows is a whole expression. */
  lemma LiteralExpression(s: Cursor, s': Cursor)
    requires s.token == Token.DigitLiteral && Next(s) == Success(s') && !IsBinaryOperator(s'.token)
    ensures ParseExpression(s) == Ok(LiteralAt(s), s')
  {
    LiteralAtom(s, s');
    AtomExpression(s, LiteralAt(s), s');
  }

  /** The product in `d + d * d`: the operand after `+` takes the whole product. */
  lemma ProductOperand(c5: Cursor, c6: Cursor, c7: Cursor, c8: Cursor)
    requires c5.token == Token.DigitLiteral && Next(c5) == Success(c6)
    requires c6.token == Token.Mul && Next(c6) == Success(c7)
    requires c7.token == Token.DigitLiteral && Next(c7) == Success(c8)
    requires !IsBinaryOperator(c8.token)
    ensures ParseBinary(c5, 2) ==
            Ok(Expression.BinaryExpression(LineOf(c8), BinaryOp.Mul, LiteralAt(c5), LiteralAt(c7)), c8)
  {
    var product := Expression.BinaryExpression(LineOf(c8), BinaryOp.Mul, LiteralAt(c5), LiteralAt(c7));
    LiteralAtom(c5, c6);
    AtomAtZero(c5, LiteralAt(c5), c6);
    OneUp(c5, 1, LiteralAt(c5), c6);
    LiteralAtom(c7, c8);
    AtomAtZero(c7, LiteralAt(c7), c8);
    OneUp(c7, 1, LiteralAt(c7), c8);
    BinaryLoopStep(c6, LiteralAt(c5), 2, c7, LiteralAt(c7), c8);
    assert BinaryLoop(c8, product, 2) == Ok(product, c8);
  }

  /** `d + E` at the level of `+`, where E is what the level below reads after the `+`. */
  lemma SumLevel(c3: Cursor, c4: Cursor, c5: Cursor, right: Expression, c8: Cursor)
    requires c3.token == Token.DigitLiteral && Next(c3) == Success(c4)
    requires c4.token == Token.Plus && Next(c4) == Success(c5)
    requires ParseBinary(c5, 2) == Ok(right, c8) && !IsBinaryOperator(c8.token)
    ensures ParseExpression(c3) == Ok(Expression.BinaryExpression(LineOf(c8), BinaryOp.Plus, LiteralAt(c3), right), c8)
  {
    var sum := Expression.BinaryExpression(LineOf(c8), BinaryOp.Plus, LiteralAt(c3), right);
    LiteralAtom(c3, c4);
    AtomAtZero(c3, LiteralAt(c3), c4);
    OneUp(c3, 1, LiteralAt(c3), c4);
    OneUp(c3, 2, LiteralAt(c3), c4);
    BinaryLoopStep(c4, LiteralAt(c3), 3, c5, right, c8);
    assert BinaryLoop(c8, sum, 3) == Ok(sum, c8);
    assert ParseBinary(c3, 3) == Ok(sum, c8);
    OneUp(c3, 4, sum, c8);
  }

  /** `*` binds tighter than `+`: `d + d * d` is the sum of the first literal and the product. */
  lemma ProductBindsFirst(c3: Cursor, c4: Cursor, c5: Cursor, c6: Cursor, c7: Cursor, c8: Cursor)
    requires c3.token == Token.DigitLiteral && Next(c3) == Success(c4)
    requires c4.token == Token.Plus && Next(c4) == Success(c5)
    requires c5.token == Token.DigitLiteral && Next(c5) == Success(c6)
    requires c6.token == Token.Mul && Next(c6) == Success(c7)
    requires c7.token == Token.DigitLiteral && Next(c7) == Success(c8)
    requires !IsBinaryOperator(c8.token)
    ensures ParseExpression(c3) ==
            Ok(Expression.BinaryExpression(LineOf(c8), BinaryOp.Plus, LiteralAt(c3),
                 Expression.BinaryExpression(LineOf(c8), BinaryOp.Mul, LiteralAt(c5), LiteralAt(c7))), c8)
  {
    var product := Expression.BinaryExpression(LineOf(c8), BinaryOp.Mul, LiteralAt(c5), LiteralAt(c7));
    ProductOperand(c5, c6, c7, c8);
    SumLevel(c3, c4, c5, product, c8);
  }

  /** The loop of `d ** d ** d`: each `**` makes the tree so far its left operand. */
  lemma PowerLoop(c4: Cursor, left: Expression, c5: Cursor, c6: Cursor, c7: Cursor, c8: Cursor)
    requires WellFormed(left)
    requires c4.token == Token.Power && Next(c4) == Success(c5)
    requires c5.token == Token.DigitLiteral && Next(c5) == Success(c6)
    requires c6.token == Token.Power && Next(c6) == Success(c7)
    requires c7.token == Token.DigitLiteral && Next(c7) == Success(c8)
    requires !IsBinaryOperator(c8.token)
    ensures BinaryLoop(c4, left, 1) ==
            Ok(Expression.BinaryExpression(LineOf(c8), BinaryOp.Power,
                 Expression.BinaryExpression(LineOf(c6), BinaryOp.Power, left, LiteralAt(c5)), LiteralAt(c7)), c8)
  {
    var inner := Expression.BinaryExpression(LineOf(c6), BinaryOp.Power, left, LiteralAt(c5));
    var outer := Expression.BinaryExpression(LineOf(c8), BinaryOp.Power, inner, LiteralAt(c7));
    LiteralAtom(c5, c6);
    AtomAtZero(c5, LiteralAt(c5), c6);
    LiteralAtom(c7, c8);
    AtomAtZero(c7, LiteralAt(c7), c8);
    BinaryLoopStep(c4, left, 1, c5, LiteralAt(c5), c6);
    BinaryLoopStep(c6, inner, 1, c7, LiteralAt(c7), c8);
    assert BinaryLoop(c8, outer, 1) == Ok(outer, c8);
  }

  /** `**` groups to the left like every other operator: `d ** d ** d` is `(d ** d) ** d`. */
  lemma PowerGroupsLeft(c3: Cursor, c4: Cursor, c5: Cursor, c6: Cursor, c7: Cursor, c8: Cursor)
    requires c3.token == Token.DigitLiteral && Next(c3) == Success(c4)
    requires c4.token == Token.Power && Next(c4) == Success(c5)
    requires c5.token == Token.DigitLiteral && Next(c5) == Success(c6)
    requires c6.token == Token.Power && Next(c6) == Success(c7)
    requires c7.token == Token.DigitLiteral && Next(c7) == Success(c8)
    requires !IsBinaryOperator(c8.token)
    ensures ParseExpression(c3) ==
            Ok(Expression.BinaryExpression(LineOf(c8), BinaryOp.Power,
                 Expression.BinaryExpression(LineOf(c6), BinaryOp.Power, LiteralAt(c3), LiteralAt(c5)), LiteralAt(c7)), c8)
  {
    var inner := Expression.BinaryExpression(LineOf(c6), BinaryOp.Power, LiteralAt(c3), LiteralAt(c5));
    var outer := Expression.BinaryExpression(LineOf(c8), BinaryOp.Power, inner, LiteralAt(c7));
    LiteralAtom(c3, c4);
    AtomAtZero(c3, LiteralAt(c3), c4);
    PowerLoop(c4, LiteralAt(c3), c5, c6, c7, c8);
    assert ParseBinary(c3, 1) == Ok(outer, c8);
    OneUp(c3, 2, outer, c8);
    OneUp(c3, 3, outer, c8);
    OneUp(c3, 4, outer, c8);
  }

  /** `( e )` is an atom when the bracket's contents parse to `e`. */
  lemma BracketAtom(s: Cursor, s1: Cursor, e: Expression, s2: Cursor, s3: Cursor)
    requires s.token == LeftBracket && Next(s) == Success(s1)
    requires ParseBracket(s1) == Ok(e, s2) && Next(s2) == Success(s3)
    ensures ParseAtom(s) == Ok(e, s3)
  {
    assert TryMatchToken(s, LeftBracket) == Ok(true, s1);
    assert MatchToken(s2, RightBracket) == Ok((), s3);
  }

  /** A bracket of one literal is that literal, not a tuple of one. */
  lemma LiteralInBrackets(b0: Cursor, b1: Cursor, b2: Cursor, b3: Cursor)
    requires b0.token == LeftBracket && Next(b0) == Success(b1)
    requires b1.token == Token.DigitLiteral && Next(b1) == Success(b2)
    requires b2.token == RightBracket && Next(b2) == Success(b3)
    ensures ParseAtom(b0) == Ok(LiteralAt(b1), b3)
  {
    LiteralExpression(b1, b2);
    assert ParseBracket(b1) == Ok(LiteralAt(b1), b2);
    BracketAtom(b0, b1, LiteralAt(b1), b2, b3);
  }

  /** One round of the tuple loop that another `,` follows. */
  lemma TupleStep(s: Cursor, line: int, acc: seq<Expression>, s1: Cursor, e: Expression, s2: Cursor)
    requires |acc| >= 1 && forall i | 0 <= i < |acc| :: WellFormed(acc[i])
    requires s.token == Comma && Next(s) == Success(s1)
    requires ParseExpression(s1) == Ok(e, s2) && s2.token == Comma
    ensures WellFormed(e) && TupleLoop(s, line, acc) == TupleLoop(s2, line, acc + [e])
  {
    assert MatchToken(s, Comma) == Ok((), s1);
  }

  /** The last round of the tuple loop, which `)` ends. */
  lemma TupleEnd(s: Cursor, line: int, acc: seq<Expression>, s1: Cursor, e: Expression, s2: Cursor)
    requires |acc| >= 1 && forall i | 0 <= i < |acc| :: WellFormed(acc[i])
    requires s.token == Comma && Next(s) == Success(s1)
    requires ParseExpression(s1) == Ok(e, s2) && s2.token == RightBracket
    ensures TupleLoop(s, line, acc) == Ok(Expression.TupleExpression(line, acc + [e]), s2)
  {
    assert MatchToken(s, Comma) == Ok((), s1);
  }

  /** The tuple loop over `, d , d )` after a first element. */
  lemma TwoMoreLiterals(line: int, first: Expression, b2: Cursor, b3: Cursor, b4: Cursor, b5: Cursor, b6: Cursor)
    requires WellFormed(first)
    requires b2.token == Comma && Next(b2) == Success(b3)
    requires b3.token == Token.DigitLiteral && Next(b3) == Success(b4)
    requires b4.token == Comma && Next(b4) == Success(b5)
    requires b5.token == Token.DigitLiteral && Next(b5) == Success(b6)
    requires b6.token == RightBracket
    ensures TupleLoop(b2, line, [first]) == Ok(Expression.TupleExpression(line, [first, LiteralAt(b3), LiteralAt(b5)]), b6)
  {
    LiteralExpression(b3, b4);
    TupleStep(b2, line, [first], b3, LiteralAt(b3), b4);
    LiteralExpression(b5, b6);
    TupleEnd(b4, line, [first] + [LiteralAt(b3)], b5, LiteralAt(b5), b6);
    assert [first] + [LiteralAt(b3)] + [LiteralAt(b5)] == [first, LiteralAt(b3), LiteralAt(b5)];
  }

  /** The contents `d , d , d )` of a bracket: the tuple of the three literals, in order. */
  lemma LiteralTripleContents(b1: Cursor, b2: Cursor, b3: Cursor, b4: Cursor, b5: Cursor, b6: Cursor)
    requires b1.token == Token.DigitLiteral && Next(b1) == Success(b2)
    requires b2.token == Comma && Next(b2) == Success(b3)
    requires b3.token == Token.DigitLiteral && Next(b3) == Success(b4)
    requires b4.token == Comma && Next(b4) == Success(b5)
    requires b5.token == Token.DigitLiteral && Next(b5) == Success(b6)
    requires b6.token == RightBracket
    ensures ParseBracket(b1) ==
            Ok(Expression.TupleExpression(LineOf(b2), [LiteralAt(b1), LiteralAt(b3), LiteralAt(b5)]), b6)
  {
    LiteralExpression(b1, b2);
    assert ParseBracket(b1) == TupleLoop(b2, LineOf(b2), [LiteralAt(b1)]);
    TwoMoreLiterals(LineOf(b2), LiteralAt(b1), b2, b3, b4, b5, b6);
  }

  /** A bracket of three literals is the tuple of the three, in order, on the line of the first comma. */
  lemma LiteralTriple(b0: Cursor, b1: Cursor, b2: Cursor, b3: Cursor, b4: Cursor, b5: Cursor, b6: Cursor, b7: Cursor)
    requires b0.token == LeftBracket && Next(b0) == Success(b1)
    requires b1.token == Token.DigitLiteral && Next(b1) == Success(b2)
    requires b2.token == Comma && Next(b2) == Success(b3)
    requires b3.token == Token.DigitLiteral && Next(b3) == Success(b4)
    requires b4.token == Comma && Next(b4) == Success(b5)
    requires b5.token == Token.DigitLiteral && Next(b5) == Success(b6)
    requires b6.token == RightBracket && Next(b6) == Success(b7)
    ensures ParseAtom(b0) ==
            Ok(Expression.TupleExpression(LineOf(b2), [LiteralAt(b1), LiteralAt(b3), LiteralAt(b5)]), b7)
  {
    LiteralTripleContents(b1, b2, b3, b4, b5, b6);
    BracketAtom(b0, b1, Expression.TupleExpression(LineOf(b2), [LiteralAt(b1), LiteralAt(b3), LiteralAt(b5)]), b6, b7);
  }

  /** `ID is E ;` is an assignment statement of E to ID, on the line where E starts. */
  lemma AssignmentStatement(s1: Cursor, s2: Cursor, s3: Cursor, e: Expression, s8: Cursor, s9: Cursor)
    requires s1.token == Token.Identifier && Next(s1) == Success(s2)
    requires s2.token == Token.Is && Next(s2) == Success(s3)
    requires ParseExpression(s3) == Ok(e, s8) && s8.token == Semico && Next(s8) == Success(s9)
    ensures ParseStatement(s1) == Ok(Some(NewAssignment(LineOf(s3), s1.id, e)), s9)
  {
    AssignmentHead(s1, s2, s3);
    assert MatchToken(s8, Semico) == Ok((), s9);
    assert AssignmentTail(s3, LineOf(s3), s1.id) == Ok(NewAssignment(LineOf(s3), s1.id, e), s9);
  }

  /** After `ID is`, `ParseAssignmentOrCall` goes on to the assignment's expression. */
  lemma AssignmentHead(s1: Cursor, s2: Cursor, s3: Cursor)
    requires s1.token == Token.Identifier && Next(s1) == Success(s2)
    requires s2.token == Token.Is && Next(s2) == Success(s3)
    ensures ParseAssignmentOrCall(s1) == AssignmentTail(s3, LineOf(s3), s1.id)
  {
    assert MatchIdentifier(s1) == Ok(s1.id, s2);
    assert TryMatchToken(s2, LeftBracket) == Ok(false, s2);
    assert TryMatchToken(s2, Token.Is) == Ok(true, s3);
  }

  /** A program that is one assignment statement parses to the list of that statement alone. */
  lemma SingleAssignment(s0: Cursor, s1: Cursor, s2: Cursor, s3: Cursor, e: Expression, s8: Cursor, s9: Cursor)
    requires Next(s0) == Success(s1)
    requires s1.token == Token.Identifier && Next(s1) == Success(s2)
    requires s2.token == Token.Is && Next(s2) == Success(s3)
    requires ParseExpression(s3) == Ok(e, s8) && s8.token == Semico && Next(s8) == Success(s9)
    requires s9.token == EOF
    ensures Parse(s0) == Ok(StatementList.StatementList([NewAssignment(LineOf(s3), s1.id, e)]), s9)
  {
    AssignmentStatement(s1, s2, s3, e, s8, s9);
    OneStatement(s1, NewAssignment(LineOf(s3), s1.id, e), s9);
    assert Advance(s0) == Ok((), s1);
  }

  /** A statement that the end of the input follows is the whole statement list. */
  lemma OneStatement(s1: Cursor, st: Statement, s9: Cursor)
    requires WellFormedStatement(st) && ParseStatement(s1) == Ok(Some(st), s9) && s9.token == EOF
    ensures ParseStatementList(s1) == Ok(StatementList.StatementList([st]), s9)
  {
    assert StatementLoop(s9, [st]) == Ok(StatementList.StatementList([st]), s9);
    assert [] + [st] == [st];
  }

  /** When the expression of such an assignment fails, the whole parse fails with its error. */
  lemma SingleAssignmentFails(s0: Cursor, s1: Cursor, s2: Cursor, s3: Cursor, err: ParseError)
    requires Next(s0) == Success(s1)
    requires s1.token == Token.Identifier && Next(s1) == Success(s2)
    requires s2.token == Token.Is && Next(s2) == Success(s3)
    requires ParseExpression(s3) == Fail(err)
    ensures Parse(s0) == Fail(err)
  {
    AssignmentHead(s1, s2, s3);
    assert ParseStatement(s1) == Fail(err);
    assert ParseStatementList(s1) == Fail(err);
    assert Advance(s0) == Ok((), s1);
  }

  /** Before the first newline, every position is on line 1. */
  lemma {:induction false} FirstLine(input: Text, p: nat)
    requires p <= |input| && forall k | 0 <= k < p :: input[k] != '\n' as int
    ensures LineAt(input, p) == 1
    decreases p
  {
    if p > 0 {
      FirstLine(input, p - 1);
      assert input[..p][..p - 1] == input[..p - 1];
    } else {
      assert input[..0] == [];
    }
  }

  const X: Text := [120]
  const IsText: Text := [105, 115]
  /** "x is " */
  const XIsPrefix: Text := [120, 32, 105, 115, 32]

  /** The input begins with "x is " and the expression starts right after it. */
  predicate StartsXIs(input: Text) {
    |input| > 5 && input[..5] == XIsPrefix && !IsBlank(input[5]) && !IsCommentStart(input, 5)
  }

  /** The first two tokens of such an input: the identifier `x` and the keyword `is`. */
  lemma XIsTokens(input: Text)
    requires StartsXIs(input)
    ensures Next(Start(input)) == Success(LexState(input, 1, Token.Identifier, 0.0, X, X))
    ensures Next(LexState(input, 1, Token.Identifier, 0.0, X, X)) == Success(LexState(input, 4, Token.Is, 0.0, IsText, IsText))
    ensures SkipEnd(input, 4) == 5
  {
    assert input[0] == 120 && input[1] == 32 && input[2] == 105 && input[3] == 115 && input[4] == 32;
    assert SkipEnd(input, 0) == 0;
    assert IdentRunEnd(input, 1) == 1;
    assert IdentRunEnd(input, 0) == 1;
    assert input[0..1] == X;
    assert ToLower(X) == X;
    assert KeywordToken(X) == Token.Identifier;
    assert SkipEnd(input, 2) == 2;
    assert SkipEnd(input, 1) == 2;
    assert IdentRunEnd(input, 4) == 4;
    assert IdentRunEnd(input, 2) == 4;
    assert input[2..4] == IsText;
    assert ToLower(IsText) == IsText;
    assert KeywordList[0] == IsText;
    assert KeywordToken(IsText) == Token.Is;
    assert SkipEnd(input, 5) == 5;
  }

  /** The state after the keyword `is`. */
  function AfterIs(input: Text): Cursor
    requires |input| >= 4
  {
    LexState(input, 4, Token.Is, 0.0, IsText, IsText)
  }

  /** A state of the parse of `input` after the keyword `is`, whose identifier fields stay "is". */
  function St(input: Text, position: nat, token: Token, digit: real): Cursor
    requires position <= |input|
  {
    LexState(input, position, token, digit, IsText, IsText)
  }

  /** An input "x is <e>;" parses to the single assignment of `e` to `x`. */
  lemma XIsProgram(input: Text, s3: Cursor, e: Expression, s8: Cursor, s9: Cursor)
    requires StartsXIs(input)
    requires Next(AfterIs(input)) == Success(s3) && LineOf(s3) == 1
    requires ParseExpression(s3) == Ok(e, s8) && s8.token == Semico
    requires Next(s8) == Success(s9) && s9.token == EOF
    ensures ParseText(input) == Ok(StatementList.StatementList([Statement.Assignment(1, X, X, e)]), s9)
  {
    XIsTokens(input);
    assert ToLower(X) == X;
    SingleAssignment(Start(input), LexState(input, 1, Token.Identifier, 0.0, X, X), AfterIs(input), s3, e, s8, s9);
  }

  /** An input "x is <atom>;" parses to the single assignment of the atom to `x`. */
  lemma XIsAtomProgram(input: Text, s3: Cursor, e: Expression, s8: Cursor, s9: Cursor)
    requires StartsXIs(input)
    requires Next(AfterIs(input)) == Success(s3) && LineOf(s3) == 1 && s3.token != Token.Minus
    requires ParseAtom(s3) == Ok(e, s8) && s8.token == Semico
    requires Next(s8) == Success(s9) && s9.token == EOF
    ensures ParseText(input) == Ok(StatementList.StatementList([Statement.Assignment(1, X, X, e)]), s9)
  {
    AtomExpression(s3, e, s8);
    XIsProgram(input, s3, e, s8, s9);
  }

  /** "x is ;" */
  const MissingText: Text := [120, 32, 105, 115, 32, 59]

  /**
   * A missing expression is an unexpected token: "x is ;" fails at the `;`,
   * with the position the lexer has reached after reading it.
   */
  lemma MissingExpressionSample()
    ensures ParseText(MissingText) == Fail(SyntaxException(6, 1, 0, UnexpectedToken(Fixed(Token.Semico))))
  {
    var input := MissingText;
    XIsTokens(input);
    var s3 := St(input, 6, Token.Semico, 0.0);
    assert Next(AfterIs(input)) == Success(s3);
    FirstLine(input, 6);
    GrammarFacts.ExpressionStart(s3);
    SingleAssignmentFails(Start(input), LexState(input, 1, Token.Identifier, 0.0, X, X), AfterIs(input), s3,
                          SyntaxException(6, 1, 0, UnexpectedToken(Fixed(Token.Semico))));
  }

  lemma SingleDigit(s: Cursor, q: nat)
    requires SkipEnd(s.input, s.position) == q && q < |s.input| && IsDigit(s.input[q])
    requires var c := At(s.input, q + 1); !IsDigit(c) && c != '.' as int && !IsIdentifyCharacter(c)
    ensures Next(s) == Success(s.(position := q + 1, token := Token.DigitLiteral,
                                  digit := DigitValue(s.input[q]) as real))
  {
    var input := s.input;
    assert DigitRunEnd(input, q + 1) == q + 1;
    assert DigitRunEnd(input, q) == q + 1;
    assert input[q..q + 1] == [input[q]];
    assert [input[q]][..0] == [];
    assert DecimalValue(input[q..q + 1]) == DigitValue(input[q]);
    assert ScanNumber(input, q) == Success((DigitValue(input[q]) as real, q + 1));
    assert SingleCharToken(input[q]).None?;
  }
  lemma Punctuation(s: Cursor, q: nat)
    requires SkipEnd(s.input, s.position) == q && q < |s.input| && SingleCharToken(s.input[q]).Some?
    ensures Next(s) == Success(s.(position := q + 1, token := SingleCharToken(s.input[q]).value))
  {
    ScannerFacts.SingleCharacterToken(s);
  }
  lemma DoubleStar(s: Cursor, q: nat)
    requires SkipEnd(s.input, s.position) == q && q + 1 < |s.input|
    requires s.input[q] == '*' as int && s.input[q + 1] == '*' as int
    ensures Next(s) == Success(s.(position := q + 2, token := Token.Power))
  {
    ScannerFacts.StarIsMaximalMunch(s);
  }

  /** A lone digit right after "x is " is the third token. */
  lemma DigitAfterIs(input: Text)
    requires StartsXIs(input) && IsDigit(input[5])
    requires var c := At(input, 6); !IsDigit(c) && c != '.' as int && !IsIdentifyCharacter(c)
    ensures Next(AfterIs(input)) == Success(St(input, 6, Token.DigitLiteral, DigitValue(input[5]) as real))
  {
    XIsTokens(input);
    SingleDigit(AfterIs(input), 5);
  }

  function Lit(v: real): Expression { Expression.DigitLiteral(1, v) }

  /** "x is 1+2*3;" */
  const SumText: Text := [120, 32, 105, 115, 32, 49, 43, 50, 42, 51, 59]

  function Sum(position: nat, token: Token, digit: real): Cursor
    requires position <= |SumText|
  {
    St(SumText, position, token, digit)
  }

  lemma SumToken3()
    ensures Next(AfterIs(SumText)) == Success(Sum(6, Token.DigitLiteral, 1.0))
  {
    assert StartsXIs(SumText);
    DigitAfterIs(SumText);
  }

  lemma SumToken4()
    ensures Next(Sum(6, Token.DigitLiteral, 1.0)) == Success(Sum(7, Token.Plus, 1.0))
  {
    assert SkipEnd(SumText, 6) == 6;
    Punctuation(Sum(6, Token.DigitLiteral, 1.0), 6);
  }

  lemma SumToken5()
    ensures Next(Sum(7, Token.Plus, 1.0)) == Success(Sum(8, Token.DigitLiteral, 2.0))
  {
    assert SkipEnd(SumText, 7) == 7;
    SingleDigit(Sum(7, Token.Plus, 1.0), 7);
  }

  lemma SumToken6()
    ensures Next(Sum(8, Token.DigitLiteral, 2.0)) == Success(Sum(9, Token.Mul, 2.0))
  {
    assert SkipEnd(SumText, 8) == 8;
  }

  lemma SumToken7()
    ensures Next(Sum(9, Token.Mul, 2.0)) == Success(Sum(10, Token.DigitLiteral, 3.0))
  {
    assert SkipEnd(SumText, 9) == 9;
    SingleDigit(Sum(9, Token.Mul, 2.0), 9);
  }

  lemma SumToken8()
    ensures Next(Sum(10, Token.DigitLiteral, 3.0)) == Success(Sum(11, Token.Semico, 3.0))
  {
    assert SkipEnd(SumText, 10) == 10;
    Punctuation(Sum(10, Token.DigitLiteral, 3.0), 10);
  }

  lemma SumToken9()
    ensures Next(Sum(11, Token.Semico, 3.0)) == Success(Sum(11, Token.EOF, 3.0))
  {
    assert SkipEnd(SumText, 11) == 11;
  }

  lemma SumLines(p: nat)
    requires p <= |SumText|
    ensures LineAt(SumText, p) == 1
  {
    FirstLine(SumText, p);
  }

  function SumTree(): Expression {
    Expression.BinaryExpression(1, BinaryOp.Plus, Lit(1.0), Expression.BinaryExpression(1, BinaryOp.Mul, Lit(2.0), Lit(3.0)))
  }

  lemma SumExpression()
    ensures ParseExpression(Sum(6, Token.DigitLiteral, 1.0)) == Ok(SumTree(), Sum(11, Token.Semico, 3.0))
  {
    SumToken4(); SumToken5(); SumToken6(); SumToken7(); SumToken8();
    SumLines(6); SumLines(8); SumLines(10); SumLines(11);
    ProductBindsFirst(Sum(6, Token.DigitLiteral, 1.0), Sum(7, Token.Plus, 1.0), Sum(8, Token.DigitLiteral, 2.0),
                      Sum(9, Token.Mul, 2.0), Sum(10, Token.DigitLiteral, 3.0), Sum(11, Token.Semico, 3.0));
  }

  lemma SumEnds()
    ensures StartsXIs(SumText)
    ensures Next(AfterIs(SumText)) == Success(Sum(6, Token.DigitLiteral, 1.0)) && LineOf(Sum(6, Token.DigitLiteral, 1.0)) == 1
    ensures Next(Sum(11, Token.Semico, 3.0)) == Success(Sum(11, Token.EOF, 3.0))
  {
    SumToken3(); SumToken9(); SumLines(6);
  }

  /** "x is 1+2*3;" assigns 1 + (2 * 3). */
  lemma SumSample()
    ensures ParseText(SumText) ==
            Ok(StatementList.StatementList([Statement.Assignment(1, X, X, SumTree())]), Sum(11, Token.EOF, 3.0))
  {
    SumEnds();
    SumExpression();
    XIsProgram(SumText, Sum(6, Token.DigitLiteral, 1.0), SumTree(), Sum(11, Token.Semico, 3.0), Sum(11, Token.EOF, 3.0));
  }

  /** "x is 2**3**2;" */
  const PowerText: Text := [120, 32, 105, 115, 32, 50, 42, 42, 51, 42, 42, 50, 59]

  function P(position: nat, token: Token, digit: real): Cursor
    requires position <= |PowerText|
  {
    St(PowerText, position, token, digit)
  }

  lemma PowerLines(p: nat)
    requires p <= |PowerText|
    ensures LineAt(PowerText, p) == 1
  {
    FirstLine(PowerText, p);
  }

  lemma PowerToken3()
    ensures Next(AfterIs(PowerText)) == Success(P(6, Token.DigitLiteral, 2.0))
  {
    assert StartsXIs(PowerText);
    DigitAfterIs(PowerText);
  }

  lemma PowerToken4()
    ensures Next(P(6, Token.DigitLiteral, 2.0)) == Success(P(8, Token.Power, 2.0))
  {
    assert SkipEnd(PowerText, 6) == 6;
    DoubleStar(P(6, Token.DigitLiteral, 2.0), 6);
  }

  lemma PowerToken5()
    ensures Next(P(8, Token.Power, 2.0)) == Success(P(9, Token.DigitLiteral, 3.0))
  {
    assert SkipEnd(PowerText, 8) == 8;
    SingleDigit(P(8, Token.Power, 2.0), 8);
  }

  lemma PowerToken6()
    ensures Next(P(9, Token.DigitLiteral, 3.0)) == Success(P(11, Token.Power, 3.0))
  {
    assert SkipEnd(PowerText, 9) == 9;
    DoubleStar(P(9, Token.DigitLiteral, 3.0), 9);
  }

  lemma PowerToken7()
    ensures Next(P(11, Token.Power, 3.0)) == Success(P(12, Token.DigitLiteral, 2.0))
  {
    assert SkipEnd(PowerText, 11) == 11;
    SingleDigit(P(11, Token.Power, 3.0), 11);
  }

  lemma PowerToken8()
    ensures Next(P(12, Token.DigitLiteral, 2.0)) == Success(P(13, Token.Semico, 2.0))
  {
    assert SkipEnd(PowerText, 12) == 12;
    Punctuation(P(12, Token.DigitLiteral, 2.0), 12);
  }

  lemma PowerToken9()
    ensures Next(P(13, Token.Semico, 2.0)) == Success(P(13, Token.EOF, 2.0))
  {
    assert SkipEnd(PowerText, 13) == 13;
  }

  function PowerTree(): Expression {
    Expression.BinaryExpression(1, BinaryOp.Power, Expression.BinaryExpression(1, BinaryOp.Power, Lit(2.0), Lit(3.0)), Lit(2.0))
  }

  lemma PowerExpression()
    ensures ParseExpression(P(6, Token.DigitLiteral, 2.0)) == Ok(PowerTree(), P(13, Token.Semico, 2.0))
  {
    PowerToken4(); PowerToken5(); PowerToken6(); PowerToken7(); PowerToken8();
    PowerLines(6); PowerLines(9); PowerLines(11); PowerLines(12); PowerLines(13);
    PowerGroupsLeft(P(6, Token.DigitLiteral, 2.0), P(8, Token.Power, 2.0), P(9, Token.DigitLiteral, 3.0),
                    P(11, Token.Power, 3.0), P(12, Token.DigitLiteral, 2.0), P(13, Token.Semico, 2.0));
  }

  lemma PowerEnds()
    ensures StartsXIs(PowerText)
    ensures Next(AfterIs(PowerText)) == Success(P(6, Token.DigitLiteral, 2.0)) && LineOf(P(6, Token.DigitLiteral, 2.0)) == 1
    ensures Next(P(13, Token.Semico, 2.0)) == Success(P(13, Token.EOF, 2.0))
  {
    PowerToken3(); PowerToken9(); PowerLines(6);
  }

  /** "x is 2**3**2;" assigns (2 ** 3) ** 2. */
  lemma PowerSample()
    ensures ParseText(PowerText) ==
            Ok(StatementList.StatementList([Statement.Assignment(1, X, X, PowerTree())]), P(13, Token.EOF, 2.0))
  {
    PowerEnds();
    PowerExpression();
    XIsProgram(PowerText, P(6, Token.DigitLiteral, 2.0), PowerTree(), P(13, Token.Semico, 2.0), P(13, Token.EOF, 2.0));
  }

  /** "x is (1,2,3);" */
  const TupleText: Text := [120, 32, 105, 115, 32, 40, 49, 44, 50, 44, 51, 41, 59]

  function T(position: nat, token: Token, digit: real): Cursor
    requires position <= |TupleText|
  {
    St(TupleText, position, token, digit)
  }

  lemma TupleLines(p: nat)
    requires p <= |TupleText|
    ensures LineAt(TupleText, p) == 1
  {
    FirstLine(TupleText, p);
  }

  lemma TupleToken3()
    ensures Next(AfterIs(TupleText)) == Success(T(6, LeftBracket, 0.0))
  {
    XIsTokens(TupleText);
    Punctuation(AfterIs(TupleText), 5);
  }

  lemma TupleToken4()
    ensures Next(T(6, LeftBracket, 0.0)) == Success(T(7, Token.DigitLiteral, 1.0))
  {
    assert SkipEnd(TupleText, 6) == 6;
    SingleDigit(T(6, LeftBracket, 0.0), 6);
  }

  lemma TupleToken5()
    ensures Next(T(7, Token.DigitLiteral, 1.0)) == Success(T(8, Comma, 1.0))
  {
    assert SkipEnd(TupleText, 7) == 7;
    Punctuation(T(7, Token.DigitLiteral, 1.0), 7);
  }

  lemma TupleToken6()
    ensures Next(T(8, Comma, 1.0)) == Success(T(9, Token.DigitLiteral, 2.0))
  {
    assert SkipEnd(TupleText, 8) == 8;
    SingleDigit(T(8, Comma, 1.0), 8);
  }

  lemma TupleToken7()
    ensures Next(T(9, Token.DigitLiteral, 2.0)) == Success(T(10, Comma, 2.0))
  {
    assert SkipEnd(TupleText, 9) == 9;
    Punctuation(T(9, Token.DigitLiteral, 2.0), 9);
  }

  lemma TupleToken8()
    ensures Next(T(10, Comma, 2.0)) == Success(T(11, Token.DigitLiteral, 3.0))
  {
    assert SkipEnd(TupleText, 10) == 10;
    SingleDigit(T(10, Comma, 2.0), 10);
  }

  lemma TupleToken9()
    ensures Next(T(11, Token.DigitLiteral, 3.0)) == Success(T(12, RightBracket, 3.0))
  {
    assert SkipEnd(TupleText, 11) == 11;
    Punctuation(T(11, Token.DigitLiteral, 3.0), 11);
  }

  lemma TupleToken10()
    ensures Next(T(12, RightBracket, 3.0)) == Success(T(13, Semico, 3.0))
  {
    assert SkipEnd(TupleText, 12) == 12;
    Punctuation(T(12, RightBracket, 3.0), 12);
  }

  lemma TupleToken11()
    ensures Next(T(13, Semico, 3.0)) == Success(T(13, EOF, 3.0))
  {
    assert SkipEnd(TupleText, 13) == 13;
  }

  /** A literal followed by a token that is no operator is a whole expression. */
  function Triple(): Expression { Expression.TupleExpression(1, [Lit(1.0), Lit(2.0), Lit(3.0)]) }

  lemma TupleAtom()
    ensures ParseAtom(T(6, LeftBracket, 0.0)) == Ok(Triple(), T(13, Semico, 3.0))
  {
    TupleToken4(); TupleToken5(); TupleToken6(); TupleToken7(); TupleToken8(); TupleToken9(); TupleToken10();
    TupleLines(7); TupleLines(8); TupleLines(9); TupleLines(11);
    LiteralTriple(T(6, LeftBracket, 0.0), T(7, Token.DigitLiteral, 1.0), T(8, Comma, 1.0), T(9, Token.DigitLiteral, 2.0),
                  T(10, Comma, 2.0), T(11, Token.DigitLiteral, 3.0), T(12, RightBracket, 3.0), T(13, Semico, 3.0));
  }

  lemma TupleEnds()
    ensures StartsXIs(TupleText)
    ensures Next(AfterIs(TupleText)) == Success(T(6, LeftBracket, 0.0)) && LineOf(T(6, LeftBracket, 0.0)) == 1
    ensures Next(T(13, Semico, 3.0)) == Success(T(13, EOF, 3.0))
  {
    TupleToken3(); TupleToken11(); TupleLines(6);
  }

  /** "x is (1,2,3);" assigns the tuple of 1, 2 and 3, in order. */
  lemma TupleSample()
    ensures ParseText(TupleText) ==
            Ok(StatementList.StatementList([Statement.Assignment(1, X, X, Triple())]), T(13, EOF, 3.0))
  {
    TupleEnds();
    TupleAtom();
    XIsAtomProgram(TupleText, T(6, LeftBracket, 0.0), Triple(), T(13, Semico, 3.0), T(13, EOF, 3.0));
  }

  /** "x is (1);" */
  const GroupText: Text := [120, 32, 105, 115, 32, 40, 49, 41, 59]

  function G(position: nat, token: Token, digit: real): Cursor
    requires position <= |GroupText|
  {
    St(GroupText, position, token, digit)
  }

  lemma GroupLines(p: nat)
    requires p <= |GroupText|
    ensures LineAt(GroupText, p) == 1
  {
    FirstLine(GroupText, p);
  }

  lemma GroupToken3()
    ensures Next(AfterIs(GroupText)) == Success(G(6, LeftBracket, 0.0))
  {
    XIsTokens(GroupText);
    Punctuation(AfterIs(GroupText), 5);
  }

  lemma GroupToken4()
    ensures Next(G(6, LeftBracket, 0.0)) == Success(G(7, Token.DigitLiteral, 1.0))
  {
    assert SkipEnd(GroupText, 6) == 6;
    SingleDigit(G(6, LeftBracket, 0.0), 6);
  }

  lemma GroupToken5()
    ensures Next(G(7, Token.DigitLiteral, 1.0)) == Success(G(8, RightBracket, 1.0))
  {
    assert SkipEnd(GroupText, 7) == 7;
    Punctuation(G(7, Token.DigitLiteral, 1.0), 7);
  }

  lemma GroupToken6()
    ensures Next(G(8, RightBracket, 1.0)) == Success(G(9, Semico, 1.0))
  {
    assert SkipEnd(GroupText, 8) == 8;
    Punctuation(G(8, RightBracket, 1.0), 8);
  }

  lemma GroupToken7()
    ensures Next(G(9, Semico, 1.0)) == Success(G(9, EOF, 1.0))
  {
    assert SkipEnd(GroupText, 9) == 9;
  }

  lemma GroupAtom()
    ensures ParseAtom(G(6, LeftBracket, 0.0)) == Ok(Lit(1.0), G(9, Semico, 1.0))
  {
    GroupToken4(); GroupToken5(); GroupToken6(); GroupLines(7);
    LiteralInBrackets(G(6, LeftBracket, 0.0), G(7, Token.DigitLiteral, 1.0), G(8, RightBracket, 1.0), G(9, Semico, 1.0));
  }

  lemma GroupEnds()
    ensures StartsXIs(GroupText)
    ensures Next(AfterIs(GroupText)) == Success(G(6, LeftBracket, 0.0)) && LineOf(G(6, LeftBracket, 0.0)) == 1
    ensures Next(G(9, Semico, 1.0)) == Success(G(9, EOF, 1.0))
  {
    GroupToken3(); GroupToken7(); GroupLines(6);
  }

  /** "x is (1);" assigns the literal 1 itself, not a tuple of one. */
  lemma GroupSample()
    ensures ParseText(GroupText) ==
            Ok(StatementList.StatementList([Statement.Assignment(1, X, X, Lit(1.0))]), G(9, EOF, 1.0))
  {
    GroupEnds();
    GroupAtom();
    XIsAtomProgram(GroupText, G(6, LeftBracket, 0.0), Lit(1.0), G(9, Semico, 1.0), G(9, EOF, 1.0));
  }

  const DecimalText: Text := [49, 50, 46, 53]

  /** A literal is worth its integer digits plus its fraction digits: "12.5" reads as 12.5. */
  lemma DecimalLiteral()
    ensures Next(Start(DecimalText)) == Success(LexState(DecimalText, 4, Token.DigitLiteral, 12.5, [], []))
  {
    var input := DecimalText;
    assert SkipEnd(input, 0) == 0;
    assert DigitRunEnd(input, 2) == 2;
    assert DigitRunEnd(input, 0) == 2;
    assert input[0..2] == [49, 50];
    assert DecimalValue([49, 50]) == 12 by {
      assert [49, 50][..1] == [49];
      assert [49][..0] == [];
    }
    assert DigitRunEnd(input, 4) == 4;
    assert DigitRunEnd(input, 3) == 4;
    assert input[3..4] == [53];
    assert FracValue([53]) == 0.5 by {
      assert [53][..0] == [];
      assert Tenth(1) == 0.1;
    }
  }

  /** "1a" */
  const MalformedText: Text := [49, 97]

  /** A literal may not run into an identifier: "1a" is a lexical error at the `a`. */
  lemma LiteralRunsIntoLetter()
    ensures Next(Start(MalformedText)) == Failure(LexcialException(1, 1, 0, NotValidFollowing('a' as int)))
  {
    var input := MalformedText;
    assert SkipEnd(input, 0) == 0;
    assert DigitRunEnd(input, 1) == 1;
    assert DigitRunEnd(input, 0) == 1;
    FirstLine(input, 1);
  }

  /** An input that is one identifier is read whole, as the keyword it folds to or as an identifier. */
  lemma WholeWord(input: Text)
    requires |input| > 0 && IsIdentifyStart(input[0]) && SkipEnd(input, 0) == 0 && IdentRunEnd(input, 0) == |input|
    ensures Next(Start(input)) ==
            Success(LexState(input, |input|, KeywordToken(ToLower(input)), 0.0, input, ToLower(input)))
  {
    ScannerFacts.IdentifierIsMaximalRun(Start(input));
    assert input[0..|input|] == input;
  }

  /** "FOR" */
  const UpperForText: Text := [70, 79, 82]
  /** "for" */
  const LowerForText: Text := [102, 111, 114]

  /** "FOR" reads as the keyword `for`; `CurId` keeps the spelling and `CurIdLower` is "for". */
  lemma UpperCaseKeyword()
    ensures Next(Start(UpperForText)) == Success(LexState(UpperForText, 3, Token.For, 0.0, UpperForText, LowerForText))
  {
    assert ToLower(UpperForText) == LowerForText;
    assert KeywordToken(LowerForText) == Token.For by {
      assert KeywordList[1] == LowerForText;
    }
    assert IdentRunEnd(UpperForText, 3) == 3;
    assert IdentRunEnd(UpperForText, 0) == 3;
    WholeWord(UpperForText);
  }

  /** "for" reads as the keyword `for`. */
  lemma LowerCaseKeyword()
    ensures Next(Start(LowerForText)) == Success(LexState(LowerForText, 3, Token.For, 0.0, LowerForText, LowerForText))
  {
    assert ToLower(LowerForText) == LowerForText;
    assert KeywordToken(LowerForText) == Token.For by {
      assert KeywordList[1] == LowerForText;
    }
    assert IdentRunEnd(LowerForText, 3) == 3;
    assert IdentRunEnd(LowerForText, 0) == 3;
    WholeWord(LowerForText);
  }

  /** "1." */
  const TrailingDotText: Text := [49, 46]

  /**
   * A `.` right after the integer digits is read even when no digit follows:
   * "1." is one literal worth 1.0 that ends after the dot.
   */
  lemma TrailingDotIsPartOfLiteral()
    ensures Next(Start(TrailingDotText)) == Success(LexState(TrailingDotText, 2, Token.DigitLiteral, 1.0, [], []))
  {
    var input := TrailingDotText;
    assert SkipEnd(input, 0) == 0;
    assert DigitRunEnd(input, 1) == 1;
    assert DigitRunEnd(input, 0) == 1;
    assert input[0..1] == [49];
    assert [49][..0] == [];
    assert DigitRunEnd(input, 2) == 2;
    assert input[2..2] == [];
  }

  /** "Draw" */
  const DrawText: Text := [68, 114, 97, 119]
  /** "draw" */
  const LowerDrawText: Text := [100, 114, 97, 119]

  lemma DrawIsNoKeyword()
    ensures ToLower(DrawText) == LowerDrawText && KeywordToken(LowerDrawText) == Token.Identifier
  {
    assert forall i | 0 <= i < |KeywordList| :: KeywordList[i] != LowerDrawText;
  }

  /** An identifier keeps its spelling in `CurId` and its folded form in `CurIdLower`: "Draw" and "draw". */
  lemma IdentifierKeepsSpelling()
    ensures Next(Start(DrawText)) == Success(LexState(DrawText, 4, Token.Identifier, 0.0, DrawText, LowerDrawText))
  {
    assert ToLower(DrawText) == LowerDrawText;
    DrawIsNoKeyword();
    assert IdentRunEnd(DrawText, 4) == 4;
    assert IdentRunEnd(DrawText, 0) == 4;
    WholeWord(DrawText);
  }

  /** "x is -2*3;" */
  const NegText: Text := [120, 32, 105, 115, 32, 45, 50, 42, 51, 59]

  function N(position: nat, token: Token, digit: real): Cursor
    requires position <= |NegText|
  {
    St(NegText, position, token, digit)
  }

  lemma NegLines(p: nat)
    requires p <= |NegText|
    ensures LineAt(NegText, p) == 1
  {
    FirstLine(NegText, p);
  }

  lemma NegToken3()
    ensures Next(AfterIs(NegText)) == Success(N(6, Token.Minus, 0.0))
  {
    assert StartsXIs(NegText);
    XIsTokens(NegText);
    Punctuation(AfterIs(NegText), 5);
  }

  lemma NegToken4()
    ensures Next(N(6, Token.Minus, 0.0)) == Success(N(7, Token.DigitLiteral, 2.0))
  {
    assert SkipEnd(NegText, 6) == 6;
    SingleDigit(N(6, Token.Minus, 0.0), 6);
  }

  lemma NegToken5()
    ensures Next(N(7, Token.DigitLiteral, 2.0)) == Success(N(8, Token.Mul, 2.0))
  {
    assert SkipEnd(NegText, 7) == 7;
  }

  lemma NegToken6()
    ensures Next(N(8, Token.Mul, 2.0)) == Success(N(9, Token.DigitLiteral, 3.0))
  {
    assert SkipEnd(NegText, 8) == 8;
    SingleDigit(N(8, Token.Mul, 2.0), 8);
  }

  lemma NegToken7()
    ensures Next(N(9, Token.DigitLiteral, 3.0)) == Success(N(10, Token.Semico, 3.0))
  {
    assert SkipEnd(NegText, 9) == 9;
    Punctuation(N(9, Token.DigitLiteral, 3.0), 9);
  }

  lemma NegToken8()
    ensures Next(N(10, Token.Semico, 3.0)) == Success(N(10, Token.EOF, 3.0))
  {
    assert SkipEnd(NegText, 10) == 10;
  }

  function NegTree(): Expression {
    Expression.BinaryExpression(1, BinaryOp.Mul, Expression.UnaryExpression(1, Negative, Lit(2.0)), Lit(3.0))
  }

  lemma NegExpression()
    ensures ParseExpression(N(6, Token.Minus, 0.0)) == Ok(NegTree(), N(10, Token.Semico, 3.0))
  {
    NegToken4(); NegToken5(); NegToken6(); NegToken7();
    NegLines(7); NegLines(9); NegLines(10);
    LiteralAtom(N(7, Token.DigitLiteral, 2.0), N(8, Token.Mul, 2.0));
    LiteralAtom(N(9, Token.DigitLiteral, 3.0), N(10, Token.Semico, 3.0));
    AtomAtZero(N(9, Token.DigitLiteral, 3.0), Lit(3.0), N(10, Token.Semico, 3.0));
    Precedence.NegationBindsTightest(N(6, Token.Minus, 0.0), N(7, Token.DigitLiteral, 2.0), Lit(2.0),
                                     N(8, Token.Mul, 2.0), N(9, Token.DigitLiteral, 3.0), Lit(3.0),
                                     N(10, Token.Semico, 3.0));
  }

  lemma NegEnds()
    ensures StartsXIs(NegText)
    ensures Next(AfterIs(NegText)) == Success(N(6, Token.Minus, 0.0)) && LineOf(N(6, Token.Minus, 0.0)) == 1
    ensures Next(N(10, Token.Semico, 3.0)) == Success(N(10, Token.EOF, 3.0))
  {
    NegToken3(); NegToken8(); NegLines(6);
  }

  /** "x is -2*3;" assigns (-2) * 3: the minus takes the 2 alone. */
  lemma NegationSample()
    ensures ParseText(NegText) ==
            Ok(StatementList.StatementList([Statement.Assignment(1, X, X, NegTree())]), N(10, Token.EOF, 3.0))
  {
    NegEnds();
    NegExpression();
    XIsProgram(NegText, N(6, Token.Minus, 0.0), NegTree(), N(10, Token.Semico, 3.0), N(10, Token.EOF, 3.0));
  }

  /** A word between q and e, with nothing to skip before it, is read whole. */
  lemma Word(s: Cursor, q: nat, e: nat)
    requires SkipEnd(s.input, s.position) == q && q < |s.input| && IsIdentifyStart(s.input[q])
    requires IdentRunEnd(s.input, q) == e
    ensures Next(s) == Success(s.(position := e, token := KeywordToken(ToLower(s.input[q..e])),
                                  id := s.input[q..e], idLower := ToLower(s.input[q..e])))
  {
    ScannerFacts.IdentifierIsMaximalRun(s);
  }

  /** Nothing is skipped at a character that is neither blank nor the start of a comment. */
  lemma TokenHere(input: Text, p: nat)
    requires p < |input| && !IsBlank(input[p]) && !IsCommentStart(input, p)
    ensures SkipEnd(input, p) == p
  {
  }

  /** One blank before such a character is skipped. */
  lemma AfterOneBlank(input: Text, p: nat)
    requires p + 1 < |input| && IsBlank(input[p]) && !IsBlank(input[p + 1]) && !IsCommentStart(input, p + 1)
    ensures SkipEnd(input, p) == p + 1
  {
  }

  /** A run of identifier characters from q that stops at e ends there. */
  lemma {:induction false} RunEndsAt(input: Text, q: nat, e: nat)
    requires q <= e <= |input| && forall k | q <= k < e :: IsIdentifyCharacter(input[k])
    requires !IsIdentifyCharacter(At(input, e))
    ensures IdentRunEnd(input, q) == e
    decreases e - q
  {
    if q < e {
      RunEndsAt(input, q + 1, e);
    }
  }

  /** "for i from 1 to 2{}" */
  const ForText: Text := [102, 111, 114, 32, 105, 32, 102, 114, 111, 109, 32, 49, 32, 116, 111, 32, 50, 123, 125]
  const ForWord: Text := [102, 111, 114]
  const IWord: Text := [105]
  const FromWord: Text := [102, 114, 111, 109]
  const ToWord: Text := [116, 111]

  /** A state of the parse of ForText, with the last word read in both identifier fields. */
  function F(position: nat, token: Token, digit: real, word: Text): Cursor
    requires position <= |ForText|
  {
    LexState(ForText, position, token, digit, word, word)
  }

  lemma ForLines(p: nat)
    requires p <= |ForText|
    ensures LineAt(ForText, p) == 1
  {
    FirstLine(ForText, p);
  }

  /** The word `for` at 0..3, and the keyword it folds to. */
  lemma ForRun()
    ensures IdentRunEnd(ForText, 0) == 3 && ForText[0..3] == ForWord
    ensures ToLower(ForWord) == ForWord && KeywordToken(ForWord) == Token.For
  {
    RunEndsAt(ForText, 0, 3);
    assert KeywordList[1] == ForWord;
  }

  /** The word `i` at 4..5, which is no keyword. */
  lemma IRun()
    ensures IdentRunEnd(ForText, 4) == 5 && ForText[4..5] == IWord
    ensures ToLower(IWord) == IWord && KeywordToken(IWord) == Token.Identifier
  {
    RunEndsAt(ForText, 4, 5);
    assert forall i | 0 <= i < |KeywordList| :: KeywordList[i] != IWord;
  }

  lemma ForToken1()
    ensures Next(Start(ForText)) == Success(F(3, Token.For, 0.0, ForWord))
  {
    TokenHere(ForText, 0);
    ForRun();
    Word(Start(ForText), 0, 3);
  }

  lemma ForToken2()
    ensures Next(F(3, Token.For, 0.0, ForWord)) == Success(F(5, Token.Identifier, 0.0, IWord))
  {
    AfterOneBlank(ForText, 3);
    IRun();
    Word(F(3, Token.For, 0.0, ForWord), 4, 5);
  }

  /** The word `from` at 6..10, and the keyword it folds to. */
  lemma FromRun()
    ensures IdentRunEnd(ForText, 6) == 10 && ForText[6..10] == FromWord
    ensures ToLower(FromWord) == FromWord && KeywordToken(FromWord) == Token.From
  {
    RunEndsAt(ForText, 6, 10);
    assert KeywordList[2] == FromWord;
  }

  lemma ForToken3()
    ensures Next(F(5, Token.Identifier, 0.0, IWord)) == Success(F(10, Token.From, 0.0, FromWord))
  {
    AfterOneBlank(ForText, 5);
    FromRun();
    Word(F(5, Token.Identifier, 0.0, IWord), 6, 10);
  }

  lemma ForToken4()
    ensures Next(F(10, Token.From, 0.0, FromWord)) == Success(F(12, Token.DigitLiteral, 1.0, FromWord))
  {
    AfterOneBlank(ForText, 10);
    SingleDigit(F(10, Token.From, 0.0, FromWord), 11);
  }

  lemma ForToken5()
    ensures Next(F(12, Token.DigitLiteral, 1.0, FromWord)) == Success(F(15, Token.To, 1.0, ToWord))
  {
    AfterOneBlank(ForText, 12);
    assert IdentRunEnd(ForText, 15) == 15;
    assert IdentRunEnd(ForText, 13) == 15;
    assert ForText[13..15] == ToWord;
    assert ToLower(ToWord) == ToWord;
    assert KeywordList[3] == ToWord;
    assert KeywordToken(ToWord) == Token.To;
    Word(F(12, Token.DigitLiteral, 1.0, FromWord), 13, 15);
  }

  lemma ForToken6()
    ensures Next(F(15, Token.To, 1.0, ToWord)) == Success(F(17, Token.DigitLiteral, 2.0, ToWord))
  {
    AfterOneBlank(ForText, 15);
    SingleDigit(F(15, Token.To, 1.0, ToWord), 16);
  }

  lemma ForToken7()
    ensures Next(F(17, Token.DigitLiteral, 2.0, ToWord)) == Success(F(18, LeftBrace, 2.0, ToWord))
  {
    TokenHere(ForText, 17);
    Punctuation(F(17, Token.DigitLiteral, 2.0, ToWord), 17);
  }

  lemma ForToken8()
    ensures Next(F(18, LeftBrace, 2.0, ToWord)) == Success(F(19, RightBrace, 2.0, ToWord))
  {
    TokenHere(ForText, 18);
    Punctuation(F(18, LeftBrace, 2.0, ToWord), 18);
  }

  lemma ForToken9()
    ensures Next(F(19, RightBrace, 2.0, ToWord)) == Success(F(19, Token.EOF, 2.0, ToWord))
  {
    assert SkipEnd(ForText, 19) == 19;
  }

  /** `{` right before `}` is the empty block. */
  lemma EmptyBlock(s: Cursor, s1: Cursor, s2: Cursor)
    requires s.token == LeftBrace && Next(s) == Success(s1)
    requires s1.token == RightBrace && Next(s1) == Success(s2)
    ensures ParseBlock(s) == Ok(StatementList.StatementList([]), s2)
  {
    assert TryMatchToken(s, LeftBrace) == Ok(true, s1);
    GrammarFacts.StatementStart(s1);
    assert StatementLoop(s1, []) == Ok(StatementList.StatementList([]), s1);
    assert MatchToken(s1, RightBrace) == Ok((), s2);
  }

  /** After `for ID from`: the two bounds around `to`, then the rest. */
  lemma BoundsThenTail(s3: Cursor, from: Expression, s4: Cursor, s5: Cursor, to: Expression, s6: Cursor,
                       line: int, id: Text)
    requires ParseExpression(s3) == Ok(from, s4)
    requires s4.token == To && Next(s4) == Success(s5)
    requires ParseExpression(s5) == Ok(to, s6)
    ensures ForBounds(s3, line, id) == ForTail(s6, line, id, from, to)
  {
    assert MatchToken(s4, To) == Ok((), s5);
  }

  /** No `step`: the block follows the bounds. */
  lemma TailWithoutStep(s: Cursor, line: int, id: Text, from: Expression, to: Expression,
                        block: StatementList, s8: Cursor)
    requires s.token != Step && ParseBlock(s) == Ok(block, s8)
    ensures ForTail(s, line, id, from, to) == Ok(NewForStatement(line, id, from, to, None, block), s8)
  {
    assert TryMatchToken(s, Step) == Ok(false, s);
    assert OptionalStep(s) == Ok(None, s);
  }

  /** `for ID from`, then the bounds and the rest. */
  lemma ForHead(s: Cursor, s1: Cursor, s2: Cursor, s3: Cursor, st: Statement, s8: Cursor)
    requires s.token == For && Next(s) == Success(s1)
    requires s1.token == Token.Identifier && Next(s1) == Success(s2)
    requires s2.token == From && Next(s2) == Success(s3)
    requires ForBounds(s3, LineOf(s), s1.id) == Ok(st, s8)
    ensures ParseStatement(s) == Ok(Some(st), s8)
  {
    assert MatchToken(s, For) == Ok((), s1);
    assert MatchIdentifier(s1) == Ok(s1.id, s2);
    assert MatchToken(s2, From) == Ok((), s3);
  }

  function ForTree(): Statement {
    Statement.ForStatement(1, IWord, IWord, Lit(1.0), Lit(2.0), None, StatementList.StatementList([]))
  }

  /** The block `{}` that ends the sample. */
  lemma ForBlockPart()
    ensures ParseBlock(F(18, LeftBrace, 2.0, ToWord)) == Ok(StatementList.StatementList([]), F(19, Token.EOF, 2.0, ToWord))
  {
    ForToken8(); ForToken9();
    EmptyBlock(F(18, LeftBrace, 2.0, ToWord), F(19, RightBrace, 2.0, ToWord), F(19, Token.EOF, 2.0, ToWord));
  }

  /** Everything after the upper bound: no step, then `{}`. */
  lemma ForTailPart()
    ensures ForTail(F(18, LeftBrace, 2.0, ToWord), 1, IWord, Lit(1.0), Lit(2.0)) == Ok(ForTree(), F(19, Token.EOF, 2.0, ToWord))
  {
    ForBlockPart();
    assert ToLower(IWord) == IWord;
    TailWithoutStep(F(18, LeftBrace, 2.0, ToWord), 1, IWord, Lit(1.0), Lit(2.0),
                    StatementList.StatementList([]), F(19, Token.EOF, 2.0, ToWord));
  }

  /** The lower bound `1`. */
  lemma ForFrom()
    ensures ParseExpression(F(12, Token.DigitLiteral, 1.0, FromWord)) == Ok(Lit(1.0), F(15, Token.To, 1.0, ToWord))
  {
    ForToken5();
    ForLines(12);
    LiteralExpression(F(12, Token.DigitLiteral, 1.0, FromWord), F(15, Token.To, 1.0, ToWord));
  }

  /** The upper bound `2`. */
  lemma ForTo()
    ensures ParseExpression(F(17, Token.DigitLiteral, 2.0, ToWord)) == Ok(Lit(2.0), F(18, LeftBrace, 2.0, ToWord))
  {
    ForToken7();
    ForLines(17);
    LiteralExpression(F(17, Token.DigitLiteral, 2.0, ToWord), F(18, LeftBrace, 2.0, ToWord));
  }

  /** `1 to 2{}` after `for i from`. */
  lemma ForBoundsPart()
    ensures ForBounds(F(12, Token.DigitLiteral, 1.0, FromWord), 1, IWord) == Ok(ForTree(), F(19, Token.EOF, 2.0, ToWord))
  {
    ForFrom(); ForToken6(); ForTo();
    ForTailPart();
    BoundsThenTail(F(12, Token.DigitLiteral, 1.0, FromWord), Lit(1.0), F(15, Token.To, 1.0, ToWord),
                   F(17, Token.DigitLiteral, 2.0, ToWord), Lit(2.0), F(18, LeftBrace, 2.0, ToWord), 1, IWord);
  }

  /** The statement `for i from 1 to 2{}`, read from the `for` token. */
  lemma ForParts()
    ensures ParseStatement(F(3, Token.For, 0.0, ForWord)) == Ok(Some(ForTree()), F(19, Token.EOF, 2.0, ToWord))
  {
    ForToken2(); ForToken3(); ForToken4();
    ForLines(3);
    ForBoundsPart();
    ForHead(F(3, Token.For, 0.0, ForWord), F(5, Token.Identifier, 0.0, IWord), F(10, Token.From, 0.0, FromWord),
            F(12, Token.DigitLiteral, 1.0, FromWord), ForTree(), F(19, Token.EOF, 2.0, ToWord));
  }

  /**
   * "for i from 1 to 2{}" is one for statement over `i` from 1 to 2, with no
   * step and an empty block, numbered with line 1.
   */
  lemma ForSample()
    ensures ParseText(ForText) == Ok(StatementList.StatementList([ForTree()]), F(19, Token.EOF, 2.0, ToWord))
  {
    ForToken1();
    ForParts();
    assert Advance(Start(ForText)) == Ok((), F(3, Token.For, 0.0, ForWord));
    OneStatement(F(3, Token.For, 0.0, ForWord), ForTree(), F(19, Token.EOF, 2.0, ToWord));
  }
}
