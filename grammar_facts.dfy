/** Properties of the parser specification (module Grammar). */
module GrammarFacts {
  import opened Wrappers
  import opened Chars
  import opened Tokens
  import opened Scanner
  import opened Ast
  import opened Grammar

  /**
   * The table orders the operators: `**` binds tighter than `*` and `/`,
   * which bind tighter than `+` and `-`; the node operator of each token is
   * the `BinaryOp` of the same name.
   */
  lemma PriorityOrder()
    ensures PriorityOf(Token.Power) < PriorityOf(Token.Mul) == PriorityOf(Token.Div)
    ensures PriorityOf(Token.Div) < PriorityOf(Token.Plus) == PriorityOf(Token.Minus)
    ensures forall t | IsBinaryOperator(t) :: 1 <= PriorityOf(t) <= 3
    ensures NodeOperator(Token.Power) == BinaryOp.Power && NodeOperator(Token.Mul) == BinaryOp.Mul
  {
  }

  /**
   * `ParseExpression` starts at priority 4, one above the highest priority in
   * use, which parses exactly what priority 3 parses.
   */
  lemma ExpressionStartsAboveTable(s: Cursor)
    ensures ParseExpression(s) == ParseBinary(s, 3)
  {
    assert |PriorityTable| - 1 == 4;
    var l := ParseBinary(s, 3);
    if l.Ok? {
      assert !OperatorWithin(l.rest.token, 3);
    }
  }

  /** `TryMatchToken` reads the token exactly when it is there; otherwise nothing changes. */
  lemma TryMatchTokenReadsOnlyOnMatch(s: Cursor, t: Token)
    ensures s.token != t ==> TryMatchToken(s, t) == Ok(false, s)
    ensures s.token == t ==> TryMatchToken(s, t) == (match Scanner.Next(s)
                                                     case Success(s') => Ok(true, s')
                                                     case Failure(e) => Fail(e))
  {
  }

  /**
   * On another token `TryMatchIdentifier` reports no identifier, an empty
   * text, and changes nothing; on an identifier it returns the identifier's
   * text as written after one `Next`.
   */
  lemma TryMatchIdentifierReadsOnlyOnMatch(s: Cursor)
    ensures s.token != Identifier ==> TryMatchIdentifier(s) == Ok((false, []), s)
    ensures s.token == Identifier ==> TryMatchIdentifier(s) == (match Scanner.Next(s)
                                                                case Success(s') => Ok((true, s.id), s')
                                                                case Failure(e) => Fail(e))
  {
  }

  /** `MatchToken` and `MatchIdentifier` fail on another token with "expect X, but found Y." at the current position. */
  lemma MatchTokenError(s: Cursor, t: Token)
    requires s.token != t
    ensures MatchToken(s, t) == Fail(SyntaxException(s.position, LineOf(s), 0, ExpectBut(t, FormatCurrentToken(s))))
    ensures s.token != Identifier ==>
              MatchIdentifier(s) == Fail(SyntaxException(s.position, LineOf(s), 0, ExpectBut(Identifier, FormatCurrentToken(s))))
  {
  }

  /** A statement starts exactly at `for` or an identifier; at any other token nothing is read. */
  lemma StatementStart(s: Cursor)
    ensures (ParseStatement(s).Ok? && ParseStatement(s).value.None?) <==> (s.token != For && s.token != Identifier)
    ensures s.token != For && s.token != Identifier ==> ParseStatement(s) == Ok(None, s)
  {
  }

  /** After an identifier, a token other than `(` and `is` is unexpected. */
  lemma AssignmentOrCallError(s: Cursor, s1: Cursor)
    requires s.token == Identifier && Scanner.Next(s) == Success(s1)
    requires s1.token != LeftBracket && s1.token != Is
    ensures ParseAssignmentOrCall(s) == UnexpectedError(s1)
  {
  }

  /** An identifier followed by `(` is a call; followed by `is`, an assignment; both numbered with the line after that token. */
  lemma AssignmentOrCallKinds(s: Cursor)
    requires ParseAssignmentOrCall(s).Ok?
    ensures s.token == Identifier
    ensures var s1 := Scanner.Next(s).value;
            var st := ParseAssignmentOrCall(s).value;
            && (s1.token == LeftBracket ==> st == NewCall(LineOf(Scanner.Next(s1).value), s.id, st.argList))
            && (s1.token != LeftBracket ==> s1.token == Is && st == NewAssignment(LineOf(Scanner.Next(s1).value), s.id, st.expression))
  {
  }

  /**
   * `ID ( args ) ;` is the call of ID with the argument list read after the
   * `(`, numbered with the line after the `(`; the statement ends after `;`.
   */
  lemma CallStatement(s1: Cursor, s2: Cursor, s3: Cursor, al: ArgList, s4: Cursor, s5: Cursor, s6: Cursor)
    requires s1.token == Identifier && Scanner.Next(s1) == Success(s2)
    requires s2.token == LeftBracket && Scanner.Next(s2) == Success(s3)
    requires ParseArgList(s3) == Ok(al, s4) && Scanner.Next(s4) == Success(s5)
    requires s5.token == Semico && Scanner.Next(s5) == Success(s6)
    ensures ParseAssignmentOrCall(s1) == Ok(NewCall(LineOf(s3), s1.id, al), s6)
    ensures ParseStatement(s1) == Ok(Some(NewCall(LineOf(s3), s1.id, al)), s6)
  {
    assert MatchIdentifier(s1) == Ok(s1.id, s2);
    assert TryMatchToken(s2, LeftBracket) == Ok(true, s3);
    CallTailEnds(s3, LineOf(s3), s1.id, al, s4, s5, s6);
  }

  /** The call tail after `(`: the parsed arguments, then `)` and `;`. */
  lemma CallTailEnds(s3: Cursor, line: int, id: Text, al: ArgList, s4: Cursor, s5: Cursor, s6: Cursor)
    requires ParseArgList(s3) == Ok(al, s4) && Scanner.Next(s4) == Success(s5)
    requires s5.token == Semico && Scanner.Next(s5) == Success(s6)
    ensures CallTail(s3, line, id) == Ok(NewCall(line, id, al), s6)
  {
    assert MatchToken(s4, RightBracket) == Ok((), s5);
    assert MatchToken(s5, Semico) == Ok((), s6);
  }

  /** A call statement must end with `;` after its `)`: any other token is "expect ;" there. */
  lemma CallNeedsSemicolon(s1: Cursor, s2: Cursor, s3: Cursor, al: ArgList, s4: Cursor, s5: Cursor)
    requires s1.token == Identifier && Scanner.Next(s1) == Success(s2)
    requires s2.token == LeftBracket && Scanner.Next(s2) == Success(s3)
    requires ParseArgList(s3) == Ok(al, s4) && Scanner.Next(s4) == Success(s5)
    requires s5.token != Semico
    ensures ParseAssignmentOrCall(s1) ==
            Fail(SyntaxException(s5.position, LineOf(s5), 0, ExpectBut(Semico, FormatCurrentToken(s5))))
  {
    assert MatchIdentifier(s1) == Ok(s1.id, s2);
    assert TryMatchToken(s2, LeftBracket) == Ok(true, s3);
    assert MatchToken(s4, RightBracket) == Ok((), s5);
  }

  /** An identifier atom that no `(` follows is a symbol, numbered with the line after the identifier. */
  lemma SymbolAtom(s: Cursor, s1: Cursor)
    requires s.token == Identifier && Scanner.Next(s) == Success(s1) && s1.token != LeftBracket
    ensures ParseAtom(s) == Ok(NewSymbolExpression(LineOf(s1), s.id), s1)
  {
    assert MatchIdentifier(s) == Ok(s.id, s1);
    assert TryMatchToken(s1, LeftBracket) == Ok(false, s1);
  }

  /**
   * An identifier atom before `(` is a call expression, tagged `Call`,
   * holding the argument list read after the `(` and numbered with the line
   * after the `)`.
   */
  lemma CallAtom(s: Cursor, s1: Cursor, s2: Cursor, al: ArgList, s3: Cursor, s4: Cursor)
    requires s.token == Identifier && Scanner.Next(s) == Success(s1)
    requires s1.token == LeftBracket && Scanner.Next(s1) == Success(s2)
    requires ParseArgList(s2) == Ok(al, s3) && Scanner.Next(s3) == Success(s4)
    ensures ParseAtom(s) == Ok(NewCallExpression(LineOf(s4), s.id, al), s4)
    ensures TypeOf(Expr(ParseAtom(s).value)) == ASTType.Call
  {
    assert MatchIdentifier(s) == Ok(s.id, s1);
    assert TryMatchToken(s1, LeftBracket) == Ok(true, s2);
    assert MatchToken(s3, RightBracket) == Ok((), s4);
  }

  /** A round of the argument loop that `,` follows appends its expression and goes on after the `,`. */
  lemma ArgStep(s: Cursor, acc: seq<Expression>, e: Expression, s1: Cursor, s2: Cursor)
    requires forall i | 0 <= i < |acc| :: WellFormed(acc[i])
    requires ParseExpression(s) == Ok(e, s1) && s1.token == Comma && Scanner.Next(s1) == Success(s2)
    ensures WellFormed(e) && ArgLoop(s, acc) == ArgLoop(s2, acc + [e])
  {
    assert TryMatchToken(s1, Comma) == Ok(true, s2);
  }

  /** The round that `)` follows appends its expression and ends the list, leaving the `)`. */
  lemma ArgEnd(s: Cursor, acc: seq<Expression>, e: Expression, s1: Cursor)
    requires forall i | 0 <= i < |acc| :: WellFormed(acc[i])
    requires ParseExpression(s) == Ok(e, s1) && s1.token == RightBracket
    ensures ArgLoop(s, acc) == Ok(ArgList.ArgList(acc + [e]), s1)
  {
    assert TryMatchToken(s1, Comma) == Ok(false, s1);
  }

  /** Any other token after an argument is unexpected there. */
  lemma ArgLoopError(s: Cursor, acc: seq<Expression>, e: Expression, s1: Cursor)
    requires forall i | 0 <= i < |acc| :: WellFormed(acc[i])
    requires ParseExpression(s) == Ok(e, s1) && s1.token != Comma && s1.token != RightBracket
    ensures ArgLoop(s, acc) == UnexpectedError(s1)
  {
    assert TryMatchToken(s1, Comma) == Ok(false, s1);
  }

  /**
   * `for ID from E to E [step E] block`: the statement holds the identifier
   * read after `for`, the expressions read after `from` and after `to`, the
   * optional step read after them and the block read last, and is numbered
   * with the line before `for` was read.
   */
  lemma ForStatementParts(s: Cursor, s1: Cursor, s2: Cursor, s3: Cursor, from: Expression, s4: Cursor,
                          s5: Cursor, to: Expression, s6: Cursor, step: Option<Expression>, s7: Cursor,
                          block: StatementList, s8: Cursor)
    requires s.token == For && Scanner.Next(s) == Success(s1)
    requires s1.token == Identifier && Scanner.Next(s1) == Success(s2)
    requires s2.token == From && Scanner.Next(s2) == Success(s3) && ParseExpression(s3) == Ok(from, s4)
    requires s4.token == To && Scanner.Next(s4) == Success(s5) && ParseExpression(s5) == Ok(to, s6)
    requires OptionalStep(s6) == Ok(step, s7) && ParseBlock(s7) == Ok(block, s8)
    ensures ParseForStatement(s) == Ok(NewForStatement(LineOf(s), s1.id, from, to, step, block), s8)
    ensures ParseStatement(s) == Ok(Some(NewForStatement(LineOf(s), s1.id, from, to, step, block)), s8)
  {
    assert MatchToken(s, For) == Ok((), s1);
    assert MatchIdentifier(s1) == Ok(s1.id, s2);
    assert MatchToken(s2, From) == Ok((), s3);
    assert MatchToken(s4, To) == Ok((), s5);
    assert ForTail(s6, LineOf(s), s1.id, from, to) == Ok(NewForStatement(LineOf(s), s1.id, from, to, step, block), s8);
    assert ForBounds(s3, LineOf(s), s1.id) == ForTail(s6, LineOf(s), s1.id, from, to);
  }

  /**
   * A block without `{` is exactly one statement; when no statement starts
   * there it is an "unexpected token" error.
   */
  lemma BracelessBlock(s: Cursor)
    requires s.token != LeftBrace
    ensures s.token != For && s.token != Identifier ==> ParseBlock(s) == UnexpectedError(s)
    ensures ParseBlock(s).Ok? ==> |ParseBlock(s).value.statements| == 1
    ensures ParseBlock(s).Ok? ==>
              ParseStatement(s) == Ok(Some(ParseBlock(s).value.statements[0]), ParseBlock(s).rest)
  {
  }

  /**
   * A block with `{` is the statement list read after the `{`, which must
   * be followed by `}`; the block ends after the `}`.
   */
  lemma BracedBlock(s: Cursor)
    requires s.token == LeftBrace
    ensures Scanner.Next(s).Failure? ==> ParseBlock(s) == Fail(Scanner.Next(s).error)
    ensures ParseBlock(s).Ok? ==>
              Scanner.Next(s).Success? &&
              var l := ParseStatementList(Scanner.Next(s).value);
              l.Ok? && l.value == ParseBlock(s).value && l.rest.token == RightBrace &&
              Scanner.Next(l.rest) == Success(ParseBlock(s).rest)
  {
  }

  /** The tokens that cannot start an expression: those other than `-`, a literal, an identifier and `(`. */
  predicate NotExpressionStart(t: Token) {
    t != Token.Minus && t != Token.DigitLiteral && t != Identifier && t != LeftBracket
  }

  /** An expression cannot start with any other token: the error is raised right there. */
  lemma {:induction false} NoExpressionAt(s: Cursor, priority: nat)
    requires NotExpressionStart(s.token)
    ensures ParseBinary(s, priority) == UnexpectedError(s)
    decreases priority
  {
    if priority == 0 {
      assert ParseUnary(s) == ParseAtom(s);
    } else {
      NoExpressionAt(s, priority - 1);
    }
  }

  lemma ExpressionStart(s: Cursor)
    requires NotExpressionStart(s.token)
    ensures ParseExpression(s) == UnexpectedError(s)
  {
    NoExpressionAt(s, |PriorityTable| - 1);
  }

  /** An argument list has no trailing comma: a `)` where the next argument should start is an error. */
  lemma NoTrailingComma(s: Cursor, acc: seq<Expression>)
    requires s.token == RightBracket && forall i | 0 <= i < |acc| :: WellFormed(acc[i])
    ensures ArgLoop(s, acc) == UnexpectedError(s)
  {
    ExpressionStart(s);
  }

  /** Nor has a tuple: `,` followed by `)` is an error at the `)`. */
  lemma NoTrailingTupleComma(s: Cursor, line: int, acc: seq<Expression>, s1: Cursor)
    requires |acc| >= 1 && forall i | 0 <= i < |acc| :: WellFormed(acc[i])
    requires s.token == Comma && Scanner.Next(s) == Success(s1) && s1.token == RightBracket
    ensures TupleLoop(s, line, acc) == UnexpectedError(s1)
  {
    ExpressionStart(s1);
  }

  /**
   * A bracket holding one expression gives that expression unchanged; with
   * more it gives a tuple of at least two, the first expression first.
   */
  lemma BracketIsGroupOrTuple(s: Cursor, e: Expression, rest: Cursor)
    requires ParseBracket(s) == Ok(e, rest)
    ensures ParseExpression(s).Ok?
    ensures ParseExpression(s).rest.token == RightBracket ==> e == ParseExpression(s).value && rest == ParseExpression(s).rest
    ensures ParseExpression(s).rest.token != RightBracket ==>
              e.TupleExpression? && |e.args| >= 2 && e.args[0] == ParseExpression(s).value
  {
    var first := ParseExpression(s);
    if first.rest.token != RightBracket {
      assert e.args[..1] == [first.value];
    }
  }

  /** A program parses only when the statement list runs to the end of input; otherwise the next token is unexpected. */
  lemma ProgramRunsToEnd(s: Cursor, s1: Cursor)
    requires Scanner.Next(s) == Success(s1) && ParseStatementList(s1).Ok?
    ensures ParseStatementList(s1).rest.token == EOF ==>
              Parse(s) == Ok(ParseStatementList(s1).value, ParseStatementList(s1).rest)
    ensures ParseStatementList(s1).rest.token != EOF ==> Parse(s) == UnexpectedError(ParseStatementList(s1).rest)
  {
  }
}
