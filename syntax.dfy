/**
 * The parser as the source has it: methods that advance one shared `Lexer`
 * with `Next`, build nodes, and append to node lists in loops. An exception
 * becomes a `Failure` that every caller passes on at once. Each method is
 * proved to compute the function of the same name in module Grammar: on
 * success it returns that function's node and leaves the lexer in the
 * state the function gives; on failure it returns the same exception.
 */
module Syntax {
  import opened Wrappers
  import opened Chars
  import opened Tokens
  import opened Ast
  import Scanner
  import Grammar
  import opened Lexing

  /** A method's result and the lexer state it leaves, as a Grammar outcome. */
  ghost function Outcome<T>(r: Result<T, ParseError>, lex: Lexer): Grammar.Parsed<T>
    reads lex
    requires lex.Valid()
  {
    match r
    case Success(v) => Grammar.Ok(v, lex.State())
    case Failure(e) => Grammar.Fail(e)
  }

  /** `new SyntaxException(Lex.Position, Lex.Line, Lex.Row, "unexpected token ...")`. */
  function Unexpected(lex: Lexer): ParseError
    reads lex
    requires lex.Valid()
  {
    SyntaxException(lex.position, lex.line, lex.row, UnexpectedToken(Scanner.FormatCurrentToken(lex.State())))
  }

  /** `Lex.Next()` inside the parser: a lexical exception stops the parse. */
  method Advance(lex: Lexer) returns (r: Result<(), ParseError>)
    requires lex.Valid()
    modifies lex
    ensures lex.Valid()
    ensures Grammar.Advance(old(lex.State())) == Outcome(r, lex)
  {
    var err := lex.Next();
    if err.Some? {
      return Failure(err.value);
    }
    return Success(());
  }

  /** `MatchToken`: the current token must be `tokenToMatch`; then read the next one. */
  method MatchToken(lex: Lexer, tokenToMatch: Token) returns (r: Result<(), ParseError>)
    requires lex.Valid()
    modifies lex
    ensures lex.Valid()
    ensures Grammar.MatchToken(old(lex.State()), tokenToMatch) == Outcome(r, lex)
  {
    if lex.curToken != tokenToMatch {
      return Failure(SyntaxException(lex.position, lex.line, lex.row,
        ExpectBut(tokenToMatch, Scanner.FormatCurrentToken(lex.State()))));
    }
    var err := lex.Next();
    if err.Some? {
      return Failure(err.value);
    }
    return Success(());
  }

  /** `MatchIdentifier`: the current token must be an identifier; return it as written. */
  method MatchIdentifier(lex: Lexer) returns (r: Result<Text, ParseError>)
    requires lex.Valid()
    modifies lex
    ensures lex.Valid()
    ensures Grammar.MatchIdentifier(old(lex.State())) == Outcome(r, lex)
  {
    if lex.curToken != Identifier {
      return Failure(SyntaxException(lex.position, lex.line, lex.row,
        ExpectBut(Identifier, Scanner.FormatCurrentToken(lex.State()))));
    }
    var tRet := lex.curId;
    var err := lex.Next();
    if err.Some? {
      return Failure(err.value);
    }
    return Success(tRet);
  }

  /** `TryMatchToken`: read past `tokenToMatch` when it is the current token. */
  method TryMatchToken(lex: Lexer, tokenToMatch: Token) returns (r: Result<bool, ParseError>)
    requires lex.Valid()
    modifies lex
    ensures lex.Valid()
    ensures Grammar.TryMatchToken(old(lex.State()), tokenToMatch) == Outcome(r, lex)
  {
    if lex.curToken != tokenToMatch {
      return Success(false);
    }
    var err := lex.Next();
    if err.Some? {
      return Failure(err.value);
    }
    return Success(true);
  }

  /** `TryMatchIdentifier`: read past an identifier when there is one; `Id` is empty otherwise. */
  method TryMatchIdentifier(lex: Lexer) returns (r: Result<(bool, Text), ParseError>)
    requires lex.Valid()
    modifies lex
    ensures lex.Valid()
    ensures Grammar.TryMatchIdentifier(old(lex.State())) == Outcome(r, lex)
  {
    var id: Text := [];
    if lex.curToken != Identifier {
      return Success((false, id));
    }
    id := lex.curId;
    var err := lex.Next();
    if err.Some? {
      return Failure(err.value);
    }
    return Success((true, id));
  }

  /** `Parse`: prime the lexer, read a statement list, and require `EOF` after it. */
  method Parse(lex: Lexer) returns (r: Result<StatementList, ParseError>)
    requires lex.Valid()
    modifies lex
    ensures lex.Valid()
    ensures Grammar.Parse(old(lex.State())) == Outcome(r, lex)
  {
    var err := lex.Next();
    if err.Some? {
      return Failure(err.value);
    }
    var tRet :- ParseStatementList(lex);
    if lex.curToken != EOF {
      return Failure(Unexpected(lex));
    }
    return Success(tRet);
  }

  /** A program text through a fresh lexer and `Parse`. */
  method ParseProgram(input: Text) returns (r: Result<StatementList, ParseError>)
    ensures r.Success? <==> Grammar.ParseText(input).Ok?
    ensures r.Success? ==> r.value == Grammar.ParseText(input).value
    ensures r.Failure? ==> r.error == Grammar.ParseText(input).error
    ensures r.Success? ==> WellFormedList(r.value)
  {
    var lex := new Lexer(input);
    r := Parse(lex);
  }

  /** `ParseStatement`: `None` when the current token starts no statement. */
  method ParseStatement(lex: Lexer) returns (r: Result<Option<Statement>, ParseError>)
    requires lex.Valid()
    modifies lex
    ensures lex.Valid()
    ensures Grammar.ParseStatement(old(lex.State())) == Outcome(r, lex)
    decreases Scanner.Measure(lex.State()), 1
  {
    if lex.curToken == For {
      var s :- ParseForStatement(lex);
      return Success(Some(s));
    } else if lex.curToken == Identifier {
      var s :- ParseAssignmentOrCall(lex);
      return Success(Some(s));
    }
    return Success(None);
  }

  /** `ParseStatementList`: add statements while one starts. */
  method ParseStatementList(lex: Lexer) returns (r: Result<StatementList, ParseError>)
    requires lex.Valid()
    modifies lex
    ensures lex.Valid()
    ensures Grammar.ParseStatementList(old(lex.State())) == Outcome(r, lex)
    decreases Scanner.Measure(lex.State()), 3
  {
    var statements: seq<Statement> := [];
    while true
      invariant lex.Valid() && Grammar.Within(old(lex.State()), lex.State())
      invariant forall i | 0 <= i < |statements| :: WellFormedStatement(statements[i])
      invariant Grammar.StatementLoop(lex.State(), statements) == Grammar.ParseStatementList(old(lex.State()))
      decreases Scanner.Measure(lex.State())
    {
      var tStatement :- ParseStatement(lex);
      if tStatement.None? {
        break;
      }
      statements := statements + [tStatement.value];
    }
    return Success(StatementList.StatementList(statements));
  }

  /** `ParseBlock`: `{` list `}`, or a single statement. */
  method ParseBlock(lex: Lexer) returns (r: Result<StatementList, ParseError>)
    requires lex.Valid()
    modifies lex
    ensures lex.Valid()
    ensures Grammar.ParseBlock(old(lex.State())) == Outcome(r, lex)
    decreases Scanner.Measure(lex.State()), 2
  {
    var braced :- TryMatchToken(lex, LeftBrace);
    if braced {
      var tRet :- ParseStatementList(lex);
      var u :- MatchToken(lex, RightBrace);
      return Success(tRet);
    }
    var tStatement :- ParseStatement(lex);
    if tStatement.Some? {
      return Success(StatementList.StatementList([tStatement.value]));
    }
    return Failure(Unexpected(lex));
  }

  /** `ParseForStatement`: `for ID from E to E [step E] block`. */
  method ParseForStatement(lex: Lexer) returns (r: Result<Statement, ParseError>)
    requires lex.Valid()
    modifies lex
    ensures lex.Valid()
    ensures Grammar.ParseForStatement(old(lex.State())) == Outcome(r, lex)
    decreases Scanner.Measure(lex.State()), 0
  {
    var line := lex.line;
    var u :- MatchToken(lex, For);
    var id :- MatchIdentifier(lex);
    u :- MatchToken(lex, From);
    r := ParseForBounds(lex, line, id);
  }

  /** `ParseForStatement` after `for ID from`: the two bounds, then the rest. */
  method ParseForBounds(lex: Lexer, line: int, id: Text) returns (r: Result<Statement, ParseError>)
    requires lex.Valid()
    modifies lex
    ensures lex.Valid()
    ensures Grammar.ForBounds(old(lex.State()), line, id) == Outcome(r, lex)
    decreases Scanner.Measure(lex.State()), 8
  {
    var fromExpression :- ParseExpression(lex);
    var u :- MatchToken(lex, To);
    var toExpression :- ParseExpression(lex);
    r := ParseForTail(lex, line, id, fromExpression, toExpression);
  }

  /** The rest of `ParseForStatement` after the bounds: the optional step, then the block. */
  method ParseForTail(lex: Lexer, line: int, id: Text, fromExpression: Expression, toExpression: Expression)
    returns (r: Result<Statement, ParseError>)
    requires lex.Valid()
    modifies lex
    ensures lex.Valid()
    ensures Grammar.ForTail(old(lex.State()), line, id, fromExpression, toExpression) == Outcome(r, lex)
    decreases Scanner.Measure(lex.State()), 9
  {
    var stepExpression :- ParseOptionalStep(lex);
    var execBlock :- ParseBlock(lex);
    return Success(NewForStatement(line, id, fromExpression, toExpression, stepExpression, execBlock));
  }

  /** `step E` when `step` is the current token, else no step (the field stays null). */
  method ParseOptionalStep(lex: Lexer) returns (r: Result<Option<Expression>, ParseError>)
    requires lex.Valid()
    modifies lex
    ensures lex.Valid()
    ensures Grammar.OptionalStep(old(lex.State())) == Outcome(r, lex)
    decreases Scanner.Measure(lex.State()), 8
  {
    var stepExpression: Option<Expression> := None;
    var hasStep :- TryMatchToken(lex, Step);
    if hasStep {
      var e :- ParseExpression(lex);
      stepExpression := Some(e);
    }
    return Success(stepExpression);
  }

  /** `ParseAssignmentOrCall`: `ID ( args ) ;` or `ID is E ;`. */
  method ParseAssignmentOrCall(lex: Lexer) returns (r: Result<Statement, ParseError>)
    requires lex.Valid()
    modifies lex
    ensures lex.Valid()
    ensures Grammar.ParseAssignmentOrCall(old(lex.State())) == Outcome(r, lex)
    decreases Scanner.Measure(lex.State()), 0
  {
    var tIdentifier :- MatchIdentifier(lex);
    var isCall :- TryMatchToken(lex, LeftBracket);
    if isCall {
      r := ParseCallTail(lex, lex.line, tIdentifier);
      return;
    }
    var isAssignment :- TryMatchToken(lex, Is);
    if isAssignment {
      r := ParseAssignmentTail(lex, lex.line, tIdentifier);
      return;
    }
    return Failure(Unexpected(lex));
  }

  /** The call branch of `ParseAssignmentOrCall`, from the token after `(`. */
  method ParseCallTail(lex: Lexer, line: int, id: Text) returns (r: Result<Statement, ParseError>)
    requires lex.Valid()
    modifies lex
    ensures lex.Valid()
    ensures Grammar.CallTail(old(lex.State()), line, id) == Outcome(r, lex)
    decreases Scanner.Measure(lex.State()), 10
  {
    var argList :- ParseArgList(lex);
    var u :- MatchToken(lex, RightBracket);
    u :- MatchToken(lex, Semico);
    return Success(NewCall(line, id, argList));
  }

  /** The assignment branch of `ParseAssignmentOrCall`, from the token after `is`. */
  method ParseAssignmentTail(lex: Lexer, line: int, id: Text) returns (r: Result<Statement, ParseError>)
    requires lex.Valid()
    modifies lex
    ensures lex.Valid()
    ensures Grammar.AssignmentTail(old(lex.State()), line, id) == Outcome(r, lex)
    decreases Scanner.Measure(lex.State()), 8
  {
    var expression :- ParseExpression(lex);
    var u :- MatchToken(lex, Semico);
    return Success(NewAssignment(line, id, expression));
  }


  /** `ParseArgList`: nothing when `)` is current; else expressions separated by `,`. */
  method ParseArgList(lex: Lexer) returns (r: Result<ArgList, ParseError>)
    requires lex.Valid()
    modifies lex
    ensures lex.Valid()
    ensures Grammar.ParseArgList(old(lex.State())) == Outcome(r, lex)
    decreases Scanner.Measure(lex.State()), 9
  {
    var args: seq<Expression> := [];
    if lex.curToken != RightBracket {
      while true
        invariant lex.Valid() && Grammar.Within(old(lex.State()), lex.State())
        invariant forall i | 0 <= i < |args| :: WellFormed(args[i])
        invariant Grammar.ArgLoop(lex.State(), args) == Grammar.ParseArgList(old(lex.State()))
        decreases Scanner.Measure(lex.State())
      {
        var e :- ParseExpression(lex);
        args := args + [e];
        var comma :- TryMatchToken(lex, Comma);
        if comma {
          continue;
        } else if lex.curToken == RightBracket {
          break;
        } else {
          return Failure(Unexpected(lex));
        }
      }
    }
    return Success(ArgList.ArgList(args));
  }

  /** `ParseExpression`: `ParseBinaryExpression` from priority `Length - 1`. */
  method ParseExpression(lex: Lexer) returns (r: Result<Expression, ParseError>)
    requires lex.Valid()
    modifies lex
    ensures lex.Valid()
    ensures Grammar.ParseExpression(old(lex.State())) == Outcome(r, lex)
    decreases Scanner.Measure(lex.State()), 7
  {
    r := ParseBinaryExpression(lex, |Grammar.PriorityTable| - 1);
  }

  /**
   * `ParseBinaryExpression`: the left operand one level down; then, when an
   * operator of priority at most `priority` follows, the loop at that
   * operator's priority.
   */
  method ParseBinaryExpression(lex: Lexer, priority: nat) returns (r: Result<Expression, ParseError>)
    requires lex.Valid()
    modifies lex
    ensures lex.Valid()
    ensures Grammar.ParseBinary(old(lex.State()), priority) == Outcome(r, lex)
    decreases Scanner.Measure(lex.State()), priority + 2
  {
    if priority == 0 {
      r := ParseUnaryExpression(lex);
      return;
    }
    var tRet :- ParseBinaryExpression(lex, priority - 1);
    var p := priority;
    if Grammar.IsBinaryOperator(lex.curToken) {
      var tPriority := Grammar.PriorityOf(lex.curToken);
      if tPriority > p {
        return Success(tRet);
      } else {
        p := tPriority;
      }
    } else {
      return Success(tRet);
    }
    r := ParseBinaryLoop(lex, tRet, p);
  }

  /**
   * The loop of `ParseBinaryExpression`: while the current operator has
   * priority `p`, read it and the right operand one level down, and make the
   * tree so far the left child of a new node.
   */
  method ParseBinaryLoop(lex: Lexer, left: Expression, p: nat) returns (r: Result<Expression, ParseError>)
    requires lex.Valid() && 1 <= p && WellFormed(left) && !Grammar.OperatorWithin(lex.curToken, p - 1)
    modifies lex
    ensures lex.Valid()
    ensures Grammar.BinaryLoop(old(lex.State()), left, p) == Outcome(r, lex)
    decreases Scanner.Measure(lex.State()), p + 1
  {
    var tRet := left;
    while true
      invariant lex.Valid() && Grammar.Within(old(lex.State()), lex.State())
      invariant WellFormed(tRet) && !Grammar.OperatorWithin(lex.curToken, p - 1)
      invariant Grammar.BinaryLoop(lex.State(), tRet, p) == Grammar.BinaryLoop(old(lex.State()), left, p)
      decreases Scanner.Measure(lex.State())
    {
      var tOpt := lex.curToken;
      if !(Grammar.IsBinaryOperator(tOpt) && Grammar.PriorityOf(tOpt) == p) {
        break;
      }
      ghost var sHead := lex.State();
      var u :- Advance(lex);
      ghost var sOp := lex.State();
      var tRight :- ParseBinaryExpression(lex, p - 1);
      Grammar.BinaryLoopStep(sHead, tRet, p, sOp, tRight, lex.State());
      tRet := Expression.BinaryExpression(lex.line, Grammar.NodeOperator(tOpt), tRet, tRight);
    }
    return Success(tRet);
  }

  /** `ParseUnaryExpression`: `-` and one atom, or an atom. */
  method ParseUnaryExpression(lex: Lexer) returns (r: Result<Expression, ParseError>)
    requires lex.Valid()
    modifies lex
    ensures lex.Valid()
    ensures Grammar.ParseUnary(old(lex.State())) == Outcome(r, lex)
    decreases Scanner.Measure(lex.State()), 1
  {
    var negative :- TryMatchToken(lex, Token.Minus);
    if negative {
      var line := lex.line;
      var operand :- ParseAtomExpression(lex);
      return Success(Expression.UnaryExpression(line, Negative, operand));
    }
    r := ParseAtomExpression(lex);
  }

  /** `ParseAtomExpression`: a literal, a symbol or call expression, or a bracket. */
  method ParseAtomExpression(lex: Lexer) returns (r: Result<Expression, ParseError>)
    requires lex.Valid()
    modifies lex
    ensures lex.Valid()
    ensures Grammar.ParseAtom(old(lex.State())) == Outcome(r, lex)
    decreases Scanner.Measure(lex.State()), 0
  {
    if lex.curToken == Token.DigitLiteral {
      var tRet := Expression.DigitLiteral(lex.line, lex.curDigit);
      var err := lex.Next();
      if err.Some? {
        return Failure(err.value);
      }
      return Success(tRet);
    } else if lex.curToken == Identifier {
      var tIdentifier :- MatchIdentifier(lex);
      var isCall :- TryMatchToken(lex, LeftBracket);
      if isCall {
        var tArgList :- ParseArgList(lex);
        var u :- MatchToken(lex, RightBracket);
        return Success(NewCallExpression(lex.line, tIdentifier, tArgList));
      }
      return Success(NewSymbolExpression(lex.line, tIdentifier));
    }
    var bracket :- TryMatchToken(lex, LeftBracket);
    if bracket {
      var tRet :- ParseBracketExpression(lex);
      var u :- MatchToken(lex, RightBracket);
      return Success(tRet);
    }
    return Failure(Unexpected(lex));
  }

  /** `ParseBracketExpression`: one expression, or a tuple of two or more. */
  method ParseBracketExpression(lex: Lexer) returns (r: Result<Expression, ParseError>)
    requires lex.Valid()
    modifies lex
    ensures lex.Valid()
    ensures Grammar.ParseBracket(old(lex.State())) == Outcome(r, lex)
    decreases Scanner.Measure(lex.State()), 9
  {
    var tFirstExpr :- ParseExpression(lex);
    if lex.curToken == RightBracket {
      return Success(tFirstExpr);
    }
    var tList := Expression.TupleExpression(lex.line, [tFirstExpr]);
    while true
      invariant lex.Valid() && Grammar.Beyond(old(lex.State()), lex.State())
      invariant tList.TupleExpression? && |tList.args| >= 1
      invariant forall i | 0 <= i < |tList.args| :: WellFormed(tList.args[i])
      invariant Grammar.TupleLoop(lex.State(), tList.lineNumber, tList.args) == Grammar.ParseBracket(old(lex.State()))
      decreases Scanner.Measure(lex.State())
    {
      var u :- MatchToken(lex, Comma);
      var e :- ParseExpression(lex);
      tList := tList.(args := tList.args + [e]);
      if lex.curToken == Comma {
        continue;
      }
      if lex.curToken == RightBracket {
        break;
      } else {
        return Failure(Unexpected(lex));
      }
    }
    return Success(tList);
  }
}
